/** The shared router helpers: the mapping from a thrown service error to an
    HTTP reply, and the body-field validator every route uses, including its
    built-in username and password rules. */
module RouterUtilities {
  import opened Js

  /** A JSON response body: an object `{message}`, or a bare JSON string. */
  datatype Body = Message(text: string) | Bare(text: string)

  datatype Reply = Reply(status: int, body: Body)

  /** What a middleware does with a request: hands it on with `next()`,
      answers it, does neither, or throws a TypeError out of the handler
      (reading `.length` of a null or undefined field). */
  datatype Verdict = Next | Answer(reply: Reply) | NoAction | TypeErrorThrown

  /** handleServiceError: an error without a truthy status becomes 500;
      otherwise its status and message reach the client unchanged. */
  function HandleServiceError(error: Thrown): (r: Reply)
    ensures error.Fault? || error.status == 0 ==> r == Reply(500, Message("Internal Server error"))
    ensures error.Thrown? && error.status != 0 ==> r.status == error.status && r.body == Message(error.message)
  {
    if error.Fault? || !Truthy(Num(error.status)) then Reply(500, Message("Internal Server error"))
    else Reply(error.status, Message(error.message))
  }

  // -------------------------------------------------------------------
  // Character classes of the regular expressions used by the rules

  predicate IsAsciiLetterOrDigit(c: char)
  {
    'A' <= c <= 'Z' || 'a' <= c <= 'z' || IsDigit(c)
  }

  /** `/[A-Za-z0-9]/.test(s)` */
  predicate HasLetterOrDigit(s: string) { exists i :: 0 <= i < |s| && IsAsciiLetterOrDigit(s[i]) }

  /** `/[^A-Za-z0-9]/.test(s)` */
  predicate HasSpecial(s: string) { exists i :: 0 <= i < |s| && !IsAsciiLetterOrDigit(s[i]) }

  /** `/\d/.test(s)` */
  predicate HasDigit(s: string) { exists i :: 0 <= i < |s| && IsDigit(s[i]) }

  const UsernameTooShort := Reply(400, Message("Username must be at least 4 characters long"))
  const UsernameCharacters := Reply(400, Message("Username must contain a letter or number"))
  const PasswordTooShort := Reply(400, Message("Password must be at least 6 characters long"))
  const PasswordCharacters := Reply(400, Message("Password must contain a special character and a number"))

  /** The username rules as the code states them: a null or undefined name
      throws on `.length`, shorter than 4 fails, and so does containing any
      ASCII letter or digit (the regular expression is tested without
      negation). */
  function UsernameVerdict(username: Value): (v: Verdict)
    ensures v.Next? || v == TypeErrorThrown || v == Answer(UsernameTooShort) || v == Answer(UsernameCharacters)
    ensures v == TypeErrorThrown <==> Nullish(username)
    ensures v.Next? <==> !Nullish(username) && !ShorterThan(username, 4) && !HasLetterOrDigit(ToStr(username))
    ensures ShorterThan(username, 4) ==> v == Answer(UsernameTooShort)
    ensures !Nullish(username) && !ShorterThan(username, 4) && !v.Next? ==> v == Answer(UsernameCharacters)
  {
    if Nullish(username) then TypeErrorThrown
    else if ShorterThan(username, 4) then Answer(UsernameTooShort)
    else if HasLetterOrDigit(ToStr(username)) then Answer(UsernameCharacters)
    else Next
  }

  /** The username rule its message describes: at least 4 long, and at least
      one ASCII letter or digit. */
  function UsernameVerdictIntended(username: Value): (v: Verdict)
    ensures v.Next? || v == TypeErrorThrown || v == Answer(UsernameTooShort) || v == Answer(UsernameCharacters)
    ensures v == TypeErrorThrown <==> Nullish(username)
    ensures v.Next? <==> !Nullish(username) && !ShorterThan(username, 4) && HasLetterOrDigit(ToStr(username))
    ensures ShorterThan(username, 4) ==> v == Answer(UsernameTooShort)
    ensures !Nullish(username) && !ShorterThan(username, 4) && !v.Next? ==> v == Answer(UsernameCharacters)
  {
    if Nullish(username) then TypeErrorThrown
    else if ShorterThan(username, 4) then Answer(UsernameTooShort)
    else if !HasLetterOrDigit(ToStr(username)) then Answer(UsernameCharacters)
    else Next
  }

  /** As written, an ordinary name is refused and one made only of symbols is
      accepted; the intended rule does the opposite. */
  lemma UsernameRuleInverted()
    ensures UsernameVerdict(Str("alice")) == Answer(UsernameCharacters)
    ensures UsernameVerdict(Str("____")) == Next
    ensures UsernameVerdictIntended(Str("alice")) == Next
    ensures UsernameVerdictIntended(Str("____")) == Answer(UsernameCharacters)
  {
    assert IsAsciiLetterOrDigit("alice"[0]);
    assert !HasLetterOrDigit("____") by {
      forall i | 0 <= i < 4 ensures !IsAsciiLetterOrDigit("____"[i]) { }
    }
  }

  /** The password rules: a null or undefined password throws on `.length`;
      otherwise at least 6 long, with a character that is not an ASCII letter
      or digit and with a digit. */
  function PasswordVerdict(password: Value): (v: Verdict)
    ensures v.Next? || v == TypeErrorThrown || v == Answer(PasswordTooShort) || v == Answer(PasswordCharacters)
    ensures v == TypeErrorThrown <==> Nullish(password)
    ensures v.Next? <==>
      !Nullish(password) && !ShorterThan(password, 6) && HasSpecial(ToStr(password)) && HasDigit(ToStr(password))
    ensures ShorterThan(password, 6) ==> v == Answer(PasswordTooShort)
    ensures !Nullish(password) && !ShorterThan(password, 6) && !v.Next? ==> v == Answer(PasswordCharacters)
  {
    if Nullish(password) then TypeErrorThrown
    else if ShorterThan(password, 6) then Answer(PasswordTooShort)
    else if !HasSpecial(ToStr(password)) || !HasDigit(ToStr(password)) then Answer(PasswordCharacters)
    else Next
  }

  /** Which username character rule a validator applies: the one the code
      runs, or the one its message describes. */
  datatype UsernameRule = AsWritten | Corrected

  /** The username rules under the chosen character rule. */
  function UsernameCheck(rule: UsernameRule, username: Value): (v: Verdict)
    ensures v.Next? || v == TypeErrorThrown || v == Answer(UsernameTooShort) || v == Answer(UsernameCharacters)
    ensures v == TypeErrorThrown <==> Nullish(username)
    ensures ShorterThan(username, 4) ==> v == Answer(UsernameTooShort)
    ensures !Nullish(username) && !ShorterThan(username, 4) && !v.Next? ==> v == Answer(UsernameCharacters)
    ensures rule == AsWritten ==>
      (v.Next? <==> !Nullish(username) && !ShorterThan(username, 4) && !HasLetterOrDigit(ToStr(username)))
    ensures rule == Corrected ==>
      (v.Next? <==> !Nullish(username) && !ShorterThan(username, 4) && HasLetterOrDigit(ToStr(username)))
  {
    match rule
    case AsWritten => UsernameVerdict(username)
    case Corrected => UsernameVerdictIntended(username)
  }

  function MissingProperty(name: string): Reply
  {
    Reply(400, Message("Missing required property " + name))
  }

  function InvalidProperty(name: string): Reply
  {
    Reply(400, Message("Invalid property " + name))
  }

  /** validateBody(name, isValid, required) applied to a request body:
      a missing required field, then an invalid present field, then (for
      the fields named "username" and "password") their rules. `rule` picks
      the username character rule: `AsWritten` is the program as it runs. */
  function ValidateBody(name: string, isValid: Value -> bool, required: bool, body: Object, rule: UsernameRule)
    : (v: Verdict)
    ensures v.Next? || v == TypeErrorThrown || (v.Answer? && v.reply.status == 400)
    ensures v == TypeErrorThrown <==> name in body && isValid(body[name]) && name in {"username", "password"} && Nullish(body[name])
    ensures name !in body ==> v == (if required then Answer(MissingProperty(name)) else Next)
    ensures name in body && !isValid(body[name]) ==> v == Answer(InvalidProperty(name))
    ensures name in body && isValid(body[name]) ==>
      v == (if name == "username" then UsernameCheck(rule, body[name])
            else if name == "password" then PasswordVerdict(body[name])
            else Next)
  {
    var present := name in body;
    if !present && required then Answer(MissingProperty(name))
    else if present && !isValid(body[name]) then Answer(InvalidProperty(name))
    else if present && name == "username" && !UsernameCheck(rule, body[name]).Next? then UsernameCheck(rule, body[name])
    else if present && name == "password" && !PasswordVerdict(body[name]).Next? then PasswordVerdict(body[name])
    else Next
  }

  /** The composed validator, as it runs, refuses the ordinary name "alice"
      that passes every check before the character rule; with the corrected
      rule the same request is handed on. */
  lemma ValidateBodyRefusesAlice(isValid: Value -> bool, required: bool)
    requires isValid(Str("alice"))
    ensures ValidateBody("username", isValid, required, map["username" := Str("alice")], AsWritten)
         == Answer(UsernameCharacters)
    ensures ValidateBody("username", isValid, required, map["username" := Str("alice")], Corrected) == Next
  {
    UsernameRuleInverted();
  }

  /** validateBodyString: validateBody with the string check as callback. */
  function ValidateBodyString(name: string, required: bool, body: Object, isValidString: Value -> bool,
                              rule: UsernameRule): (v: Verdict)
    ensures v.Next? || v == TypeErrorThrown || (v.Answer? && v.reply.status == 400)
    ensures name !in body ==> v == (if required then Answer(MissingProperty(name)) else Next)
    ensures name in body && !isValidString(body[name]) ==> v == Answer(InvalidProperty(name))
    ensures name in body && name != "username" && name != "password" ==>
      v == (if isValidString(body[name]) then Next else Answer(InvalidProperty(name)))
    ensures name == "username" && name in body && isValidString(body[name]) ==> v == UsernameCheck(rule, body[name])
    ensures name == "password" && name in body && isValidString(body[name]) ==> v == PasswordVerdict(body[name])
  {
    ValidateBody(name, (p: Value) => isValidString(p), required, body, rule)
  }
}
