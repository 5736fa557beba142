/** The request-body validators of the user routes. `fieldPresent` stands for
    the result of the helper `isValidBodyProperty`, which is not part of this
    model: when it is false that helper has dealt with the request and these
    validators do nothing further. (routerUtilities does not export that
    helper, so as written the call itself throws; see the README.) */
module UserMiddleware {
  import opened Js
  import opened RouterUtilities

  const ValidRoles: seq<Value> := [Str("user"), Str("admin")]

  /** validateRole: hands on exactly the roles "user" and "admin". */
  function ValidateRole(body: Object): (v: Verdict)
    ensures v.Next? <==> Get(body, "role") == Str("user") || Get(body, "role") == Str("admin")
    ensures !v.Next? ==> v == Answer(Reply(400, Message("Invalid role " + ToStr(Get(body, "role")))))
  {
    var role := Get(body, "role");
    if role in ValidRoles then Next
    else Answer(Reply(400, Message("Invalid role " + ToStr(role))))
  }

  /** validateUsername: the same rules validateBody applies to "username";
      `rule` picks the character rule (`AsWritten` is the program as it
      runs). */
  function ValidateUsername(body: Object, fieldPresent: bool, rule: UsernameRule): (v: Verdict)
    ensures !fieldPresent ==> v == NoAction
    ensures fieldPresent ==>
      v.Next? || v == TypeErrorThrown || v == Answer(UsernameTooShort) || v == Answer(UsernameCharacters)
    ensures v == TypeErrorThrown <==> fieldPresent && Nullish(Get(body, "username"))
    ensures fieldPresent && ShorterThan(Get(body, "username"), 4) ==> v == Answer(UsernameTooShort)
    ensures fieldPresent && !Nullish(Get(body, "username")) && !ShorterThan(Get(body, "username"), 4) && !v.Next? ==>
      v == Answer(UsernameCharacters)
    ensures fieldPresent && rule == AsWritten ==>
      (v.Next? <==> !Nullish(Get(body, "username")) && !ShorterThan(Get(body, "username"), 4)
                    && !HasLetterOrDigit(ToStr(Get(body, "username"))))
    ensures fieldPresent && rule == Corrected ==>
      (v.Next? <==> !Nullish(Get(body, "username")) && !ShorterThan(Get(body, "username"), 4)
                    && HasLetterOrDigit(ToStr(Get(body, "username"))))
  {
    if fieldPresent then UsernameCheck(rule, Get(body, "username")) else NoAction
  }

  /** As the program runs, the name "alice" is refused for lacking a letter or
      number; under the corrected rule it is handed on. */
  lemma ValidateUsernameRefusesAlice()
    ensures ValidateUsername(map["username" := Str("alice")], true, AsWritten) == Answer(UsernameCharacters)
    ensures ValidateUsername(map["username" := Str("alice")], true, Corrected) == Next
  {
    UsernameRuleInverted();
  }

  /** validatePassword: the same rules validateBody applies to "password". */
  function ValidatePassword(body: Object, fieldPresent: bool): (v: Verdict)
    ensures !fieldPresent ==> v == NoAction
    ensures fieldPresent ==>
      v.Next? || v == TypeErrorThrown || v == Answer(PasswordTooShort) || v == Answer(PasswordCharacters)
    ensures v == TypeErrorThrown <==> fieldPresent && Nullish(Get(body, "password"))
    ensures fieldPresent && ShorterThan(Get(body, "password"), 6) ==> v == Answer(PasswordTooShort)
    ensures fieldPresent && !Nullish(Get(body, "password")) && !ShorterThan(Get(body, "password"), 6) && !v.Next? ==>
      v == Answer(PasswordCharacters)
    ensures fieldPresent ==> (v.Next? <==>
      !Nullish(Get(body, "password")) && !ShorterThan(Get(body, "password"), 6)
      && HasSpecial(ToStr(Get(body, "password"))) && HasDigit(ToStr(Get(body, "password"))))
  {
    if fieldPresent then PasswordVerdict(Get(body, "password")) else NoAction
  }
}
