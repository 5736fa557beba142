/** The four authenticators of the routes. Token verification (jsonwebtoken)
    is the parameter `verify`: the decoded user for a token it accepts, None
    where it would throw. The post or reply an ownership check looks up is
    the parameter `found`: None where the lookup throws or yields nothing. */
module AuthMiddleware {
  import opened Js
  import opened RouterUtilities

  /** What an authenticator does: passes the request on with the decoded user
      stored as `res.locals.user` (and `next()` called once), or answers it. */
  datatype AuthVerdict = Authorized(user: Object) | Rejected(reply: Reply)

  const NoToken := Reply(401, Bare("Unauthorized Access"))
  const Relog := Reply(401, Bare("Unauthorized Access, try relogging"))
  const NotPostOwner := Reply(401, Bare("Unauthorized Access - Wrong User or Not Admin"))
  const NotReplyOwner := Reply(400, Message("Unauthorized access - wrong user or not admin"))
  const PrivilegeTooLow := Reply(401, Message("Privilege too low"))

  /** getToken: the Authorization header (None when absent) split at single
      spaces, field 1. An empty header is returned as it is. */
  function GetToken(authorization: Option<string>): (token: Value)
    ensures authorization.None? ==> token == Undefined
    ensures token.Undefined? || token.Str?
    ensures authorization == Some("") ==> token == Str("")
    ensures authorization.Some? && authorization.value != "" ==>
      token == (if |Split(authorization.value, ' ')| >= 2 then Str(Split(authorization.value, ' ')[1]) else Undefined)
  {
    match authorization
    case None => Undefined
    case Some(header) =>
      if header == "" then Str(header)
      else
        var fields := Split(header, ' ');
        if |fields| >= 2 then Str(fields[1]) else Undefined
  }

  /** A header "<scheme> <token>" yields the token. */
  lemma GetTokenOfBearer(scheme: string, token: string)
    requires ' ' !in scheme && ' ' !in token
    ensures GetToken(Some(scheme + " " + token)) == Str(token)
  {
    var header := scheme + " " + token;
    SplitJoin([scheme, token], ' ');
    assert Join([scheme, token], ' ') == header;
  }

  /** A header without a space carries no token. */
  lemma GetTokenWithoutSpace(header: string)
    requires ' ' !in header
    ensures !Truthy(GetToken(Some(header)))
  {
    SplitWithoutSep(header, ' ');
  }

  /** The owner-or-admin rule of the ownership checks. */
  predicate OwnerOrAdmin(record: Object, user: Object)
  {
    StrictEquals(Get(record, "postedBy"), Get(user, "itemID")) || StrictEquals(Get(user, "role"), Str("admin"))
  }

  predicate IsAdmin(user: Object)
  {
    StrictEquals(Get(user, "role"), Str("admin"))
  }

  /** authenticate */
  function Authenticate(authorization: Option<string>, verify: string -> Option<Object>): (v: AuthVerdict)
    ensures !Truthy(GetToken(authorization)) ==> v == Rejected(NoToken)
    ensures Truthy(GetToken(authorization)) && verify(GetToken(authorization).s).None? ==> v == Rejected(Relog)
    ensures v.Authorized? <==> Truthy(GetToken(authorization)) && verify(GetToken(authorization).s).Some?
    ensures v.Authorized? ==> v.user == verify(GetToken(authorization).s).value
  {
    var token := GetToken(authorization);
    if !Truthy(token) then Rejected(NoToken)
    else match verify(token.s)
      case None => Rejected(Relog)
      case Some(user) => Authorized(user)
  }

  /** postOwnerOrAdminAuthenticate: `found` is the post the route names. */
  function PostOwnerOrAdminAuthenticate(authorization: Option<string>, verify: string -> Option<Object>,
                                        found: Option<Object>): (v: AuthVerdict)
    ensures !Truthy(GetToken(authorization)) ==> v == Rejected(NoToken)
    ensures v.Authorized? <==>
      Truthy(GetToken(authorization)) && verify(GetToken(authorization).s).Some? && found.Some? &&
      OwnerOrAdmin(found.value, verify(GetToken(authorization).s).value)
    ensures v.Authorized? ==> v.user == verify(GetToken(authorization).s).value
    ensures Truthy(GetToken(authorization)) && verify(GetToken(authorization).s).None? ==> v == Rejected(Relog)
    ensures Truthy(GetToken(authorization)) && verify(GetToken(authorization).s).Some? && found.None? ==>
      v == Rejected(Relog)
    ensures (Truthy(GetToken(authorization)) && verify(GetToken(authorization).s).Some? && found.Some? &&
             !OwnerOrAdmin(found.value, verify(GetToken(authorization).s).value)) ==> v == Rejected(NotPostOwner)
  {
    var token := GetToken(authorization);
    if !Truthy(token) then Rejected(NoToken)
    else match verify(token.s)
      case None => Rejected(Relog)
      case Some(user) =>
        match found
        case None => Rejected(Relog)
        case Some(post) => if !OwnerOrAdmin(post, user) then Rejected(NotPostOwner) else Authorized(user)
  }

  /** replyOwnerOrAdminAuthenticate: the same rule on the reply the route
      names, answered with status 400 when it fails. */
  function ReplyOwnerOrAdminAuthenticate(authorization: Option<string>, verify: string -> Option<Object>,
                                         found: Option<Object>): (v: AuthVerdict)
    ensures !Truthy(GetToken(authorization)) ==> v == Rejected(NoToken)
    ensures v.Authorized? <==>
      Truthy(GetToken(authorization)) && verify(GetToken(authorization).s).Some? && found.Some? &&
      OwnerOrAdmin(found.value, verify(GetToken(authorization).s).value)
    ensures v.Authorized? ==> v.user == verify(GetToken(authorization).s).value
    ensures Truthy(GetToken(authorization)) && verify(GetToken(authorization).s).None? ==> v == Rejected(Relog)
    ensures Truthy(GetToken(authorization)) && verify(GetToken(authorization).s).Some? && found.None? ==>
      v == Rejected(Relog)
    ensures (Truthy(GetToken(authorization)) && verify(GetToken(authorization).s).Some? && found.Some? &&
             !OwnerOrAdmin(found.value, verify(GetToken(authorization).s).value)) ==> v == Rejected(NotReplyOwner)
  {
    var token := GetToken(authorization);
    if !Truthy(token) then Rejected(NoToken)
    else match verify(token.s)
      case None => Rejected(Relog)
      case Some(user) =>
        match found
        case None => Rejected(Relog)
        case Some(reply) => if !OwnerOrAdmin(reply, user) then Rejected(NotReplyOwner) else Authorized(user)
  }

  /** adminAuthenticate */
  function AdminAuthenticate(authorization: Option<string>, verify: string -> Option<Object>): (v: AuthVerdict)
    ensures !Truthy(GetToken(authorization)) ==> v == Rejected(NoToken)
    ensures v.Authorized? <==>
      Truthy(GetToken(authorization)) && verify(GetToken(authorization).s).Some? &&
      IsAdmin(verify(GetToken(authorization).s).value)
    ensures v.Authorized? ==> v.user == verify(GetToken(authorization).s).value
    ensures Truthy(GetToken(authorization)) && verify(GetToken(authorization).s).None? ==> v == Rejected(Relog)
    ensures (Truthy(GetToken(authorization)) && verify(GetToken(authorization).s).Some? &&
             !IsAdmin(verify(GetToken(authorization).s).value)) ==> v == Rejected(PrivilegeTooLow)
  {
    var token := GetToken(authorization);
    if !Truthy(token) then Rejected(NoToken)
    else match verify(token.s)
      case None => Rejected(Relog)
      case Some(user) => if !IsAdmin(user) then Rejected(PrivilegeTooLow) else Authorized(user)
  }

  /** The authenticators are ordered by privilege: a request adminAuthenticate
      lets through passes authenticate and, once the post or reply is found,
      both ownership checks, with the same user. */
  lemma AdminPassesEveryCheck(authorization: Option<string>, verify: string -> Option<Object>, found: Object)
    requires AdminAuthenticate(authorization, verify).Authorized?
    ensures Authenticate(authorization, verify) == AdminAuthenticate(authorization, verify)
    ensures PostOwnerOrAdminAuthenticate(authorization, verify, Some(found)) == AdminAuthenticate(authorization, verify)
    ensures ReplyOwnerOrAdminAuthenticate(authorization, verify, Some(found)) == AdminAuthenticate(authorization, verify)
  {
  }

  /** Every check lets the owner of the post through, admin or not. */
  lemma OwnerPassesPostCheck(authorization: Option<string>, verify: string -> Option<Object>, post: Object)
    requires Authenticate(authorization, verify).Authorized?
    requires StrictEquals(Get(post, "postedBy"), Get(Authenticate(authorization, verify).user, "itemID"))
    ensures PostOwnerOrAdminAuthenticate(authorization, verify, Some(post)) == Authenticate(authorization, verify)
  {
  }
}
