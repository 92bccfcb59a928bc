/** The bearer-token authentication guard. */
module AuthGuard {
  import opened Wrappers
  import opened Json
  import opened Records
  import Text
  import Http

  const BearerPrefix := "Bearer "

  function MissingToken(): Exception { Exception(Unauthorized, "Missing token") }
  function InvalidToken(): Exception { Exception(Unauthorized, "Invalid token") }

  /** The token after the "Bearer " prefix, trimmed; `None` when there is no usable one. */
  function BearerToken(header: Option<string>): (r: Option<string>)
    ensures r.Some? <==> header.Some? && Text.StartsWith(header.value, BearerPrefix)
                          && Text.Trim(header.value[|BearerPrefix|..]) != ""
    ensures r.Some? ==> r.value == Text.Trim(header.value[|BearerPrefix|..]) && r.value != ""
  {
    if header.None? || !Text.StartsWith(header.value, BearerPrefix) then None
    else
      var token := Text.Trim(header.value[|BearerPrefix|..]);
      if token == "" then None else Some(token)
  }

  /** The subject of a verified payload when it is a non-blank string. */
  function Subject(payload: Json): (r: Option<Id>)
    ensures r.Some? <==> Get(payload, "sub").Some? && Get(payload, "sub").value.JStr?
                          && Text.Trim(Get(payload, "sub").value.s) != ""
    ensures r.Some? ==> Get(payload, "sub") == Some(JStr(r.value))
  {
    match Get(payload, "sub")
    case Some(JStr(s)) => if Text.Trim(s) == "" then None else Some(s)
    case _ => None
  }

  /** The guard's decision: the authenticated user id or the exception it throws.
      `verify` is the JWT verifier, failing for a bad signature or an expired token. */
  function Authenticate(headers: map<string, Json>, verify: string -> Result<Json, string>): (r: Result<Id, Exception>)
    ensures BearerToken(Http.HeaderValue(headers, "authorization")).None? <==> r == Err(MissingToken())
    ensures r.Ok? <==> (var t := BearerToken(Http.HeaderValue(headers, "authorization"));
                        t.Some? && verify(t.value).Ok? && Subject(verify(t.value).value).Some?)
    ensures r.Ok? ==> Get(verify(BearerToken(Http.HeaderValue(headers, "authorization")).value).value, "sub")
                        == Some(JStr(r.value))
    ensures r.Err? ==> r.error == MissingToken() || r.error == InvalidToken()
  {
    match BearerToken(Http.HeaderValue(headers, "authorization"))
    case None => Err(MissingToken())
    case Some(token) =>
      match verify(token)
      case Err(_) => Err(InvalidToken())
      case Ok(payload) =>
        match Subject(payload)
        case None => Err(InvalidToken())
        case Some(sub) => Ok(sub)
  }

  /** `canActivate`: on success the request carries the user id. */
  method CanActivate(req: Http.Request, verify: string -> Result<Json, string>) returns (r: Result<bool, Exception>)
    modifies req`user
    ensures var a := Authenticate(req.headers, verify);
            && (a.Ok? ==> r == Ok(true) && req.user == Some(a.value))
            && (a.Err? ==> r == Err(a.error) && req.user == old(req.user))
  {
    var a := Authenticate(req.headers, verify);
    if a.Err? {
      return Err(a.error);
    }
    req.user := Some(a.value);
    return Ok(true);
  }

  /** A header "Bearer <token>" whose token verifies to a payload with a non-blank string
      subject authenticates as that subject. */
  lemma BearerHeaderAuthenticates(token: string, verify: string -> Result<Json, string>, sub: Id)
    requires token != "" && Text.IsTrimmed(token)
    requires verify(token) == Ok(JObj(map["sub" := JStr(sub)])) && Text.Trim(sub) != ""
    ensures Authenticate(map["authorization" := JStr(BearerPrefix + token)], verify) == Ok(sub)
  {
    var h := BearerPrefix + token;
    var headers := map["authorization" := JStr(h)];
    assert Http.HeaderValue(headers, "authorization") == Some(h);
    BearerTokenOf(token);
    SubjectOf(sub);
    AuthenticateOk(headers, verify, token, sub);
  }

  lemma AuthenticateOk(headers: map<string, Json>, verify: string -> Result<Json, string>, token: string, sub: Id)
    requires BearerToken(Http.HeaderValue(headers, "authorization")) == Some(token)
    requires verify(token).Ok? && Subject(verify(token).value) == Some(sub)
    ensures Authenticate(headers, verify) == Ok(sub)
  {
  }

  lemma BearerTokenOf(token: string)
    requires token != "" && Text.IsTrimmed(token)
    ensures BearerToken(Some(BearerPrefix + token)) == Some(token)
  {
    var h := BearerPrefix + token;
    assert h[..|BearerPrefix|] == BearerPrefix;
    assert h[|BearerPrefix|..] == token;
    Text.TrimOfTrimmed(token);
  }

  lemma SubjectOf(sub: Id)
    requires Text.Trim(sub) != ""
    ensures Subject(JObj(map["sub" := JStr(sub)])) == Some(sub)
  {
    assert Get(JObj(map["sub" := JStr(sub)]), "sub") == Some(JStr(sub));
  }
}
