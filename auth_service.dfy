/** Sign-up, log-in and access-token issue. Password hashing and token signing are
    parameters: `hash` stands for bcrypt, `sign` for the JWT signer. */
module AuthService {
  import opened Wrappers
  import opened Json
  import opened Records
  import Text
  import AuthGuard

  /** `email.toLowerCase().trim()`. */
  function NormalizeEmail(email: string): string {
    Text.Trim(Text.ToLower(email))
  }

  lemma ToLowerOfLower(s: string)
    requires forall i :: 0 <= i < |s| ==> !('A' <= s[i] <= 'Z')
    ensures Text.ToLower(s) == s
  {
  }

  lemma TrimPreservesLower(s: string)
    requires forall i :: 0 <= i < |s| ==> !('A' <= s[i] <= 'Z')
    ensures forall i :: 0 <= i < |Text.Trim(s)| ==> !('A' <= Text.Trim(s)[i] <= 'Z')
  {
    var t := Text.TrimStart(s);
    var r := Text.TrimEnd(t);
    assert Text.Trim(s) == r;
    forall i | 0 <= i < |r| ensures !('A' <= r[i] <= 'Z') {
      assert r[i] == t[..|r|][i] == t[i];
      assert t[i] == s[|s| - |t|..][i] == s[|s| - |t| + i];
    }
  }

  /** Normalising twice is normalising once, so a stored address finds itself. */
  lemma NormalizeEmailIdempotent(email: string)
    ensures NormalizeEmail(NormalizeEmail(email)) == NormalizeEmail(email)
  {
    var n := NormalizeEmail(email);
    TrimPreservesLower(Text.ToLower(email));
    ToLowerOfLower(n);
    Text.TrimIdempotent(Text.ToLower(email));
  }

  /** `issueToken`: a token whose payload is exactly `{ sub: userId }`. */
  function IssueToken(userId: Id, sign: Json -> string): string {
    sign(JObj(map["sub" := JStr(userId)]))
  }

  method Signup(db: Db, email: string, password: string, newUserId: Id,
                hash: string -> string, sign: Json -> string)
    returns (r: Result<string, Exception>)
    requires forall e :: e in db.users ==> db.users[e].id != newUserId
    modifies db`users
    ensures var n := NormalizeEmail(email);
            && (n in old(db.users) ==>
                  r == Err(Exception(Conflict, "Email already in use")) && db.users == old(db.users))
            && (n !in old(db.users) ==>
                  r == Ok(IssueToken(newUserId, sign))
                  && db.users == old(db.users)[n := User(newUserId, hash(password))])
  {
    var n := NormalizeEmail(email);
    if n in db.users {
      return Err(Exception(Conflict, "Email already in use"));
    }
    db.users := db.users[n := User(newUserId, hash(password))];
    return Ok(IssueToken(newUserId, sign));
  }

  /** `compare` stands for bcrypt's password check. An unknown address and a wrong
      password give the same error. */
  method Login(db: Db, email: string, password: string,
               compare: (string, string) -> bool, sign: Json -> string)
    returns (r: Result<string, Exception>)
    ensures var n := NormalizeEmail(email);
            && (r.Ok? <==> n in db.users && compare(password, db.users[n].passwordHash))
            && (r.Ok? ==> r.value == IssueToken(db.users[n].id, sign))
            && (r.Err? ==> r.error == Exception(Unauthorized, "Invalid credentials"))
  {
    var n := NormalizeEmail(email);
    if n !in db.users {
      return Err(Exception(Unauthorized, "Invalid credentials"));
    }
    var user := db.users[n];
    if !compare(password, user.passwordHash) {
      return Err(Exception(Unauthorized, "Invalid credentials"));
    }
    return Ok(IssueToken(user.id, sign));
  }

  /** A token issued for a user authenticates the bearer as that user, given a
      verifier that gives back the payload the signer signed and a signer whose token
      carries no surrounding white space. */
  lemma IssuedTokenAuthenticates(userId: Id, sign: Json -> string, verify: string -> Result<Json, string>)
    requires Text.Trim(userId) != ""
    requires var p := JObj(map["sub" := JStr(userId)]);
             verify(sign(p)) == Ok(p) && sign(p) != "" && Text.IsTrimmed(sign(p))
    ensures AuthGuard.Authenticate(map["authorization" := JStr(AuthGuard.BearerPrefix + IssueToken(userId, sign))], verify)
            == Ok(userId)
  {
    var p := JObj(map["sub" := JStr(userId)]);
    var token := IssueToken(userId, sign);
    assert token == sign(p);
    assert verify(token) == Ok(p);
    assert token != "" && Text.IsTrimmed(token);
    AuthGuard.BearerHeaderAuthenticates(token, verify, userId);
    assert AuthGuard.Authenticate(map["authorization" := JStr(AuthGuard.BearerPrefix + token)], verify) == Ok(userId);
  }
}
