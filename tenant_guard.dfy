/** The tenant guard: resolves the X-Tenant-Id header against the user's memberships. */
module TenantGuard {
  import opened Wrappers
  import opened Json
  import opened Records
  import Text
  import Http

  /** The trimmed header value, or `None` when absent or blank. */
  function TenantHeader(headers: map<string, Json>): (r: Option<Id>)
    ensures r.Some? <==> Http.HeaderValue(headers, "x-tenant-id").Some?
                          && Text.Trim(Http.HeaderValue(headers, "x-tenant-id").value) != ""
    ensures r.Some? ==> r.value == Text.Trim(Http.HeaderValue(headers, "x-tenant-id").value)
  {
    match Http.HeaderValue(headers, "x-tenant-id")
    case None => None
    case Some(v) => if Text.Trim(v) == "" then None else Some(Text.Trim(v))
  }

  /** The guard's decision for `user` (from the authentication guard) and `headers`. */
  function Resolve(user: Option<Id>, headers: map<string, Json>, memberships: map<(Id, Id), Role>): (r: Result<Http.TenantContext, Exception>)
    ensures (user.None? || user.value == "") ==> r == Err(Exception(Forbidden, "Missing authenticated user"))
    ensures (user.Some? && user.value != "" && TenantHeader(headers).None?)
              ==> r == Err(Exception(Forbidden, "Missing X-Tenant-Id header"))
    ensures (user.Some? && user.value != "" && TenantHeader(headers).Some?
             && (TenantHeader(headers).value, user.value) !in memberships)
              ==> r == Err(Exception(Forbidden, "Not a member of this tenant"))
    ensures r.Ok? <==> user.Some? && user.value != "" && TenantHeader(headers).Some?
                        && (TenantHeader(headers).value, user.value) in memberships
    ensures r.Ok? ==> r.value.tenantId == TenantHeader(headers).value
                      && r.value.role == memberships[(r.value.tenantId, user.value)]
  {
    if user.None? || user.value == "" then Err(Exception(Forbidden, "Missing authenticated user"))
    else match TenantHeader(headers)
      case None => Err(Exception(Forbidden, "Missing X-Tenant-Id header"))
      case Some(tenantId) =>
        if (tenantId, user.value) !in memberships then Err(Exception(Forbidden, "Not a member of this tenant"))
        else Ok(Http.TenantContext(tenantId, memberships[(tenantId, user.value)]))
  }

  /** `canActivate`: on success the request carries the tenant id and the member's role. */
  method CanActivate(req: Http.Request, db: Db) returns (r: Result<bool, Exception>)
    modifies req`tenant
    ensures var d := Resolve(req.user, req.headers, db.memberships);
            && (d.Ok? ==> r == Ok(true) && req.tenant == Some(d.value))
            && (d.Err? ==> r == Err(d.error) && req.tenant == old(req.tenant))
  {
    var d := Resolve(req.user, req.headers, db.memberships);
    if d.Err? {
      return Err(d.error);
    }
    req.tenant := Some(d.value);
    return Ok(true);
  }

  /** Surrounding white space in the header does not change which tenant is selected. */
  lemma HeaderIsTrimmed(headers: map<string, Json>)
    requires TenantHeader(headers).Some?
    ensures Text.IsTrimmed(TenantHeader(headers).value)
  {
  }
}
