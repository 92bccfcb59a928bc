/** The role guard: a handler's required roles against the member's role. */
module RolesGuard {
  import opened Wrappers
  import opened Records
  import Http

  /** The guard's decision. `required` is `None` when the handler declares no roles. */
  function Decide(required: Option<seq<Role>>, tenant: Option<Http.TenantContext>): (r: Result<bool, Exception>)
    ensures (required.None? || required.value == []) ==> r == Ok(true)
    ensures (required.Some? && required.value != [] && tenant.None?)
              ==> r == Err(Exception(Forbidden, "Missing tenant context"))
    ensures (required.Some? && required.value != [] && tenant.Some? && tenant.value.role !in required.value)
              ==> r == Err(Exception(Forbidden, "Insufficient role"))
    ensures r.Ok? <==> required.None? || required.value == [] || (tenant.Some? && tenant.value.role in required.value)
    ensures r.Ok? ==> r.value
  {
    if required.None? || required.value == [] then Ok(true)
    else if tenant.None? then Err(Exception(Forbidden, "Missing tenant context"))
    else if tenant.value.role !in required.value then Err(Exception(Forbidden, "Insufficient role"))
    else Ok(true)
  }

  /** Adding roles to a handler's list never locks out a member who was let in. */
  lemma MoreRolesAdmitMore(required: seq<Role>, extra: seq<Role>, tenant: Option<Http.TenantContext>)
    requires required != []
    requires Decide(Some(required), tenant).Ok?
    ensures Decide(Some(required + extra), tenant).Ok?
  {
  }
}
