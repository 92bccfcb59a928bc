/** The web client's persisted session values: the access token, the current tenant id
    and the workspace name, kept under three keys of the browser's local storage. */
module WebStorage {
  import opened Wrappers

  const TokenKey := "token"
  const TenantKey := "tenantId"
  const WorkspaceKey := "wb_name"

  /** Values that a careless write may have stored and that mean "no value". */
  predicate IsSentinel(v: string) {
    v == "" || v == "undefined" || v == "null"
  }

  /** A read that maps absent values and sentinels to null. */
  function ReadNormalised(items: map<string, string>, key: string): (r: Option<string>)
    ensures r.Some? <==> key in items && !IsSentinel(items[key])
    ensures r.Some? ==> r.value == items[key]
  {
    if key in items && !IsSentinel(items[key]) then Some(items[key]) else None
  }

  function ReadRaw(items: map<string, string>, key: string): Option<string> {
    if key in items then Some(items[key]) else None
  }

  /** The storage object over the browser's local storage. `hasWindow` is false during
      server-side rendering, where every read yields null. */
  class SessionStore {
    var items: map<string, string>
    const hasWindow: bool

    constructor(hasWindow: bool, items: map<string, string>)
      ensures this.hasWindow == hasWindow && this.items == items
    {
      this.hasWindow := hasWindow;
      this.items := items;
    }

    function GetToken(): Option<string>
      reads this
    {
      if !hasWindow then None else ReadRaw(items, TokenKey)
    }

    function GetTenantId(): Option<string>
      reads this
    {
      if !hasWindow then None else ReadNormalised(items, TenantKey)
    }

    function GetWorkspaceName(): Option<string>
      reads this
    {
      if !hasWindow then None else ReadNormalised(items, WorkspaceKey)
    }

    method SetToken(token: string)
      requires hasWindow
      modifies this
      ensures items == old(items)[TokenKey := token]
      ensures GetToken() == Some(token)
    {
      items := items[TokenKey := token];
    }

    method ClearToken()
      requires hasWindow
      modifies this
      ensures items == old(items) - {TokenKey}
      ensures GetToken() == None
    {
      items := items - {TokenKey};
    }

    method SetTenantId(id: string)
      requires hasWindow
      modifies this
      ensures items == old(items)[TenantKey := id]
      ensures GetTenantId() == if IsSentinel(id) then None else Some(id)
    {
      items := items[TenantKey := id];
    }

    method ClearTenantId()
      requires hasWindow
      modifies this
      ensures items == old(items) - {TenantKey}
      ensures GetTenantId() == None
    {
      items := items - {TenantKey};
    }

    method SetWorkspaceName(name: string)
      requires hasWindow
      modifies this
      ensures items == old(items)[WorkspaceKey := name]
      ensures GetWorkspaceName() == if IsSentinel(name) then None else Some(name)
    {
      items := items[WorkspaceKey := name];
    }

    method ClearWorkspaceName()
      requires hasWindow
      modifies this
      ensures items == old(items) - {WorkspaceKey}
      ensures GetWorkspaceName() == None
    {
      items := items - {WorkspaceKey};
    }
  }

  /** Writing or removing one key leaves the reads of the other two keys unchanged. */
  lemma KeysIndependent(items: map<string, string>, key: string, v: string, other: string)
    requires key in {TokenKey, TenantKey, WorkspaceKey} && other in {TokenKey, TenantKey, WorkspaceKey}
    requires key != other
    ensures ReadRaw(items[key := v], other) == ReadRaw(items, other)
    ensures ReadRaw(items - {key}, other) == ReadRaw(items, other)
    ensures ReadNormalised(items[key := v], other) == ReadNormalised(items, other)
    ensures ReadNormalised(items - {key}, other) == ReadNormalised(items, other)
  {
  }
}
