/** The parts of an incoming HTTP request that the guards read and write. */
module Http {
  import opened Wrappers
  import opened Json
  import opened Records

  /** What the tenant guard attaches to a request. */
  datatype TenantContext = TenantContext(tenantId: Id, role: Role)

  class Request {
    /** Header values as the HTTP layer delivers them: a string, an array, or absent. */
    const headers: map<string, Json>
    /** `req.user`, set by the authentication guard. */
    var user: Option<Id>
    /** `req.tenant`, set by the tenant guard. */
    var tenant: Option<TenantContext>

    constructor(headers: map<string, Json>)
      ensures this.headers == headers && user == None && tenant == None
    {
      this.headers := headers;
      user := None;
      tenant := None;
    }
  }

  /** A header's value: the string itself, or the first element of an array when that is
      a string; anything else counts as absent. */
  function HeaderValue(headers: map<string, Json>, name: string): (r: Option<string>)
    ensures name in headers && headers[name].JStr? ==> r == Some(headers[name].s)
    ensures (name in headers && headers[name].JArr? && |headers[name].items| > 0
             && headers[name].items[0].JStr?) ==> r == Some(headers[name].items[0].s)
    ensures r.Some? ==> name in headers && (headers[name].JStr? || headers[name].JArr?)
  {
    if name !in headers then None
    else match headers[name]
      case JStr(s) => Some(s)
      case JArr(items) => if |items| > 0 && items[0].JStr? then Some(items[0].s) else None
      case _ => None
  }
}
