/** `EntitlementsService`: the per-tenant limits row, its manual override, and the
    three quota checks made before an AI call, a new knowledge source and a new
    member. */
module Entitlements {
  import opened Wrappers
  import opened Records
  import Json
  import Text
  import Calendar

  // ---------------------------------------------------------------------------------
  // The limits row

  /** The entitlement table after the upsert of `getOrCreateEntitlement`: an existing
      row is kept, a missing one is created with the schema's defaults. */
  function Upserted(ents: map<Id, Limits>, tenantId: Id, defaults: Limits): (r: map<Id, Limits>)
    ensures tenantId in r && r.Keys == ents.Keys + {tenantId}
    ensures tenantId in ents ==> r == ents
    ensures tenantId !in ents ==> r[tenantId] == defaults
    ensures forall t :: t in ents ==> r[t] == ents[t]
  {
    if tenantId in ents then ents else ents[tenantId := defaults]
  }

  method GetOrCreateEntitlement(db: Db, tenantId: Id) returns (limits: Limits)
    modifies db`entitlements
    ensures db.entitlements == Upserted(old(db.entitlements), tenantId, db.schemaLimits)
    ensures limits == db.entitlements[tenantId]
  {
    if tenantId !in db.entitlements {
      db.entitlements := db.entitlements[tenantId := db.schemaLimits];
    }
    limits := db.entitlements[tenantId];
  }

  // ---------------------------------------------------------------------------------
  // setLimits

  /** A supplied limit as the validator sees it: absent, `null`, a number, or a value of
      another type. */
  datatype LimitInput = Absent | NullValue | NumberValue(n: Json.JsNumber) | OtherValue

  datatype LimitsPatch = LimitsPatch(maxAgents: LimitInput, maxKbSources: LimitInput, maxAiMsgsPerMonth: LimitInput)

  predicate IsNonNegativeInteger(n: Json.JsNumber) {
    n.Finite? && n.floor >= 0 && n.exact
  }

  /** `check(v, name)`: absent and `null` pass, and so does a finite, non-negative
      whole number; anything else is refused. */
  function CheckLimit(v: LimitInput, name: string): (r: Option<Exception>)
    ensures r.None? <==> v.Absent? || v.NullValue? || (v.NumberValue? && IsNonNegativeInteger(v.n))
    ensures r.Some? ==> r.value == Exception(BadRequest, name + " must be a non-negative integer")
  {
    match v
    case Absent => None
    case NullValue => None
    case NumberValue(n) =>
      if IsNonNegativeInteger(n) then None else Some(Exception(BadRequest, name + " must be a non-negative integer"))
    case OtherValue => Some(Exception(BadRequest, name + " must be a non-negative integer"))
  }

  /** The three checks in their order; the first refusal wins. */
  function Validate(p: LimitsPatch): (r: Option<Exception>)
    ensures r.None? <==> CheckLimit(p.maxAgents, "maxAgents").None?
                         && CheckLimit(p.maxKbSources, "maxKbSources").None?
                         && CheckLimit(p.maxAiMsgsPerMonth, "maxAiMsgsPerMonth").None?
    ensures CheckLimit(p.maxAgents, "maxAgents").Some? ==> r == CheckLimit(p.maxAgents, "maxAgents")
  {
    if CheckLimit(p.maxAgents, "maxAgents").Some? then CheckLimit(p.maxAgents, "maxAgents")
    else if CheckLimit(p.maxKbSources, "maxKbSources").Some? then CheckLimit(p.maxKbSources, "maxKbSources")
    else CheckLimit(p.maxAiMsgsPerMonth, "maxAiMsgsPerMonth")
  }

  /** Some field is supplied as `null`: it passes the validator, but the update then
      writes `null` into a required column, which the store refuses. */
  predicate HasNull(p: LimitsPatch) {
    p.maxAgents.NullValue? || p.maxKbSources.NullValue? || p.maxAiMsgsPerMonth.NullValue?
  }

  function Field(v: LimitInput, current: int): int {
    if v.NumberValue? && v.n.Finite? then v.n.floor else current
  }

  /** The update's data: each supplied number replaces its field. */
  function Patched(l: Limits, p: LimitsPatch): Limits {
    Limits(Field(p.maxAgents, l.maxAgents), Field(p.maxKbSources, l.maxKbSources),
           Field(p.maxAiMsgsPerMonth, l.maxAiMsgsPerMonth))
  }

  /** A validated patch changes exactly the supplied fields, each to the supplied value. */
  lemma PatchedChangesOnlySupplied(l: Limits, p: LimitsPatch)
    requires Validate(p).None? && !HasNull(p)
    ensures var r := Patched(l, p);
      && (p.maxAgents.Absent? ==> r.maxAgents == l.maxAgents)
      && (p.maxKbSources.Absent? ==> r.maxKbSources == l.maxKbSources)
      && (p.maxAiMsgsPerMonth.Absent? ==> r.maxAiMsgsPerMonth == l.maxAiMsgsPerMonth)
      && (p.maxAgents.NumberValue? ==> r.maxAgents == p.maxAgents.n.floor && r.maxAgents >= 0)
      && (p.maxKbSources.NumberValue? ==> r.maxKbSources == p.maxKbSources.n.floor && r.maxKbSources >= 0)
      && (p.maxAiMsgsPerMonth.NumberValue? ==> r.maxAiMsgsPerMonth == p.maxAiMsgsPerMonth.n.floor && r.maxAiMsgsPerMonth >= 0)
  {
  }

  /** An empty patch leaves the row as it is. */
  lemma EmptyPatch(l: Limits)
    ensures Patched(l, LimitsPatch(Absent, Absent, Absent)) == l
  {
  }

  const NullLimitMessage := "Argument must not be null."

  /** `setLimits`: validation happens before any write; then the row is created if
      missing and the supplied fields are updated. */
  method SetLimits(db: Db, tenantId: Id, p: LimitsPatch) returns (r: Result<Limits, Exception>)
    modifies db`entitlements
    ensures Validate(p).Some? ==> r == Err(Validate(p).value) && db.entitlements == old(db.entitlements)
    ensures Validate(p).None? ==>
      var ents := Upserted(old(db.entitlements), tenantId, db.schemaLimits);
      if HasNull(p) then
        r == Err(Exception(Internal, NullLimitMessage)) && db.entitlements == ents
      else
        r == Ok(Patched(ents[tenantId], p)) && db.entitlements == ents[tenantId := Patched(ents[tenantId], p)]
  {
    var refused := Validate(p);
    if refused.Some? {
      return Err(refused.value);
    }
    var current := GetOrCreateEntitlement(db, tenantId);
    if HasNull(p) {
      return Err(Exception(Internal, NullLimitMessage));
    }
    var updated := Patched(current, p);
    db.entitlements := db.entitlements[tenantId := updated];
    r := Ok(updated);
  }

  // ---------------------------------------------------------------------------------
  // Quota checks

  /** The current UTC month, from its first instant up to, but excluding, the first
      instant of the next month. */
  function CurrentMonthWindow(now: Calendar.UtcNow): (w: (int, int))
    ensures w.0 == Calendar.DateUtc(now.year, now.monthIndex, 1)
    ensures w.1 == Calendar.DateUtc(now.year, now.monthIndex + 1, 1)
    ensures var fullYear := if 0 <= now.year <= 99 then 1900 + now.year else now.year;
      w.1 - w.0 == Calendar.MonthDays(fullYear, now.monthIndex) * Calendar.DayMs
  {
    Calendar.NextMonthStart(now.year, now.monthIndex);
    (Calendar.DateUtc(now.year, now.monthIndex, 1), Calendar.DateUtc(now.year, now.monthIndex + 1, 1))
  }

  predicate InWindow(e: UsageEvent, tenantId: Id, eventType: UsageType, start: int, end: int) {
    e.tenantId == tenantId && e.eventType == eventType && start <= e.createdAt < end
  }

  /** The summed amount of a tenant's events of one type in `[start, end)`. */
  function AmountInWindow(events: seq<UsageEvent>, tenantId: Id, eventType: UsageType, start: int, end: int): int {
    if events == [] then 0
    else
      var last := events[|events| - 1];
      AmountInWindow(events[..|events| - 1], tenantId, eventType, start, end)
      + (if InWindow(last, tenantId, eventType, start, end) then last.amount else 0)
  }

  /** The number of a tenant's events of one type in `[start, end)`. */
  function CountInWindow(events: seq<UsageEvent>, tenantId: Id, eventType: UsageType, start: int, end: int): (n: nat)
    ensures n <= |events|
  {
    if events == [] then 0
    else
      var last := events[|events| - 1];
      CountInWindow(events[..|events| - 1], tenantId, eventType, start, end)
      + (if InWindow(last, tenantId, eventType, start, end) then 1 else 0)
  }

  /** Only matching events move the totals: recording one adds its amount and one to
      the count, and any other event changes neither. */
  lemma RecordEvent(events: seq<UsageEvent>, e: UsageEvent, tenantId: Id, eventType: UsageType, start: int, end: int)
    ensures var m := InWindow(e, tenantId, eventType, start, end);
      && AmountInWindow(events + [e], tenantId, eventType, start, end)
         == AmountInWindow(events, tenantId, eventType, start, end) + (if m then e.amount else 0)
      && CountInWindow(events + [e], tenantId, eventType, start, end)
         == CountInWindow(events, tenantId, eventType, start, end) + (if m then 1 else 0)
  {
    assert (events + [e])[..|events|] == events;
  }

  /** No matching events, no usage. */
  lemma {:induction false} NoMatchingEvents(events: seq<UsageEvent>, tenantId: Id, eventType: UsageType, start: int, end: int)
    requires forall i :: 0 <= i < |events| ==> !InWindow(events[i], tenantId, eventType, start, end)
    ensures AmountInWindow(events, tenantId, eventType, start, end) == 0
    ensures CountInWindow(events, tenantId, eventType, start, end) == 0
  {
    if events != [] {
      NoMatchingEvents(events[..|events| - 1], tenantId, eventType, start, end);
    }
  }

  /** The refusal of a quota check: at or over the limit. */
  function OverLimit(count: int, max: int, message: string): (r: Option<Exception>)
    ensures r.Some? <==> count >= max
    ensures r.Some? ==> r.value == Exception(Forbidden, message)
  {
    if count >= max then Some(Exception(Forbidden, message)) else None
  }

  function Ratio(count: int, max: int): string {
    "(" + Text.IntToDecimal(count) + "/" + Text.IntToDecimal(max) + ")."
  }

  function AsResult(refusal: Option<Exception>): (r: Result<(), Exception>)
    ensures r.Err? <==> refusal.Some?
    ensures r.Err? ==> r.error == refusal.value
  {
    if refusal.Some? then Err(refusal.value) else Ok(())
  }

  /** `assertCanUseAiOrThrow`: refused when this month's AI calls already reach the
      tenant's monthly allowance. */
  method AssertCanUseAi(db: Db, tenantId: Id, now: Calendar.UtcNow) returns (r: Result<(), Exception>)
    modifies db`entitlements
    ensures db.entitlements == Upserted(old(db.entitlements), tenantId, db.schemaLimits)
    ensures var w := CurrentMonthWindow(now);
      var used := AmountInWindow(db.usage, tenantId, AiAssistCall, w.0, w.1);
      var max := db.entitlements[tenantId].maxAiMsgsPerMonth;
      && (r.Err? <==> used >= max)
      && (r.Err? ==> r.error == Exception(Forbidden, "AI monthly quota exceeded " + Ratio(used, max)))
  {
    var ent := GetOrCreateEntitlement(db, tenantId);
    var w := CurrentMonthWindow(now);
    var used := AmountInWindow(db.usage, tenantId, AiAssistCall, w.0, w.1);
    r := AsResult(OverLimit(used, ent.maxAiMsgsPerMonth, "AI monthly quota exceeded " + Ratio(used, ent.maxAiMsgsPerMonth)));
  }

  /** `assertCanAddKbSourceOrThrow`: refused when the tenant has as many sources as its
      limit allows. */
  method AssertCanAddKbSource(db: Db, tenantId: Id) returns (r: Result<(), Exception>)
    modifies db`entitlements
    ensures db.entitlements == Upserted(old(db.entitlements), tenantId, db.schemaLimits)
    ensures var count := SourceCount(db.sources, tenantId);
      var max := db.entitlements[tenantId].maxKbSources;
      && (r.Err? <==> count >= max)
      && (r.Err? ==> r.error == Exception(Forbidden, "KB source limit reached " + Ratio(count, max)))
  {
    var ent := GetOrCreateEntitlement(db, tenantId);
    var count := SourceCount(db.sources, tenantId);
    r := AsResult(OverLimit(count, ent.maxKbSources, "KB source limit reached " + Ratio(count, ent.maxKbSources)));
  }

  /** `assertCanAddMemberOrThrow`: refused when the tenant has as many members as its
      seat limit allows. */
  method AssertCanAddMember(db: Db, tenantId: Id) returns (r: Result<(), Exception>)
    modifies db`entitlements
    ensures db.entitlements == Upserted(old(db.entitlements), tenantId, db.schemaLimits)
    ensures var count := MemberCount(db.memberships, tenantId);
      var max := db.entitlements[tenantId].maxAgents;
      && (r.Err? <==> count >= max)
      && (r.Err? ==> r.error == Exception(Forbidden, "Member/seat limit reached " + Ratio(count, max)))
  {
    var ent := GetOrCreateEntitlement(db, tenantId);
    var count := MemberCount(db.memberships, tenantId);
    r := AsResult(OverLimit(count, ent.maxAgents, "Member/seat limit reached " + Ratio(count, ent.maxAgents)));
  }
}
