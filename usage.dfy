/** `UsageService`: the month a usage report covers, and the report itself: the
    tenant's limits, its counts, and the metered usage of the month per event type. */
module Usage {
  import opened Wrappers
  import opened Records
  import Text
  import Calendar
  import Entitlements

  // ---------------------------------------------------------------------------------
  // Month strings

  predicate AllDigits(s: string) {
    forall i :: 0 <= i < |s| ==> Text.IsDigit(s[i])
  }

  /** `isValidMonthYYYYMM`: four ASCII digits, '-', two ASCII digits, and a month
      number from 1 to 12. */
  predicate IsValidMonth(s: string) {
    && |s| == 7
    && AllDigits(s[..4]) && s[4] == '-' && AllDigits(s[5..])
    && 1 <= Text.DecimalValue(s[5..]) <= 12
  }

  /** `Number(s.slice(0, 4))` and `Number(s.slice(5, 7))` of a valid month. */
  function YearOf(s: string): nat
    requires IsValidMonth(s)
  {
    Text.DecimalValue(s[..4])
  }

  function MonthOf(s: string): (m: nat)
    requires IsValidMonth(s)
    ensures 1 <= m <= 12
  {
    Text.DecimalValue(s[5..])
  }

  /** `padStart(2, "0")` for a text of one or two characters. */
  function PadTwo(s: string): (r: string)
    ensures |s| >= 2 ==> r == s
    ensures |s| < 2 ==> r == "0" + s
  {
    if |s| >= 2 then s else "0" + s
  }

  /** `currentMonthYYYYMM`: the clock's year, '-', and its month number padded to two
      digits. */
  function CurrentMonth(now: Calendar.UtcNow): string {
    Text.IntToDecimal(now.year) + "-" + PadTwo(Text.NatToDecimal(now.monthIndex + 1))
  }

  lemma {:induction false} DecimalLength(n: nat)
    requires n < 10000
    ensures |Text.NatToDecimal(n)| == if n < 10 then 1 else if n < 100 then 2 else if n < 1000 then 3 else 4
  {
    if n >= 10 {
      DecimalLength(n / 10);
    }
  }

  lemma ZeroPaddedValue(s: string)
    requires |s| == 1 && AllDigits(s)
    ensures AllDigits("0" + s) && Text.DecimalValue("0" + s) == Text.DecimalValue(s)
  {
    assert ("0" + s)[..1] == "0";
    assert s[..0] == [];
  }

  /** The current month is a valid month string that reads back as the clock's year
      and month. */
  lemma CurrentMonthValid(now: Calendar.UtcNow)
    requires Calendar.FourDigitYear(now)
    ensures IsValidMonth(CurrentMonth(now))
    ensures YearOf(CurrentMonth(now)) == now.year && MonthOf(CurrentMonth(now)) == now.monthIndex + 1
  {
    var y := Text.IntToDecimal(now.year);
    var m := Text.NatToDecimal(now.monthIndex + 1);
    DecimalLength(now.year);
    DecimalLength(now.monthIndex + 1);
    Text.DecimalRoundTrip(now.year);
    Text.DecimalRoundTrip(now.monthIndex + 1);
    if |m| < 2 {
      ZeroPaddedValue(m);
    }
    var s := CurrentMonth(now);
    assert s[..4] == y && s[4] == '-' && s[5..] == PadTwo(m);
  }

  // ---------------------------------------------------------------------------------
  // Month bounds

  datatype MonthWindow = MonthWindow(month: string, start: int, end: int)

  function FullYear(y: int): int {
    if 0 <= y <= 99 then 1900 + y else y
  }

  /** The month `monthBoundsUTC` reports on: the one asked for when it is present,
      non-empty and valid, otherwise the current one. */
  function SafeMonth(month: Option<string>, now: Calendar.UtcNow): (r: string)
    requires Calendar.FourDigitYear(now)
    ensures IsValidMonth(r)
    ensures r == if month.Some? && month.value != "" && IsValidMonth(month.value) then month.value else CurrentMonth(now)
  {
    CurrentMonthValid(now);
    if month.Some? && month.value != "" && IsValidMonth(month.value) then month.value else CurrentMonth(now)
  }

  /** `monthBoundsUTC`: the window runs from the first instant of the month up to, but
      excluding, the first instant of the next, and is as long as the month. */
  function MonthBounds(month: Option<string>, now: Calendar.UtcNow): (r: MonthWindow)
    requires Calendar.FourDigitYear(now)
    ensures r.month == SafeMonth(month, now)
    ensures r.start == Calendar.DateUtc(YearOf(r.month), MonthOf(r.month) - 1, 1)
    ensures r.end == Calendar.DateUtc(YearOf(r.month), MonthOf(r.month), 1)
    ensures r.end - r.start == Calendar.MonthDays(FullYear(YearOf(r.month)), MonthOf(r.month) - 1) * Calendar.DayMs
  {
    var safe := SafeMonth(month, now);
    MonthSpan(YearOf(safe), MonthOf(safe));
    MonthWindow(safe, Calendar.DateUtc(YearOf(safe), MonthOf(safe) - 1, 1), Calendar.DateUtc(YearOf(safe), MonthOf(safe), 1))
  }

  lemma MonthSpan(y: int, m: int)
    requires 1 <= m <= 12
    ensures Calendar.DateUtc(y, m, 1) - Calendar.DateUtc(y, m - 1, 1) == Calendar.MonthDays(FullYear(y), m - 1) * Calendar.DayMs
  {
    Calendar.NextMonthStart(y, m - 1);
  }

  /** The report's window and the AI quota's window are the same month when no month is
      asked for. */
  lemma DefaultMonthIsQuotaMonth(now: Calendar.UtcNow)
    requires Calendar.FourDigitYear(now)
    ensures var r := MonthBounds(None, now);
      (r.start, r.end) == Entitlements.CurrentMonthWindow(now) && r.month == CurrentMonth(now)
  {
    var r := MonthBounds(None, now);
    CurrentMonthValid(now);
    assert r.month == CurrentMonth(now);
    assert YearOf(r.month) == now.year && MonthOf(r.month) - 1 == now.monthIndex;
  }

  /** Consecutive months tile the time line: a month ends where the next begins, and
      December ends where January of the next year begins. */
  lemma ConsecutiveMonths(s: string, t: string, now: Calendar.UtcNow)
    requires Calendar.FourDigitYear(now)
    requires IsValidMonth(s) && IsValidMonth(t) && YearOf(s) >= 100
    requires if MonthOf(s) < 12 then YearOf(t) == YearOf(s) && MonthOf(t) == MonthOf(s) + 1
             else YearOf(t) == YearOf(s) + 1 && MonthOf(t) == 1
    ensures MonthBounds(Some(s), now).end == MonthBounds(Some(t), now).start
  {
    var a, b := MonthBounds(Some(s), now), MonthBounds(Some(t), now);
    assert a.month == s && b.month == t;
    assert a.end == Calendar.DateUtc(YearOf(s), MonthOf(s), 1);
    assert b.start == Calendar.DateUtc(YearOf(t), MonthOf(t) - 1, 1);
    if MonthOf(s) == 12 {
      Calendar.DecemberCarry(YearOf(s));
    }
  }

  /** A year written 0000 to 0099 selects a month of 1900 to 1999, as `Date.UTC` reads
      two-digit years. */
  lemma TwoDigitYears(s: string, now: Calendar.UtcNow)
    requires Calendar.FourDigitYear(now)
    requires IsValidMonth(s) && YearOf(s) <= 99
    ensures MonthBounds(Some(s), now).start == Calendar.DateUtc(1900 + YearOf(s), MonthOf(s) - 1, 1)
  {
    var r := MonthBounds(Some(s), now);
    assert r.month == s;
    Calendar.TwoDigitYear(YearOf(s), MonthOf(s) - 1, 1);
  }

  // ---------------------------------------------------------------------------------
  // The report

  datatype UsageTotal = UsageTotal(amount: int, events: nat)

  datatype UsageSummary = UsageSummary(start: int, end: int, entitlement: Limits,
                                       kbSources: nat, members: nat, usage: map<UsageType, UsageTotal>)

  const AllUsageTypes: seq<UsageType> := [AiAssistCall, KbEmbedding]

  lemma AllUsageTypesListed(t: UsageType)
    ensures t in AllUsageTypes
  {
    assert t == AiAssistCall || t == KbEmbedding;
  }

  /** A tenant's total of one event type in `[start, end)`. */
  function Total(events: seq<UsageEvent>, tenantId: Id, t: UsageType, start: int, end: int): UsageTotal {
    UsageTotal(Entitlements.AmountInWindow(events, tenantId, t, start, end),
               Entitlements.CountInWindow(events, tenantId, t, start, end))
  }

  /** A type with no events in the window has no amount either. */
  lemma {:induction false} NoEventsNoAmount(events: seq<UsageEvent>, tenantId: Id, t: UsageType, start: int, end: int)
    requires Entitlements.CountInWindow(events, tenantId, t, start, end) == 0
    ensures Total(events, tenantId, t, start, end) == UsageTotal(0, 0)
  {
    if events != [] {
      NoEventsNoAmount(events[..|events| - 1], tenantId, t, start, end);
    }
  }

  /** The rows of the `groupBy`: one per event type that has events in the window. */
  function GroupRows(events: seq<UsageEvent>, tenantId: Id, start: int, end: int): (rows: seq<(UsageType, UsageTotal)>)
    ensures forall j :: 0 <= j < |rows| ==> rows[j].1 == Total(events, tenantId, rows[j].0, start, end)
    ensures forall t :: (exists j :: 0 <= j < |rows| && rows[j].0 == t)
                        <==> Entitlements.CountInWindow(events, tenantId, t, start, end) > 0
  {
    var ai := Total(events, tenantId, AiAssistCall, start, end);
    var kb := Total(events, tenantId, KbEmbedding, start, end);
    var rows := (if ai.events > 0 then [(AiAssistCall, ai)] else []) + (if kb.events > 0 then [(KbEmbedding, kb)] else []);
    assert forall t: UsageType :: (exists j :: 0 <= j < |rows| && rows[j].0 == t) <==> Total(events, tenantId, t, start, end).events > 0 by {
      forall t: UsageType ensures (exists j :: 0 <= j < |rows| && rows[j].0 == t) <==> Total(events, tenantId, t, start, end).events > 0 {
        AllUsageTypesListed(t);
        if rows != [] && rows[0].0 == t {
          assert exists j :: 0 <= j < |rows| && rows[j].0 == t;
        } else if |rows| > 1 && rows[1].0 == t {
          assert exists j :: 0 <= j < |rows| && rows[j].0 == t;
        }
      }
    }
    rows
  }

  predicate Grouped(rows: seq<(UsageType, UsageTotal)>, i: nat, t: UsageType)
    requires i <= |rows|
  {
    exists j :: 0 <= j < i && rows[j].0 == t
  }

  /** `getSummary`: the month's window, the tenant's limits (creating the row if
      missing), its source and member counts, and for every event type the month's
      summed amount and number of events, zero for types without events. */
  method GetSummary(db: Db, tenantId: Id, month: Option<string>, now: Calendar.UtcNow) returns (s: UsageSummary)
    requires Calendar.FourDigitYear(now)
    modifies db`entitlements
    ensures db.entitlements == Entitlements.Upserted(old(db.entitlements), tenantId, db.schemaLimits)
    ensures var w := MonthBounds(month, now);
      && s.start == w.start && s.end == w.end
      && s.entitlement == db.entitlements[tenantId]
      && s.kbSources == SourceCount(db.sources, tenantId)
      && s.members == MemberCount(db.memberships, tenantId)
      && forall t :: t in s.usage && s.usage[t] == Total(db.usage, tenantId, t, w.start, w.end)
  {
    var w := MonthBounds(month, now);
    var ent := Entitlements.GetOrCreateEntitlement(db, tenantId);
    var rows := GroupRows(db.usage, tenantId, w.start, w.end);
    var usage: map<UsageType, UsageTotal> := map[];
    var i := 0;
    while i < |AllUsageTypes|
      invariant 0 <= i <= |AllUsageTypes|
      invariant forall j :: 0 <= j < i ==> AllUsageTypes[j] in usage && usage[AllUsageTypes[j]] == UsageTotal(0, 0)
    {
      usage := usage[AllUsageTypes[i] := UsageTotal(0, 0)];
      i := i + 1;
    }
    forall t ensures t in usage && usage[t] == UsageTotal(0, 0) {
      AllUsageTypesListed(t);
    }
    i := 0;
    while i < |rows|
      invariant 0 <= i <= |rows|
      invariant forall t :: t in usage && usage[t] == if Grouped(rows, i, t) then Total(db.usage, tenantId, t, w.start, w.end) else UsageTotal(0, 0)
    {
      usage := usage[rows[i].0 := rows[i].1];
      i := i + 1;
    }
    forall t ensures usage[t] == Total(db.usage, tenantId, t, w.start, w.end) {
      if !Grouped(rows, i, t) {
        NoEventsNoAmount(db.usage, tenantId, t, w.start, w.end);
      }
    }
    s := UsageSummary(w.start, w.end, ent, SourceCount(db.sources, tenantId), MemberCount(db.memberships, tenantId), usage);
  }
}
