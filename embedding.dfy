/** `EmbeddingService`: turning a text into an embedding vector by calling an Ollama
    server, trying each candidate host several times. Each HTTP call is an oracle
    `outcome((host, attempt))` that says how the call ended; the timeout timer and the
    network are outside the model. Configuration values are the raw strings of the
    environment, and `toNumber` is JavaScript's `Number` on them. */
module Embedding {
  import opened Wrappers
  import opened Records
  import Json
  import Text
  import Seqs

  // ---------------------------------------------------------------------------------
  // Configuration

  const DefaultTimeoutMs := 60000
  const DefaultRetries := 3
  const DefaultModel := "nomic-embed-text:latest"
  const DefaultHost := "http://127.0.0.1:11434"
  const LocalhostHost := "http://localhost:11434"
  const LoopbackHost := "http://127.0.0.1:11434"

  /** The environment values the service reads; `None` is an unset variable. */
  datatype EmbedConfig = EmbedConfig(model: Option<string>, host: Option<string>,
                                     retries: Option<string>, timeoutMs: Option<string>)

  /** `raw ? Number(raw) : fallback`: an unset or empty value takes the fallback. */
  function ConfiguredNumber(raw: Option<string>, toNumber: string -> Json.JsNumber, fallback: int): Json.JsNumber {
    if raw.None? || raw.value == "" then Json.Finite(fallback, true) else toNumber(raw.value)
  }

  /** `getTimeoutMs`: the configured value when it is a finite number above zero, else
      60 000. */
  function TimeoutMs(config: EmbedConfig, toNumber: string -> Json.JsNumber): (r: Json.JsNumber)
    ensures r.Finite? && (r.floor >= 1 || (r.floor == 0 && !r.exact))
    ensures var n := ConfiguredNumber(config.timeoutMs, toNumber, DefaultTimeoutMs);
      r == if n.Finite? && (n.floor >= 1 || (n.floor == 0 && !n.exact)) then n else Json.Finite(DefaultTimeoutMs, true)
  {
    var n := ConfiguredNumber(config.timeoutMs, toNumber, DefaultTimeoutMs);
    if n.Finite? && (n.floor >= 1 || (n.floor == 0 && !n.exact)) then n else Json.Finite(DefaultTimeoutMs, true)
  }

  /** `getRetries`: the configured value rounded down when it is finite and at least 1,
      else 3. */
  function Retries(config: EmbedConfig, toNumber: string -> Json.JsNumber): (r: nat)
    ensures r >= 1
    ensures var n := ConfiguredNumber(config.retries, toNumber, DefaultRetries);
      r == if n.Finite? && n.floor >= 1 then n.floor else DefaultRetries
  {
    var n := ConfiguredNumber(config.retries, toNumber, DefaultRetries);
    if n.Finite? && n.floor >= 1 then n.floor else DefaultRetries
  }

  /** The candidate hosts: the configured one, then localhost and 127.0.0.1, each once
      and in that order. The chat client uses the same list. */
  function CandidateHosts(primary: string): (r: seq<string>)
    ensures r != [] && r[0] == primary
    ensures forall h :: h in r <==> h == primary || h == LocalhostHost || h == LoopbackHost
    ensures forall i, j :: 0 <= i < j < |r| ==> r[i] != r[j]
  {
    Seqs.Dedupe([primary, LocalhostHost, LoopbackHost])
  }

  function Hosts(config: EmbedConfig): seq<string> {
    CandidateHosts(config.host.GetOr(DefaultHost))
  }

  lemma HostsDiffer()
    ensures LocalhostHost != LoopbackHost
  {
    assert LocalhostHost[7] == 'l' && LoopbackHost[7] == '1';
  }

  /** Deduplicating three hosts of which the last two differ. */
  lemma DedupeThree(a: string, b: string, c: string)
    requires b != c
    ensures a == b ==> Seqs.Dedupe([a, b, c]) == [a, c]
    ensures a == c ==> Seqs.Dedupe([a, b, c]) == [a, b]
    ensures a != b && a != c ==> Seqs.Dedupe([a, b, c]) == [a, b, c]
  {
    var s := [a, b, c];
    assert s[..2] == [a, b] && [a, b][..1] == [a] && [a][..0] == [];
    assert Seqs.Dedupe([a]) == [a];
    var two := if a == b then [a] else [a, b];
    assert Seqs.Dedupe(s[..2]) == two;
  }

  /** The host list in each of its three shapes. */
  lemma HostsShape(primary: string)
    ensures primary == LoopbackHost ==> CandidateHosts(primary) == [LoopbackHost, LocalhostHost]
    ensures primary == LocalhostHost ==> CandidateHosts(primary) == [LocalhostHost, LoopbackHost]
    ensures primary != LoopbackHost && primary != LocalhostHost ==>
      CandidateHosts(primary) == [primary, LocalhostHost, LoopbackHost]
  {
    HostsDiffer();
    DedupeThree(primary, LocalhostHost, LoopbackHost);
  }

  // ---------------------------------------------------------------------------------
  // The prompt

  /** `replace(/\s+/g, " ")`: every run of white space becomes one space. */
  function CollapseSpaces(s: string): (r: string)
    ensures |r| <= |s|
    ensures s != [] ==> r != [] && (if Text.IsSpace(s[0]) then r[0] == ' ' else r[0] == s[0])
    decreases |s|
  {
    if s == [] then []
    else if Text.IsSpace(s[0]) then [' '] + CollapseSpaces(Text.TrimStart(s[1..]))
    else [s[0]] + CollapseSpaces(s[1..])
  }

  predicate PlainSpaces(r: string) {
    forall i :: 0 <= i < |r| && Text.IsSpace(r[i]) ==> r[i] == ' '
  }

  predicate NoDoubleSpace(r: string) {
    forall i :: 0 <= i < |r| - 1 ==> !(r[i] == ' ' && r[i + 1] == ' ')
  }

  lemma ConsPlain(c: char, t: string)
    requires c == ' ' || !Text.IsSpace(c)
    requires PlainSpaces(t)
    ensures PlainSpaces([c] + t)
  {
    var r := [c] + t;
    forall i | 0 <= i < |r| && Text.IsSpace(r[i]) ensures r[i] == ' ' {
      if i > 0 {
        assert r[i] == t[i - 1];
      }
    }
  }

  lemma ConsSingle(c: char, t: string)
    requires c != ' ' || t == [] || t[0] != ' '
    requires NoDoubleSpace(t)
    ensures NoDoubleSpace([c] + t)
  {
    var r := [c] + t;
    forall i | 0 <= i < |r| - 1 ensures !(r[i] == ' ' && r[i + 1] == ' ') {
      assert r[i + 1] == t[i];
      if i > 0 {
        assert r[i] == t[i - 1];
      }
    }
  }

  /** Every white-space character left is a plain space, and no two spaces are adjacent. */
  lemma {:induction false} CollapseSpacesShape(s: string)
    ensures PlainSpaces(CollapseSpaces(s)) && NoDoubleSpace(CollapseSpaces(s))
    decreases |s|
  {
    if s != [] {
      if Text.IsSpace(s[0]) {
        var rest := Text.TrimStart(s[1..]);
        CollapseSpacesShape(rest);
        var t := CollapseSpaces(rest);
        assert CollapseSpaces(s) == [' '] + t;
        assert t != [] ==> t[0] == rest[0] && !Text.IsSpace(t[0]);
        ConsPlain(' ', t);
        ConsSingle(' ', t);
      } else {
        CollapseSpacesShape(s[1..]);
        var t := CollapseSpaces(s[1..]);
        assert CollapseSpaces(s) == [s[0]] + t;
        assert s[0] != ' ';
        ConsPlain(s[0], t);
        ConsSingle(s[0], t);
      }
    }
  }

  /** Collapsing keeps a text all white space exactly when it was. */
  lemma {:induction false} CollapseSpacesBlank(s: string)
    ensures Text.IsBlank(CollapseSpaces(s)) <==> Text.IsBlank(s)
    decreases |s|
  {
    if s != [] {
      var t := s[1..];
      assert s == [s[0]] + t;
      Text.BlankConcat([s[0]], t);
      if Text.IsSpace(s[0]) {
        var rest := Text.TrimStart(t);
        Text.TrimStartDropsBlank(t);
        BlankAfterLead(t, |t| - |rest|);
        CollapseSpacesBlank(rest);
        assert CollapseSpaces(s) == [' '] + CollapseSpaces(rest);
        Text.BlankConcat([' '], CollapseSpaces(rest));
      } else {
        assert CollapseSpaces(s)[0] == s[0];
      }
    }
  }

  lemma BlankAfterLead(t: string, k: nat)
    requires k <= |t| && Text.IsBlank(t[..k])
    ensures Text.IsBlank(t) <==> Text.IsBlank(t[k..])
  {
    assert t == t[..k] + t[k..];
    Text.BlankConcat(t[..k], t[k..]);
  }

  /** The text sent to the model. */
  function Prompt(text: string): (r: string)
    ensures Text.IsTrimmed(r)
  {
    Text.Trim(CollapseSpaces(text))
  }

  /** The prompt is empty exactly when the text is all white space. */
  lemma PromptEmptyIffBlank(text: string)
    ensures Prompt(text) == [] <==> Text.IsBlank(text)
  {
    CollapseSpacesBlank(text);
    Text.TrimEmptyIffBlank(CollapseSpaces(text));
  }

  // ---------------------------------------------------------------------------------
  // One call

  /** How one call to `/api/embeddings` ends: a 2xx reply whose JSON may lack the
      `embedding` field, a non-2xx reply with its body, or a thrown error (abort,
      network failure, unreadable JSON) given by its `String(err)` rendering. */
  datatype CallOutcome = Replied(embedding: Option<Vector>) | HttpError(status: int, body: string) | Thrown(rendered: string)

  /** The outcome of each call, by (host, attempt number). */
  type Oracle = ((string, nat)) -> CallOutcome

  /** `callOllama`: the vector, or `String(err)` of the error it throws. */
  function CallResult(o: CallOutcome): (r: Result<Vector, string>)
    ensures r.Ok? <==> o.Replied?
    ensures o.Replied? ==> r.value == o.embedding.GetOr([])
    ensures o.HttpError? ==> r.error == HttpErrorText(o.status, o.body)
    ensures o.Thrown? ==> r.error == o.rendered
  {
    match o
    case Replied(e) => Ok(e.GetOr([]))
    case HttpError(status, body) => Err(HttpErrorText(status, body))
    case Thrown(m) => Err(m)
  }

  /** `String(new Error(...))` for a non-2xx reply: the trimmed status line and body. */
  function HttpErrorText(status: int, body: string): (m: string)
    ensures |m| >= 7 && m[..7] == "Error: " && Text.IsTrimmed(m[7..])
  {
    var line := Text.Trim("HTTP " + Text.IntToDecimal(status) + " " + body);
    assert ("Error: " + line)[7..] == line;
    "Error: " + line
  }

  // ---------------------------------------------------------------------------------
  // The attempt plan

  /** `retries` attempts, numbered from 1, on one host. */
  function Attempts(host: string, retries: nat): (r: seq<(string, nat)>)
    ensures |r| == retries
    ensures forall a :: 0 <= a < retries ==> r[a] == (host, a + 1)
  {
    seq(retries, a requires 0 <= a < retries => (host, a + 1))
  }

  /** The calls the loops would make if every call failed: host-major, attempt-minor. */
  function Plan(hosts: seq<string>, retries: nat): (r: seq<(string, nat)>)
    ensures |r| == |hosts| * retries
  {
    if hosts == [] then []
    else
      var p := Plan(hosts[..|hosts| - 1], retries);
      assert |p + Attempts(hosts[|hosts| - 1], retries)| == (|hosts| - 1) * retries + retries;
      p + Attempts(hosts[|hosts| - 1], retries)
  }

  /** Each planned call is on a candidate host, with an attempt number from 1 to `retries`. */
  lemma {:induction false} PlanCall(hosts: seq<string>, retries: nat, k: nat)
    requires k < |Plan(hosts, retries)|
    ensures Plan(hosts, retries)[k].0 in hosts && 1 <= Plan(hosts, retries)[k].1 <= retries
  {
    var init := hosts[..|hosts| - 1];
    var p := Plan(init, retries);
    var last := Attempts(hosts[|hosts| - 1], retries);
    assert Plan(hosts, retries) == p + last;
    assert hosts == init + [hosts[|hosts| - 1]];
    if k < |p| {
      PlanCall(init, retries, k);
      assert (p + last)[k] == p[k];
    } else {
      assert (p + last)[k] == last[k - |p|];
    }
  }

  predicate IsPrefix<T(==)>(a: seq<T>, b: seq<T>) {
    |a| <= |b| && b[..|a|] == a
  }

  lemma PrefixTransitive<T>(a: seq<T>, b: seq<T>, c: seq<T>)
    requires IsPrefix(a, b) && IsPrefix(b, c)
    ensures IsPrefix(a, c)
  {
    assert c[..|a|] == c[..|b|][..|a|];
  }

  lemma {:induction false} PlanPrefix(hosts: seq<string>, m: nat, retries: nat)
    requires m <= |hosts|
    ensures IsPrefix(Plan(hosts[..m], retries), Plan(hosts, retries))
    decreases |hosts| - m
  {
    if m < |hosts| {
      var init := hosts[..|hosts| - 1];
      assert hosts[..m] == init[..m];
      PlanPrefix(init, m, retries);
      assert Plan(hosts, retries) == Plan(init, retries) + Attempts(hosts[|hosts| - 1], retries);
      assert IsPrefix(Plan(init, retries), Plan(hosts, retries));
      PrefixTransitive(Plan(init[..m], retries), Plan(init, retries), Plan(hosts, retries));
    } else {
      assert hosts[..m] == hosts;
    }
  }

  /** After `hi` hosts and `a` attempts on the next, the calls made so far are the
      start of the plan. */
  lemma CallsArePlanPrefix(hosts: seq<string>, hi: nat, a: nat, retries: nat)
    requires hi < |hosts| && a <= retries
    ensures IsPrefix(Plan(hosts[..hi], retries) + Attempts(hosts[hi], retries)[..a], Plan(hosts, retries))
  {
    var next := hosts[..hi + 1];
    assert next[..|next| - 1] == hosts[..hi];
    assert Plan(next, retries) == Plan(hosts[..hi], retries) + Attempts(hosts[hi], retries);
    PlanPrefix(hosts, hi + 1, retries);
    PrefixTransitive(Plan(hosts[..hi], retries) + Attempts(hosts[hi], retries)[..a], Plan(next, retries), Plan(hosts, retries));
  }

  /** Index of the first call of the plan that does not throw, or the plan's length. */
  function FirstSuccess(plan: seq<(string, nat)>, outcome: Oracle): (k: nat)
    ensures k <= |plan|
    ensures forall j :: 0 <= j < k ==> CallResult(outcome(plan[j])).Err?
    ensures k < |plan| ==> CallResult(outcome(plan[k])).Ok?
  {
    if plan == [] then 0
    else if CallResult(outcome(plan[0])).Ok? then 0
    else 1 + FirstSuccess(plan[1..], outcome)
  }

  lemma {:induction false} FirstSuccessIs(plan: seq<(string, nat)>, outcome: Oracle, k: nat)
    requires k <= |plan|
    requires forall j :: 0 <= j < k ==> CallResult(outcome(plan[j])).Err?
    requires k < |plan| ==> CallResult(outcome(plan[k])).Ok?
    ensures FirstSuccess(plan, outcome) == k
  {
    if k > 0 {
      FirstSuccessIs(plan[1..], outcome, k - 1);
    }
  }

  /** The rendering of the last error seen, `String(null)` before any. */
  function LastError(calls: seq<(string, nat)>, outcome: Oracle): string {
    if calls == [] then "null"
    else match CallResult(outcome(calls[|calls| - 1]))
      case Err(m) => m
      case Ok(_) => "null"
  }

  function UnavailableMessage(hosts: seq<string>, model: string, lastError: string): string {
    "Ollama embeddings unavailable (tried " + Text.Join(hosts, ", ") + "; model=" + model + "). "
    + "Start it with: 'ollama serve'. Last error: " + lastError
  }

  /** The `ServiceUnavailableException` thrown once every call has failed. */
  function Unavailable(hosts: seq<string>, model: string, lastError: string): (e: Exception)
    ensures e.kind == ServiceUnavailable
  {
    Exception(ServiceUnavailable, UnavailableMessage(hosts, model, lastError))
  }

  /** What `embed` returns once the prompt is not empty, and how many calls it makes:
      the first vector any call returns, after exactly the calls before it; or, when
      every call of the plan fails, `ServiceUnavailable` after all of them. */
  function Outcome(config: EmbedConfig, toNumber: string -> Json.JsNumber, outcome: Oracle)
    : (r: (Result<Vector, Exception>, nat))
    ensures var plan := Plan(Hosts(config), Retries(config, toNumber));
      && r.1 <= |plan|
      && (r.0.Ok? <==> exists k :: 0 <= k < |plan| && CallResult(outcome(plan[k])).Ok?)
      && (r.0.Ok? ==> r.1 >= 1 && CallResult(outcome(plan[r.1 - 1])) == Ok(r.0.value)
                      && forall j :: 0 <= j < r.1 - 1 ==> CallResult(outcome(plan[j])).Err?)
      && (r.0.Err? ==> r.1 == |plan| == |Hosts(config)| * Retries(config, toNumber)
                       && r.0.error.kind == ServiceUnavailable)
  {
    Settle(Hosts(config), Retries(config, toNumber), config.model.GetOr(DefaultModel), outcome)
  }

  /** `Outcome` once the hosts, the retry count and the model name are known. */
  function Settle(hosts: seq<string>, retries: nat, model: string, outcome: Oracle)
    : (r: (Result<Vector, Exception>, nat))
    ensures var plan := Plan(hosts, retries);
      && r.1 <= |plan|
      && (r.0.Ok? <==> exists k :: 0 <= k < |plan| && CallResult(outcome(plan[k])).Ok?)
      && (r.0.Ok? ==> r.1 >= 1 && CallResult(outcome(plan[r.1 - 1])) == Ok(r.0.value)
                      && forall j :: 0 <= j < r.1 - 1 ==> CallResult(outcome(plan[j])).Err?)
      && (r.0.Err? ==> r.1 == |plan| && r.0.error.kind == ServiceUnavailable)
  {
    var plan := Plan(hosts, retries);
    var k := FirstSuccess(plan, outcome);
    if k < |plan| then (Ok(CallResult(outcome(plan[k])).value), k + 1)
    else (Err(Unavailable(hosts, model, LastError(plan, outcome))), |plan|)
  }

  // ---------------------------------------------------------------------------------
  // Metering

  /** The optional caller context that makes a success metered. */
  datatype UsageMeta = UsageMeta(tenantId: Option<Id>, userId: Option<Id>, sourceId: Option<Id>,
                                 jobId: Option<Id>, mode: Option<string>)

  function OrNull(v: Option<string>): Json.Json {
    if v.Some? then Json.JStr(v.value) else Json.JNull
  }

  /** `safeLogKbEmbedding`: the event to record, if any; only a caller-supplied,
      non-empty tenant id makes one. */
  function UsageFor(meta: Option<UsageMeta>, now: int): (r: Option<UsageEvent>)
    ensures r.Some? <==> meta.Some? && meta.value.tenantId.Some? && meta.value.tenantId.value != ""
    ensures r.Some? ==> r.value.tenantId == meta.value.tenantId.value && r.value.amount == 1
                        && r.value.eventType == KbEmbedding && r.value.userId == meta.value.userId
  {
    if meta.None? || meta.value.tenantId.None? || meta.value.tenantId.value == "" then None
    else
      var m := meta.value;
      Some(UsageEvent(m.tenantId.value, m.userId, KbEmbedding, 1, now,
        Json.JObj(map["sourceId" := OrNull(m.sourceId), "jobId" := OrNull(m.jobId), "mode" := OrNull(m.mode)])))
  }

  // ---------------------------------------------------------------------------------
  // embed

  lemma LastErrorAppend(a: seq<(string, nat)>, b: seq<(string, nat)>, outcome: Oracle)
    requires b != []
    ensures LastError(a + b, outcome) == LastError(b, outcome)
  {
    assert (a + b)[|a + b| - 1] == b[|b| - 1];
  }

  /** The inner loop: up to `retries` attempts on one host, stopping at the first that
      does not throw. */
  method TryHost(host: string, retries: nat, outcome: Oracle)
    returns (v: Option<Vector>, tried: seq<(string, nat)>, lastErr: string)
    requires retries >= 1
    ensures 1 <= |tried| <= retries && tried == Attempts(host, retries)[..|tried|]
    ensures forall j :: 0 <= j < |tried| - 1 ==> CallResult(outcome(tried[j])).Err?
    ensures v.Some? ==> CallResult(outcome(tried[|tried| - 1])) == Ok(v.value)
    ensures v.None? ==> |tried| == retries && CallResult(outcome(tried[|tried| - 1])).Err?
                        && lastErr == LastError(tried, outcome)
  {
    tried := [];
    lastErr := "null";
    for attempt := 1 to retries + 1
      invariant Tried(host, retries, outcome, attempt, tried, lastErr)
    {
      var res := CallResult(outcome((host, attempt)));
      if res.Ok? {
        TriedStep(host, retries, outcome, attempt, tried);
        tried := tried + [(host, attempt)];
        AttemptsPrefix(host, retries, tried);
        return Some(res.value), tried, lastErr;
      }
      TriedFailed(host, retries, outcome, attempt, tried);
      tried, lastErr := tried + [(host, attempt)], res.error;
    }
    AttemptsPrefix(host, retries, tried);
    v := None;
  }

  /** Before attempt `attempt` on `host`, attempts 1 to `attempt - 1` were made, in
      order, and each failed. */
  predicate Tried(host: string, retries: nat, outcome: Oracle, attempt: nat,
                  tried: seq<(string, nat)>, lastErr: string)
  {
    && 1 <= attempt <= retries + 1 && |tried| == attempt - 1
    && (forall j :: 0 <= j < |tried| ==> tried[j] == (host, j + 1))
    && (forall j :: 0 <= j < |tried| ==> CallResult(outcome(tried[j])).Err?)
    && lastErr == LastError(tried, outcome)
  }

  lemma TriedStep(host: string, retries: nat, outcome: Oracle, attempt: nat, tried: seq<(string, nat)>)
    requires attempt <= retries && Tried(host, retries, outcome, attempt, tried, LastError(tried, outcome))
    ensures var made := tried + [(host, attempt)];
      && |made| == attempt
      && (forall j :: 0 <= j < |made| ==> made[j] == (host, j + 1))
      && (forall j :: 0 <= j < |made| - 1 ==> CallResult(outcome(made[j])).Err?)
      && made[|made| - 1] == (host, attempt)
  {
    var made := tried + [(host, attempt)];
    forall j | 0 <= j < |made| ensures made[j] == (host, j + 1) {
      if j < |tried| {
        assert made[j] == tried[j];
      }
    }
    forall j | 0 <= j < |made| - 1 ensures CallResult(outcome(made[j])).Err? {
      assert made[j] == tried[j];
    }
  }

  lemma TriedFailed(host: string, retries: nat, outcome: Oracle, attempt: nat, tried: seq<(string, nat)>)
    requires attempt <= retries && Tried(host, retries, outcome, attempt, tried, LastError(tried, outcome))
    requires CallResult(outcome((host, attempt))).Err?
    ensures Tried(host, retries, outcome, attempt + 1, tried + [(host, attempt)],
                  CallResult(outcome((host, attempt))).error)
  {
    TriedStep(host, retries, outcome, attempt, tried);
    var made := tried + [(host, attempt)];
    assert LastError(made, outcome) == CallResult(outcome((host, attempt))).error;
  }

  lemma AttemptsPrefix(host: string, retries: nat, tried: seq<(string, nat)>)
    requires |tried| <= retries
    requires forall j :: 0 <= j < |tried| ==> tried[j] == (host, j + 1)
    ensures tried == Attempts(host, retries)[..|tried|]
  {
    var a := Attempts(host, retries);
    assert forall j :: 0 <= j < |tried| ==> a[..|tried|][j] == a[j];
  }

  lemma HostStep(hosts: seq<string>, hi: nat, retries: nat, outcome: Oracle,
                 calls: seq<(string, nat)>, tried: seq<(string, nat)>)
    requires hi < |hosts| && retries >= 1
    requires calls == Plan(hosts[..hi], retries)
    requires forall j :: 0 <= j < |calls| ==> CallResult(outcome(calls[j])).Err?
    requires 1 <= |tried| <= retries && tried == Attempts(hosts[hi], retries)[..|tried|]
    requires forall j :: 0 <= j < |tried| - 1 ==> CallResult(outcome(tried[j])).Err?
    ensures IsPrefix(calls + tried, Plan(hosts, retries))
    ensures forall j :: 0 <= j < |calls + tried| - 1 ==> CallResult(outcome((calls + tried)[j])).Err?
    ensures (calls + tried)[|calls + tried| - 1] == tried[|tried| - 1]
    ensures |tried| == retries ==> calls + tried == Plan(hosts[..hi + 1], retries)
  {
    CallsArePlanPrefix(hosts, hi, |tried|, retries);
    FailedBefore(calls, tried, outcome);
    if |tried| == retries {
      HostDone(hosts, hi, retries, tried);
    }
  }

  lemma FailedBefore(calls: seq<(string, nat)>, tried: seq<(string, nat)>, outcome: Oracle)
    requires tried != []
    requires forall j :: 0 <= j < |calls| ==> CallResult(outcome(calls[j])).Err?
    requires forall j :: 0 <= j < |tried| - 1 ==> CallResult(outcome(tried[j])).Err?
    ensures forall j :: 0 <= j < |calls + tried| - 1 ==> CallResult(outcome((calls + tried)[j])).Err?
  {
    var made := calls + tried;
    forall j | 0 <= j < |made| - 1 ensures CallResult(outcome(made[j])).Err? {
      if j < |calls| {
        assert made[j] == calls[j];
      } else {
        assert made[j] == tried[j - |calls|];
      }
    }
  }

  lemma HostDone(hosts: seq<string>, hi: nat, retries: nat, tried: seq<(string, nat)>)
    requires hi < |hosts|
    requires |tried| == retries && tried == Attempts(hosts[hi], retries)[..|tried|]
    ensures Plan(hosts[..hi], retries) + tried == Plan(hosts[..hi + 1], retries)
  {
    assert tried == Attempts(hosts[hi], retries);
    var next := hosts[..hi + 1];
    assert next[..|next| - 1] == hosts[..hi];
  }

  lemma SucceededAt(plan: seq<(string, nat)>, outcome: Oracle, made: seq<(string, nat)>, v: Vector)
    requires made != [] && IsPrefix(made, plan)
    requires forall j :: 0 <= j < |made| - 1 ==> CallResult(outcome(made[j])).Err?
    requires CallResult(outcome(made[|made| - 1])) == Ok(v)
    ensures var k := FirstSuccess(plan, outcome);
      k < |plan| && CallResult(outcome(plan[k])).value == v && made == plan[..k + 1]
  {
    var k := |made| - 1;
    assert made == plan[..k + 1];
    forall j | 0 <= j < k ensures CallResult(outcome(plan[j])).Err? {
      assert plan[j] == made[j];
    }
    assert plan[k] == made[k];
    FirstSuccessIs(plan, outcome, k);
  }

  /** The outer loop over the hosts. */
  method TryHosts(hosts: seq<string>, retries: nat, outcome: Oracle)
    returns (res: Result<Vector, string>, calls: seq<(string, nat)>)
    requires retries >= 1
    ensures var plan := Plan(hosts, retries);
      var k := FirstSuccess(plan, outcome);
      && (k < |plan| ==> res == Ok(CallResult(outcome(plan[k])).value) && calls == plan[..k + 1])
      && (k == |plan| ==> res == Err(LastError(plan, outcome)) && calls == plan)
  {
    ghost var plan := Plan(hosts, retries);
    calls := [];
    var lastErr := "null";
    for hi := 0 to |hosts|
      invariant Scanned(hosts, hi, retries, outcome, calls, lastErr)
    {
      var v, tried, err := TryHost(hosts[hi], retries, outcome);
      if v.Some? {
        var made := calls + tried;
        HostStep(hosts, hi, retries, outcome, calls, tried);
        SucceededAt(plan, outcome, made, v.value);
        return Ok(v.value), made;
      }
      ScannedStep(hosts, hi, retries, outcome, calls, tried, err);
      calls, lastErr := calls + tried, err;
    }
    assert hosts[..|hosts|] == hosts;
    FirstSuccessIs(plan, outcome, |plan|);
    res := Err(lastErr);
  }

  /** After `hi` hosts of the outer loop, every call made so far failed. */
  predicate Scanned(hosts: seq<string>, hi: nat, retries: nat, outcome: Oracle,
                    calls: seq<(string, nat)>, lastErr: string)
  {
    && hi <= |hosts|
    && calls == Plan(hosts[..hi], retries)
    && (forall j :: 0 <= j < |calls| ==> CallResult(outcome(calls[j])).Err?)
    && lastErr == LastError(calls, outcome)
  }

  lemma ScannedStep(hosts: seq<string>, hi: nat, retries: nat, outcome: Oracle,
                    calls: seq<(string, nat)>, tried: seq<(string, nat)>, err: string)
    requires hi < |hosts| && retries >= 1
    requires Scanned(hosts, hi, retries, outcome, calls, LastError(calls, outcome))
    requires |tried| == retries && tried == Attempts(hosts[hi], retries)[..|tried|]
    requires forall j :: 0 <= j < |tried| - 1 ==> CallResult(outcome(tried[j])).Err?
    requires CallResult(outcome(tried[|tried| - 1])).Err? && err == LastError(tried, outcome)
    ensures Scanned(hosts, hi + 1, retries, outcome, calls + tried, err)
  {
    HostStep(hosts, hi, retries, outcome, calls, tried);
    LastErrorAppend(calls, tried, outcome);
  }

  /** `embed`. `calls` lists the (host, attempt) pairs called, in order. */
  method Embed(db: Db, text: string, config: EmbedConfig, toNumber: string -> Json.JsNumber,
               outcome: Oracle, meta: Option<UsageMeta>, now: int, meteringFails: bool)
    returns (r: Result<Vector, Exception>, calls: seq<(string, nat)>)
    modifies db`usage
    ensures Text.IsBlank(text) ==> r == Ok([]) && calls == [] && db.usage == old(db.usage)
    ensures !Text.IsBlank(text) ==>
      var plan := Plan(Hosts(config), Retries(config, toNumber));
      && (r, |calls|) == Outcome(config, toNumber, outcome)
      && calls == plan[..|calls|]
      && db.usage == if r.Ok? && UsageFor(meta, now).Some? && !meteringFails
                     then old(db.usage) + [UsageFor(meta, now).value] else old(db.usage)
  {
    var cleaned := Prompt(text);
    PromptEmptyIffBlank(text);
    if cleaned == [] {
      return Ok([]), [];
    }
    r, calls := EmbedPrompt(db, config, toNumber, outcome, meta, now, meteringFails);
  }

  /** `embed` once the prompt is known not to be empty: the host loops and the metering. */
  method EmbedPrompt(db: Db, config: EmbedConfig, toNumber: string -> Json.JsNumber,
                     outcome: Oracle, meta: Option<UsageMeta>, now: int, meteringFails: bool)
    returns (r: Result<Vector, Exception>, calls: seq<(string, nat)>)
    modifies db`usage
    ensures var plan := Plan(Hosts(config), Retries(config, toNumber));
      && (r, |calls|) == Outcome(config, toNumber, outcome)
      && calls == plan[..|calls|]
      && db.usage == if r.Ok? && UsageFor(meta, now).Some? && !meteringFails
                     then old(db.usage) + [UsageFor(meta, now).value] else old(db.usage)
  {
    var hosts := Hosts(config);
    var retries := Retries(config, toNumber);
    var res;
    res, calls := TryHosts(hosts, retries, outcome);
    ghost var plan := Plan(hosts, retries);
    ghost var k := FirstSuccess(plan, outcome);
    if k < |plan| {
      assert |calls| == k + 1;
    }
    assert calls == plan[..|calls|];
    match res
    case Ok(v) =>
      var event := UsageFor(meta, now);
      if event.Some? && !meteringFails {
        db.usage := db.usage + [event.value];
      }
      r := Ok(v);
    case Err(lastErr) =>
      r := Err(Unavailable(hosts, config.model.GetOr(DefaultModel), lastErr));
  }

  /** When every call fails, `embed` has called every host `retries` times. */
  lemma AllFailCallsEveryHost(config: EmbedConfig, toNumber: string -> Json.JsNumber, outcome: Oracle)
    requires forall h, a :: CallResult(outcome((h, a))).Err?
    ensures Outcome(config, toNumber, outcome).0.Err?
    ensures Outcome(config, toNumber, outcome).1 == |Hosts(config)| * Retries(config, toNumber)
  {
    var plan := Plan(Hosts(config), Retries(config, toNumber));
    forall k | 0 <= k < |plan| ensures CallResult(outcome(plan[k])).Err? {
      assert plan[k] == (plan[k].0, plan[k].1);
    }
  }

  /** A success on the first call makes exactly one call. */
  lemma FirstCallSucceeds(config: EmbedConfig, toNumber: string -> Json.JsNumber, outcome: Oracle)
    requires outcome((config.host.GetOr(DefaultHost), 1)).Replied?
    ensures Outcome(config, toNumber, outcome) == (Ok(outcome((config.host.GetOr(DefaultHost), 1)).embedding.GetOr([])), 1)
  {
    var plan := Plan(Hosts(config), Retries(config, toNumber));
    assert plan[0] == (config.host.GetOr(DefaultHost), 1) by {
      var hosts := Hosts(config);
      var retries := Retries(config, toNumber);
      CallsArePlanPrefix(hosts, 0, 1, retries);
      assert hosts[..0] == [];
    }
  }
}
