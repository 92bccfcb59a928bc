/** `LlmService.chat`: sending a conversation to an Ollama server and reading back the
    reply, trying each candidate host once. What a call to a host gives back is an
    oracle `replies(host)`; the timeout timer, the request body and the network are
    outside the model. `parse` is `JSON.parse`, failing with `None`. */
module Llm {
  import opened Wrappers
  import opened Records
  import Json
  import Text
  import Embedding

  // ---------------------------------------------------------------------------------
  // Classifying error texts

  /** The phrases that mark an error text as a context-length error. */
  const ContextPhrases := ["context length", "exceeds the context", "context window",
                           "input length exceeds", "too many tokens", "maximum context",
                           "prompt is too long"]

  /** `isContextLengthError`: the lower-cased text contains one of the phrases. */
  predicate IsContextLengthError(msg: string) {
    var m := Text.ToLower(msg);
    || Text.Contains(m, "context length")
    || Text.Contains(m, "exceeds the context")
    || Text.Contains(m, "context window")
    || Text.Contains(m, "input length exceeds")
    || Text.Contains(m, "too many tokens")
    || Text.Contains(m, "maximum context")
    || Text.Contains(m, "prompt is too long")
  }

  /** The classifier in terms of the phrase list. */
  lemma ContextLengthByPhrase(msg: string)
    ensures IsContextLengthError(msg) <==>
      exists i :: 0 <= i < |ContextPhrases| && Text.Contains(Text.ToLower(msg), ContextPhrases[i])
  {
    var m := Text.ToLower(msg);
    if IsContextLengthError(msg) {
      var i := if Text.Contains(m, ContextPhrases[0]) then 0
        else if Text.Contains(m, ContextPhrases[1]) then 1
        else if Text.Contains(m, ContextPhrases[2]) then 2
        else if Text.Contains(m, ContextPhrases[3]) then 3
        else if Text.Contains(m, ContextPhrases[4]) then 4
        else if Text.Contains(m, ContextPhrases[5]) then 5
        else 6;
      assert Text.Contains(m, ContextPhrases[i]);
    }
  }

  /** The test ignores letter case. */
  lemma ContextLengthIgnoresCase(msg: string)
    ensures IsContextLengthError(Text.ToLower(msg)) == IsContextLengthError(msg)
  {
    Text.ToLowerIdempotent(msg);
  }

  /** A context-length error text stays one inside any surrounding text, such as a
      server that wraps the message. */
  lemma ContextLengthInContext(a: string, msg: string, b: string)
    requires IsContextLengthError(msg)
    ensures IsContextLengthError(a + msg + b)
  {
    var m := Text.ToLower(msg);
    Text.ToLowerAppend(a, msg);
    Text.ToLowerAppend(a + msg, b);
    assert Text.ToLower(a + msg + b) == Text.ToLower(a) + m + Text.ToLower(b);
    ContextLengthByPhrase(msg);
    var i :| 0 <= i < |ContextPhrases| && Text.Contains(m, ContextPhrases[i]);
    Text.ContainsInfix(Text.ToLower(a), m, Text.ToLower(b), ContextPhrases[i]);
    ContextLengthByPhrase(a + msg + b);
  }

  // ---------------------------------------------------------------------------------
  // Thrown values

  /** The `cause` of a thrown error, as `fetch` in Node attaches one. */
  datatype ErrorCause = ErrorCause(code: Option<string>, message: Option<string>)

  /** The response object of the exceptions `chat` raises itself. */
  datatype Detail =
    | NoDetail
    | ContextLimit(model: string, ollamaError: string, hint: string)
    | ErrorReply(model: string, host: string, status: int, ollamaError: string)
    | TimedOut(timeoutMs: Json.JsNumber)
    | Unreachable(model: string, hostsTried: seq<string>, lastError: string)

  /** A thrown value as the catch block inspects it: its `name`, `message`, `code` and
      `cause` properties (`None` when absent), its `String(e)` rendering, and the HTTP
      status class it carries when it reaches the caller (`Internal` for a plain
      error). A code that is a number is given by its string form. */
  datatype Thrown = Thrown(kind: ErrorKind, name: Option<string>, message: Option<string>,
                           rendered: string, code: Option<string>, cause: Option<ErrorCause>,
                           detail: Detail)

  const NetworkCodes := ["econnrefused", "enotfound", "etimedout", "ehostunreach", "eai_again"]

  /** `e?.message ?? String(e)`, lower-cased. */
  function MessageText(e: Thrown): string {
    Text.ToLower(e.message.GetOr(e.rendered))
  }

  /** `e?.code ?? e?.cause?.code ?? ""`, lower-cased: the error's own code wins. */
  function CodeText(e: Thrown): string {
    Text.ToLower(
      if e.code.Some? then e.code.value
      else if e.cause.Some? && e.cause.value.code.Some? then e.cause.value.code.value
      else "")
  }

  /** `e?.cause?.message ?? ""`, lower-cased. */
  function CauseText(e: Thrown): string {
    Text.ToLower(if e.cause.Some? && e.cause.value.message.Some? then e.cause.value.message.value else "")
  }

  /** `isNetworkError`. */
  predicate IsNetworkError(e: Thrown) {
    var msg := MessageText(e);
    var causeMsg := CauseText(e);
    || Text.Contains(msg, "fetch failed") || Text.Contains(msg, "failed to fetch")
    || CodeText(e) in NetworkCodes
    || Text.Contains(causeMsg, "econnrefused") || Text.Contains(causeMsg, "enotfound")
    || Text.Contains(causeMsg, "timed out") || Text.Contains(causeMsg, "network")
    || Text.Contains(msg, "econnrefused") || Text.Contains(msg, "enotfound")
    || Text.Contains(msg, "networkerror")
  }

  /** One of the five connection codes, on the error or on its cause, in any letter
      case, always counts as a network error. */
  lemma NetworkCodeCounts(e: Thrown, i: nat)
    requires i < |NetworkCodes|
    requires Text.ToLower(e.code.GetOr(if e.cause.Some? then e.cause.value.code.GetOr("") else "")) == NetworkCodes[i]
    ensures IsNetworkError(e)
  {
  }

  /** An error that names no connection problem anywhere is not a network error. */
  lemma QuietErrorIsNotNetwork(e: Thrown)
    requires 'f' !in MessageText(e) && 'w' !in MessageText(e)
    requires CodeText(e) !in NetworkCodes
    requires e.cause.None?
    ensures !IsNetworkError(e)
  {
    var msg := MessageText(e);
    assert 'f' in "fetch failed" && 'f' in "failed to fetch" && 'f' in "econnrefused" && 'f' in "enotfound";
    assert 'w' in "networkerror";
    Text.MissingCharNotContained(msg, "fetch failed", 'f');
    Text.MissingCharNotContained(msg, "failed to fetch", 'f');
    Text.MissingCharNotContained(msg, "econnrefused", 'f');
    Text.MissingCharNotContained(msg, "enotfound", 'f');
    Text.MissingCharNotContained(msg, "networkerror", 'w');
    assert CauseText(e) == [];
  }

  predicate IsAbort(e: Thrown) {
    e.name == Some("AbortError")
  }

  /** The catch block's test for moving on to the next host. */
  predicate IsTransient(e: Thrown) {
    IsAbort(e) || IsNetworkError(e)
  }

  // ---------------------------------------------------------------------------------
  // One host

  const DefaultChatModel := "llama3.1:latest"
  const ChatTimeoutFallback := 60000
  const ContextLimitMessage := "LLM context limit exceeded (prompt too long)."
  const ContextLimitHint := "Reduce included ticket comments / KB chunks, or use a larger-context model."
  const ErrorReplyMessage := "Ollama returned an error response."
  const TimedOutMessage := "LLM request timed out (Ollama took too long)."
  const UnreachableMessage := "Ollama is not reachable. Start it with: 'ollama serve'."

  /** How the request to one host ends: a 2xx reply whose JSON may lack
      `message.content`, a non-2xx reply with its body, or a thrown error (abort,
      network failure, unreadable reply). */
  datatype ChatReply = Answered(content: Option<string>) | ErrorStatus(status: int, body: string) | Failed(error: Thrown)

  type ChatOracle = string -> ChatReply

  /** The error text of a non-2xx reply: a string `error` field of the JSON body, else a
      string `message` field, else the body itself. */
  function ErrorText(body: string, parse: string -> Option<Json.Json>): (r: string)
    ensures var p := parse(body);
      r == body
      || (p.Some? && Json.Get(p.value, "error") == Some(Json.JStr(r)))
      || (p.Some? && Json.Get(p.value, "message") == Some(Json.JStr(r)))
    ensures var p := parse(body);
      p.Some? && Json.Get(p.value, "error").Some? && Json.Get(p.value, "error").value.JStr? ==>
        r == Json.Get(p.value, "error").value.s
  {
    var parsed := parse(body);
    if parsed.Some? && Json.Get(parsed.value, "error").Some? && Json.Get(parsed.value, "error").value.JStr? then
      Json.Get(parsed.value, "error").value.s
    else if parsed.Some? && Json.Get(parsed.value, "message").Some? && Json.Get(parsed.value, "message").value.JStr? then
      Json.Get(parsed.value, "message").value.s
    else body
  }

  /** A server's `{"error": m}` body reads back as `m` under a lawful codec; a body that
      does not parse reads back as itself. */
  lemma ErrorTextRoundTrip(c: Json.Codec, m: string, extra: map<string, Json.Json>, raw: string)
    requires Json.Lawful(c)
    requires c.parse(raw).None?
    ensures ErrorText(c.stringify(Json.JObj(extra["error" := Json.JStr(m)])), c.parse) == m
    ensures ErrorText(raw, c.parse) == raw
  {
    var v := Json.JObj(extra["error" := Json.JStr(m)]);
    assert c.parse(c.stringify(v)) == Some(v);
  }

  /** The exception thrown for a non-2xx reply. */
  function ReplyError(model: string, host: string, status: int, text: string): (e: Thrown)
    ensures e.kind == (if IsContextLengthError(text) then PayloadTooLarge else ServiceUnavailable)
    ensures !IsTransient(e)
  {
    if IsContextLengthError(text) then
      var e := Thrown(PayloadTooLarge, Some("PayloadTooLargeException"), Some(ContextLimitMessage),
                      "PayloadTooLargeException: " + ContextLimitMessage, None, None,
                      ContextLimit(model, text, ContextLimitHint));
      ExceptionIsQuiet(e);
      e
    else
      var e := Thrown(ServiceUnavailable, Some("ServiceUnavailableException"), Some(ErrorReplyMessage),
                      "ServiceUnavailableException: " + ErrorReplyMessage, None, None,
                      ErrorReply(model, host, status, text));
      ExceptionIsQuiet(e);
      e
  }

  /** The two messages `chat` raises for error replies name no connection problem, so
      its own catch block passes those exceptions on instead of trying another host. */
  lemma ExceptionIsQuiet(e: Thrown)
    requires e.message == Some(ContextLimitMessage) || e.message == Some(ErrorReplyMessage)
    requires e.code.None? && e.cause.None?
    ensures !IsNetworkError(e)
  {
    QuietMessage(e.message.value);
    assert CodeText(e) == [];
    QuietErrorIsNotNetwork(e);
  }

  lemma QuietMessage(m: string)
    requires m == ContextLimitMessage || m == ErrorReplyMessage
    ensures 'f' !in Text.ToLower(m) && 'w' !in Text.ToLower(m)
  {
    if m == ContextLimitMessage {
      ContextLimitQuiet();
    } else {
      ErrorReplyQuiet();
    }
  }

  lemma ContextLimitQuiet()
    ensures 'f' !in Text.ToLower(ContextLimitMessage) && 'w' !in Text.ToLower(ContextLimitMessage)
  {
    ContextLimitLetters();
    Text.ToLowerAbsent(ContextLimitMessage, 'f');
    Text.ToLowerAbsent(ContextLimitMessage, 'w');
  }

  lemma ErrorReplyQuiet()
    ensures 'f' !in Text.ToLower(ErrorReplyMessage) && 'w' !in Text.ToLower(ErrorReplyMessage)
  {
    ErrorReplyLetters();
    Text.ToLowerAbsent(ErrorReplyMessage, 'f');
    Text.ToLowerAbsent(ErrorReplyMessage, 'w');
  }

  /** Neither an 'f' nor a 'w' in either case: the letters that every network phrase
      of `isNetworkError` contains. */
  predicate LacksFW(s: string) {
    'f' !in s && 'F' !in s && 'w' !in s && 'W' !in s
  }

  lemma LacksFWConcat(a: string, b: string)
    requires LacksFW(a) && LacksFW(b)
    ensures LacksFW(a + b)
  {
  }

  lemma ContextLimitLetters()
    ensures LacksFW(ContextLimitMessage)
  {
    assert LacksFW("LLM context");
    assert LacksFW(" limit exceeded");
    assert LacksFW(" (prompt");
    assert LacksFW(" too long).");
    LacksFWConcat("LLM context", " limit exceeded");
    LacksFWConcat("LLM context limit exceeded", " (prompt");
    LacksFWConcat("LLM context limit exceeded (prompt", " too long).");
  }

  lemma ErrorReplyLetters()
    ensures LacksFW(ErrorReplyMessage)
  {
    assert LacksFW("Ollama");
    assert LacksFW(" returned");
    assert LacksFW(" an error");
    assert LacksFW(" response.");
    LacksFWConcat("Ollama", " returned");
    LacksFWConcat("Ollama returned", " an error");
    LacksFWConcat("Ollama returned an error", " response.");
  }

  /** The try block for one host: the trimmed reply content (`""` when absent), or the
      value it throws. */
  function TryHost(reply: ChatReply, model: string, host: string, parse: string -> Option<Json.Json>)
    : (r: Result<string, Thrown>)
    ensures reply.Answered? ==> r.Ok? && Text.IsTrimmed(r.value)
    ensures reply.Answered? && reply.content.None? ==> r == Ok("")
    ensures reply.ErrorStatus? ==> r.Err? && !IsTransient(r.error)
    ensures reply.Failed? ==> r == Err(reply.error)
  {
    match reply
    case Answered(content) => Ok(if content.Some? then Text.Trim(content.value) else "")
    case ErrorStatus(status, body) => Err(ReplyError(model, host, status, ErrorText(body, parse)))
    case Failed(e) => Err(e)
  }

  // ---------------------------------------------------------------------------------
  // The host loop

  datatype ChatConfig = ChatConfig(model: Option<string>, host: Option<string>, timeoutMs: Option<string>)

  /** `Number(raw ?? "60000") || 60000`: a value that is NaN or zero gives 60 000; any
      other number, negative or infinite ones included, is kept. */
  function ChatTimeoutMs(config: ChatConfig, toNumber: string -> Json.JsNumber): (r: Json.JsNumber)
    ensures !r.NaN? && r != Json.Finite(0, true)
    ensures config.timeoutMs.None? ==> r == Json.Finite(ChatTimeoutFallback, true)
    ensures config.timeoutMs.Some? && !toNumber(config.timeoutMs.value).NaN?
            && toNumber(config.timeoutMs.value) != Json.Finite(0, true)
            ==> r == toNumber(config.timeoutMs.value)
  {
    var n := if config.timeoutMs.None? then Json.Finite(ChatTimeoutFallback, true)
             else toNumber(config.timeoutMs.value);
    if n.NaN? || n == Json.Finite(0, true) then Json.Finite(ChatTimeoutFallback, true) else n
  }

  function ChatHosts(config: ChatConfig): seq<string> {
    Embedding.CandidateHosts(config.host.GetOr(Embedding.DefaultHost))
  }

  /** What reaches the caller of `chat`. */
  datatype ChatFailure = ChatFailure(kind: ErrorKind, message: string, detail: Detail)

  /** Rethrowing a value the catch block does not handle. */
  function Raised(e: Thrown): ChatFailure {
    ChatFailure(e.kind, e.message.GetOr(e.rendered), e.detail)
  }

  /** Whether the loop stops at a host's attempt: it returned, or threw something that
      is not transient. */
  predicate Stops(r: Result<string, Thrown>) {
    r.Ok? || !IsTransient(r.error)
  }

  /** The index of the first host whose attempt stops the loop, or the number of hosts. */
  function FirstStop(hosts: seq<string>, model: string, replies: ChatOracle,
                     parse: string -> Option<Json.Json>): (k: nat)
    ensures k <= |hosts|
    ensures forall j :: 0 <= j < k ==> !Stops(TryHost(replies(hosts[j]), model, hosts[j], parse))
    ensures k < |hosts| ==> Stops(TryHost(replies(hosts[k]), model, hosts[k], parse))
  {
    if hosts == [] then 0
    else if Stops(TryHost(replies(hosts[0]), model, hosts[0], parse)) then 0
    else 1 + FirstStop(hosts[1..], model, replies, parse)
  }

  lemma {:induction false} FirstStopIs(hosts: seq<string>, model: string, replies: ChatOracle,
                                       parse: string -> Option<Json.Json>, k: nat)
    requires k <= |hosts|
    requires forall j :: 0 <= j < k ==> !Stops(TryHost(replies(hosts[j]), model, hosts[j], parse))
    requires k < |hosts| ==> Stops(TryHost(replies(hosts[k]), model, hosts[k], parse))
    ensures FirstStop(hosts, model, replies, parse) == k
  {
    if k > 0 {
      FirstStopIs(hosts[1..], model, replies, parse, k - 1);
    }
  }

  /** The failure raised once every host has been tried: a timeout when the last error
      was an abort, otherwise "not reachable" with the last error's message. */
  function Exhausted(hosts: seq<string>, model: string, timeoutMs: Json.JsNumber,
                     lastErr: Option<Thrown>): (f: ChatFailure)
    ensures f.kind == RequestTimeout <==> lastErr.Some? && IsAbort(lastErr.value)
    ensures f.kind == RequestTimeout || f.kind == ServiceUnavailable
  {
    if lastErr.Some? && IsAbort(lastErr.value) then ChatFailure(RequestTimeout, TimedOutMessage, TimedOut(timeoutMs))
    else
      var msg := if lastErr.Some? then lastErr.value.message.GetOr(lastErr.value.rendered) else "null";
      ChatFailure(ServiceUnavailable, UnreachableMessage, Unreachable(model, hosts, msg))
  }

  /** What `chat` returns and how many hosts it calls: the result of the first host
      whose attempt stops the loop, after exactly the hosts before it; or, when every
      attempt fails transiently, the exhausted failure after all of them. */
  function Outcome(hosts: seq<string>, model: string, timeoutMs: Json.JsNumber,
                   replies: ChatOracle, parse: string -> Option<Json.Json>)
    : (r: (Result<string, ChatFailure>, nat))
    requires hosts != []
    ensures 1 <= r.1 <= |hosts|
    ensures forall j :: 0 <= j < r.1 - 1 ==> !Stops(TryHost(replies(hosts[j]), model, hosts[j], parse))
    ensures r.0.Ok? ==> TryHost(replies(hosts[r.1 - 1]), model, hosts[r.1 - 1], parse) == Ok(r.0.value)
    ensures r.1 < |hosts| ==> Stops(TryHost(replies(hosts[r.1 - 1]), model, hosts[r.1 - 1], parse))
  {
    var k := FirstStop(hosts, model, replies, parse);
    if k < |hosts| then
      match TryHost(replies(hosts[k]), model, hosts[k], parse)
      case Ok(s) => (Ok(s), k + 1)
      case Err(e) => (Err(Raised(e)), k + 1)
    else
      var last := TryHost(replies(hosts[|hosts| - 1]), model, hosts[|hosts| - 1], parse);
      (Err(Exhausted(hosts, model, timeoutMs, Some(last.error))), |hosts|)
  }

  /** `chat`. `tried` lists the hosts called, in order. */
  method Chat(config: ChatConfig, toNumber: string -> Json.JsNumber, replies: ChatOracle,
              parse: string -> Option<Json.Json>)
    returns (r: Result<string, ChatFailure>, tried: seq<string>)
    ensures var hosts := ChatHosts(config);
      && (r, |tried|) == Outcome(hosts, config.model.GetOr(DefaultChatModel), ChatTimeoutMs(config, toNumber), replies, parse)
      && tried == hosts[..|tried|]
    ensures forall i, j :: 0 <= i < j < |tried| ==> tried[i] != tried[j]
  {
    var model := config.model.GetOr(DefaultChatModel);
    var timeoutMs := ChatTimeoutMs(config, toNumber);
    var hosts := ChatHosts(config);
    tried := [];
    var lastErr: Option<Thrown> := None;
    var i := 0;
    while i < |hosts|
      invariant 0 <= i <= |hosts|
      invariant tried == hosts[..i]
      invariant forall j :: 0 <= j < i ==> !Stops(TryHost(replies(hosts[j]), model, hosts[j], parse))
      invariant i > 0 ==> lastErr == Some(TryHost(replies(hosts[i - 1]), model, hosts[i - 1], parse).error)
    {
      var host := hosts[i];
      var res := TryHost(replies(host), model, host, parse);
      tried := tried + [host];
      assert tried == hosts[..i + 1];
      if res.Ok? {
        OutcomeAtStop(hosts, model, timeoutMs, replies, parse, i);
        return Ok(res.value), tried;
      }
      var e := res.error;
      lastErr := Some(e);
      if IsAbort(e) {
        i := i + 1;
        continue;
      }
      if IsNetworkError(e) {
        i := i + 1;
        continue;
      }
      OutcomeAtStop(hosts, model, timeoutMs, replies, parse, i);
      return Err(Raised(e)), tried;
    }
    OutcomeExhausted(hosts, model, timeoutMs, replies, parse);
    r := Err(Exhausted(hosts, model, timeoutMs, lastErr));
  }

  /** The outcome when the `k`-th host is the first whose attempt stops the loop. */
  lemma OutcomeAtStop(hosts: seq<string>, model: string, timeoutMs: Json.JsNumber,
                      replies: ChatOracle, parse: string -> Option<Json.Json>, k: nat)
    requires k < |hosts|
    requires forall j :: 0 <= j < k ==> !Stops(TryHost(replies(hosts[j]), model, hosts[j], parse))
    requires Stops(TryHost(replies(hosts[k]), model, hosts[k], parse))
    ensures Outcome(hosts, model, timeoutMs, replies, parse)
         == match TryHost(replies(hosts[k]), model, hosts[k], parse)
            case Ok(s) => (Ok(s), k + 1)
            case Err(e) => (Err(Raised(e)), k + 1)
  {
    FirstStopIs(hosts, model, replies, parse, k);
  }

  /** The outcome when no host's attempt stops the loop. */
  lemma OutcomeExhausted(hosts: seq<string>, model: string, timeoutMs: Json.JsNumber,
                         replies: ChatOracle, parse: string -> Option<Json.Json>)
    requires hosts != []
    requires forall j :: 0 <= j < |hosts| ==> !Stops(TryHost(replies(hosts[j]), model, hosts[j], parse))
    ensures Outcome(hosts, model, timeoutMs, replies, parse)
         == (Err(Exhausted(hosts, model, timeoutMs,
                           Some(TryHost(replies(hosts[|hosts| - 1]), model, hosts[|hosts| - 1], parse).error))),
             |hosts|)
  {
    FirstStopIs(hosts, model, replies, parse, |hosts|);
  }

  // ---------------------------------------------------------------------------------
  // Properties of the loop

  /** An error reply whose text is a context-length error raises `PayloadTooLarge`, and
      no later host is tried. */
  lemma ContextErrorStops(hosts: seq<string>, model: string, timeoutMs: Json.JsNumber,
                          replies: ChatOracle, parse: string -> Option<Json.Json>, k: nat)
    requires k < |hosts|
    requires forall j :: 0 <= j < k ==> !Stops(TryHost(replies(hosts[j]), model, hosts[j], parse))
    requires replies(hosts[k]).ErrorStatus? && IsContextLengthError(ErrorText(replies(hosts[k]).body, parse))
    ensures var r := Outcome(hosts, model, timeoutMs, replies, parse);
      && r.1 == k + 1
      && r.0 == Err(ChatFailure(PayloadTooLarge, ContextLimitMessage,
                                ContextLimit(model, ErrorText(replies(hosts[k]).body, parse), ContextLimitHint)))
  {
    FirstStopIs(hosts, model, replies, parse, k);
  }

  /** Any other error reply raises `ServiceUnavailable` naming the host and the status,
      and no later host is tried. */
  lemma ErrorReplyStops(hosts: seq<string>, model: string, timeoutMs: Json.JsNumber,
                        replies: ChatOracle, parse: string -> Option<Json.Json>, k: nat)
    requires k < |hosts|
    requires forall j :: 0 <= j < k ==> !Stops(TryHost(replies(hosts[j]), model, hosts[j], parse))
    requires replies(hosts[k]).ErrorStatus? && !IsContextLengthError(ErrorText(replies(hosts[k]).body, parse))
    ensures var r := Outcome(hosts, model, timeoutMs, replies, parse);
      && r.1 == k + 1
      && r.0 == Err(ChatFailure(ServiceUnavailable, ErrorReplyMessage,
                                ErrorReply(model, hosts[k], replies(hosts[k]).status,
                                           ErrorText(replies(hosts[k]).body, parse))))
  {
    FirstStopIs(hosts, model, replies, parse, k);
  }

  /** An answer after transient failures is returned trimmed, or as "" when it has no
      content. */
  lemma AnswerReturned(hosts: seq<string>, model: string, timeoutMs: Json.JsNumber,
                       replies: ChatOracle, parse: string -> Option<Json.Json>, k: nat)
    requires k < |hosts|
    requires forall j :: 0 <= j < k ==> !Stops(TryHost(replies(hosts[j]), model, hosts[j], parse))
    requires replies(hosts[k]).Answered?
    ensures var c := replies(hosts[k]).content;
      Outcome(hosts, model, timeoutMs, replies, parse) == (Ok(if c.Some? then Text.Trim(c.value) else ""), k + 1)
  {
    FirstStopIs(hosts, model, replies, parse, k);
  }

  /** When every host fails transiently, every host is tried once and the failure is a
      timeout exactly when the last host's error was an abort. */
  lemma AllTransient(hosts: seq<string>, model: string, timeoutMs: Json.JsNumber,
                     replies: ChatOracle, parse: string -> Option<Json.Json>)
    requires hosts != []
    requires forall j :: 0 <= j < |hosts| ==> replies(hosts[j]).Failed? && IsTransient(replies(hosts[j]).error)
    ensures var r := Outcome(hosts, model, timeoutMs, replies, parse);
      && r.1 == |hosts|
      && r.0.Err?
      && (r.0.error.kind == RequestTimeout <==> IsAbort(replies(hosts[|hosts| - 1]).error))
      && (r.0.error.kind != RequestTimeout ==>
            r.0.error.kind == ServiceUnavailable
            && r.0.error.detail == Unreachable(model, hosts, replies(hosts[|hosts| - 1]).error.message.GetOr(
                                                             replies(hosts[|hosts| - 1]).error.rendered)))
  {
    FirstStopIs(hosts, model, replies, parse, |hosts|);
  }
}
