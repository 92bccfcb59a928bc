/** `TicketAssistService`: knowledge-base suggestions for a ticket and a draft reply
    written by the chat model from them, metered as one AI call. The embedding model,
    the chat model and the JSON parser are the oracles of `AiEnv`. */
module TicketAssist {
  import opened Wrappers
  import opened Records
  import opened Json
  import Text
  import Calendar
  import Entitlements
  import Embedding
  import Llm
  import KbService
  import TicketsService

  /** The external services a draft depends on: the embedding model's configuration and
      its answers for a query text, the vector distance, the chat model's configuration
      and its replies for a (system, user) prompt pair, `Number(...)`, and JSON. */
  datatype AiEnv = AiEnv(
    embedConfig: Embedding.EmbedConfig,
    embedOutcome: string -> Embedding.Oracle,
    distance: (Vector, Vector) -> int,
    chatConfig: Llm.ChatConfig,
    chatReplies: (string, string) -> Llm.ChatOracle,
    toNumber: string -> JsNumber,
    codec: Codec)

  const DefaultTopK := 5

  // ---------------------------------------------------------------------------------
  // suggest

  /** `query ?? title + "\n\n" + description`. */
  function QueryText(query: Option<string>, t: Ticket): (q: string)
    ensures query.Some? ==> q == query.value
    ensures query.None? ==> Text.StartsWith(q, t.title) && q[|t.title|..] == "\n\n" + t.description
  {
    if query.Some? then query.value else t.title + "\n\n" + t.description
  }

  /** What `embed` gives for a text; a blank text gives the empty vector without a call. */
  function EmbedResult(env: AiEnv, text: string): Result<Vector, Exception> {
    if Text.IsBlank(text) then Ok([])
    else Embedding.Outcome(env.embedConfig, env.toNumber, env.embedOutcome(text)).0
  }

  /** `suggest` as a function of the store: the ticket, then the knowledge-base hits for
      the query text. */
  function Suggestions(tickets: map<Id, Ticket>, comments: seq<Comment>, chunks: seq<Chunk>, sources: map<Id, Source>,
                       env: AiEnv, tenantId: Id, ticketId: Id, query: Option<string>, topK: nat)
    : (r: Result<(TicketsService.TicketView, seq<KbService.Hit>), Exception>)
    ensures !TicketsService.Owned(tickets, tenantId, ticketId) ==> r == Err(Exception(NotFound, TicketsService.TicketNotFound))
    ensures r.Ok? ==> r.value.0.ticket == tickets[ticketId] && |r.value.1| <= topK
    ensures TicketsService.Owned(tickets, tenantId, ticketId) ==>
      var hits := KbService.Query(chunks, sources, tenantId, EmbedResult(env, QueryText(query, tickets[ticketId])), topK, env.distance);
      (r.Ok? <==> hits.Ok?) && (hits.Ok? ==> r.value.1 == hits.value) && (hits.Err? ==> r == Err(hits.error))
  {
    match TicketsService.GetTicket(tickets, comments, tenantId, ticketId)
    case Err(e) => Err(e)
    case Ok(view) =>
      match KbService.Query(chunks, sources, tenantId, EmbedResult(env, QueryText(query, view.ticket)), topK, env.distance)
      case Err(e) => Err(e)
      case Ok(hits) => Ok((view, hits))
  }

  /** `suggest`: the ticket must be the tenant's; the query embedding meters nothing. */
  method Suggest(db: Db, env: AiEnv, tenantId: Id, ticketId: Id, query: Option<string>, topK: nat)
    returns (r: Result<(TicketsService.TicketView, seq<KbService.Hit>), Exception>)
    modifies db`usage
    ensures r == Suggestions(db.tickets, db.comments, db.chunks, db.sources, env, tenantId, ticketId, query, topK)
    ensures db.usage == old(db.usage)
  {
    var ticket := TicketsService.GetTicket(db.tickets, db.comments, tenantId, ticketId);
    if ticket.Err? {
      return Err(ticket.error);
    }
    var text := QueryText(query, ticket.value.ticket);
    var embedded, _ := Embedding.Embed(db, text, env.embedConfig, env.toNumber, env.embedOutcome(text), None, 0, false);
    var hits := KbService.Query(db.chunks, db.sources, tenantId, embedded, topK, env.distance);
    if hits.Err? {
      return Err(hits.error);
    }
    r := Ok((ticket.value, hits.value));
  }

  // ---------------------------------------------------------------------------------
  // Prompts

  /** The digits of `n < 1000`, zero-padded to three. */
  function ThreeDigits(n: nat): (r: string)
    requires n < 1000
    ensures |r| == 3 && forall i :: 0 <= i < 3 ==> Text.IsDigit(r[i])
  {
    [Text.DigitChar(n / 100), Text.DigitChar(n / 10 % 10), Text.DigitChar(n % 10)]
  }

  /** `similarity.toFixed(3)` of a similarity given in thousandths. */
  function Fixed3(p: int): string {
    var m := if p < 0 then -p else p;
    (if p < 0 then "-" else "") + Text.NatToDecimal(m / 1000) + "." + ThreeDigits(m % 1000)
  }

  /** A hit is labelled by its file name, or by its source id when the name is empty. */
  function SourceLabel(h: KbService.Hit): (s: string)
    ensures h.filename != "" ==> s == h.filename
    ensures h.filename == "" ==> s == h.sourceId
  {
    if h.filename != "" then h.filename else h.sourceId
  }

  function ContextEntryHead(n: nat, h: KbService.Hit): string {
    "[#" + Text.NatToDecimal(n) + "] source=" + SourceLabel(h)
  }

  /** The context entry of the `n`-th hit. */
  function ContextEntry(n: nat, h: KbService.Hit): string {
    ContextEntryHead(n, h) + " idx=" + Text.IntToDecimal(h.idx) + " similarity=" + Fixed3(h.similarity) + "\n" + h.content
  }

  function ContextEntries(hits: seq<KbService.Hit>): (r: seq<string>)
    ensures |r| == |hits|
    ensures forall i :: 0 <= i < |hits| ==> Text.StartsWith(r[i], ContextEntryHead(i + 1, hits[i]))
  {
    seq(|hits|, i requires 0 <= i < |hits| => ContextEntry(i + 1, hits[i]))
  }

  const ContextSeparator := "\n\n---\n\n"

  /** The context block: the hits in retrieval order, numbered from 1. It is empty
      exactly when there are no hits. */
  function ContextBlock(hits: seq<KbService.Hit>): (r: string)
    ensures r == "" <==> hits == []
    ensures hits != [] ==> Text.StartsWith(r, ContextEntryHead(1, hits[0]))
  {
    var entries := ContextEntries(hits);
    if hits == [] then ""
    else
      assert Text.StartsWith(entries[0], ContextEntryHead(1, hits[0]));
      Text.Join(entries, ContextSeparator)
  }

  const SystemPrompt :=
    "You are a support agent assistant for a SaaS helpdesk.\n"
    + "Goal: produce a helpful, concise customer-facing reply draft.\n\n"
    + "Rules:\n"
    + "- Use ONLY the provided KB context for factual claims/policies.\n"
    + "- If KB context is insufficient, say what you need to ask next (do not invent policy).\n"
    + "- Output STRICT JSON with keys:\n"
    + "  replyDraft (string),\n"
    + "  nextQuestions (string[]),\n"
    + "  usedCitations (array of objects: { label: string, filename?: string, reason: string })"

  const NoMatches := "(no KB matches)"

  /** The user prompt; the template's surrounding line breaks are trimmed away. */
  function UserPrompt(t: Ticket, hits: seq<KbService.Hit>): string {
    var block := ContextBlock(hits);
    "TICKET:\nTitle: " + t.title + "\nDescription: " + t.description + "\n\nKB CONTEXT:\n"
    + (if block == "" then NoMatches else block) + "\n\nWrite the response now."
  }

  /** With no hits the prompt says so instead of giving an empty context. */
  lemma NoHitsPrompt(t: Ticket)
    ensures UserPrompt(t, []) == "TICKET:\nTitle: " + t.title + "\nDescription: " + t.description
                                  + "\n\nKB CONTEXT:\n" + NoMatches + "\n\nWrite the response now."
  {
  }

  // ---------------------------------------------------------------------------------
  // Parsing the reply

  /** `items.map(x => String(x ?? "")).filter(Boolean)`. */
  function StringifiedItems(items: seq<Json>): (r: seq<string>)
    ensures forall i :: 0 <= i < |r| ==> r[i] != ""
    ensures |r| <= |items|
  {
    if items == [] then []
    else
      var t := StringOrEmpty(Some(items[0]));
      (if t == "" then [] else [t]) + StringifiedItems(items[1..])
  }

  /** Exactly the non-empty renderings of the items are kept. */
  lemma {:induction false} StringifiedItemsMembers(items: seq<Json>, t: string)
    ensures t in StringifiedItems(items) <==> t != "" && exists i :: 0 <= i < |items| && StringOrEmpty(Some(items[i])) == t
  {
    if items != [] {
      StringifiedItemsMembers(items[1..], t);
      if t in StringifiedItems(items[1..]) {
        var i :| 0 <= i < |items[1..]| && StringOrEmpty(Some(items[1..][i])) == t;
        assert StringOrEmpty(Some(items[i + 1])) == t;
      }
      if t != "" && StringOrEmpty(Some(items[0])) != t {
        if exists i :: 0 <= i < |items| && StringOrEmpty(Some(items[i])) == t {
          var i :| 0 <= i < |items| && StringOrEmpty(Some(items[i])) == t;
          assert i > 0 && items[1..][i - 1] == items[i];
        }
      }
    }
  }

  datatype ParsedDraft = ParsedDraft(replyDraft: string, nextQuestions: seq<string>, usedCitations: seq<Json>, parseFailed: bool)

  /** The reply as the model's text: a JSON value whose properties can be read gives the
      string `replyDraft` (else ""), the non-empty renderings of `nextQuestions` and the
      `usedCitations` array; text that is not JSON, or the JSON `null` whose properties
      cannot be read, gives the raw text as the draft, marked as failed. */
  function ParseDraft(raw: string, parse: string -> Option<Json>): (r: ParsedDraft)
    ensures r.parseFailed <==> parse(raw).None? || parse(raw) == Some(JNull)
    ensures r.parseFailed ==> r == ParsedDraft(raw, [], [], true)
    ensures !r.parseFailed ==>
      var v := parse(raw).value;
      && (Get(v, "replyDraft").Some? && Get(v, "replyDraft").value.JStr? ==> r.replyDraft == Get(v, "replyDraft").value.s)
      && (!(Get(v, "replyDraft").Some? && Get(v, "replyDraft").value.JStr?) ==> r.replyDraft == "")
      && (Get(v, "nextQuestions").Some? && Get(v, "nextQuestions").value.JArr? ==>
            r.nextQuestions == StringifiedItems(Get(v, "nextQuestions").value.items))
      && (!(Get(v, "nextQuestions").Some? && Get(v, "nextQuestions").value.JArr?) ==> r.nextQuestions == [])
      && (Get(v, "usedCitations").Some? ==> r.usedCitations == ArrayItems(Get(v, "usedCitations").value))
      && (Get(v, "usedCitations").None? ==> r.usedCitations == [])
  {
    match parse(raw)
    case None => ParsedDraft(raw, [], [], true)
    case Some(v) =>
      if v.JNull? then ParsedDraft(raw, [], [], true)
      else
        var reply := Get(v, "replyDraft");
        var questions := Get(v, "nextQuestions");
        var citations := Get(v, "usedCitations");
        ParsedDraft(
          if reply.Some? && reply.value.JStr? then reply.value.s else "",
          if questions.Some? && questions.value.JArr? then StringifiedItems(questions.value.items) else [],
          if citations.Some? then ArrayItems(citations.value) else [],
          false)
  }

  const InvalidJsonWarning := "Model did not return valid JSON"

  /** String items as a JSON array. */
  function JStrs(qs: seq<string>): (r: seq<Json>)
    ensures |r| == |qs| && forall i :: 0 <= i < |qs| ==> r[i] == JStr(qs[i])
  {
    seq(|qs|, i requires 0 <= i < |qs| => JStr(qs[i]))
  }

  lemma {:induction false} StringifiedStrings(qs: seq<string>)
    requires forall i :: 0 <= i < |qs| ==> qs[i] != ""
    ensures StringifiedItems(JStrs(qs)) == qs
  {
    if qs != [] {
      assert JStrs(qs)[1..] == JStrs(qs[1..]);
      StringifiedStrings(qs[1..]);
    }
  }

  /** The reply the system prompt asks the model for. */
  function DraftJson(reply: string, questions: seq<string>, citations: seq<Json>): Json {
    JObj(map["replyDraft" := JStr(reply), "nextQuestions" := JArr(JStrs(questions)),
             "usedCitations" := JArr(citations)])
  }

  /** A reply in the requested shape, with non-empty questions, reads back as exactly
      that draft under a lawful codec. */
  lemma DraftRoundTrip(c: Codec, reply: string, questions: seq<string>, citations: seq<Json>)
    requires Lawful(c)
    requires forall i :: 0 <= i < |questions| ==> questions[i] != ""
    ensures ParseDraft(c.stringify(DraftJson(reply, questions, citations)), c.parse)
         == ParsedDraft(reply, questions, citations, false)
  {
    var v := DraftJson(reply, questions, citations);
    assert c.parse(c.stringify(v)) == Some(v);
    StringifiedStrings(questions);
  }

  // ---------------------------------------------------------------------------------
  // draftReply

  datatype Draft = Draft(ticketId: Id, replyDraft: string, nextQuestions: seq<string>, usedCitations: seq<Json>,
                         suggestions: seq<KbService.Hit>, warning: Option<string>)

  /** What `chat` returns for a prompt pair. */
  function ChatResult(env: AiEnv, system: string, user: string): Result<string, Llm.ChatFailure> {
    var hosts := Llm.ChatHosts(env.chatConfig);
    Llm.Outcome(hosts, env.chatConfig.model.GetOr(Llm.DefaultChatModel), Llm.ChatTimeoutMs(env.chatConfig, env.toNumber),
                env.chatReplies(system, user), env.codec.parse).0
  }

  /** The usage event of a draft. */
  function DraftEvent(tenantId: Id, userId: Id, ticketId: Id, topK: nat, kbHits: nat, parseFailed: bool, nowMs: int): (e: UsageEvent)
    ensures e.tenantId == tenantId && e.eventType == AiAssistCall && e.amount == 1 && e.createdAt == nowMs
  {
    UsageEvent(tenantId, Some(userId), AiAssistCall, 1, nowMs,
      JObj(map["ticketId" := JStr(ticketId), "topK" := JNum(topK), "endpoint" := JStr("ticket-assist.draftReply"),
               "kbHits" := JNum(kbHits), "parseFailed" := JBool(parseFailed)]))
  }

  /** The draft built from a chat reply. */
  function DraftOf(ticketId: Id, raw: string, parse: string -> Option<Json>, hits: seq<KbService.Hit>): (d: Draft)
    ensures var p := ParseDraft(raw, parse);
      && d.replyDraft == p.replyDraft && d.nextQuestions == p.nextQuestions && d.usedCitations == p.usedCitations
      && d.suggestions == hits && d.ticketId == ticketId
      && (d.warning.Some? <==> p.parseFailed)
      && (p.parseFailed ==> d.replyDraft == raw && d.warning == Some(InvalidJsonWarning))
  {
    var p := ParseDraft(raw, parse);
    Draft(ticketId, p.replyDraft, p.nextQuestions, p.usedCitations, hits,
          if p.parseFailed then Some(InvalidJsonWarning) else None)
  }

  /** Whether the quota of the tenant's AI calls this month is used up, given its
      entitlement row. */
  predicate QuotaExhausted(usage: seq<UsageEvent>, ents: map<Id, Limits>, tenantId: Id, now: Calendar.UtcNow)
    requires tenantId in ents
  {
    var w := Entitlements.CurrentMonthWindow(now);
    Entitlements.AmountInWindow(usage, tenantId, AiAssistCall, w.0, w.1) >= ents[tenantId].maxAiMsgsPerMonth
  }

  /** `draftReply`: the quota check first, then the ticket and its suggestions (topK 5
      by default), then one chat call; the reply is a draft even when it is not JSON.
      One AI call is metered when the draft is returned, unless recording it fails
      (`meteringFails`), which is ignored. `now` is the clock as the quota window reads
      it and `nowMs` the same instant in milliseconds. */
  method DraftReply(db: Db, env: AiEnv, tenantId: Id, ticketId: Id, userId: Id, query: Option<string>,
                    topK: Option<nat>, now: Calendar.UtcNow, nowMs: int, meteringFails: bool)
    returns (r: Result<Draft, Exception>)
    modifies db`entitlements, db`usage
    ensures db.entitlements == Entitlements.Upserted(old(db.entitlements), tenantId, db.schemaLimits)
    ensures QuotaExhausted(old(db.usage), db.entitlements, tenantId, now) ==>
      r.Err? && r.error.kind == Forbidden && db.usage == old(db.usage)
    ensures var k := topK.GetOr(DefaultTopK);
      var s := Suggestions(db.tickets, db.comments, db.chunks, db.sources, env, tenantId, ticketId, query, k);
      !QuotaExhausted(old(db.usage), db.entitlements, tenantId, now) && s.Err? ==>
        r == Err(s.error) && db.usage == old(db.usage)
    ensures var k := topK.GetOr(DefaultTopK);
      var s := Suggestions(db.tickets, db.comments, db.chunks, db.sources, env, tenantId, ticketId, query, k);
      !QuotaExhausted(old(db.usage), db.entitlements, tenantId, now) && s.Ok? ==>
        var t, hits := s.value.0.ticket, s.value.1;
        match ChatResult(env, SystemPrompt, UserPrompt(t, hits))
        case Err(f) => r == Err(Exception(f.kind, f.message)) && db.usage == old(db.usage)
        case Ok(raw) =>
          var d := DraftOf(ticketId, raw, env.codec.parse, hits);
          && r == Ok(d)
          && db.usage == old(db.usage)
               + (if meteringFails then [] else [DraftEvent(tenantId, userId, ticketId, k, |hits|, d.warning.Some?, nowMs)])
  {
    var k := topK.GetOr(DefaultTopK);
    var quota := Entitlements.AssertCanUseAi(db, tenantId, now);
    if quota.Err? {
      return Err(quota.error);
    }
    r := DraftAfterQuota(db, env, tenantId, ticketId, userId, query, k, nowMs, meteringFails);
  }

  /** `draftReply` once the quota check has passed: the suggestions, the chat call and
      the metering of the draft. */
  method DraftAfterQuota(db: Db, env: AiEnv, tenantId: Id, ticketId: Id, userId: Id, query: Option<string>,
                         k: nat, nowMs: int, meteringFails: bool)
    returns (r: Result<Draft, Exception>)
    modifies db`usage
    ensures var s := Suggestions(db.tickets, db.comments, db.chunks, db.sources, env, tenantId, ticketId, query, k);
      s.Err? ==> r == Err(s.error) && db.usage == old(db.usage)
    ensures var s := Suggestions(db.tickets, db.comments, db.chunks, db.sources, env, tenantId, ticketId, query, k);
      s.Ok? ==>
        var t, hits := s.value.0.ticket, s.value.1;
        match ChatResult(env, SystemPrompt, UserPrompt(t, hits))
        case Err(f) => r == Err(Exception(f.kind, f.message)) && db.usage == old(db.usage)
        case Ok(raw) =>
          var d := DraftOf(ticketId, raw, env.codec.parse, hits);
          && r == Ok(d)
          && db.usage == old(db.usage)
               + (if meteringFails then [] else [DraftEvent(tenantId, userId, ticketId, k, |hits|, d.warning.Some?, nowMs)])
  {
    var found := Suggest(db, env, tenantId, ticketId, query, k);
    if found.Err? {
      return Err(found.error);
    }
    var t, hits := found.value.0.ticket, found.value.1;
    var raw, _ := Llm.Chat(env.chatConfig, env.toNumber, env.chatReplies(SystemPrompt, UserPrompt(t, hits)), env.codec.parse);
    if raw.Err? {
      return Err(Exception(raw.error.kind, raw.error.message));
    }
    var d := DraftOf(ticketId, raw.value, env.codec.parse, hits);
    if !meteringFails {
      db.usage := db.usage + [DraftEvent(tenantId, userId, ticketId, k, |hits|, d.warning.Some?, nowMs)];
    }
    r := Ok(d);
  }
}
