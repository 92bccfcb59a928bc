/** `TicketsController`: the role rule of a ticket update and the `assist` endpoint. An
    assist call answers from a recent AI comment on the ticket, else (for a dry run) from
    the process-local cache, else by retrieval and one chat call whose answer is saved as
    a comment (or, for a dry run, cached). */
module TicketsController {
  import opened Wrappers
  import opened Json
  import opened Records
  import Text
  import Seqs
  import Sorting
  import Calendar
  import Entitlements
  import Embedding
  import Llm
  import KbService
  import TicketsService
  import TicketAssist
  import AssistText
  import AiComment
  import DryRunCache

  const DefaultTopK := 5
  const DefaultTone := "neutral"
  /** The similarity a hit needs to count as strong, in thousandths. */
  const SimThreshold := 600
  const MaxCommentsForLlm := 3
  const MaxCommentChars := 800
  const MaxSourceChars := 1200
  const DedupeWindowMs := 60000

  // ---------------------------------------------------------------------------------
  // update

  const AgentCannotAssign := "AGENT cannot assign or change priority"
  const OnlyAdminAssigns := "Only ADMIN/OWNER can assign or change priority"

  /** Who may assign a ticket or change its priority: only an owner or an admin. An agent
      is told so in its own words; any other role gets the general message. */
  function UpdateDenial(role: Role, priority: Option<Priority>, assigneeId: Option<Option<Id>>): (r: Option<Exception>)
    ensures r.None? <==> IsAdmin(role) || (priority.None? && assigneeId.None?)
    ensures r.Some? ==> r.value.kind == Forbidden
    ensures r.Some? ==> r.value.message == if role == AGENT then AgentCannotAssign else OnlyAdminAssigns
  {
    var touches := priority.Some? || assigneeId.Some?;
    if role == AGENT && touches then Some(Exception(Forbidden, AgentCannotAssign))
    else if !IsAdmin(role) && touches then Some(Exception(Forbidden, OnlyAdminAssigns))
    else None
  }

  /** `update`: the role rule first, then the service's update. */
  method Update(db: Db, role: Role, tenantId: Id, actorId: Id, ticketId: Id, status: Option<TicketStatus>,
                priority: Option<Priority>, assigneeId: Option<Option<Id>>) returns (r: Result<Ticket, Exception>)
    modifies db`tickets, db`audit
    ensures UpdateDenial(role, priority, assigneeId).Some? ==>
      r == Err(UpdateDenial(role, priority, assigneeId).value) && db.tickets == old(db.tickets) && db.audit == old(db.audit)
    ensures UpdateDenial(role, priority, assigneeId).None? && !TicketsService.Owned(old(db.tickets), tenantId, ticketId) ==>
      r == Err(Exception(NotFound, TicketsService.TicketNotFound)) && db.tickets == old(db.tickets) && db.audit == old(db.audit)
    ensures UpdateDenial(role, priority, assigneeId).None? && TicketsService.Owned(old(db.tickets), tenantId, ticketId) ==>
      var u := TicketsService.Updated(old(db.tickets)[ticketId], status, priority, assigneeId);
      && r == Ok(u)
      && db.tickets == old(db.tickets)[ticketId := u]
      && db.audit == old(db.audit) + [TicketsService.UpdatedEntry(tenantId, actorId, ticketId, u)]
  {
    var denial := UpdateDenial(role, priority, assigneeId);
    if denial.Some? {
      return Err(denial.value);
    }
    r := TicketsService.UpdateTicket(db, tenantId, actorId, ticketId, status, priority, assigneeId);
  }

  // ---------------------------------------------------------------------------------
  // The comment tier

  function NewestFirstKey(c: Comment): int { -c.createdAt }

  /** The ticket's comments newest first; a stable sort, so comments of the same instant
      keep their order. */
  function NewestFirst(comments: seq<Comment>): (r: seq<Comment>)
    ensures multiset(r) == multiset(comments)
    ensures forall i, j :: 0 <= i < j < |r| ==> r[i].createdAt >= r[j].createdAt
  {
    Sorting.SortBySorted(comments, NewestFirstKey);
    var r := Sorting.SortBy(comments, NewestFirstKey);
    assert forall i, j :: 0 <= i < j < |r| ==> NewestFirstKey(r[i]) <= NewestFirstKey(r[j]);
    r
  }

  /** The cached answer a comment carries: its marker block, when it parses to an object
      or array. */
  function CachedBlock(c: Comment, parse: string -> Option<Json>): (r: Option<Json>)
    ensures r.Some? ==> IsObjectLike(r.value) && r == AiComment.ExtractCachedJson(c.body, parse)
  {
    var v := AiComment.ExtractCachedJson(c.body, parse);
    if v.Some? && IsObjectLike(v.value) then v else None
  }

  /** The cached answer of each comment, as the scan reads it. */
  function Cached(parse: string -> Option<Json>): Comment -> Option<Json> {
    c => CachedBlock(c, parse)
  }

  // The scan and its lemmas take the reading of a comment's cached answer as a
  // parameter `block`; the controller's scan reads it with `Cached(parse)`.

  /** The scan answers from this comment: the system's, dated, at most 60 s old, with a
      cached answer. */
  predicate Answers(c: Comment, author: Id, now: int, block: Comment -> Option<Json>) {
    c.authorId == author && c.createdAt != 0 && now - c.createdAt <= DedupeWindowMs && block(c).Some?
  }

  /** The scan goes on past this comment: another author's, undated, or a recent system
      comment without a cached answer. */
  predicate Passes(c: Comment, author: Id, now: int, block: Comment -> Option<Json>) {
    c.authorId != author || c.createdAt == 0 || (now - c.createdAt <= DedupeWindowMs && block(c).None?)
  }

  /** The scan over comments in the order given: skip other authors and undated
      comments, stop at the first system comment older than the window, answer from the
      first one with a cached answer. */
  function Scan(s: seq<Comment>, author: Id, now: int, block: Comment -> Option<Json>): Option<Json> {
    if s == [] then None
    else
      var c := s[0];
      if c.authorId != author || c.createdAt == 0 then Scan(s[1..], author, now, block)
      else if now - c.createdAt > DedupeWindowMs then None
      else if block(c).Some? then block(c)
      else Scan(s[1..], author, now, block)
  }

  /** A comment the scan passes leaves the answer to the comments after it. */
  lemma ScanPasses(s: seq<Comment>, author: Id, now: int, block: Comment -> Option<Json>)
    requires s != [] && Passes(s[0], author, now, block)
    ensures Scan(s, author, now, block) == Scan(s[1..], author, now, block)
  {
  }

  /** A comment that answers is the answer. */
  lemma ScanStops(s: seq<Comment>, author: Id, now: int, block: Comment -> Option<Json>)
    requires s != [] && Answers(s[0], author, now, block)
    ensures Scan(s, author, now, block) == block(s[0])
  {
  }

  /** Comments the scan passes still pass once the first comment is dropped. */
  lemma PassesTail(s: seq<Comment>, author: Id, now: int, block: Comment -> Option<Json>, k: nat)
    requires k < |s| && forall j :: 0 <= j <= k ==> Passes(s[j], author, now, block)
    ensures forall j :: 0 <= j < k ==> Passes(s[1..][j], author, now, block)
  {
    forall j | 0 <= j < k ensures Passes(s[1..][j], author, now, block) {
      assert s[1..][j] == s[j + 1];
    }
  }

  /** Comment `i` answers and every comment before it lets the scan pass. */
  predicate FirstAnswer(s: seq<Comment>, author: Id, now: int, block: Comment -> Option<Json>, i: int) {
    && 0 <= i < |s| && Answers(s[i], author, now, block)
    && forall j :: 0 <= j < i ==> Passes(s[j], author, now, block)
  }

  /** Dropping a passed first comment keeps the first answer, one place earlier. */
  lemma FirstAnswerTail(s: seq<Comment>, author: Id, now: int, block: Comment -> Option<Json>, i: nat)
    requires i > 0 && FirstAnswer(s, author, now, block, i)
    ensures Passes(s[0], author, now, block) && FirstAnswer(s[1..], author, now, block, i - 1) && s[1..][i - 1] == s[i]
  {
    PassesTail(s, author, now, block, i - 1);
    assert s[1..][i - 1] == s[i];
  }

  /** A comment that answers, after comments that all let the scan pass, is the answer. */
  lemma {:induction false} ScanAt(s: seq<Comment>, author: Id, now: int, block: Comment -> Option<Json>, i: nat)
    requires FirstAnswer(s, author, now, block, i)
    ensures Scan(s, author, now, block) == block(s[i])
  {
    if i == 0 {
      ScanStops(s, author, now, block);
    } else {
      FirstAnswerTail(s, author, now, block, i);
      ScanPasses(s, author, now, block);
      ScanAt(s[1..], author, now, block, i - 1);
    }
  }

  lemma PassesShift(s: seq<Comment>, author: Id, now: int, block: Comment -> Option<Json>, k: nat)
    requires s != [] && Passes(s[0], author, now, block) && FirstAnswer(s[1..], author, now, block, k)
    ensures FirstAnswer(s, author, now, block, k + 1) && s[k + 1] == s[1..][k]
  {
    forall j | 0 <= j < k + 1 ensures Passes(s[j], author, now, block) {
      if j > 0 { assert s[j] == s[1..][j - 1]; }
    }
  }

  /** The comment the scan answers from. */
  lemma {:induction false} ScanIndex(s: seq<Comment>, author: Id, now: int, block: Comment -> Option<Json>)
    returns (i: nat)
    requires Scan(s, author, now, block).Some?
    ensures FirstAnswer(s, author, now, block, i) && block(s[i]) == Scan(s, author, now, block)
  {
    if Answers(s[0], author, now, block) {
      i := 0;
    } else {
      assert Passes(s[0], author, now, block);
      assert Scan(s, author, now, block) == Scan(s[1..], author, now, block);
      var k := ScanIndex(s[1..], author, now, block);
      PassesShift(s, author, now, block, k);
      i := k + 1;
    }
  }

  /** An answer of the scan comes from a comment that answers, after comments that all
      let the scan pass. */
  lemma ScanFound(s: seq<Comment>, author: Id, now: int, block: Comment -> Option<Json>)
    requires Scan(s, author, now, block).Some?
    ensures exists i :: FirstAnswer(s, author, now, block, i) && block(s[i]) == Scan(s, author, now, block)
  {
    var i := ScanIndex(s, author, now, block);
  }

  /** The scan answers `v` exactly when some comment answers with `v` and every comment
      before it lets the scan pass. */
  lemma ScanAnswers(s: seq<Comment>, author: Id, now: int, block: Comment -> Option<Json>, v: Json)
    ensures Scan(s, author, now, block) == Some(v) <==>
      exists i :: FirstAnswer(s, author, now, block, i) && block(s[i]) == Some(v)
  {
    if Scan(s, author, now, block) == Some(v) {
      var i := ScanIndex(s, author, now, block);
    }
    if exists i :: FirstAnswer(s, author, now, block, i) && block(s[i]) == Some(v) {
      var i :| FirstAnswer(s, author, now, block, i) && block(s[i]) == Some(v);
      ScanAt(s, author, now, block, i);
    }
  }

  /** A system comment older than the window ends the scan: nothing after it is used. */
  lemma {:induction false} StaleCommentStops(s: seq<Comment>, author: Id, now: int, block: Comment -> Option<Json>, k: nat)
    requires k < |s| && s[k].authorId == author && s[k].createdAt != 0 && now - s[k].createdAt > DedupeWindowMs
    requires forall j :: 0 <= j < k ==> Passes(s[j], author, now, block)
    ensures Scan(s, author, now, block).None?
  {
    if k > 0 {
      ScanPasses(s, author, now, block);
      PassesTail(s, author, now, block, k - 1);
      assert s[1..][k - 1] == s[k];
      StaleCommentStops(s[1..], author, now, block, k - 1);
    }
  }

  /** The comment-scan loop of `assist`: newest first, with `continue` and `break`. */
  method ScanComments(comments: seq<Comment>, author: Id, now: int, parse: string -> Option<Json>)
    returns (found: Option<Json>)
    ensures found == Scan(NewestFirst(comments), author, now, Cached(parse))
  {
    var sorted := NewestFirst(comments);
    found := None;
    var i := 0;
    while i < |sorted|
      invariant 0 <= i <= |sorted|
      invariant Scan(sorted[i..], author, now, Cached(parse)) == Scan(sorted, author, now, Cached(parse))
    {
      var c := sorted[i];
      assert sorted[i..][1..] == sorted[i + 1..];
      if c.authorId != author {
        i := i + 1;
        continue;
      }
      if c.createdAt == 0 {
        i := i + 1;
        continue;
      }
      if now - c.createdAt > DedupeWindowMs {
        return None;
      }
      var cached := AiComment.ExtractCachedJson(c.body, parse);
      if cached.Some? && IsObjectLike(cached.value) {
        return cached;
      }
      i := i + 1;
    }
  }

  // ---------------------------------------------------------------------------------
  // Hit selection

  predicate ContainsAny(t: string, words: seq<string>) {
    exists i :: 0 <= i < |words| && Text.Contains(t, words[i])
  }

  /** What makes the query a login ticket. */
  const LoginTicketWords := ["login", "log in", "signin", "sign in", "password", "reset", "otp", "token"]
  /** What makes the query a billing ticket, and a hit relevant to billing. */
  const BillingWords := ["charged", "charge", "billing", "refund", "invoice", "payment"]
  /** What makes a hit relevant to a login ticket. */
  const LoginHitWords := ["login", "log in", "password", "reset", "token", "device time", "timestamp", "browser"]

  /** The text of a hit that the keyword tests read, lower-cased. */
  function HitText(h: KbService.Hit): string {
    Text.ToLower(h.filename + "\n" + h.content + "\n" + h.snippet)
  }

  /** Which filter the query calls for: one only when exactly one topic matches. */
  datatype Focus = LoginFocus | BillingFocus | NoFocus

  function FocusOf(isLogin: bool, isBilling: bool): (f: Focus)
    ensures f == LoginFocus <==> isLogin && !isBilling
    ensures f == BillingFocus <==> isBilling && !isLogin
  {
    if isLogin && !isBilling then LoginFocus
    else if isBilling && !isLogin then BillingFocus
    else NoFocus
  }

  predicate Relevant(f: Focus, h: KbService.Hit) {
    match f
    case LoginFocus => ContainsAny(HitText(h), LoginHitWords) && !ContainsAny(HitText(h), BillingWords)
    case BillingFocus => ContainsAny(HitText(h), BillingWords)
    case NoFocus => true
  }

  /** The hits relevant to the focus, in order. */
  function Filtered(hits: seq<KbService.Hit>, f: Focus): (r: seq<KbService.Hit>)
    ensures |r| <= |hits|
  {
    if hits == [] then []
    else (if Relevant(f, hits[0]) then [hits[0]] else []) + Filtered(hits[1..], f)
  }

  lemma {:induction false} FilteredMembers(hits: seq<KbService.Hit>, f: Focus, h: KbService.Hit)
    ensures h in Filtered(hits, f) <==> h in hits && Relevant(f, h)
  {
    if hits != [] {
      FilteredMembers(hits[1..], f, h);
      assert hits == [hits[0]] + hits[1..];
    }
  }

  /** Without a focus the filter keeps every hit. */
  lemma {:induction false} UnfocusedKeepsAll(hits: seq<KbService.Hit>)
    ensures Filtered(hits, NoFocus) == hits
  {
    if hits != [] {
      UnfocusedKeepsAll(hits[1..]);
      assert hits == [hits[0]] + hits[1..];
    }
  }

  /** The hits at or above the similarity threshold, in order. */
  function Strong(hits: seq<KbService.Hit>): (r: seq<KbService.Hit>)
    ensures |r| <= |hits|
  {
    if hits == [] then []
    else (if hits[0].similarity >= SimThreshold then [hits[0]] else []) + Strong(hits[1..])
  }

  lemma {:induction false} StrongMembers(hits: seq<KbService.Hit>, h: KbService.Hit)
    ensures h in Strong(hits) <==> h in hits && h.similarity >= SimThreshold
  {
    if hits != [] {
      StrongMembers(hits[1..], h);
      assert hits == [hits[0]] + hits[1..];
    }
  }

  /** The strong filtered hits, else the filtered hits, else all hits. */
  function Chosen(hits: seq<KbService.Hit>, filtered: seq<KbService.Hit>): seq<KbService.Hit> {
    var strong := Strong(filtered);
    if strong != [] then strong else if filtered != [] then filtered else hits
  }

  /** The cascade: when some filtered hit is strong, exactly the strong filtered hits are
      chosen; else the filtered hits if any; else all hits. */
  lemma ChosenCascade(hits: seq<KbService.Hit>, f: Focus, h: KbService.Hit)
    ensures var filtered := Filtered(hits, f);
      var chosen := Chosen(hits, filtered);
      && ((exists g :: g in filtered && g.similarity >= SimThreshold) ==>
            (h in chosen <==> h in hits && Relevant(f, h) && h.similarity >= SimThreshold))
      && (!(exists g :: g in filtered && g.similarity >= SimThreshold) && filtered != [] ==> chosen == filtered)
      && (filtered == [] ==> chosen == hits)
  {
    var filtered := Filtered(hits, f);
    StrongMembers(filtered, h);
    FilteredMembers(hits, f, h);
    if exists g :: g in filtered && g.similarity >= SimThreshold {
      var g :| g in filtered && g.similarity >= SimThreshold;
      StrongMembers(filtered, g);
    } else if Strong(filtered) != [] {
      StrongMembers(filtered, Strong(filtered)[0]);
    }
  }

  predicate HasChunk(hits: seq<KbService.Hit>, id: Id) {
    exists i :: 0 <= i < |hits| && hits[i].chunkId == id
  }

  /** The `seen`-set filter: the first hit of each non-empty chunk id, in order. */
  function FirstPerChunk(hits: seq<KbService.Hit>): (r: seq<KbService.Hit>)
    ensures forall i :: 0 <= i < |r| ==> r[i].chunkId != "" && r[i] in hits
    ensures forall i, j :: 0 <= i < j < |r| ==> r[i].chunkId != r[j].chunkId
  {
    if hits == [] then []
    else
      var init := hits[..|hits| - 1];
      var last := hits[|hits| - 1];
      var r := FirstPerChunk(init);
      assert forall h :: h in init ==> h in hits;
      if last.chunkId == "" || HasChunk(r, last.chunkId) then r else r + [last]
  }

  /** A chunk id is kept exactly when some hit has it and it is not empty. */
  lemma {:induction false} FirstPerChunkIds(hits: seq<KbService.Hit>, id: Id)
    ensures HasChunk(FirstPerChunk(hits), id) <==> id != "" && HasChunk(hits, id)
  {
    if hits != [] {
      var init := hits[..|hits| - 1];
      var last := hits[|hits| - 1];
      var r := FirstPerChunk(init);
      FirstPerChunkIds(init, id);
      var out := FirstPerChunk(hits);
      assert forall i :: 0 <= i < |init| ==> init[i] == hits[i];
      assert HasChunk(hits, id) <==> HasChunk(init, id) || last.chunkId == id by {
        if HasChunk(hits, id) && last.chunkId != id {
          var i :| 0 <= i < |hits| && hits[i].chunkId == id;
          assert i < |init| && init[i] == hits[i];
        }
        if HasChunk(init, id) {
          var i :| 0 <= i < |init| && init[i].chunkId == id;
          assert hits[i] == init[i];
        }
      }
      assert HasChunk(r, id) ==> HasChunk(out, id) by {
        if HasChunk(r, id) {
          var i :| 0 <= i < |r| && r[i].chunkId == id;
          assert out[i] == r[i];
        }
      }
      if out == r + [last] {
        assert out[|r|] == last;
        assert HasChunk(out, id) <==> HasChunk(r, id) || last.chunkId == id by {
          if HasChunk(out, id) && last.chunkId != id {
            var i :| 0 <= i < |out| && out[i].chunkId == id;
            assert i < |r| && r[i] == out[i];
          }
        }
      }
    }
  }

  /** The hit kept for a chunk id is the first hit with that id. */
  lemma {:induction false} FirstPerChunkFirstWins(hits: seq<KbService.Hit>, i: nat)
    requires i < |hits| && hits[i].chunkId != ""
    requires forall j :: 0 <= j < i ==> hits[j].chunkId != hits[i].chunkId
    ensures hits[i] in FirstPerChunk(hits)
  {
    var init := hits[..|hits| - 1];
    var r := FirstPerChunk(init);
    if i < |hits| - 1 {
      FirstPerChunkFirstWins(init, i);
      assert init[i] == hits[i];
    } else {
      FirstPerChunkIds(init, hits[i].chunkId);
      assert !HasChunk(init, hits[i].chunkId) by {
        forall j | 0 <= j < |init| ensures init[j].chunkId != hits[i].chunkId {
          assert init[j] == hits[j];
        }
      }
    }
  }

  /** `finalHits`: the first hit of each chunk id among the chosen ones, at most `topK`. */
  function FinalHits(chosen: seq<KbService.Hit>, topK: nat): (r: seq<KbService.Hit>)
    ensures |r| <= topK
    ensures forall i :: 0 <= i < |r| ==> r[i].chunkId != "" && r[i] in chosen
    ensures forall i, j :: 0 <= i < j < |r| ==> r[i].chunkId != r[j].chunkId
    ensures |r| == if topK < |FirstPerChunk(chosen)| then topK else |FirstPerChunk(chosen)|
    ensures r == FirstPerChunk(chosen)[..|r|]
  {
    Seqs.Take(FirstPerChunk(chosen), topK)
  }

  /** What the selection cascade computed, kept for the debug block. */
  datatype Selection = Selection(isLogin: bool, isBilling: bool, filtered: seq<KbService.Hit>, final: seq<KbService.Hit>)

  function Select(hits: seq<KbService.Hit>, queryText: string, topK: nat): (s: Selection)
    ensures |s.final| <= topK
    ensures forall i :: 0 <= i < |s.final| ==> s.final[i].chunkId != "" && s.final[i] in hits
    ensures forall i, j :: 0 <= i < j < |s.final| ==> s.final[i].chunkId != s.final[j].chunkId
  {
    var lower := Text.ToLower(queryText);
    var isLogin := ContainsAny(lower, LoginTicketWords);
    var isBilling := ContainsAny(lower, BillingWords);
    var filtered := Filtered(hits, FocusOf(isLogin, isBilling));
    var chosen := Chosen(hits, filtered);
    forall h | h in chosen ensures h in hits {
      FilteredMembers(hits, FocusOf(isLogin, isBilling), h);
      StrongMembers(filtered, h);
    }
    Selection(isLogin, isBilling, filtered, FinalHits(chosen, topK))
  }

  // ---------------------------------------------------------------------------------
  // The query and the prompts

  /** The last three comments, or all of them when there are fewer. */
  function RecentComments(comments: seq<Comment>): (r: seq<Comment>)
    ensures |r| == if |comments| < MaxCommentsForLlm then |comments| else MaxCommentsForLlm
    ensures r == comments[|comments| - |r|..]
  {
    if |comments| <= MaxCommentsForLlm then comments else comments[|comments| - MaxCommentsForLlm..]
  }

  /** One comment as the query shows it: its time (`dateText` renders a `Date`) and its
      body cut to 800 characters. */
  function CommentLine(c: Comment, dateText: int -> string): string {
    "- (" + dateText(c.createdAt) + ") " + AssistText.Truncate(c.body, MaxCommentChars)
  }

  function CommentLines(comments: seq<Comment>, dateText: int -> string): (r: seq<string>)
    ensures |r| == |comments| && forall i :: 0 <= i < |r| ==> r[i] == CommentLine(comments[i], dateText)
  {
    seq(|comments|, i requires 0 <= i < |comments| => CommentLine(comments[i], dateText))
  }

  /** A comment line is never empty, so the comments paragraph is present exactly when
      the ticket has comments. */
  lemma CommentsBlockNonEmpty(comments: seq<Comment>, dateText: int -> string)
    requires comments != []
    ensures Text.Join(CommentLines(RecentComments(comments), dateText), "\n") != ""
  {
    var lines := CommentLines(RecentComments(comments), dateText);
    assert lines[0][..3] == "- (";
    if |lines| > 1 {
      assert Text.Join(lines, "\n")[..|lines[0]|] == lines[0];
    }
  }

  /** The title and description paragraphs the query always starts with. */
  function QueryHead(t: Ticket): string {
    "TITLE: " + t.title + "\n\n" + "DESCRIPTION: " + t.description
  }

  /** The comments paragraph, with its heading. */
  function CommentsParagraph(comments: seq<Comment>, dateText: int -> string): string {
    "\n\n" + "COMMENTS:\n" + Text.Join(CommentLines(RecentComments(comments), dateText), "\n")
  }

  /** The query text: the caller's query, else the title, the description and the last
      three comments, each part in its own paragraph; the comments paragraph is left out
      when it would be empty, which is when there are no comments. */
  function AssistQuery(query: Option<string>, t: Ticket, comments: seq<Comment>, dateText: int -> string): (q: string)
    ensures query.Some? ==> q == query.value
    ensures query.None? ==> Text.StartsWith(q, QueryHead(t))
    ensures query.None? && comments == [] ==> q == QueryHead(t)
  {
    if query.Some? then query.value
    else if comments == [] then QueryHead(t)
    else
      Text.StartsWithAppend(QueryHead(t), CommentsParagraph(comments, dateText));
      QueryHead(t) + CommentsParagraph(comments, dateText)
  }

  const AssistSystemPrompt :=
    "You are a support agent assistant. Use ONLY the provided KB sources.\n"
    + "Return STRICT JSON only (no markdown, no prose outside JSON).\n"
    + "HARD RULE: The customer_reply MUST focus only on the current ticket issue.\n"
    + "Do NOT mention refunds/billing unless the ticket is explicitly about billing/charges.\n\n"
    + "JSON must match this schema exactly:\n"
    + "{\n"
    + "  \"customer_reply\": string,\n"
    + "  \"internal_notes\": string,\n"
    + "  \"next_steps\": string[],\n"
    + "  \"questions_for_customer\": string[],\n"
    + "  \"citations\": { \"source\": string, \"filename\": string, \"chunkId\": string }[]\n"
    + "}\n"

  /** The `n`-th final hit as a numbered source, its content cut to 1200 characters. */
  function SourceEntry(n: nat, h: KbService.Hit): string {
    "SOURCE S" + Text.NatToDecimal(n) + "\n"
    + "filename: " + h.filename + "\n"
    + "chunkId: " + h.chunkId + "\n"
    + "similarity: " + TicketAssist.Fixed3(h.similarity) + "\n"
    + "content:\n" + AssistText.Truncate(h.content, MaxSourceChars) + "\n"
  }

  function SourcesBlock(hits: seq<KbService.Hit>): (r: string)
    ensures hits == [] ==> r == ""
  {
    Text.Join(seq(|hits|, i requires 0 <= i < |hits| => SourceEntry(i + 1, hits[i])), "\n---\n")
  }

  function AssistUserPrompt(queryText: string, hits: seq<KbService.Hit>, tone: string): string {
    var block := SourcesBlock(hits);
    "Ticket:\n" + queryText + "\n\n"
    + "KB Sources:\n" + (if block == "" then "(none)" else block) + "\n\n"
    + "Task:\n"
    + "Generate a helpful response in JSON with keys:\n"
    + "customer_reply, internal_notes, next_steps, questions_for_customer, citations.\n"
    + "- customer_reply: customer-facing reply (" + tone + " tone)\n"
    + "- internal_notes: short internal summary\n"
    + "- next_steps: array of strings\n"
    + "- questions_for_customer: array of strings\n"
    + "- citations: array of objects {source:\"S1\", filename, chunkId}\n"
    + "Cite only sources you actually used.\n"
  }

  // ---------------------------------------------------------------------------------
  // Answers

  /** `v.name`, with `undefined` read as `null`. */
  function Field(v: Json, name: string): Json {
    Get(v, name).GetOr(JNull)
  }

  /** The five answer fields. */
  datatype Draft = Draft(customerReply: string, internalNotes: string, nextSteps: seq<string>,
                         questions: seq<string>, citations: seq<Json>)

  /** `finalObj` read from a parsed reply: the string fields, the non-empty strings of the
      two lists, and the citations array. */
  function DraftOf(v: Json): (d: Draft)
    ensures d.customerReply == AsText(Field(v, "customer_reply")) && d.internalNotes == AsText(Field(v, "internal_notes"))
    ensures d.nextSteps == TextItems(Field(v, "next_steps")) && d.questions == TextItems(Field(v, "questions_for_customer"))
    ensures d.citations == ArrayItems(Field(v, "citations"))
  {
    Draft(AsText(Field(v, "customer_reply")), AsText(Field(v, "internal_notes")), TextItems(Field(v, "next_steps")),
          TextItems(Field(v, "questions_for_customer")), ArrayItems(Field(v, "citations")))
  }

  const DeviceTimeQuestion := "Is your device date/time/timezone set correctly right now?"
  const BrowserQuestion := "What browser were you using when trying to login?"
  const TimestampQuestion := "What timestamp (with timezone) did you attempt to login?"

  /** The final hits' texts, one paragraph each. */
  function SourcesText(hits: seq<KbService.Hit>): string {
    Text.Join(seq(|hits|, i requires 0 <= i < |hits| => HitText(hits[i])), "\n")
  }

  /** The questions the sources suggest asking. */
  function Hints(sourcesText: string): (r: seq<string>)
    ensures DeviceTimeQuestion in r <==> Text.Contains(sourcesText, "device time")
    ensures BrowserQuestion in r <==> Text.Contains(sourcesText, "browser") && Text.Contains(sourcesText, "timestamp")
  {
    (if Text.Contains(sourcesText, "device time") then [DeviceTimeQuestion] else [])
    + (if Text.Contains(sourcesText, "browser") && Text.Contains(sourcesText, "timestamp")
       then [BrowserQuestion, TimestampQuestion] else [])
  }

  /** The model's questions merged, then the hints merged after them. */
  function FinalQuestions(questions: seq<string>, hits: seq<KbService.Hit>): seq<string> {
    AssistText.Values(AssistText.MergeAll([], questions + Hints(SourcesText(hits))))
  }

  /** The model's questions come first, and no two final questions share a key. */
  lemma FinalQuestionsShape(questions: seq<string>, hits: seq<KbService.Hit>)
    ensures AssistText.Values(AssistText.MergeAll([], questions)) <= FinalQuestions(questions, hits)
    ensures var qs := FinalQuestions(questions, hits);
      forall i, j :: 0 <= i < j < |qs| ==> AssistText.NormalizeQuestion(qs[i]) != AssistText.NormalizeQuestion(qs[j])
  {
    var all := questions + Hints(SourcesText(hits));
    AssistText.MergedQuestionsDistinct(all);
    MergePrefix(questions, Hints(SourcesText(hits)));
  }

  lemma {:induction false} MergePrefix(a: seq<string>, b: seq<string>)
    ensures AssistText.MergeAll([], a) <= AssistText.MergeAll([], a + b)
    decreases |b|
  {
    if b != [] {
      var init := b[..|b| - 1];
      assert (a + b)[..|a + b| - 1] == a + init;
      MergePrefix(a, init);
    } else {
      assert a + b == a;
    }
  }

  function StringsJson(ss: seq<string>): (r: Json)
    ensures r.JArr? && |r.items| == |ss| && forall i :: 0 <= i < |ss| ==> r.items[i] == JStr(ss[i])
  {
    JArr(seq(|ss|, i requires 0 <= i < |ss| => JStr(ss[i])))
  }

  /** `{ kbTopK, kbHits, ...finalObj }`: what a comment embeds and a dry run caches. */
  function DraftJson(topK: nat, kbHits: nat, d: Draft): Json {
    JObj(map[
      "kbTopK" := JNum(topK), "kbHits" := JNum(kbHits),
      "customer_reply" := JStr(d.customerReply), "internal_notes" := JStr(d.internalNotes),
      "next_steps" := StringsJson(d.nextSteps), "questions_for_customer" := StringsJson(d.questions),
      "citations" := JArr(d.citations)])
  }

  /** The response of a generated or cached answer. */
  datatype Debug = Debug(simThreshold: int, originalKbHits: nat, filteredKbHits: nat, finalKbHits: nat,
                         isLoginTicket: bool, isBillingTicket: bool)

  datatype AssistReply =
    | Answer(ticketId: Id, kbTopK: Json, kbHits: Json, commentSaved: bool, commentSkipped: bool,
             commentError: Option<string>, draft: Draft)
      /** The model's text when it is not JSON; nothing was saved or skipped. */
    | ModelOutput(ticketId: Id, topK: nat, finalKbHits: nat, modelOutput: string, debug: Debug)

  /** `normalizeQuestionsArray` of a cached value's questions. */
  function CachedQuestions(v: Json): seq<string> {
    var arr := Field(v, "questions_for_customer");
    if arr.JArr? then AssistText.Values(AssistText.MergeAll([], AssistText.Texts(arr.items))) else []
  }

  /** The answer given from a cached value: nothing saved, the call marked as skipped. */
  function CachedAnswer(ticketId: Id, v: Json, topK: nat): (r: AssistReply)
    ensures r.Answer? && !r.commentSaved && r.commentSkipped && r.commentError.None?
  {
    Answer(ticketId, GetOr(v, "kbTopK", JNum(topK)), GetOr(v, "kbHits", JNum(0)), false, true, None,
           Draft(AsText(Field(v, "customer_reply")), AsText(Field(v, "internal_notes")), TextItems(Field(v, "next_steps")),
                 CachedQuestions(v), ArrayItems(Field(v, "citations"))))
  }

  lemma {:induction false} TextItemsOfStrings(ss: seq<string>)
    requires forall i :: 0 <= i < |ss| ==> ss[i] != ""
    ensures TextItems(StringsJson(ss)) == ss
  {
    if ss != [] {
      TextItemsOfStrings(ss[1..]);
      assert StringsJson(ss).items[1..] == StringsJson(ss[1..]).items;
    }
  }

  lemma TextsOfStrings(ss: seq<string>)
    ensures AssistText.Texts(StringsJson(ss).items) == ss
  {
  }

  /** The fields of a cached value, read back. */
  lemma DraftJsonFields(topK: nat, kbHits: nat, d: Draft)
    ensures var v := DraftJson(topK, kbHits, d);
      && GetOr(v, "kbTopK", JNum(0)) == JNum(topK) && GetOr(v, "kbHits", JNum(0)) == JNum(kbHits)
      && Field(v, "customer_reply") == JStr(d.customerReply) && Field(v, "internal_notes") == JStr(d.internalNotes)
      && Field(v, "next_steps") == StringsJson(d.nextSteps) && Field(v, "questions_for_customer") == StringsJson(d.questions)
      && Field(v, "citations") == JArr(d.citations)
  {
  }

  /** The cached questions read back are the stored ones, normalized once more. */
  lemma CachedQuestionsOfDraft(topK: nat, kbHits: nat, d: Draft)
    ensures CachedQuestions(DraftJson(topK, kbHits, d)) == AssistText.Values(AssistText.MergeAll([], d.questions))
  {
    DraftJsonFields(topK, kbHits, d);
    TextsOfStrings(d.questions);
  }

  /** The draft read back from its cached value is the draft that was stored. */
  lemma CachedDraftReplays(topK: nat, kbHits: nat, d: Draft, questions: seq<string>, anyTopK: nat)
    requires forall i :: 0 <= i < |d.nextSteps| ==> d.nextSteps[i] != ""
    requires d.questions == AssistText.Values(AssistText.MergeAll([], questions))
    ensures CachedAnswer("", DraftJson(topK, kbHits, d), anyTopK).draft == d
  {
    DraftJsonFields(topK, kbHits, d);
    TextItemsOfStrings(d.nextSteps);
    CachedQuestionsOfDraft(topK, kbHits, d);
    AssistText.MergeOfMerged(questions);
  }

  /** An answer read back from its cached value is the answer that was given, marked as
      skipped: same reply, notes, steps, questions and citations, and the same counts. */
  lemma CachedAnswerReplays(ticketId: Id, topK: nat, kbHits: nat, d: Draft, questions: seq<string>, anyTopK: nat)
    requires forall i :: 0 <= i < |d.nextSteps| ==> d.nextSteps[i] != ""
    requires d.questions == AssistText.Values(AssistText.MergeAll([], questions))
    ensures CachedAnswer(ticketId, DraftJson(topK, kbHits, d), anyTopK)
         == Answer(ticketId, JNum(topK), JNum(kbHits), false, true, None, d)
  {
    var v := DraftJson(topK, kbHits, d);
    CachedDraftReplays(topK, kbHits, d, questions, anyTopK);
    CachedAnswerSplit(ticketId, v, anyTopK);
    DraftJsonCounts(topK, kbHits, d, JNum(anyTopK));
    DraftJsonCounts(topK, kbHits, d, JNum(0));
  }

  /** The cached answer's draft does not depend on the ticket id. */
  lemma CachedAnswerSplit(ticketId: Id, v: Json, anyTopK: nat)
    ensures CachedAnswer(ticketId, v, anyTopK)
         == Answer(ticketId, GetOr(v, "kbTopK", JNum(anyTopK)), GetOr(v, "kbHits", JNum(0)), false, true, None,
                   CachedAnswer("", v, anyTopK).draft)
  {
  }

  lemma DraftJsonCounts(topK: nat, kbHits: nat, d: Draft, fallback: Json)
    ensures GetOr(DraftJson(topK, kbHits, d), "kbTopK", fallback) == JNum(topK)
    ensures GetOr(DraftJson(topK, kbHits, d), "kbHits", fallback) == JNum(kbHits)
  {
    var v := DraftJson(topK, kbHits, d);
    assert Get(v, "kbTopK") == Some(JNum(topK));
    assert Get(v, "kbHits") == Some(JNum(kbHits));
  }

  // ---------------------------------------------------------------------------------
  // The request

  const MaxTopK := 20
  const MaxQueryLength := 10000
  const Tones := ["friendly", "neutral", "formal"]
  /** The message of the `BadRequest` a body that fails validation gets; the flattened
      validation issues in its response are not modelled. */
  const InvalidBody := "Bad Request Exception"

  /** The validated body of an assist call; every field is optional. */
  datatype AssistRequest = AssistRequest(topK: Option<nat>, query: Option<string>, tone: Option<string>, dryRun: Option<bool>)

  /** One optional property: `Some(None)` when absent, `None` when present but invalid. */
  function TopKOf(v: Option<Json>): Option<Option<nat>> {
    match v
    case None => Some(None)
    case Some(j) => if j.JNum? && 1 <= j.n <= MaxTopK then Some(Some(j.n)) else None
  }

  function QueryOf(v: Option<Json>): Option<Option<string>> {
    match v
    case None => Some(None)
    case Some(j) => if j.JStr? && 1 <= |j.s| <= MaxQueryLength then Some(Some(j.s)) else None
  }

  function ToneOf(v: Option<Json>): Option<Option<string>> {
    match v
    case None => Some(None)
    case Some(j) => if j.JStr? && j.s in Tones then Some(Some(j.s)) else None
  }

  function DryRunOf(v: Option<Json>): Option<Option<bool>> {
    match v
    case None => Some(None)
    case Some(j) => if j.JBool? then Some(Some(j.b)) else None
  }

  /** `AssistDto.safeParse`: an object whose four properties are each absent or valid (an
      integer topK from 1 to 20, a query of 1 to 10000 characters, one of three tones, a
      boolean dry-run flag); `null` is not absent, and other properties are ignored. */
  function ParseAssistBody(body: Json): (r: Result<AssistRequest, Exception>)
    ensures !body.JObj? ==> r == Err(Exception(BadRequest, InvalidBody))
    ensures r.Err? ==> r.error == Exception(BadRequest, InvalidBody)
    ensures r.Ok? ==> var q := r.value;
      && (q.topK.None? <==> Get(body, "topK").None?) && (q.query.None? <==> Get(body, "query").None?)
      && (q.tone.None? <==> Get(body, "tone").None?) && (q.dryRun.None? <==> Get(body, "dryRun").None?)
      && (q.topK.Some? ==> 1 <= q.topK.value <= MaxTopK && Get(body, "topK") == Some(JNum(q.topK.value)))
      && (q.query.Some? ==> 1 <= |q.query.value| <= MaxQueryLength && Get(body, "query") == Some(JStr(q.query.value)))
      && (q.tone.Some? ==> q.tone.value in Tones && Get(body, "tone") == Some(JStr(q.tone.value)))
      && (q.dryRun.Some? ==> Get(body, "dryRun") == Some(JBool(q.dryRun.value)))
    ensures (body.JObj? && Get(body, "topK").None? && Get(body, "query").None? && Get(body, "tone").None?
             && Get(body, "dryRun").None?) ==> r == Ok(AssistRequest(None, None, None, None))
  {
    var topK, query := TopKOf(Get(body, "topK")), QueryOf(Get(body, "query"));
    var tone, dryRun := ToneOf(Get(body, "tone")), DryRunOf(Get(body, "dryRun"));
    if body.JObj? && topK.Some? && query.Some? && tone.Some? && dryRun.Some? then
      Ok(AssistRequest(topK.value, query.value, tone.value, dryRun.value))
    else Err(Exception(BadRequest, InvalidBody))
  }

  /** One assist call: who asks about which ticket, with the defaults filled in (top 5,
      neutral tone, no dry run). */
  datatype Call = Call(tenantId: Id, userId: Id, ticketId: Id, topK: nat, tone: string, dryRun: bool, query: Option<string>)

  function CallOf(tenantId: Id, userId: Id, ticketId: Id, q: AssistRequest): Call {
    Call(tenantId, userId, ticketId, q.topK.GetOr(DefaultTopK), q.tone.GetOr(DefaultTone), q.dryRun.GetOr(false), q.query)
  }

  // ---------------------------------------------------------------------------------
  // Usage

  /** `Number(v)` as the usage meta stores it: `null` is 0, a boolean 0 or 1, any other
      value the number its text reads as; JSON has no NaN, infinity or (here) fraction,
      so those are stored as `null`. */
  function NumberJson(v: Json, toNumber: string -> JsNumber): Json {
    match v
    case JNull => JNum(0)
    case JBool(b) => JNum(if b then 1 else 0)
    case JNum(_) => v
    case _ =>
      var n := toNumber(JsString(v));
      if n.Finite? && n.exact then JNum(n.floor) else JNull
  }

  /** The usage event of an assist call (`safeLogAssistUsage`): one AI call, with the
      request, the hit count and how it was answered in its meta. */
  function AssistEvent(c: Call, topK: Json, kbHits: Json, cacheType: Option<string>, parseFailed: bool, nowMs: int)
    : (e: UsageEvent)
    ensures e.tenantId == c.tenantId && e.userId == Some(c.userId) && e.eventType == AiAssistCall
    ensures e.amount == 1 && e.createdAt == nowMs
  {
    UsageEvent(c.tenantId, Some(c.userId), AiAssistCall, 1, nowMs,
      JObj(map["ticketId" := JStr(c.ticketId), "topK" := topK, "tone" := JStr(c.tone), "dryRun" := JBool(c.dryRun),
               "kbHits" := kbHits, "cached" := JBool(cacheType.Some?),
               "cacheType" := (if cacheType.Some? then JStr(cacheType.value) else JNull),
               "parseFailed" := JBool(parseFailed)]))
  }

  /** The event of an answer replayed from a cached value `v`. */
  function CachedEvent(c: Call, v: Json, cacheType: string, toNumber: string -> JsNumber, nowMs: int): UsageEvent {
    AssistEvent(c, GetOr(v, "kbTopK", JNum(c.topK)), NumberJson(GetOr(v, "kbHits", JNum(0)), toNumber), Some(cacheType), false, nowMs)
  }

  /** The event of a generated answer. */
  function GeneratedEvent(c: Call, finalHits: nat, parseFailed: bool, nowMs: int): UsageEvent {
    AssistEvent(c, JNum(c.topK), JNum(finalHits), None, parseFailed, nowMs)
  }

  /** What a metering write adds: nothing when it fails, which is ignored. */
  function Metered(e: UsageEvent, meteringFails: bool): seq<UsageEvent> {
    if meteringFails then [] else [e]
  }

  /** Every assist answer counts as one AI call of its month, unless metering fails. */
  lemma MeteredCall(usage: seq<UsageEvent>, e: UsageEvent, meteringFails: bool, start: int, end: int)
    requires e.eventType == AiAssistCall && e.amount == 1 && start <= e.createdAt < end
    ensures Entitlements.AmountInWindow(usage + Metered(e, meteringFails), e.tenantId, AiAssistCall, start, end)
         == Entitlements.AmountInWindow(usage, e.tenantId, AiAssistCall, start, end) + (if meteringFails then 0 else 1)
  {
    if meteringFails {
      assert usage + Metered(e, meteringFails) == usage;
    } else {
      Entitlements.RecordEvent(usage, e, e.tenantId, AiAssistCall, start, end);
    }
  }

  method LogAssistUsage(db: Db, e: UsageEvent, meteringFails: bool)
    modifies db`usage
    ensures db.usage == old(db.usage) + Metered(e, meteringFails)
  {
    if !meteringFails {
      db.usage := db.usage + [e];
    }
  }

  // ---------------------------------------------------------------------------------
  // The cached tiers

  /** `AI_SYSTEM_USER_ID` is set to a non-empty id. */
  predicate AuthorSet(author: Option<Id>) {
    author.Some? && author.value != ""
  }

  /** What the comment tier answers from: with a system author and some comments, the
      scan of the comments newest first. */
  function CommentHit(author: Option<Id>, comments: seq<Comment>, nowMs: int, parse: string -> Option<Json>): Option<Json> {
    if AuthorSet(author) && comments != [] then Scan(NewestFirst(comments), author.value, nowMs, Cached(parse)) else None
  }

  method CommentTier(author: Option<Id>, comments: seq<Comment>, nowMs: int, parse: string -> Option<Json>)
    returns (hit: Option<Json>)
    ensures hit == CommentHit(author, comments, nowMs, parse)
    ensures hit.Some? ==> IsObjectLike(hit.value)
  {
    hit := None;
    if AuthorSet(author) && comments != [] {
      hit := ScanComments(comments, author.value, nowMs, parse);
      if hit.Some? {
        var i := ScanIndex(NewestFirst(comments), author.value, nowMs, Cached(parse));
        assert hit == CachedBlock(NewestFirst(comments)[i], parse);
      }
    }
  }

  /** What the dry-run tier answers from: the entry under the call's key once the cache
      is cleaned. */
  function DryRunHit(items: seq<DryRunCache.Item>, c: Call, comments: seq<Comment>, nowMs: int): Option<DryRunCache.Entry> {
    DryRunCache.Lookup(DryRunCache.Cleaned(items, nowMs),
                       DryRunCache.KeyOf(c.tenantId, c.ticketId, c.topK, c.tone, comments, c.query))
  }

  /** The dry-run tier: clean the cache, then look the call's key up; a hit has not
      expired. */
  method DryRunTier(cache: DryRunCache.Cache, c: Call, comments: seq<Comment>, nowMs: int)
    returns (hit: Option<DryRunCache.Entry>)
    requires cache.Valid()
    modifies cache
    ensures cache.items == DryRunCache.Cleaned(old(cache.items), nowMs) && cache.Valid()
    ensures hit == DryRunHit(old(cache.items), c, comments, nowMs)
    ensures hit.Some? ==> hit.value.expiresAt > nowMs
  {
    cache.Cleanup(nowMs);
    var key := DryRunCache.CacheKey(c.tenantId, c.ticketId, c.topK, c.tone, comments, c.query);
    DryRunCache.CleanedLookupLive(old(cache.items), nowMs, key);
    hit := cache.Hit(key, nowMs);
  }

  /** An answer replayed from a cached value: metered, nothing saved. */
  method AnswerFromCache(db: Db, c: Call, v: Json, cacheType: string, toNumber: string -> JsNumber, nowMs: int,
                         meteringFails: bool)
    returns (r: AssistReply)
    modifies db`usage
    ensures r == CachedAnswer(c.ticketId, v, c.topK)
    ensures db.usage == old(db.usage) + Metered(CachedEvent(c, v, cacheType, toNumber, nowMs), meteringFails)
  {
    LogAssistUsage(db, CachedEvent(c, v, cacheType, toNumber, nowMs), meteringFails);
    var questions := AssistText.NormalizeQuestionsArray(Field(v, "questions_for_customer"));
    r := Answer(c.ticketId, GetOr(v, "kbTopK", JNum(c.topK)), GetOr(v, "kbHits", JNum(0)), false, true, None,
                Draft(AsText(Field(v, "customer_reply")), AsText(Field(v, "internal_notes")), TextItems(Field(v, "next_steps")),
                      questions, ArrayItems(Field(v, "citations"))));
  }

  // ---------------------------------------------------------------------------------
  // Generation

  /** What the generation path computed before reading the reply. */
  datatype Generated = Generated(queryText: string, hits: seq<KbService.Hit>, selection: Selection, raw: string)

  /** The generation path: the query, its hits, the selection and one chat call; a
      failed embedding or chat call fails the request. */
  function Generation(chunks: seq<Chunk>, sources: map<Id, Source>, env: TicketAssist.AiEnv, c: Call,
                      view: TicketsService.TicketView, dateText: int -> string): (r: Result<Generated, Exception>)
    ensures r.Ok? ==> r.value.queryText == AssistQuery(c.query, view.ticket, view.comments, dateText)
    ensures r.Ok? ==> |r.value.hits| <= c.topK && r.value.selection == Select(r.value.hits, r.value.queryText, c.topK)
  {
    var queryText := AssistQuery(c.query, view.ticket, view.comments, dateText);
    var found := KbService.Query(chunks, sources, c.tenantId, TicketAssist.EmbedResult(env, queryText), c.topK, env.distance);
    if found.Err? then Err(found.error)
    else
      var hits := found.value;
      var sel := Select(hits, queryText, c.topK);
      var reply := TicketAssist.ChatResult(env, AssistSystemPrompt, AssistUserPrompt(queryText, sel.final, c.tone));
      if reply.Err? then Err(Exception(reply.error.kind, reply.error.message))
      else Ok(Generated(queryText, hits, sel, reply.value))
  }

  /** The knowledge-base hits for the query text; the query embedding meters nothing. */
  method Retrieve(db: Db, env: TicketAssist.AiEnv, tenantId: Id, queryText: string, topK: nat)
    returns (r: Result<seq<KbService.Hit>, Exception>)
    modifies db`usage
    ensures r == KbService.Query(old(db.chunks), old(db.sources), tenantId, TicketAssist.EmbedResult(env, queryText), topK, env.distance)
    ensures db.usage == old(db.usage)
  {
    var chunks, sources := db.chunks, db.sources;
    var embedded, _ := Embedding.Embed(db, queryText, env.embedConfig, env.toNumber, env.embedOutcome(queryText), None, 0, false);
    r := KbService.Query(chunks, sources, tenantId, embedded, topK, env.distance);
  }

  /** One chat call; its failure becomes the request's. */
  method Ask(env: TicketAssist.AiEnv, system: string, user: string) returns (r: Result<string, Exception>)
    ensures TicketAssist.ChatResult(env, system, user).Err? ==>
      r == Err(Exception(TicketAssist.ChatResult(env, system, user).error.kind, TicketAssist.ChatResult(env, system, user).error.message))
    ensures TicketAssist.ChatResult(env, system, user).Ok? ==> r == Ok(TicketAssist.ChatResult(env, system, user).value)
  {
    var raw, _ := Llm.Chat(env.chatConfig, env.toNumber, env.chatReplies(system, user), env.codec.parse);
    if raw.Err? {
      return Err(Exception(raw.error.kind, raw.error.message));
    }
    r := Ok(raw.value);
  }

  /** The retrieval and the chat call. */
  method Generate(db: Db, env: TicketAssist.AiEnv, c: Call, view: TicketsService.TicketView, dateText: int -> string)
    returns (r: Result<Generated, Exception>)
    modifies db`usage
    ensures r == Generation(old(db.chunks), old(db.sources), env, c, view, dateText)
    ensures db.usage == old(db.usage)
  {
    var queryText := AssistQuery(c.query, view.ticket, view.comments, dateText);
    var hits := Retrieve(db, env, c.tenantId, queryText, c.topK);
    if hits.Err? {
      return Err(hits.error);
    }
    var sel := Select(hits.value, queryText, c.topK);
    var raw := Ask(env, AssistSystemPrompt, AssistUserPrompt(queryText, sel.final, c.tone));
    if raw.Err? {
      return Err(raw.error);
    }
    r := Ok(Generated(queryText, hits.value, sel, raw.value));
  }

  // ---------------------------------------------------------------------------------
  // The generated answer

  /** The reply `null` parses, but reading its fields throws. */
  const NullReply := "Cannot read properties of null (reading 'customer_reply')"
  const NoSystemAuthor := "AI_SYSTEM_USER_ID is not set in .env (and loaded by Nest)."

  function DebugOf(g: Generated): Debug {
    Debug(SimThreshold, |g.hits|, |g.selection.filtered|, |g.selection.final|, g.selection.isLogin, g.selection.isBilling)
  }

  /** The answer of a parsed reply: its fields, with the sources' questions merged into
      the model's. */
  function FinalDraft(v: Json, hits: seq<KbService.Hit>): (d: Draft)
    ensures d.questions == FinalQuestions(TextItems(Field(v, "questions_for_customer")), hits)
    ensures d == DraftOf(v).(questions := d.questions)
  {
    var d := DraftOf(v);
    d.(questions := FinalQuestions(d.questions, hits))
  }

  /** The texts of the comment and the JSON it embeds. */
  function ArgsOf(d: Draft, cacheJson: Json): AiComment.CommentArgs {
    AiComment.CommentArgs(d.customerReply, d.internalNotes, d.nextSteps, d.questions, d.citations, cacheJson)
  }

  /** The comment a generated answer is saved as: the summary and the marked JSON block,
      clamped to 4800 characters; a null citation fails. */
  function CommentBody(d: Draft, cacheJson: Json, stringify: Json -> string): (r: Result<string, Exception>)
    ensures r.Err? <==> AiComment.HasNull(d.citations)
    ensures r.Err? ==> r.error == Exception(Internal, AiComment.NullCitation)
    ensures r.Ok? ==> |r.value| <= AssistText.MaxCommentLength
  {
    match AiComment.CommentLines(ArgsOf(d, cacheJson), stringify)
    case Err(e) => Err(e)
    case Ok(lines) => Ok(AssistText.Clamp(Text.Join(lines, "\n"), AssistText.MaxCommentLength))
  }

  /** Merging one more question. */
  lemma MergeStep(qs: seq<string>, x: string)
    ensures AssistText.MergeAll([], qs + [x]) == AssistText.MergeOne(AssistText.MergeAll([], qs), x)
  {
    assert (qs + [x])[..|qs|] == qs;
  }

  /** The entries after the hints the text suggests are added one by one. */
  function WithHints(m: AssistText.Entries, text: string): AssistText.Entries {
    var m1 := if Text.Contains(text, "device time") then AssistText.MergeOne(m, DeviceTimeQuestion) else m;
    if Text.Contains(text, "browser") && Text.Contains(text, "timestamp")
    then AssistText.MergeOne(AssistText.MergeOne(m1, BrowserQuestion), TimestampQuestion) else m1
  }

  /** The final questions are the model's, merged, with the hints added one by one. */
  lemma FinalQuestionsSteps(questions: seq<string>, hits: seq<KbService.Hit>)
    ensures FinalQuestions(questions, hits) == AssistText.Values(WithHints(AssistText.MergeAll([], questions), SourcesText(hits)))
  {
    var text := SourcesText(hits);
    var d := if Text.Contains(text, "device time") then [DeviceTimeQuestion] else [];
    var b := if Text.Contains(text, "browser") && Text.Contains(text, "timestamp") then [BrowserQuestion, TimestampQuestion] else [];
    assert Hints(text) == d + b;
    if d != [] { MergeStep(questions, DeviceTimeQuestion); } else { assert questions + d == questions; }
    MergeHints(questions, d, b);
  }

  lemma MergeTwo(qs: seq<string>, x: string, y: string)
    ensures AssistText.MergeAll([], qs + [x, y]) == AssistText.MergeOne(AssistText.MergeOne(AssistText.MergeAll([], qs), x), y)
  {
    var s := qs + [x, y];
    assert s[..|s| - 1] == qs + [x];
    MergeStep(qs, x);
  }

  lemma MergeHints(qs: seq<string>, d: seq<string>, b: seq<string>)
    requires |b| == 0 || |b| == 2
    ensures AssistText.MergeAll([], qs + (d + b)) == if b == [] then AssistText.MergeAll([], qs + d)
      else AssistText.MergeOne(AssistText.MergeOne(AssistText.MergeAll([], qs + d), b[0]), b[1])
  {
    assert qs + (d + b) == (qs + d) + b;
    if b == [] {
      assert qs + d + b == qs + d;
    } else {
      assert b == [b[0], b[1]];
      MergeTwo(qs + d, b[0], b[1]);
    }
  }

  /** The questions of a parsed reply in a `qMerge` object, with the hints the sources
      suggest added to it. */
  method MergeQuestions(questions: seq<string>, hits: seq<KbService.Hit>) returns (out: seq<string>)
    ensures out == FinalQuestions(questions, hits)
  {
    var q := new AssistText.QMerge(Some(questions));
    var text := SourcesText(hits);
    if Text.Contains(text, "device time") {
      q.Add(DeviceTimeQuestion);
    }
    if Text.Contains(text, "browser") && Text.Contains(text, "timestamp") {
      q.Add(BrowserQuestion);
      q.Add(TimestampQuestion);
    }
    FinalQuestionsSteps(questions, hits);
    out := q.Questions();
  }

  /** What saving the answer as a comment gives: what is reported (saved, or the error
      text) and the comment written, if any; a null citation fails the request. */
  datatype Saving = Saving(reply: Result<(bool, Option<string>), Exception>, added: Option<Comment>)

  /** Saving by the system author: without one, the error says so; a failure of the
      database write (`addFailure`) is reported by its message, as is a ticket that is
      not the tenant's. */
  function SaveOutcome(tickets: map<Id, Ticket>, c: Call, author: Option<Id>, d: Draft, kbHits: nat,
                       stringify: Json -> string, commentId: Id, nowMs: int, addFailure: Option<string>): (s: Saving)
    ensures !AuthorSet(author) ==> s == Saving(Ok((false, Some(NoSystemAuthor))), None)
    ensures s.reply.Err? <==> AuthorSet(author) && AiComment.HasNull(d.citations)
    ensures s.reply.Err? ==> s.reply.error == Exception(Internal, AiComment.NullCitation) && s.added.None?
    ensures s.added.Some? <==> s.reply == Ok((true, None))
    ensures s.added.Some? <==>
      AuthorSet(author) && !AiComment.HasNull(d.citations) && addFailure.None? && TicketsService.Owned(tickets, c.tenantId, c.ticketId)
    ensures s.added.Some? ==>
      s.added.value == Comment(commentId, c.tenantId, c.ticketId, author.value, CommentBody(d, DraftJson(c.topK, kbHits, d), stringify).value, nowMs)
    ensures AuthorSet(author) && !AiComment.HasNull(d.citations) && addFailure.Some? ==> s.reply == Ok((false, addFailure))
  {
    if !AuthorSet(author) then Saving(Ok((false, Some(NoSystemAuthor))), None)
    else
      match CommentBody(d, DraftJson(c.topK, kbHits, d), stringify)
      case Err(e) => Saving(Err(e), None)
      case Ok(body) =>
        if addFailure.Some? then Saving(Ok((false, addFailure)), None)
        else if !TicketsService.Owned(tickets, c.tenantId, c.ticketId) then Saving(Ok((false, Some(TicketsService.TicketNotFound))), None)
        else Saving(Ok((true, None)), Some(Comment(commentId, c.tenantId, c.ticketId, author.value, body, nowMs)))
  }

  /** The audit entry of a saved comment. */
  function CommentAudit(added: Comment): AuditEntry {
    AuditEntry(added.tenantId, added.authorId, "COMMENT_ADDED", "TicketComment", added.id,
               JObj(map["ticketId" := JStr(added.ticketId)]))
  }

  /** Saving the answer as a comment. */
  method SaveComment(db: Db, c: Call, author: Option<Id>, d: Draft, kbHits: nat, stringify: Json -> string,
                     commentId: Id, nowMs: int, addFailure: Option<string>)
    returns (r: Result<(bool, Option<string>), Exception>)
    requires TicketsService.FreshCommentId(db.comments, commentId)
    modifies db`comments, db`audit
    ensures var s := SaveOutcome(db.tickets, c, author, d, kbHits, stringify, commentId, nowMs, addFailure);
      && r == s.reply
      && db.comments == old(db.comments) + (if s.added.Some? then [s.added.value] else [])
      && db.audit == old(db.audit) + (if s.added.Some? then [CommentAudit(s.added.value)] else [])
  {
    if !AuthorSet(author) {
      return Ok((false, Some(NoSystemAuthor)));
    }
    var cacheJson := DraftJson(c.topK, kbHits, d);
    var built := AiComment.BuildAiCommentBody(ArgsOf(d, cacheJson), stringify);
    if built.Err? {
      return Err(built.error);
    }
    var body := AssistText.Clamp(built.value, AssistText.MaxCommentLength);
    if addFailure.Some? {
      return Ok((false, addFailure));
    }
    var added := TicketsService.AddComment(db, c.tenantId, c.ticketId, author.value, body, commentId, nowMs);
    if added.Err? {
      return Ok((false, Some(added.error.message)));
    }
    r := Ok((true, None));
  }

  /** Caching a dry-run answer under the call's key for 60 seconds, after cleaning the
      cache once more. */
  method StoreDryRun(cache: DryRunCache.Cache, c: Call, comments: seq<Comment>, v: Json, nowMs: int)
    requires cache.Valid()
    modifies cache
    ensures cache.items == DryRunCache.Stored(DryRunCache.Cleaned(old(cache.items), nowMs),
                                              DryRunCache.KeyOf(c.tenantId, c.ticketId, c.topK, c.tone, comments, c.query),
                                              DryRunCache.Entry(nowMs + DedupeWindowMs, v))
    ensures cache.Valid()
  {
    cache.Cleanup(nowMs);
    var key := DryRunCache.CacheKey(c.tenantId, c.ticketId, c.topK, c.tone, comments, c.query);
    cache.Set(key, DryRunCache.Entry(nowMs + DedupeWindowMs, v));
  }

  /** The reply of a generated answer, once saving is settled. */
  function SavedReply(c: Call, kbHits: nat, d: Draft, reply: Result<(bool, Option<string>), Exception>): Result<AssistReply, Exception> {
    match reply
    case Err(e) => Err(e)
    case Ok(saved) => Ok(Answer(c.ticketId, JNum(c.topK), JNum(kbHits), saved.0, false, saved.1, d))
  }

  /** The reply parsed to a value whose fields can be read. */
  predicate Readable(parsed: Option<Json>) {
    parsed.Some? && !parsed.value.JNull?
  }

  /** What an assist call may change: the usage, comment and audit tables, and the
      dry-run cache. */
  datatype Effects = Effects(usage: seq<UsageEvent>, comments: seq<Comment>, audit: seq<AuditEntry>, items: seq<DryRunCache.Item>)

  /** Reading the model's reply `g.raw`, from `before` to `after` with reply `r`: one
      metered call whatever it says; text that is not JSON is returned with the debug
      counts; `null` fails; anything else is the answer, saved as a comment or, for a dry
      run, cached under the call's key for 60 seconds. */
  ghost predicate Responded(before: Effects, after: Effects, r: Result<AssistReply, Exception>, tickets: map<Id, Ticket>,
                            env: TicketAssist.AiEnv, c: Call, author: Option<Id>, comments: seq<Comment>, g: Generated,
                            commentId: Id, nowMs: int, meteringFails: bool, addFailure: Option<string>)
  {
    var parsed := env.codec.parse(g.raw);
    var k := |g.selection.final|;
    && after.usage == before.usage + Metered(GeneratedEvent(c, k, parsed.None?, nowMs), meteringFails)
    && (parsed.None? ==> r == Ok(ModelOutput(c.ticketId, c.topK, k, g.raw, DebugOf(g))))
    && (parsed == Some(JNull) ==> r == Err(Exception(Internal, NullReply)))
    && (!Readable(parsed) || c.dryRun ==> after.comments == before.comments && after.audit == before.audit)
    && (!Readable(parsed) || !c.dryRun ==> after.items == before.items)
    && (Readable(parsed) && !c.dryRun ==>
          var d := FinalDraft(parsed.value, g.selection.final);
          var s := SaveOutcome(tickets, c, author, d, k, env.codec.stringify, commentId, nowMs, addFailure);
          && r == SavedReply(c, k, d, s.reply)
          && after.comments == before.comments + (if s.added.Some? then [s.added.value] else [])
          && after.audit == before.audit + (if s.added.Some? then [CommentAudit(s.added.value)] else []))
    && (Readable(parsed) && c.dryRun ==>
          var d := FinalDraft(parsed.value, g.selection.final);
          && r == Ok(Answer(c.ticketId, JNum(c.topK), JNum(k), false, false, None, d))
          && after.items == DryRunCache.Stored(DryRunCache.Cleaned(before.items, nowMs),
                                               DryRunCache.KeyOf(c.tenantId, c.ticketId, c.topK, c.tone, comments, c.query),
                                               DryRunCache.Entry(nowMs + DedupeWindowMs, DraftJson(c.topK, k, d))))
  }

  method Respond(db: Db, cache: DryRunCache.Cache, env: TicketAssist.AiEnv, c: Call, author: Option<Id>,
                 comments: seq<Comment>, g: Generated, commentId: Id, nowMs: int, meteringFails: bool,
                 addFailure: Option<string>)
    returns (r: Result<AssistReply, Exception>)
    requires cache.Valid()
    requires TicketsService.FreshCommentId(db.comments, commentId)
    modifies db`usage, db`comments, db`audit, cache
    ensures cache.Valid()
    ensures Responded(Effects(old(db.usage), old(db.comments), old(db.audit), old(cache.items)),
                      Effects(db.usage, db.comments, db.audit, cache.items), r, db.tickets, env, c, author, comments, g,
                      commentId, nowMs, meteringFails, addFailure)
  {
    var k := |g.selection.final|;
    var parsed := env.codec.parse(g.raw);
    LogAssistUsage(db, GeneratedEvent(c, k, parsed.None?, nowMs), meteringFails);
    if parsed.None? {
      return Ok(ModelOutput(c.ticketId, c.topK, k, g.raw, DebugOf(g)));
    }
    var v := parsed.value;
    if v.JNull? {
      return Err(Exception(Internal, NullReply));
    }
    var draft := DraftOf(v);
    var questions := MergeQuestions(draft.questions, g.selection.final);
    var d := draft.(questions := questions);
    assert d == FinalDraft(v, g.selection.final);
    r := Deliver(db, cache, env, c, author, comments, d, k, commentId, nowMs, addFailure);
  }

  /** Handing out a readable reply's draft: saved as a comment, or for a dry run cached
      under the call's key. */
  method Deliver(db: Db, cache: DryRunCache.Cache, env: TicketAssist.AiEnv, c: Call, author: Option<Id>,
                 comments: seq<Comment>, d: Draft, k: nat, commentId: Id, nowMs: int, addFailure: Option<string>)
    returns (r: Result<AssistReply, Exception>)
    requires cache.Valid()
    requires TicketsService.FreshCommentId(db.comments, commentId)
    modifies db`comments, db`audit, cache
    ensures cache.Valid()
    ensures !c.dryRun ==>
      var s := SaveOutcome(db.tickets, c, author, d, k, env.codec.stringify, commentId, nowMs, addFailure);
      && r == SavedReply(c, k, d, s.reply)
      && db.comments == old(db.comments) + (if s.added.Some? then [s.added.value] else [])
      && db.audit == old(db.audit) + (if s.added.Some? then [CommentAudit(s.added.value)] else [])
      && cache.items == old(cache.items)
    ensures c.dryRun ==>
      && r == Ok(Answer(c.ticketId, JNum(c.topK), JNum(k), false, false, None, d))
      && cache.items == DryRunCache.Stored(DryRunCache.Cleaned(old(cache.items), nowMs),
                                           DryRunCache.KeyOf(c.tenantId, c.ticketId, c.topK, c.tone, comments, c.query),
                                           DryRunCache.Entry(nowMs + DedupeWindowMs, DraftJson(c.topK, k, d)))
      && db.comments == old(db.comments) && db.audit == old(db.audit)
  {
    if !c.dryRun {
      var saved := SaveComment(db, c, author, d, k, env.codec.stringify, commentId, nowMs, addFailure);
      if saved.Err? {
        return Err(saved.error);
      }
      return Ok(Answer(c.ticketId, JNum(c.topK), JNum(k), saved.value.0, false, saved.value.1, d));
    }
    StoreDryRun(cache, c, comments, DraftJson(c.topK, k, d), nowMs);
    r := Ok(Answer(c.ticketId, JNum(c.topK), JNum(k), false, false, None, d));
  }

  /** The model tier: a failed retrieval or chat call fails the request and changes
      nothing; otherwise the reply is read. */
  ghost predicate ByModel(before: Effects, after: Effects, r: Result<AssistReply, Exception>, tickets: map<Id, Ticket>,
                          chunks: seq<Chunk>, sources: map<Id, Source>, env: TicketAssist.AiEnv, c: Call, author: Option<Id>,
                          view: TicketsService.TicketView, dateText: int -> string, commentId: Id, nowMs: int,
                          meteringFails: bool, addFailure: Option<string>)
  {
    var g := Generation(chunks, sources, env, c, view, dateText);
    && (g.Err? ==> r == Err(g.error) && after == before)
    && (g.Ok? ==> Responded(before, after, r, tickets, env, c, author, view.comments, g.value, commentId, nowMs,
                            meteringFails, addFailure))
  }

  lemma ByModelFails(before: Effects, r: Result<AssistReply, Exception>, tickets: map<Id, Ticket>,
                     chunks: seq<Chunk>, sources: map<Id, Source>, env: TicketAssist.AiEnv, c: Call, author: Option<Id>,
                     view: TicketsService.TicketView, dateText: int -> string, commentId: Id, nowMs: int,
                     meteringFails: bool, addFailure: Option<string>)
    requires Generation(chunks, sources, env, c, view, dateText).Err?
    requires r == Err(Generation(chunks, sources, env, c, view, dateText).error)
    ensures ByModel(before, before, r, tickets, chunks, sources, env, c, author, view, dateText, commentId, nowMs,
                    meteringFails, addFailure)
  {
  }

  lemma ByModelResponds(before: Effects, after: Effects, r: Result<AssistReply, Exception>, tickets: map<Id, Ticket>,
                        chunks: seq<Chunk>, sources: map<Id, Source>, env: TicketAssist.AiEnv, c: Call, author: Option<Id>,
                        view: TicketsService.TicketView, dateText: int -> string, commentId: Id, nowMs: int,
                        meteringFails: bool, addFailure: Option<string>, g: Generated)
    requires Generation(chunks, sources, env, c, view, dateText) == Ok(g)
    requires Responded(before, after, r, tickets, env, c, author, view.comments, g, commentId, nowMs, meteringFails, addFailure)
    ensures ByModel(before, after, r, tickets, chunks, sources, env, c, author, view, dateText, commentId, nowMs,
                    meteringFails, addFailure)
  {
  }

  method Produce(db: Db, cache: DryRunCache.Cache, env: TicketAssist.AiEnv, c: Call, author: Option<Id>,
                 view: TicketsService.TicketView, dateText: int -> string, commentId: Id, nowMs: int,
                 meteringFails: bool, addFailure: Option<string>)
    returns (r: Result<AssistReply, Exception>)
    requires cache.Valid()
    requires TicketsService.FreshCommentId(db.comments, commentId)
    modifies db`usage, db`comments, db`audit, cache
    ensures cache.Valid()
    ensures ByModel(Effects(old(db.usage), old(db.comments), old(db.audit), old(cache.items)),
                    Effects(db.usage, db.comments, db.audit, cache.items), r, db.tickets, old(db.chunks), old(db.sources), env, c,
                    author, view, dateText, commentId, nowMs, meteringFails, addFailure)
  {
    var g := Generate(db, env, c, view, dateText);
    ghost var before := Effects(db.usage, db.comments, db.audit, cache.items);
    assert before == Effects(old(db.usage), old(db.comments), old(db.audit), old(cache.items));
    if g.Err? {
      ByModelFails(before, Err(g.error), db.tickets, old(db.chunks), old(db.sources), env, c, author, view, dateText, commentId, nowMs,
                   meteringFails, addFailure);
      return Err(g.error);
    }
    r := Respond(db, cache, env, c, author, view.comments, g.value, commentId, nowMs, meteringFails, addFailure);
    ByModelResponds(before, Effects(db.usage, db.comments, db.audit, cache.items), r, db.tickets, old(db.chunks), old(db.sources),
                    env, c, author, view, dateText, commentId, nowMs, meteringFails, addFailure, g.value);
  }

  /** An assist call past the quota check: a recent AI comment answers first, then (for a
      dry run, after cleaning the cache) an unexpired cached answer, each metered as a
      cached call; otherwise the model answers. */
  ghost predicate Served(before: Effects, after: Effects, r: Result<AssistReply, Exception>, tickets: map<Id, Ticket>,
                         chunks: seq<Chunk>, sources: map<Id, Source>, env: TicketAssist.AiEnv, c: Call, author: Option<Id>,
                         view: TicketsService.TicketView, dateText: int -> string, commentId: Id, nowMs: int,
                         meteringFails: bool, addFailure: Option<string>)
  {
    var hit := CommentHit(author, view.comments, nowMs, env.codec.parse);
    var dry := if c.dryRun then DryRunHit(before.items, c, view.comments, nowMs) else None;
    var cleaned := if c.dryRun then DryRunCache.Cleaned(before.items, nowMs) else before.items;
    && (hit.Some? ==>
          && r == Ok(CachedAnswer(c.ticketId, hit.value, c.topK))
          && after == before.(usage := before.usage + Metered(CachedEvent(c, hit.value, "comment", env.toNumber, nowMs), meteringFails)))
    && (hit.None? && dry.Some? ==>
          && r == Ok(CachedAnswer(c.ticketId, dry.value.response, c.topK))
          && after == before.(usage := before.usage + Metered(CachedEvent(c, dry.value.response, "dryrun", env.toNumber, nowMs), meteringFails),
                              items := cleaned))
    && (hit.None? && dry.None? ==>
          ByModel(before.(items := cleaned), after, r, tickets, chunks, sources, env, c, author, view, dateText, commentId,
                  nowMs, meteringFails, addFailure))
  }

  /** The three tiers in order. `before` names the state the call starts from. */
  method Serve(db: Db, cache: DryRunCache.Cache, env: TicketAssist.AiEnv, c: Call, author: Option<Id>,
               view: TicketsService.TicketView, dateText: int -> string, commentId: Id, nowMs: int,
               meteringFails: bool, addFailure: Option<string>, ghost before: Effects)
    returns (r: Result<AssistReply, Exception>)
    requires cache.Valid()
    requires TicketsService.FreshCommentId(db.comments, commentId)
    requires before == Effects(db.usage, db.comments, db.audit, cache.items)
    modifies db`usage, db`comments, db`audit, cache
    ensures cache.Valid()
    ensures Served(before, Effects(db.usage, db.comments, db.audit, cache.items), r, db.tickets, db.chunks, db.sources, env, c,
                   author, view, dateText, commentId, nowMs, meteringFails, addFailure)
  {
    var hit := CommentTier(author, view.comments, nowMs, env.codec.parse);
    if hit.Some? {
      var answer := AnswerFromCache(db, c, hit.value, "comment", env.toNumber, nowMs, meteringFails);
      return Ok(answer);
    }
    if c.dryRun {
      var entry := DryRunTier(cache, c, view.comments, nowMs);
      if entry.Some? {
        var answer := AnswerFromCache(db, c, entry.value.response, "dryrun", env.toNumber, nowMs, meteringFails);
        return Ok(answer);
      }
    }
    r := Produce(db, cache, env, c, author, view, dateText, commentId, nowMs, meteringFails, addFailure);
  }

  /** `assist`: the body is validated, the ticket must be the tenant's and the AI quota
      not used up, then the call is served. `author` is `AI_SYSTEM_USER_ID`, `now` the
      clock as the quota window reads it and `nowMs` the same instant in milliseconds,
      `dateText` renders a comment's time, `commentId` is the identifier the database
      assigns a new comment, and `meteringFails`/`addFailure` say whether the usage write
      and the comment write fail. */
  method Assist(db: Db, cache: DryRunCache.Cache, env: TicketAssist.AiEnv, author: Option<Id>, tenantId: Id, userId: Id,
                ticketId: Id, body: Json, now: Calendar.UtcNow, nowMs: int, dateText: int -> string, commentId: Id,
                meteringFails: bool, addFailure: Option<string>)
    returns (r: Result<AssistReply, Exception>)
    requires cache.Valid()
    requires TicketsService.FreshCommentId(db.comments, commentId)
    modifies db`entitlements, db`usage, db`comments, db`audit, cache
    ensures cache.Valid()
    ensures ParseAssistBody(body).Err? ==>
      && r == Err(ParseAssistBody(body).error)
      && db.entitlements == old(db.entitlements) && db.usage == old(db.usage) && db.comments == old(db.comments)
      && db.audit == old(db.audit) && cache.items == old(cache.items)
    ensures ParseAssistBody(body).Ok? && !TicketsService.Owned(db.tickets, tenantId, ticketId) ==>
      && r == Err(Exception(NotFound, TicketsService.TicketNotFound))
      && db.entitlements == old(db.entitlements) && db.usage == old(db.usage) && db.comments == old(db.comments)
      && db.audit == old(db.audit) && cache.items == old(cache.items)
    ensures ParseAssistBody(body).Ok? && TicketsService.Owned(db.tickets, tenantId, ticketId) ==>
      db.entitlements == Entitlements.Upserted(old(db.entitlements), tenantId, db.schemaLimits)
    ensures ParseAssistBody(body).Ok? && TicketsService.Owned(db.tickets, tenantId, ticketId)
            && TicketAssist.QuotaExhausted(old(db.usage), db.entitlements, tenantId, now) ==>
      && r.Err? && r.error.kind == Forbidden
      && db.usage == old(db.usage) && db.comments == old(db.comments) && db.audit == old(db.audit)
      && cache.items == old(cache.items)
    ensures ParseAssistBody(body).Ok? && TicketsService.Owned(db.tickets, tenantId, ticketId)
            && !TicketAssist.QuotaExhausted(old(db.usage), db.entitlements, tenantId, now) ==>
      Served(Effects(old(db.usage), old(db.comments), old(db.audit), old(cache.items)),
             Effects(db.usage, db.comments, db.audit, cache.items), r, db.tickets, db.chunks, db.sources, env,
             CallOf(tenantId, userId, ticketId, ParseAssistBody(body).value), author,
             TicketsService.GetTicket(old(db.tickets), old(db.comments), tenantId, ticketId).value, dateText, commentId, nowMs,
             meteringFails, addFailure)
  {
    var request := ParseAssistBody(body);
    if request.Err? {
      return Err(request.error);
    }
    var c := CallOf(tenantId, userId, ticketId, request.value);
    var ticket := TicketsService.GetTicket(db.tickets, db.comments, tenantId, ticketId);
    if ticket.Err? {
      return Err(ticket.error);
    }
    r := ServeWithinQuota(db, cache, env, c, author, ticket.value, now, dateText, commentId, nowMs, meteringFails,
                          addFailure, Effects(old(db.usage), old(db.comments), old(db.audit), old(cache.items)));
  }

  /** `assist` once the ticket is found: the quota check, then the tiers. */
  method ServeWithinQuota(db: Db, cache: DryRunCache.Cache, env: TicketAssist.AiEnv, c: Call, author: Option<Id>,
                          view: TicketsService.TicketView, now: Calendar.UtcNow, dateText: int -> string, commentId: Id,
                          nowMs: int, meteringFails: bool, addFailure: Option<string>, ghost before: Effects)
    returns (r: Result<AssistReply, Exception>)
    requires cache.Valid()
    requires TicketsService.FreshCommentId(db.comments, commentId)
    requires before == Effects(db.usage, db.comments, db.audit, cache.items)
    modifies db`entitlements, db`usage, db`comments, db`audit, cache
    ensures cache.Valid()
    ensures db.entitlements == Entitlements.Upserted(old(db.entitlements), c.tenantId, db.schemaLimits)
    ensures TicketAssist.QuotaExhausted(before.usage, db.entitlements, c.tenantId, now) ==>
      && r.Err? && r.error.kind == Forbidden
      && Effects(db.usage, db.comments, db.audit, cache.items) == before
    ensures !TicketAssist.QuotaExhausted(before.usage, db.entitlements, c.tenantId, now) ==>
      Served(before, Effects(db.usage, db.comments, db.audit, cache.items), r, db.tickets, db.chunks, db.sources, env,
             c, author, view, dateText, commentId, nowMs, meteringFails, addFailure)
  {
    var quota := Entitlements.AssertCanUseAi(db, c.tenantId, now);
    if quota.Err? {
      return Err(quota.error);
    }
    r := Serve(db, cache, env, c, author, view, dateText, commentId, nowMs, meteringFails, addFailure, before);
  }

  // ---------------------------------------------------------------------------------
  // What the tiers promise

  /** Each call past the quota check counts as one AI call of its month, whether it is
      answered from a comment, from the cache or by the model (even with a reply that is
      not JSON), unless metering fails; only a failed retrieval or chat call, which fails
      the request, counts nothing. */
  lemma ServedMetersOneCall(before: Effects, after: Effects, r: Result<AssistReply, Exception>, tickets: map<Id, Ticket>,
                            chunks: seq<Chunk>, sources: map<Id, Source>, env: TicketAssist.AiEnv, c: Call, author: Option<Id>,
                            view: TicketsService.TicketView, dateText: int -> string, commentId: Id, nowMs: int,
                            meteringFails: bool, addFailure: Option<string>, start: int, end: int)
    requires start <= nowMs < end
    requires Served(before, after, r, tickets, chunks, sources, env, c, author, view, dateText, commentId, nowMs,
                    meteringFails, addFailure)
    ensures var hit := CommentHit(author, view.comments, nowMs, env.codec.parse);
      var dry := if c.dryRun then DryRunHit(before.items, c, view.comments, nowMs) else None;
      var answered := hit.Some? || dry.Some? || Generation(chunks, sources, env, c, view, dateText).Ok?;
      && Entitlements.AmountInWindow(after.usage, c.tenantId, AiAssistCall, start, end)
         == Entitlements.AmountInWindow(before.usage, c.tenantId, AiAssistCall, start, end)
            + (if answered && !meteringFails then 1 else 0)
      && (!answered ==> r.Err?)
  {
    var hit := CommentHit(author, view.comments, nowMs, env.codec.parse);
    var dry := if c.dryRun then DryRunHit(before.items, c, view.comments, nowMs) else None;
    var cleaned := if c.dryRun then DryRunCache.Cleaned(before.items, nowMs) else before.items;
    var g := Generation(chunks, sources, env, c, view, dateText);
    if hit.Some? {
      var e := CachedEvent(c, hit.value, "comment", env.toNumber, nowMs);
      assert after.usage == before.usage + Metered(e, meteringFails);
      MeteredCall(before.usage, e, meteringFails, start, end);
    } else if dry.Some? {
      var e := CachedEvent(c, dry.value.response, "dryrun", env.toNumber, nowMs);
      assert after.usage == before.usage + Metered(e, meteringFails);
      MeteredCall(before.usage, e, meteringFails, start, end);
    } else {
      var mid := before.(items := cleaned);
      assert ByModel(mid, after, r, tickets, chunks, sources, env, c, author, view, dateText, commentId, nowMs,
                     meteringFails, addFailure);
      ByModelMetersOneCall(mid, after, r, tickets, chunks, sources, env, c, author, view, dateText, commentId, nowMs,
                           meteringFails, addFailure, start, end);
    }
  }

  /** The model tier meters one call exactly when retrieval and chat succeed. */
  lemma ByModelMetersOneCall(before: Effects, after: Effects, r: Result<AssistReply, Exception>, tickets: map<Id, Ticket>,
                             chunks: seq<Chunk>, sources: map<Id, Source>, env: TicketAssist.AiEnv, c: Call, author: Option<Id>,
                             view: TicketsService.TicketView, dateText: int -> string, commentId: Id, nowMs: int,
                             meteringFails: bool, addFailure: Option<string>, start: int, end: int)
    requires start <= nowMs < end
    requires ByModel(before, after, r, tickets, chunks, sources, env, c, author, view, dateText, commentId, nowMs,
                     meteringFails, addFailure)
    ensures var g := Generation(chunks, sources, env, c, view, dateText);
      && Entitlements.AmountInWindow(after.usage, c.tenantId, AiAssistCall, start, end)
         == Entitlements.AmountInWindow(before.usage, c.tenantId, AiAssistCall, start, end)
            + (if g.Ok? && !meteringFails then 1 else 0)
      && (g.Err? ==> r.Err?)
  {
    var g := Generation(chunks, sources, env, c, view, dateText);
    if g.Ok? {
      assert Responded(before, after, r, tickets, env, c, author, view.comments, g.value, commentId, nowMs, meteringFails, addFailure);
      var e := GeneratedEvent(c, |g.value.selection.final|, env.codec.parse(g.value.raw).None?, nowMs);
      MeteredCall(before.usage, e, meteringFails, start, end);
    }
  }


  /** The newest comment comes first once the comments are sorted newest first. */
  lemma NewestComesFirst(comments: seq<Comment>, x: Comment)
    requires x in comments
    requires forall y :: y in comments && y != x ==> y.createdAt < x.createdAt
    ensures NewestFirst(comments) != [] && NewestFirst(comments)[0] == x
  {
    var r := NewestFirst(comments);
    assert x in multiset(comments);
    assert x in r;
    var i :| 0 <= i < |r| && r[i] == x;
    assert r[0] in multiset(r);
    assert r[0] in comments;
    if i > 0 {
      assert r[0].createdAt >= r[i].createdAt;
    }
  }

  /** A saved comment holds the JSON it was written with: when the comment fits in 4800
      characters unclamped, its texts carry no marker and the codec is lawful, the marked
      block parses back to the answer's JSON. */
  lemma SavedBodyHoldsJson(d: Draft, json: Json, codec: Codec)
    requires Lawful(codec)
    requires !AiComment.HasNull(d.citations)
    requires AiComment.Unmarked(ArgsOf(d, json)) && !Text.Contains(codec.stringify(json), AiComment.JsonEnd)
    requires |Text.Join(AiComment.CommentLines(ArgsOf(d, json), codec.stringify).value, "\n")| <= AssistText.MaxCommentLength
    ensures CommentBody(d, json, codec.stringify).Ok?
    ensures AiComment.ExtractCachedJson(CommentBody(d, json, codec.stringify).value, codec.parse) == Some(json)
  {
    AiComment.ExtractAfterBuild(ArgsOf(d, json), codec);
  }

  /** A generated answer saved as a comment is what the next call answers from, within
      the 60-second window: when the saved comment is the ticket's newest and its body
      round-trips, the comment tier finds the stored JSON, and replays the saved answer
      with the same reply, notes, steps, questions, citations and counts, marked as
      skipped. */
  lemma SavedCommentReplays(tickets: map<Id, Ticket>, c: Call, author: Option<Id>, v: Json, final: seq<KbService.Hit>,
                            codec: Codec, commentId: Id, nowMs: int, comments: seq<Comment>, later: int, anyTopK: nat)
    requires Lawful(codec)
    requires var d := FinalDraft(v, final);
      var json := DraftJson(c.topK, |final|, d);
      && !AiComment.HasNull(d.citations)
      && AiComment.Unmarked(ArgsOf(d, json)) && !Text.Contains(codec.stringify(json), AiComment.JsonEnd)
      && |Text.Join(AiComment.CommentLines(ArgsOf(d, json), codec.stringify).value, "\n")| <= AssistText.MaxCommentLength
    requires var s := SaveOutcome(tickets, c, author, FinalDraft(v, final), |final|, codec.stringify, commentId, nowMs, None);
      && s.added.Some? && s.added.value in comments
      && forall y :: y in comments && y != s.added.value ==> y.createdAt < nowMs
    requires nowMs != 0 && later - nowMs <= DedupeWindowMs
    ensures var d := FinalDraft(v, final);
      CommentHit(author, comments, later, codec.parse) == Some(DraftJson(c.topK, |final|, d))
    ensures var d := FinalDraft(v, final);
      CachedAnswer(c.ticketId, DraftJson(c.topK, |final|, d), anyTopK)
      == Answer(c.ticketId, JNum(c.topK), JNum(|final|), false, true, None, d)
  {
    var d := FinalDraft(v, final);
    var json := DraftJson(c.topK, |final|, d);
    var added := SaveOutcome(tickets, c, author, d, |final|, codec.stringify, commentId, nowMs, None).added.value;
    SavedBodyHoldsJson(d, json, codec);
    assert CachedBlock(added, codec.parse) == Some(json);
    NewestComesFirst(comments, added);
    ScanAt(NewestFirst(comments), author.value, later, Cached(codec.parse), 0);
    CachedAnswerReplays(c.ticketId, c.topK, |final|, d, TextItems(Field(v, "questions_for_customer")) + Hints(SourcesText(final)), anyTopK);
  }

  /** A dry-run answer is what the next dry run of the same call answers from before it
      expires, as long as the cache then holds at most 500 unexpired entries: the entry
      is found, and the answer it gives is the cached one, marked as skipped. */
  lemma DryRunReplays(items: seq<DryRunCache.Item>, c: Call, comments: seq<Comment>, v: Json, final: seq<KbService.Hit>,
                      nowMs: int, later: int)
    requires DryRunCache.DistinctKeys(items)
    requires later < nowMs + DedupeWindowMs
    requires var d := FinalDraft(v, final);
      var stored := DryRunCache.Stored(DryRunCache.Cleaned(items, nowMs),
                                       DryRunCache.KeyOf(c.tenantId, c.ticketId, c.topK, c.tone, comments, c.query),
                                       DryRunCache.Entry(nowMs + DedupeWindowMs, DraftJson(c.topK, |final|, d)));
      |DryRunCache.Live(stored, later)| <= DryRunCache.MaxItems
    ensures var d := FinalDraft(v, final);
      var entry := DryRunCache.Entry(nowMs + DedupeWindowMs, DraftJson(c.topK, |final|, d));
      var stored := DryRunCache.Stored(DryRunCache.Cleaned(items, nowMs),
                                       DryRunCache.KeyOf(c.tenantId, c.ticketId, c.topK, c.tone, comments, c.query), entry);
      && DryRunHit(stored, c, comments, later) == Some(entry)
      && CachedAnswer(c.ticketId, entry.response, c.topK) == Answer(c.ticketId, JNum(c.topK), JNum(|final|), false, true, None, d)
  {
    var d := FinalDraft(v, final);
    var entry := DryRunCache.Entry(nowMs + DedupeWindowMs, DraftJson(c.topK, |final|, d));
    var key := DryRunCache.KeyOf(c.tenantId, c.ticketId, c.topK, c.tone, comments, c.query);
    var cleaned := DryRunCache.Cleaned(items, nowMs);
    var stored := DryRunCache.Stored(cleaned, key, entry);
    DryRunCache.CleanedBound(items, nowMs);
    DryRunCache.StoredDistinct(cleaned, key, entry);
    DryRunCache.StoredLookup(cleaned, key, entry, key);
    DryRunCache.LiveMembers(stored, later, (key, entry));
    DryRunCache.LiveDistinct(stored, later);
    DryRunCache.CleanedMembers(stored, later, (key, entry));
    DryRunCache.LookupFinds(DryRunCache.Live(stored, later), key, entry);
    CachedAnswerReplays(c.ticketId, c.topK, |final|, d, TextItems(Field(v, "questions_for_customer")) + Hints(SourcesText(final)), c.topK);
  }
}
