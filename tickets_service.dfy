/** `TicketsService`: tickets and their comments, always scoped to one tenant, with an
    audit entry for every write. */
module TicketsService {
  import opened Wrappers
  import opened Records
  import opened Json
  import Sorting
  import Seqs

  const TicketNotFound := "Ticket not found"

  function PriorityName(p: Priority): string {
    match p
    case Low => "LOW"
    case Medium => "MEDIUM"
    case High => "HIGH"
    case Urgent => "URGENT"
  }

  function StatusName(s: TicketStatus): string {
    match s
    case Open => "OPEN"
    case InProgress => "IN_PROGRESS"
    case Resolved => "RESOLVED"
    case Closed => "CLOSED"
  }

  /** The ticket exists and belongs to the tenant (`findFirst({ id, tenantId })`). */
  predicate Owned(tickets: map<Id, Ticket>, tenantId: Id, ticketId: Id) {
    ticketId in tickets && tickets[ticketId].tenantId == tenantId
  }

  // ---------------------------------------------------------------------------------
  // Creating

  /** `createTicket`: a new open ticket, priority MEDIUM unless given, and a
      TICKET_CREATED entry. `id` is the identifier the database assigns. */
  method CreateTicket(db: Db, tenantId: Id, requesterId: Id, title: string, description: string,
                      priority: Option<Priority>, id: Id, now: int) returns (t: Ticket)
    requires id !in db.tickets
    modifies db`tickets, db`audit
    ensures t.tenantId == tenantId && t.requesterId == requesterId
    ensures t.title == title && t.description == description
    ensures t.status == Open && t.assigneeId.None? && t.createdAt == now
    ensures t.priority == if priority.Some? then priority.value else Medium
    ensures db.tickets == old(db.tickets)[id := t]
    ensures db.audit == old(db.audit) + [AuditEntry(tenantId, requesterId, "TICKET_CREATED", "Ticket", id,
                                                    JObj(map["title" := JStr(title), "priority" := JStr(PriorityName(t.priority))]))]
  {
    t := Ticket(tenantId, requesterId, title, description, Open, priority.GetOr(Medium), None, now);
    db.tickets := db.tickets[id := t];
    db.audit := db.audit + [AuditEntry(tenantId, requesterId, "TICKET_CREATED", "Ticket", id,
                                       JObj(map["title" := JStr(title), "priority" := JStr(PriorityName(t.priority))]))];
  }

  // ---------------------------------------------------------------------------------
  // Listing

  /** `take` of `listTickets`: the limit, 50 when absent, clamped to 1..200. */
  function ListTake(limit: Option<int>): (take: int)
    ensures 1 <= take <= 200
    ensures limit.None? ==> take == 50
    ensures limit.Some? && 1 <= limit.value <= 200 ==> take == limit.value
    ensures limit.Some? && limit.value < 1 ==> take == 1
    ensures limit.Some? && limit.value > 200 ==> take == 200
  {
    Clamp(limit.GetOr(50), 1, 200)
  }

  /** The optional `status`, `priority` and `assigneeId` filters. */
  datatype TicketFilter = TicketFilter(status: Option<TicketStatus>, priority: Option<Priority>, assigneeId: Option<Id>)

  predicate MatchesFilter(t: Ticket, tenantId: Id, f: TicketFilter) {
    && t.tenantId == tenantId
    && (f.status.Some? ==> t.status == f.status.value)
    && (f.priority.Some? ==> t.priority == f.priority.value)
    && (f.assigneeId.Some? ==> t.assigneeId == f.assigneeId)
  }

  ghost function Select(rows: seq<(Id, Ticket)>, tenantId: Id, f: TicketFilter): (r: seq<(Id, Ticket)>)
    ensures forall p :: p in r <==> p in rows && MatchesFilter(p.1, tenantId, f)
  {
    if rows == [] then []
    else (if MatchesFilter(rows[0].1, tenantId, f) then [rows[0]] else []) + Select(rows[1..], tenantId, f)
  }

  /** `orderBy: { createdAt: "desc" }` keys rows by minus their creation time. */
  function Age(p: (Id, Ticket)): int {
    -p.1.createdAt
  }

  /** `listTickets`: the tenant's matching tickets, newest first, at most `take` of them.
      Rows created at the same instant come in an order the model does not fix. */
  ghost function ListTickets(tickets: map<Id, Ticket>, tenantId: Id, f: TicketFilter, limit: Option<int>): seq<(Id, Ticket)> {
    Seqs.Take(Sorting.SortBy(Select(Seqs.MapRows(tickets), tenantId, f), Age), ListTake(limit))
  }

  /** The listing holds only matching tickets of the tenant, as many as the take
      allows. */
  lemma ListTicketsMembers(tickets: map<Id, Ticket>, tenantId: Id, f: TicketFilter, limit: Option<int>)
    ensures var r := ListTickets(tickets, tenantId, f, limit);
      var matching := Select(Seqs.MapRows(tickets), tenantId, f);
      && |r| == (if ListTake(limit) < |matching| then ListTake(limit) else |matching|)
      && forall i :: 0 <= i < |r| ==> r[i].0 in tickets && tickets[r[i].0] == r[i].1 && MatchesFilter(r[i].1, tenantId, f)
  {
    var matching := Select(Seqs.MapRows(tickets), tenantId, f);
    var sorted := Sorting.SortBy(matching, Age);
    var r := ListTickets(tickets, tenantId, f, limit);
    assert |sorted| == |multiset(sorted)| == |multiset(matching)| == |matching|;
    forall i | 0 <= i < |r| ensures r[i] in matching {
      assert r[i] == sorted[i];
      assert r[i] in multiset(sorted);
    }
  }

  /** The listing is newest first. */
  lemma ListTicketsNewestFirst(tickets: map<Id, Ticket>, tenantId: Id, f: TicketFilter, limit: Option<int>)
    ensures var r := ListTickets(tickets, tenantId, f, limit);
      forall i, j :: 0 <= i < j < |r| ==> r[i].1.createdAt >= r[j].1.createdAt
  {
    var matching := Select(Seqs.MapRows(tickets), tenantId, f);
    Sorting.SortBySorted(matching, Age);
    var sorted := Sorting.SortBy(matching, Age);
    var r := ListTickets(tickets, tenantId, f, limit);
    forall i, j | 0 <= i < j < |r| ensures r[i].1.createdAt >= r[j].1.createdAt {
      assert r[i] == sorted[i] && r[j] == sorted[j];
      assert Age(sorted[i]) <= Age(sorted[j]);
    }
  }

  /** No matching ticket left out of the listing is newer than one listed. */
  lemma ListTicketsKeepsNewest(tickets: map<Id, Ticket>, tenantId: Id, f: TicketFilter, limit: Option<int>, p: (Id, Ticket))
    requires p in Select(Seqs.MapRows(tickets), tenantId, f)
    requires p !in ListTickets(tickets, tenantId, f, limit)
    ensures var r := ListTickets(tickets, tenantId, f, limit);
      forall i :: 0 <= i < |r| ==> r[i].1.createdAt >= p.1.createdAt
  {
    var matching := Select(Seqs.MapRows(tickets), tenantId, f);
    Sorting.SortBySorted(matching, Age);
    var sorted := Sorting.SortBy(matching, Age);
    var r := ListTickets(tickets, tenantId, f, limit);
    assert p in multiset(sorted);
    var k :| 0 <= k < |sorted| && sorted[k] == p;
    assert r == sorted[..|r|];
    assert k >= |r|;
    forall i | 0 <= i < |r| ensures r[i].1.createdAt >= p.1.createdAt {
      assert r[i] == sorted[i];
      assert Age(sorted[i]) <= Age(sorted[k]);
    }
  }

  // ---------------------------------------------------------------------------------
  // Reading one ticket

  datatype TicketView = TicketView(id: Id, ticket: Ticket, comments: seq<Comment>)

  /** The comments of a ticket, in insertion order. */
  function CommentsOf(comments: seq<Comment>, ticketId: Id): (r: seq<Comment>)
    ensures forall c :: c in r <==> c in comments && c.ticketId == ticketId
  {
    if comments == [] then []
    else (if comments[0].ticketId == ticketId then [comments[0]] else []) + CommentsOf(comments[1..], ticketId)
  }

  function CreatedAt(c: Comment): int {
    c.createdAt
  }

  /** `getTicket`: the tenant's ticket with its comments oldest first; NotFound for a
      ticket that is missing or belongs to another tenant. */
  function GetTicket(tickets: map<Id, Ticket>, comments: seq<Comment>, tenantId: Id, ticketId: Id): (r: Result<TicketView, Exception>)
    ensures r.Err? <==> !Owned(tickets, tenantId, ticketId)
    ensures r.Err? ==> r.error == Exception(NotFound, TicketNotFound)
    ensures r.Ok? ==> r.value.id == ticketId && r.value.ticket == tickets[ticketId]
    ensures r.Ok? ==> Sorting.SortedBy(r.value.comments, CreatedAt)
    ensures r.Ok? ==> multiset(r.value.comments) == multiset(CommentsOf(comments, ticketId))
  {
    if !Owned(tickets, tenantId, ticketId) then Err(Exception(NotFound, TicketNotFound))
    else
      var ordered := Sorting.SortBy(CommentsOf(comments, ticketId), CreatedAt);
      Sorting.SortBySorted(CommentsOf(comments, ticketId), CreatedAt);
      Ok(TicketView(ticketId, tickets[ticketId], ordered))
  }

  /** Comments posted at the same instant keep the order they were stored in. */
  lemma SameInstantCommentsInOrder(tickets: map<Id, Ticket>, comments: seq<Comment>, tenantId: Id, ticketId: Id, at: int)
    requires Owned(tickets, tenantId, ticketId)
    ensures Sorting.WithKey(GetTicket(tickets, comments, tenantId, ticketId).value.comments, CreatedAt, at)
         == Sorting.WithKey(CommentsOf(comments, ticketId), CreatedAt, at)
  {
    Sorting.SortByStable(CommentsOf(comments, ticketId), CreatedAt, at);
  }

  // ---------------------------------------------------------------------------------
  // Updating

  /** Prisma's partial update: an absent field keeps its value; `assigneeId` may be
      set, cleared (`Some(None)`) or left alone (`None`). */
  function Updated(t: Ticket, status: Option<TicketStatus>, priority: Option<Priority>, assigneeId: Option<Option<Id>>): (u: Ticket)
    ensures u.status == (if status.Some? then status.value else t.status)
    ensures u.priority == (if priority.Some? then priority.value else t.priority)
    ensures u.assigneeId == (if assigneeId.Some? then assigneeId.value else t.assigneeId)
    ensures u.tenantId == t.tenantId && u.requesterId == t.requesterId && u.title == t.title
    ensures u.description == t.description && u.createdAt == t.createdAt
  {
    t.(status := status.GetOr(t.status), priority := priority.GetOr(t.priority), assigneeId := assigneeId.GetOr(t.assigneeId))
  }

  lemma EmptyUpdate(t: Ticket)
    ensures Updated(t, None, None, None) == t
  {
  }

  function OrNull(v: Option<Id>): Json {
    if v.Some? then JStr(v.value) else JNull
  }

  /** The TICKET_UPDATED entry: the ticket's status, priority and assignee after the
      update. */
  function UpdatedEntry(tenantId: Id, actorId: Id, ticketId: Id, u: Ticket): AuditEntry {
    AuditEntry(tenantId, actorId, "TICKET_UPDATED", "Ticket", ticketId,
      JObj(map["status" := JStr(StatusName(u.status)), "priority" := JStr(PriorityName(u.priority)), "assigneeId" := OrNull(u.assigneeId)]))
  }

  /** `updateTicket`: NotFound outside the tenant with no write; otherwise the supplied
      fields change and a TICKET_UPDATED entry records the new values. */
  method UpdateTicket(db: Db, tenantId: Id, actorId: Id, ticketId: Id, status: Option<TicketStatus>,
                      priority: Option<Priority>, assigneeId: Option<Option<Id>>) returns (r: Result<Ticket, Exception>)
    modifies db`tickets, db`audit
    ensures !Owned(old(db.tickets), tenantId, ticketId) ==>
      r == Err(Exception(NotFound, TicketNotFound)) && db.tickets == old(db.tickets) && db.audit == old(db.audit)
    ensures Owned(old(db.tickets), tenantId, ticketId) ==>
      var u := Updated(old(db.tickets)[ticketId], status, priority, assigneeId);
      && r == Ok(u)
      && db.tickets == old(db.tickets)[ticketId := u]
      && db.audit == old(db.audit) + [UpdatedEntry(tenantId, actorId, ticketId, u)]
  {
    if !Owned(db.tickets, tenantId, ticketId) {
      return Err(Exception(NotFound, TicketNotFound));
    }
    var u := Updated(db.tickets[ticketId], status, priority, assigneeId);
    db.tickets := db.tickets[ticketId := u];
    db.audit := db.audit + [UpdatedEntry(tenantId, actorId, ticketId, u)];
    r := Ok(u);
  }

  // ---------------------------------------------------------------------------------
  // Commenting

  predicate FreshCommentId(comments: seq<Comment>, id: Id) {
    forall i :: 0 <= i < |comments| ==> comments[i].id != id
  }

  /** `addComment`: NotFound outside the tenant with no write; otherwise the comment is
      stored with the given author and body and a COMMENT_ADDED entry references the
      ticket. `commentId` is the identifier the database assigns. */
  method AddComment(db: Db, tenantId: Id, ticketId: Id, authorId: Id, body: string, commentId: Id, now: int)
    returns (r: Result<Comment, Exception>)
    requires FreshCommentId(db.comments, commentId)
    modifies db`comments, db`audit
    ensures !Owned(db.tickets, tenantId, ticketId) ==>
      r == Err(Exception(NotFound, TicketNotFound)) && db.comments == old(db.comments) && db.audit == old(db.audit)
    ensures Owned(db.tickets, tenantId, ticketId) ==>
      && r == Ok(Comment(commentId, tenantId, ticketId, authorId, body, now))
      && db.comments == old(db.comments) + [r.value]
      && db.audit == old(db.audit) + [AuditEntry(tenantId, authorId, "COMMENT_ADDED", "TicketComment", commentId,
                                                 JObj(map["ticketId" := JStr(ticketId)]))]
  {
    if !Owned(db.tickets, tenantId, ticketId) {
      return Err(Exception(NotFound, TicketNotFound));
    }
    var c := Comment(commentId, tenantId, ticketId, authorId, body, now);
    db.comments := db.comments + [c];
    db.audit := db.audit + [AuditEntry(tenantId, authorId, "COMMENT_ADDED", "TicketComment", commentId,
                                       JObj(map["ticketId" := JStr(ticketId)]))];
    r := Ok(c);
  }

  lemma {:induction false} CommentsOfAppend(comments: seq<Comment>, c: Comment, ticketId: Id)
    ensures CommentsOf(comments + [c], ticketId)
         == CommentsOf(comments, ticketId) + (if c.ticketId == ticketId then [c] else [])
  {
    if comments != [] {
      assert (comments + [c])[1..] == comments[1..] + [c];
      CommentsOfAppend(comments[1..], c, ticketId);
    } else {
      assert [c][1..] == [];
    }
  }

  /** A comment added no earlier than every earlier comment of the ticket reads back as
      its last comment. */
  lemma AddedCommentComesLast(tickets: map<Id, Ticket>, comments: seq<Comment>, tenantId: Id, c: Comment)
    requires Owned(tickets, tenantId, c.ticketId)
    requires forall i :: 0 <= i < |comments| && comments[i].ticketId == c.ticketId ==> comments[i].createdAt <= c.createdAt
    ensures var v := GetTicket(tickets, comments + [c], tenantId, c.ticketId).value;
      && |v.comments| == |CommentsOf(comments, c.ticketId)| + 1
      && c in v.comments
      && forall i :: 0 <= i < |v.comments| ==> v.comments[i].createdAt <= c.createdAt
  {
    CommentsOfAppend(comments, c, c.ticketId);
    var v := GetTicket(tickets, comments + [c], tenantId, c.ticketId).value;
    var all := CommentsOf(comments + [c], c.ticketId);
    assert |v.comments| == |multiset(v.comments)| == |multiset(all)| == |all|;
    assert c in all;
    assert c in multiset(v.comments);
    forall i | 0 <= i < |v.comments| ensures v.comments[i].createdAt <= c.createdAt {
      assert v.comments[i] in multiset(all);
      assert v.comments[i] in all;
    }
  }
}
