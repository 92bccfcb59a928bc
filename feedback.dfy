/** `FeedbackService`: one thumbs-up or thumbs-down per user and ticket, updated in place
    when the user rates the ticket again. */
module Feedback {
  import opened Wrappers
  import opened Records
  import Text

  const NotInTenant := "Ticket not found in this tenant"

  /** The optional comment, trimmed; a missing or blank one is stored as null. */
  function NormalizedComment(comment: Option<string>): (r: Option<string>)
    ensures r.None? <==> comment.None? || Text.IsBlank(comment.value)
    ensures r.Some? ==> r.value == Text.Trim(comment.value) && r.value != "" && Text.IsTrimmed(r.value)
  {
    if comment.None? then None
    else
      Text.TrimEmptyIffBlank(comment.value);
      if |Text.Trim(comment.value)| > 0 then Some(Text.Trim(comment.value)) else None
  }

  predicate IsFor(f: Feedback, tenantId: Id, userId: Id, ticketId: Id) {
    f.tenantId == tenantId && f.userId == userId && f.ticketId == ticketId
  }

  /** The user's newest feedback on the ticket: rows are stored in creation order, so
      it is the last matching one. */
  function Latest(rows: seq<Feedback>, tenantId: Id, userId: Id, ticketId: Id): (r: Option<nat>)
    ensures r.Some? ==> r.value < |rows| && IsFor(rows[r.value], tenantId, userId, ticketId)
    ensures r.Some? ==> forall j :: r.value < j < |rows| ==> !IsFor(rows[j], tenantId, userId, ticketId)
    ensures r.None? ==> forall j :: 0 <= j < |rows| ==> !IsFor(rows[j], tenantId, userId, ticketId)
  {
    if rows == [] then None
    else if IsFor(rows[|rows| - 1], tenantId, userId, ticketId) then Some(|rows| - 1)
    else Latest(rows[..|rows| - 1], tenantId, userId, ticketId)
  }

  predicate FreshFeedbackId(rows: seq<Feedback>, id: Id) {
    forall i :: 0 <= i < |rows| ==> rows[i].id != id
  }

  /** `upsertFeedback`: Forbidden for a ticket outside the tenant, with no write;
      otherwise the newest existing feedback of the user on the ticket gets the new
      rating and comment, or one new row is created. `newId` is the identifier the
      database assigns. */
  method UpsertFeedback(db: Db, tenantId: Id, userId: Id, ticketId: Id, rating: Rating,
                        comment: Option<string>, newId: Id) returns (r: Result<Feedback, Exception>)
    requires FreshFeedbackId(db.feedback, newId)
    modifies db`feedback
    ensures !(ticketId in db.tickets && db.tickets[ticketId].tenantId == tenantId) ==>
      r == Err(Exception(Forbidden, NotInTenant)) && db.feedback == old(db.feedback)
    ensures ticketId in db.tickets && db.tickets[ticketId].tenantId == tenantId ==>
      var c := NormalizedComment(comment);
      match Latest(old(db.feedback), tenantId, userId, ticketId)
      case Some(i) =>
        && r == Ok(old(db.feedback)[i].(rating := rating, comment := c))
        && db.feedback == old(db.feedback)[i := r.value]
      case None =>
        && r == Ok(Feedback(newId, tenantId, userId, ticketId, rating, c))
        && db.feedback == old(db.feedback) + [r.value]
  {
    var c := NormalizedComment(comment);
    if !(ticketId in db.tickets && db.tickets[ticketId].tenantId == tenantId) {
      return Err(Exception(Forbidden, NotInTenant));
    }
    match Latest(db.feedback, tenantId, userId, ticketId)
    case Some(i) =>
      var f := db.feedback[i].(rating := rating, comment := c);
      db.feedback := db.feedback[i := f];
      r := Ok(f);
    case None =>
      var f := Feedback(newId, tenantId, userId, ticketId, rating, c);
      db.feedback := db.feedback + [f];
      r := Ok(f);
  }

  /** The number of feedback rows of a user on a ticket. */
  function CountFor(rows: seq<Feedback>, tenantId: Id, userId: Id, ticketId: Id): nat {
    if rows == [] then 0
    else CountFor(rows[..|rows| - 1], tenantId, userId, ticketId)
         + (if IsFor(rows[|rows| - 1], tenantId, userId, ticketId) then 1 else 0)
  }

  lemma {:induction false} CountForNone(rows: seq<Feedback>, tenantId: Id, userId: Id, ticketId: Id)
    requires Latest(rows, tenantId, userId, ticketId).None?
    ensures CountFor(rows, tenantId, userId, ticketId) == 0
  {
    if rows != [] {
      var init := rows[..|rows| - 1];
      assert forall j :: 0 <= j < |init| ==> init[j] == rows[j];
      assert Latest(init, tenantId, userId, ticketId).None?;
      CountForNone(init, tenantId, userId, ticketId);
    }
  }

  lemma {:induction false} CountForUpdate(rows: seq<Feedback>, i: nat, f: Feedback, tenantId: Id, userId: Id, ticketId: Id)
    requires i < |rows| && IsFor(rows[i], tenantId, userId, ticketId) && IsFor(f, tenantId, userId, ticketId)
    ensures CountFor(rows[i := f], tenantId, userId, ticketId) == CountFor(rows, tenantId, userId, ticketId)
  {
    var n := |rows| - 1;
    if i < n {
      assert rows[i := f][..n] == rows[..n][i := f];
      CountForUpdate(rows[..n], i, f, tenantId, userId, ticketId);
    } else {
      assert rows[i := f][..n] == rows[..n];
    }
  }

  /** Rating a ticket keeps one row per user and ticket: a first rating creates
      exactly one row, a later one creates none. */
  lemma RatingKeepsOneRow(rows: seq<Feedback>, tenantId: Id, userId: Id, ticketId: Id, rating: Rating,
                          comment: Option<string>, newId: Id)
    ensures var c := NormalizedComment(comment);
      var after := match Latest(rows, tenantId, userId, ticketId)
                   case Some(i) => rows[i := rows[i].(rating := rating, comment := c)]
                   case None => rows + [Feedback(newId, tenantId, userId, ticketId, rating, c)];
      CountFor(after, tenantId, userId, ticketId)
        == if CountFor(rows, tenantId, userId, ticketId) == 0 then 1 else CountFor(rows, tenantId, userId, ticketId)
  {
    var c := NormalizedComment(comment);
    match Latest(rows, tenantId, userId, ticketId)
    case Some(i) =>
      CountForUpdate(rows, i, rows[i].(rating := rating, comment := c), tenantId, userId, ticketId);
      CountForPositive(rows, i, tenantId, userId, ticketId);
    case None =>
      CountForNone(rows, tenantId, userId, ticketId);
      var after := rows + [Feedback(newId, tenantId, userId, ticketId, rating, c)];
      assert after[..|after| - 1] == rows;
  }

  lemma {:induction false} CountForPositive(rows: seq<Feedback>, i: nat, tenantId: Id, userId: Id, ticketId: Id)
    requires i < |rows| && IsFor(rows[i], tenantId, userId, ticketId)
    ensures CountFor(rows, tenantId, userId, ticketId) > 0
  {
    if i < |rows| - 1 {
      CountForPositive(rows[..|rows| - 1], i, tenantId, userId, ticketId);
    }
  }
}
