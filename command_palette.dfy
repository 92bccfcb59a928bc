/** The ticket search of the web client's command palette. */
module CommandPalette {
  import opened Wrappers
  import Text

  /** The fields of a listed ticket the search reads; title and description may be absent. */
  datatype TicketItem = TicketItem(id: string, title: Option<string>, description: Option<string>)

  const BlankQueryLimit := 30
  const MatchLimit := 50

  /** `(t.title ?? "").toLowerCase().includes(query) || ...` for the description. */
  predicate Matches(t: TicketItem, query: string) {
    Text.Contains(Text.ToLower(t.title.GetOr("")), query)
    || Text.Contains(Text.ToLower(t.description.GetOr("")), query)
  }

  /** `a` is `b` with some elements left out, order kept. */
  predicate IsSubsequence<T(==)>(a: seq<T>, b: seq<T>) {
    if a == [] then true
    else if b == [] then false
    else if a[0] == b[0] then IsSubsequence(a[1..], b[1..])
    else IsSubsequence(a, b[1..])
  }

  function MatchingTickets(tickets: seq<TicketItem>, query: string): (r: seq<TicketItem>)
    ensures forall i :: 0 <= i < |r| ==> Matches(r[i], query)
    ensures forall t :: t in tickets && Matches(t, query) ==> t in r
    ensures IsSubsequence(r, tickets)
  {
    if tickets == [] then []
    else if Matches(tickets[0], query) then [tickets[0]] + MatchingTickets(tickets[1..], query)
    else MatchingTickets(tickets[1..], query)
  }

  function Take<T>(s: seq<T>, n: nat): (r: seq<T>)
    ensures |r| <= n && |r| <= |s| && r == s[..|r|]
    ensures |s| <= n ==> r == s
  {
    if |s| <= n then s else s[..n]
  }

  lemma {:induction false} PrefixIsSubsequence<T>(a: seq<T>, b: seq<T>, n: nat)
    requires IsSubsequence(a, b) && n <= |a|
    ensures IsSubsequence(a[..n], b)
  {
    if n > 0 && a != [] && b != [] {
      if a[0] == b[0] {
        assert a[..n][1..] == a[1..][..n - 1];
        PrefixIsSubsequence(a[1..], b[1..], n - 1);
      } else {
        PrefixIsSubsequence(a, b[1..], n);
      }
    }
  }

  /** The palette's result list for the typed text `q`. */
  function Filtered(tickets: seq<TicketItem>, q: string): seq<TicketItem> {
    var query := Text.ToLower(Text.Trim(q));
    if query == "" then Take(tickets, BlankQueryLimit)
    else Take(MatchingTickets(tickets, query), MatchLimit)
  }

  /** A blank query lists the first 30 tickets in their given order. */
  lemma BlankQueryListsFirst(tickets: seq<TicketItem>, q: string)
    requires Text.IsBlank(q)
    ensures Filtered(tickets, q) == tickets[..if |tickets| < 30 then |tickets| else 30]
  {
    Text.TrimEmptyIffBlank(q);
  }

  /** Otherwise the result keeps the input order, holds at most 50 tickets, every one
      of them matching the lower-cased trimmed query, and misses no match unless the
      cap was reached. */
  lemma SearchResult(tickets: seq<TicketItem>, q: string)
    requires !Text.IsBlank(q)
    ensures var query := Text.ToLower(Text.Trim(q));
            var r := Filtered(tickets, q);
            && |r| <= 50
            && IsSubsequence(r, tickets)
            && (forall i :: 0 <= i < |r| ==> Matches(r[i], query))
            && (|r| < 50 ==> forall t :: t in tickets && Matches(t, query) ==> t in r)
  {
    Text.TrimEmptyIffBlank(q);
    var query := Text.ToLower(Text.Trim(q));
    var m := MatchingTickets(tickets, query);
    PrefixIsSubsequence(m, tickets, |Take(m, 50)|);
  }
}
