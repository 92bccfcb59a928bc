/** The process-local cache of dry-run assist results (`DRYRUN_CACHE`): an insertion-ordered
    map from the ticket's state to the response computed for it, with a time to live and a
    bound on its size. The map is a sequence of (key, entry) pairs with distinct keys, in
    the order the keys were first set, which is the order a JavaScript `Map` iterates in. */
module DryRunCache {
  import opened Wrappers
  import opened Json
  import opened Records
  import Sorting
  import Seqs

  const MaxItems := 500

  /** What a dry-run result is cached under. The source hashes these fields, joined into
      one string, with SHA-256; the model keeps them as they are, so two keys are equal
      exactly when all fields are. */
  datatype Key = Key(tenantId: Id, ticketId: Id, topK: nat, tone: string,
                     commentCount: nat, newestCommentMs: int, query: string)

  datatype Entry = Entry(expiresAt: int, response: Json)

  type Item = (Key, Entry)

  function ExpiryOf(p: Item): int { p.1.expiresAt }

  predicate DistinctKeys(s: seq<Item>) {
    forall i, j :: 0 <= i < j < |s| ==> s[i].0 != s[j].0
  }

  predicate KeyIn(s: seq<Item>, k: Key) {
    exists i :: 0 <= i < |s| && s[i].0 == k
  }

  function KeysOf(s: seq<Item>): (r: seq<Key>)
    ensures |r| == |s| && forall i :: 0 <= i < |s| ==> r[i] == s[i].0
  {
    seq(|s|, i requires 0 <= i < |s| => s[i].0)
  }

  // ---------------------------------------------------------------------------------
  // Lookup and store

  /** `DRYRUN_CACHE.get(k)`. */
  function Lookup(s: seq<Item>, k: Key): (r: Option<Entry>)
    ensures r.Some? <==> KeyIn(s, k)
    ensures r.Some? ==> (k, r.value) in s
  {
    if s == [] then None
    else if s[0].0 == k then Some(s[0].1)
    else
      var r := Lookup(s[1..], k);
      assert KeyIn(s, k) ==> KeyIn(s[1..], k) by {
        if KeyIn(s, k) {
          var i :| 0 <= i < |s| && s[i].0 == k;
          assert i > 0 && s[1..][i - 1] == s[i];
        }
      }
      assert KeyIn(s[1..], k) ==> KeyIn(s, k) by {
        if KeyIn(s[1..], k) {
          var i :| 0 <= i < |s[1..]| && s[1..][i].0 == k;
          assert s[i + 1] == s[1..][i];
        }
      }
      r
  }

  /** With distinct keys, the entry found for a key is the one stored under it. */
  lemma LookupFinds(s: seq<Item>, k: Key, e: Entry)
    requires DistinctKeys(s) && (k, e) in s
    ensures Lookup(s, k) == Some(e)
  {
    var r := Lookup(s, k);
    var i :| 0 <= i < |s| && s[i] == (k, e);
    var j :| 0 <= j < |s| && s[j] == (k, r.value);
    assert i == j;
  }

  /** `DRYRUN_CACHE.set(k, e)`: an existing key keeps its place and takes the new entry;
      a new key goes last. */
  function Stored(s: seq<Item>, k: Key, e: Entry): (r: seq<Item>)
    ensures KeyIn(s, k) ==> |r| == |s|
    ensures !KeyIn(s, k) ==> r == s + [(k, e)]
  {
    if s == [] then [(k, e)]
    else if s[0].0 == k then [(k, e)] + s[1..]
    else
      assert KeyIn(s, k) <==> KeyIn(s[1..], k) by {
        if KeyIn(s, k) {
          var i :| 0 <= i < |s| && s[i].0 == k;
          assert i > 0 && s[1..][i - 1] == s[i];
        }
        if KeyIn(s[1..], k) {
          var i :| 0 <= i < |s[1..]| && s[1..][i].0 == k;
          assert s[i + 1] == s[1..][i];
        }
      }
      [s[0]] + Stored(s[1..], k, e)
  }

  /** After storing, the key finds the new entry and every other key finds what it found
      before. */
  lemma {:induction false} StoredLookup(s: seq<Item>, k: Key, e: Entry, k': Key)
    ensures Lookup(Stored(s, k, e), k) == Some(e)
    ensures k' != k ==> Lookup(Stored(s, k, e), k') == Lookup(s, k')
  {
    if s != [] && s[0].0 != k {
      StoredLookup(s[1..], k, e, k');
      assert Stored(s, k, e)[1..] == Stored(s[1..], k, e);
    }
  }

  /** Storing keeps the keys distinct. */
  lemma {:induction false} StoredDistinct(s: seq<Item>, k: Key, e: Entry)
    requires DistinctKeys(s)
    ensures DistinctKeys(Stored(s, k, e))
    ensures forall k' :: KeyIn(Stored(s, k, e), k') <==> KeyIn(s, k') || k' == k
  {
    var r := Stored(s, k, e);
    forall k' ensures KeyIn(r, k') <==> KeyIn(s, k') || k' == k {
      StoredLookup(s, k, e, k');
    }
    if s != [] && s[0].0 != k {
      StoredDistinct(s[1..], k, e);
      var t := Stored(s[1..], k, e);
      assert r == [s[0]] + t;
      forall j | 0 <= j < |t| ensures t[j].0 != s[0].0 {
        assert KeyIn(t, t[j].0);
        if t[j].0 != k {
          var i :| 0 <= i < |s[1..]| && s[1..][i].0 == t[j].0;
          assert s[i + 1] == s[1..][i];
        }
      }
    } else if s != [] {
      assert r[1..] == s[1..];
    }
  }

  // ---------------------------------------------------------------------------------
  // Cleanup

  /** The entries that have not expired, in order. */
  function Live(s: seq<Item>, now: int): (r: seq<Item>)
    ensures |r| <= |s|
  {
    if s == [] then []
    else
      var last := s[|s| - 1];
      Live(s[..|s| - 1], now) + (if last.1.expiresAt > now then [last] else [])
  }

  /** Exactly the unexpired entries are live. */
  lemma {:induction false} LiveMembers(s: seq<Item>, now: int, p: Item)
    ensures p in Live(s, now) <==> p in s && p.1.expiresAt > now
  {
    if s != [] {
      LiveMembers(s[..|s| - 1], now, p);
      assert s == s[..|s| - 1] + [s[|s| - 1]];
    }
  }

  /** Dropping entries keeps the keys distinct. */
  lemma {:induction false} LiveDistinct(s: seq<Item>, now: int)
    requires DistinctKeys(s)
    ensures DistinctKeys(Live(s, now))
  {
    if s != [] {
      var init := s[..|s| - 1];
      LiveDistinct(init, now);
      var l := Live(init, now);
      forall i | 0 <= i < |l| ensures l[i].0 != s[|s| - 1].0 {
        LiveMembers(init, now, l[i]);
        var j :| 0 <= j < |init| && init[j] == l[i];
        assert s[j] == init[j];
      }
    }
  }

  /** `map.delete(k)`. */
  function RemoveKey(s: seq<Item>, k: Key): (r: seq<Item>)
    ensures |r| <= |s|
  {
    if s == [] then []
    else (if s[0].0 == k then [] else [s[0]]) + RemoveKey(s[1..], k)
  }

  lemma {:induction false} RemoveKeyMembers(s: seq<Item>, k: Key, p: Item)
    ensures p in RemoveKey(s, k) <==> p in s && p.0 != k
  {
    if s != [] {
      RemoveKeyMembers(s[1..], k, p);
      assert s == [s[0]] + s[1..];
    }
  }

  /** Deleting a present key from a map with distinct keys removes exactly one entry, and
      the keys stay distinct. */
  lemma {:induction false} RemoveKeyCount(s: seq<Item>, k: Key)
    requires DistinctKeys(s)
    ensures DistinctKeys(RemoveKey(s, k))
    ensures |RemoveKey(s, k)| == if KeyIn(s, k) then |s| - 1 else |s|
  {
    if s != [] {
      var t := s[1..];
      assert DistinctKeys(t);
      RemoveKeyCount(t, k);
      var rt := RemoveKey(t, k);
      forall i | 0 <= i < |rt| ensures rt[i].0 != s[0].0 {
        RemoveKeyMembers(t, k, rt[i]);
        var j :| 0 <= j < |t| && t[j] == rt[i];
        assert s[j + 1] == t[j];
      }
      if s[0].0 == k {
        assert !KeyIn(t, k) by {
          forall j | 0 <= j < |t| ensures t[j].0 != k {
            assert s[j + 1] == t[j];
          }
        }
      } else {
        assert KeyIn(s, k) <==> KeyIn(t, k) by {
          if KeyIn(s, k) {
            var i :| 0 <= i < |s| && s[i].0 == k;
            assert i > 0 && t[i - 1] == s[i];
          }
          if KeyIn(t, k) {
            var i :| 0 <= i < |t| && t[i].0 == k;
            assert s[i + 1] == t[i];
          }
        }
      }
    }
  }

  /** Deleting a list of keys one after the other. */
  function RemoveKeys(s: seq<Item>, ks: seq<Key>): (r: seq<Item>)
    ensures |r| <= |s|
    decreases ks
  {
    if ks == [] then s else RemoveKeys(RemoveKey(s, ks[0]), ks[1..])
  }

  lemma {:induction false} RemoveKeysMembers(s: seq<Item>, ks: seq<Key>, p: Item)
    ensures p in RemoveKeys(s, ks) <==> p in s && p.0 !in ks
    decreases ks
  {
    if ks != [] {
      RemoveKeysMembers(RemoveKey(s, ks[0]), ks[1..], p);
      RemoveKeyMembers(s, ks[0], p);
      assert ks == [ks[0]] + ks[1..];
    }
  }

  /** Deleting distinct present keys removes one entry each. */
  lemma {:induction false} RemoveKeysCount(s: seq<Item>, ks: seq<Key>)
    requires DistinctKeys(s)
    requires forall i, j :: 0 <= i < j < |ks| ==> ks[i] != ks[j]
    requires forall i :: 0 <= i < |ks| ==> KeyIn(s, ks[i])
    ensures DistinctKeys(RemoveKeys(s, ks))
    ensures |RemoveKeys(s, ks)| == |s| - |ks|
    decreases ks
  {
    if ks != [] {
      var t := RemoveKey(s, ks[0]);
      RemoveKeyCount(s, ks[0]);
      forall i | 0 <= i < |ks[1..]| ensures KeyIn(t, ks[1..][i]) {
        var k := ks[i + 1];
        var j :| 0 <= j < |s| && s[j].0 == k;
        RemoveKeyMembers(s, ks[0], s[j]);
        var m :| 0 <= m < |t| && t[m] == s[j];
      }
      RemoveKeysCount(t, ks[1..]);
    }
  }

  /** With distinct keys, two entries under the same key are the same entry. */
  lemma SameKeySameItem(s: seq<Item>, p: Item, q: Item)
    requires DistinctKeys(s) && p in s && q in s && p.0 == q.0
    ensures p == q
  {
    var i :| 0 <= i < |s| && s[i] == p;
    var j :| 0 <= j < |s| && s[j] == q;
    assert i == j;
  }

  /** With distinct keys, no entry occurs twice. */
  lemma {:induction false} DistinctKeysCounts(s: seq<Item>, p: Item)
    requires DistinctKeys(s)
    ensures multiset(s)[p] <= 1
  {
    if s != [] {
      var t := s[1..];
      assert s == [s[0]] + t;
      assert DistinctKeys(t);
      DistinctKeysCounts(t, p);
      if p == s[0] {
        assert p !in t by {
          forall j | 0 <= j < |t| ensures t[j] != p {
            assert s[j + 1] == t[j];
          }
        }
      }
    }
  }

  /** Two different entries of a map with distinct keys have different keys. */
  lemma DistinctItemsDistinctKeys(s: seq<Item>, p: Item, q: Item)
    requires DistinctKeys(s) && p in s && q in s && p != q
    ensures p.0 != q.0
  {
    var i :| 0 <= i < |s| && s[i] == p;
    var j :| 0 <= j < |s| && s[j] == q;
  }

  /** An element that occurs at most once is different from every later element. */
  lemma OnceBeforeLater<T>(b: seq<T>, i: nat, j: nat)
    requires i < j < |b| && multiset(b)[b[i]] <= 1
    ensures b[i] != b[j]
  {
    assert b == b[..j] + b[j..];
    assert b[i] in multiset(b[..j]);
    assert b[j] in multiset(b[j..]);
  }

  /** Reordering keeps the keys distinct. */
  lemma PermutedDistinct(a: seq<Item>, b: seq<Item>)
    requires DistinctKeys(a) && multiset(a) == multiset(b)
    ensures DistinctKeys(b)
  {
    forall i, j | 0 <= i < j < |b| ensures b[i].0 != b[j].0 {
      assert b[i] in multiset(a) && b[j] in multiset(a);
      DistinctKeysCounts(a, b[i]);
      OnceBeforeLater(b, i, j);
      DistinctItemsDistinctKeys(a, b[i], b[j]);
    }
  }

  /** The entries evicted once too many are live, fewest milliseconds to live first: the
      keys of the first `|live| - 500` entries in expiry order (a stable sort). */
  function Evicted(live: seq<Item>): (ks: seq<Key>)
  {
    if |live| <= MaxItems then []
    else KeysOf(Sorting.SortBy(live, ExpiryOf)[..|live| - MaxItems])
  }

  /** `cleanupDryRunCache()` as a function of the map and the clock. */
  function Cleaned(s: seq<Item>, now: int): seq<Item> {
    var live := Live(s, now);
    RemoveKeys(live, Evicted(live))
  }

  /** Every entry left is one that was there, unchanged and unexpired; an entry is
      evicted only from an over-full map. */
  lemma CleanedMembers(s: seq<Item>, now: int, p: Item)
    ensures p in Cleaned(s, now) ==> p in s && p.1.expiresAt > now
    ensures |Live(s, now)| <= MaxItems ==> Cleaned(s, now) == Live(s, now)
  {
    var live := Live(s, now);
    RemoveKeysMembers(live, Evicted(live), p);
    LiveMembers(s, now, p);
  }

  /** The evicted keys are distinct keys of live entries. */
  lemma EvictedKeys(live: seq<Item>)
    requires DistinctKeys(live) && |live| > MaxItems
    ensures var ks := Evicted(live);
      && |ks| == |live| - MaxItems
      && (forall i, j :: 0 <= i < j < |ks| ==> ks[i] != ks[j])
      && (forall i :: 0 <= i < |ks| ==> KeyIn(live, ks[i]))
  {
    var sorted := Sorting.SortBy(live, ExpiryOf);
    PermutedDistinct(live, sorted);
    var ks := Evicted(live);
    forall i | 0 <= i < |ks| ensures KeyIn(live, ks[i]) {
      assert sorted[i] in multiset(live);
      var j :| 0 <= j < |live| && live[j] == sorted[i];
    }
  }

  /** At most 500 entries remain, exactly 500 when more were live, and the keys stay
      distinct. */
  lemma CleanedBound(s: seq<Item>, now: int)
    requires DistinctKeys(s)
    ensures DistinctKeys(Cleaned(s, now))
    ensures |Cleaned(s, now)| <= MaxItems
    ensures |Live(s, now)| > MaxItems ==> |Cleaned(s, now)| == MaxItems
  {
    var live := Live(s, now);
    LiveDistinct(s, now);
    if |live| > MaxItems {
      EvictedKeys(live);
      RemoveKeysCount(live, Evicted(live));
    }
  }

  /** Eviction takes the entries closest to expiry: every live entry that was evicted
      expires no later than any entry that remains. */
  lemma CleanedEvictsOldest(s: seq<Item>, now: int, p: Item, q: Item)
    requires DistinctKeys(s)
    requires p in Live(s, now) && p !in Cleaned(s, now) && q in Cleaned(s, now)
    ensures p.1.expiresAt <= q.1.expiresAt
  {
    var live := Live(s, now);
    LiveDistinct(s, now);
    var ks := Evicted(live);
    RemoveKeysMembers(live, ks, p);
    RemoveKeysMembers(live, ks, q);
    var i := EvictedPosition(live, p);
    var j := KeptPosition(live, q);
    Sorting.SortBySorted(live, ExpiryOf);
    assert ExpiryOf(Sorting.SortBy(live, ExpiryOf)[i]) <= ExpiryOf(Sorting.SortBy(live, ExpiryOf)[j]);
  }

  /** An evicted live entry stands, in expiry order, among the evicted ones. */
  lemma EvictedPosition(live: seq<Item>, p: Item) returns (i: nat)
    requires DistinctKeys(live) && p in live && p.0 in Evicted(live)
    ensures i < |Evicted(live)| <= |live| && Sorting.SortBy(live, ExpiryOf)[i] == p
  {
    var ks := Evicted(live);
    var sorted := Sorting.SortBy(live, ExpiryOf);
    i :| 0 <= i < |ks| && ks[i] == p.0;
    assert ks[i] == sorted[i].0;
    assert sorted[i] in multiset(live);
    SameKeySameItem(live, sorted[i], p);
  }

  /** A live entry that is kept stands, in expiry order, after the evicted ones. */
  lemma KeptPosition(live: seq<Item>, q: Item) returns (j: nat)
    requires q in live && q.0 !in Evicted(live)
    ensures |Evicted(live)| <= j < |live| && Sorting.SortBy(live, ExpiryOf)[j] == q
  {
    var ks := Evicted(live);
    var sorted := Sorting.SortBy(live, ExpiryOf);
    assert q in multiset(sorted);
    j :| 0 <= j < |sorted| && sorted[j] == q;
    forall m | 0 <= m < |ks| ensures sorted[m] != q {
      assert ks[m] == sorted[m].0;
    }
  }

  /** After a cleanup at `now`, every key found is a hit at `now`. */
  lemma CleanedLookupLive(s: seq<Item>, now: int, k: Key)
    ensures Lookup(Cleaned(s, now), k).Some? ==> Lookup(Cleaned(s, now), k).value.expiresAt > now
  {
    var r := Lookup(Cleaned(s, now), k);
    if r.Some? {
      CleanedMembers(s, now, (k, r.value));
    }
  }

  /** A map whose entries are all unexpired is its own live part. */
  lemma {:induction false} AllLive(s: seq<Item>, now: int)
    requires forall p :: p in s ==> p.1.expiresAt > now
    ensures Live(s, now) == s
  {
    if s != [] {
      var init := s[..|s| - 1];
      forall p | p in init ensures p.1.expiresAt > now {
        var k :| 0 <= k < |init| && init[k] == p;
        assert s[k] == p;
      }
      AllLive(init, now);
      Seqs.PrefixSnoc(s, |s| - 1);
      assert s[..|s|] == s;
    }
  }

  /** A second cleanup at the same instant changes nothing. */
  lemma CleanedIdempotent(s: seq<Item>, now: int)
    requires DistinctKeys(s)
    ensures Cleaned(Cleaned(s, now), now) == Cleaned(s, now)
  {
    var c := Cleaned(s, now);
    forall p | p in c ensures p.1.expiresAt > now {
      CleanedMembers(s, now, p);
    }
    AllLive(c, now);
    CleanedBound(s, now);
  }

  // ---------------------------------------------------------------------------------
  // The cache object

  class Cache {
    var items: seq<Item>

    ghost predicate Valid()
      reads this
    {
      DistinctKeys(items)
    }

    constructor()
      ensures items == [] && Valid()
    {
      items := [];
    }

    /** The entry under `k`, if one is stored and has not expired at `now`. */
    function Hit(k: Key, now: int): (r: Option<Entry>)
      reads this
      ensures r.Some? <==> exists e :: (k, e) in items && e.expiresAt > now && Lookup(items, k) == Some(e)
      ensures Valid() && r.Some? ==> (k, r.value) in items && r.value.expiresAt > now
    {
      match Lookup(items, k)
      case None => None
      case Some(e) => if e.expiresAt > now then Some(e) else None
    }

    /** `DRYRUN_CACHE.set(k, e)`. */
    method Set(k: Key, e: Entry)
      requires Valid()
      modifies this
      ensures items == Stored(old(items), k, e) && Valid()
      ensures Lookup(items, k) == Some(e)
      ensures forall k' :: k' != k ==> Lookup(items, k') == Lookup(old(items), k')
    {
      StoredDistinct(items, k, e);
      forall k' ensures k' != k ==> Lookup(Stored(items, k, e), k') == Lookup(items, k') {
        StoredLookup(items, k, e, k');
      }
      StoredLookup(items, k, e, k);
      items := Stored(items, k, e);
    }

    /** The first pass of a cleanup: the expired entries are deleted. */
    method DropExpired(now: int)
      requires Valid()
      modifies this
      ensures items == Live(old(items), now) && Valid()
    {
      var live: seq<Item> := [];
      var i := 0;
      while i < |items|
        invariant 0 <= i <= |items|
        invariant live == Live(items[..i], now)
      {
        assert items[..i + 1][..i] == items[..i];
        if items[i].1.expiresAt > now {
          live := live + [items[i]];
        }
        i := i + 1;
      }
      assert items[..i] == items;
      LiveDistinct(items, now);
      items := live;
    }

    /** The second pass: the keys are deleted one by one. */
    method DeleteAll(ks: seq<Key>)
      modifies this
      ensures items == RemoveKeys(old(items), ks)
    {
      var i := 0;
      while i < |ks|
        invariant 0 <= i <= |ks|
        invariant RemoveKeys(items, ks[i..]) == RemoveKeys(old(items), ks)
      {
        assert ks[i..][1..] == ks[i + 1..];
        items := RemoveKey(items, ks[i]);
        i := i + 1;
      }
    }

    /** `cleanupDryRunCache()` at `now`: drop what has expired, then, while more than 500
        entries are left, the ones closest to expiry. */
    method Cleanup(now: int)
      requires Valid()
      modifies this
      ensures items == Cleaned(old(items), now) && Valid()
      ensures |items| <= MaxItems
      ensures forall p :: p in items ==> p in old(items) && p.1.expiresAt > now
    {
      ghost var before := items;
      CleanedBound(before, now);
      forall p | p in Cleaned(before, now) ensures p in before && p.1.expiresAt > now {
        CleanedMembers(before, now, p);
      }
      DropExpired(now);
      if |items| > MaxItems {
        var sorted := Sorting.SortBy(items, ExpiryOf);
        var toRemove := sorted[..|items| - MaxItems];
        DeleteAll(KeysOf(toRemove));
      } else {
        DeleteAll([]);
      }
    }
  }

  // ---------------------------------------------------------------------------------
  // The state signature

  /** The newest comment's creation time, or 0 when no comment is later than the epoch. */
  function NewestCommentMs(comments: seq<Comment>): int {
    if comments == [] then 0
    else
      var rest := NewestCommentMs(comments[..|comments| - 1]);
      var ms := comments[|comments| - 1].createdAt;
      if ms > rest then ms else rest
  }

  /** It is the largest of 0 and the creation times, so it is one of them or 0. */
  lemma {:induction false} NewestCommentMsIsMax(comments: seq<Comment>)
    ensures NewestCommentMs(comments) >= 0
    ensures forall c :: c in comments ==> c.createdAt <= NewestCommentMs(comments)
    ensures NewestCommentMs(comments) == 0 || exists c :: c in comments && c.createdAt == NewestCommentMs(comments)
  {
    if comments != [] {
      var init := comments[..|comments| - 1];
      NewestCommentMsIsMax(init);
      assert comments == init + [comments[|comments| - 1]];
    }
  }

  /** `getTicketStateSignature(ticket)`: the number of comments and the newest comment's
      creation time. */
  method StateSignature(comments: seq<Comment>) returns (count: nat, newest: int)
    ensures count == |comments|
    ensures newest == NewestCommentMs(comments)
  {
    newest := 0;
    var i := 0;
    while i < |comments|
      invariant 0 <= i <= |comments|
      invariant newest == NewestCommentMs(comments[..i])
    {
      assert comments[..i + 1][..i] == comments[..i];
      var ms := comments[i].createdAt;
      if ms > newest {
        newest := ms;
      }
      i := i + 1;
    }
    assert comments[..i] == comments;
    count := |comments|;
  }

  /** The key of a dry-run request: the tenant, the ticket, `topK`, the tone, the ticket's
      state signature and the query, "" when absent. */
  function KeyOf(tenantId: Id, ticketId: Id, topK: nat, tone: string, comments: seq<Comment>, query: Option<string>): Key {
    Key(tenantId, ticketId, topK, tone, |comments|, NewestCommentMs(comments), query.GetOr(""))
  }

  /** Two requests share a key exactly when they agree on every input of the key. */
  lemma KeyOfInjective(tenantId: Id, ticketId: Id, topK: nat, tone: string, comments: seq<Comment>, query: Option<string>,
                       tenantId': Id, ticketId': Id, topK': nat, tone': string, comments': seq<Comment>, query': Option<string>)
    ensures KeyOf(tenantId, ticketId, topK, tone, comments, query) == KeyOf(tenantId', ticketId', topK', tone', comments', query')
      <==> tenantId == tenantId' && ticketId == ticketId' && topK == topK' && tone == tone'
           && |comments| == |comments'| && NewestCommentMs(comments) == NewestCommentMs(comments')
           && query.GetOr("") == query'.GetOr("")
  {
  }

  method CacheKey(tenantId: Id, ticketId: Id, topK: nat, tone: string, comments: seq<Comment>, query: Option<string>)
    returns (k: Key)
    ensures k == KeyOf(tenantId, ticketId, topK, tone, comments, query)
  {
    var count, newest := StateSignature(comments);
    k := Key(tenantId, ticketId, topK, tone, count, newest, query.GetOr(""));
  }
}
