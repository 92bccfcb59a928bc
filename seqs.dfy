/** Generic facts about sequences that loop proofs use. */
module Seqs {
  lemma AppendAssociative<T>(a: seq<T>, b: seq<T>, c: seq<T>)
    ensures a + (b + c) == (a + b) + c
  {
  }

  lemma PrefixSnoc<T>(s: seq<T>, i: nat)
    requires i < |s|
    ensures s[..i + 1] == s[..i] + [s[i]]
  {
  }

  /** `Array.from(new Set(s))`: each element once, at the place of its first occurrence. */
  function Dedupe<T(==,!new)>(s: seq<T>): (r: seq<T>)
    ensures forall x :: x in r <==> x in s
    ensures forall i, j :: 0 <= i < j < |r| ==> r[i] != r[j]
    ensures s != [] ==> r != [] && r[0] == s[0]
    ensures |r| <= |s|
  {
    if s == [] then []
    else
      var d := Dedupe(s[..|s| - 1]);
      assert forall x :: x in s <==> x in s[..|s| - 1] || x == s[|s| - 1];
      if s[|s| - 1] in d then d else d + [s[|s| - 1]]
  }

  /** The first `n` elements, or all of them when there are fewer: SQL `LIMIT n` and
      `slice(0, n)`. */
  function Take<T>(s: seq<T>, n: nat): (r: seq<T>)
    ensures |r| == if n < |s| then n else |s|
    ensures r == s[..|r|]
  {
    if n < |s| then s[..n] else s
  }

  /** The rows of a table, in some order the model does not fix. */
  ghost function MapRows<K(!new), V(!new)>(m: map<K, V>): (r: seq<(K, V)>)
    ensures forall p :: p in r <==> p.0 in m && m[p.0] == p.1
    decreases |m|
  {
    if m == map[] then []
    else
      var k :| k in m;
      [(k, m[k])] + MapRows(m - {k})
  }
}
