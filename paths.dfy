/** POSIX path helpers of Node's `path` module that the knowledge-base code calls:
    `basename` and `extname`. */
module Paths {

  /** Index of the last `c` in `s`, or -1. */
  function LastIndexOf(s: string, c: char): (r: int)
    ensures -1 <= r < |s|
    ensures r >= 0 ==> s[r] == c
    ensures forall k :: r < k < |s| ==> s[k] != c
  {
    if s == [] then -1
    else if s[|s| - 1] == c then |s| - 1
    else LastIndexOf(s[..|s| - 1], c)
  }

  /** The path without its trailing slashes. */
  function StripTrailingSlashes(p: string): (r: string)
    ensures |r| <= |p| && r == p[..|r|]
    ensures r == [] || r[|r| - 1] != '/'
  {
    if p != [] && p[|p| - 1] == '/' then StripTrailingSlashes(p[..|p| - 1]) else p
  }

  /** The last segment of the path, trailing slashes ignored. */
  function Basename(p: string): (r: string)
    ensures forall k :: 0 <= k < |r| ==> r[k] != '/'
  {
    var q := StripTrailingSlashes(p);
    var i := LastIndexOf(q, '/');
    TailAfter(q, i, '/', q[i + 1..]);
    q[i + 1..]
  }

  /** What follows the last `c` holds no `c`. */
  lemma TailAfter(q: string, i: int, c: char, t: string)
    requires -1 <= i < |q| && t == q[i + 1..] && forall k :: i < k < |q| ==> q[k] != c
    ensures forall k :: 0 <= k < |t| ==> t[k] != c
  {
    forall k | 0 <= k < |t| ensures t[k] != c {
      assert t[k] == q[i + 1 + k];
    }
  }

  /** `path.extname`: from the last dot of the last segment to its end; empty when that
      segment has no dot, starts with its only dot, or is "..". */
  function ExtName(p: string): (r: string)
    ensures r == [] || r[0] == '.'
    ensures forall k :: 0 < k < |r| ==> r[k] != '.' && r[k] != '/'
  {
    var b := Basename(p);
    var d := LastIndexOf(b, '.');
    if d <= 0 || b == ".." then "" else
      assert forall k :: 0 <= k < |b| - d ==> b[d..][k] == b[d + k];
      b[d..]
  }

  /** A name `stem.ext` with a non-empty stem has extension `.ext`. */
  lemma ExtNameOf(stem: string, ext: string)
    requires stem != [] && stem != "." && '/' !in stem && '/' !in ext && '.' !in ext
    ensures ExtName(stem + "." + ext) == "." + ext
  {
    var p := stem + "." + ext;
    var d := |stem|;
    assert |p| == d + 1 + |ext|;
    assert p[d] == '.';
    forall k | 0 <= k < |p| ensures p[k] != '/' {
      if k < d { assert p[k] == stem[k] && stem[k] in stem; }
      else if k > d { assert p[k] == ext[k - d - 1] && ext[k - d - 1] in ext; }
    }
    assert StripTrailingSlashes(p) == p;
    assert LastIndexOf(p, '/') == -1;
    assert Basename(p) == p;
    forall k | d < k < |p| ensures p[k] != '.' {
      assert p[k] == ext[k - d - 1] && ext[k - d - 1] in ext;
    }
    var r := LastIndexOf(p, '.');
    assert r == d;
    assert p[..d] == stem;
    assert |p| == 2 ==> stem == [p[0]];
    assert p != "..";
    assert p[d..] == "." + ext;
  }

  /** A name without a dot has no extension. */
  lemma ExtNameNoDot(p: string)
    requires '.' !in p
    ensures ExtName(p) == ""
  {
    var q := StripTrailingSlashes(p);
    var b := Basename(p);
    assert forall x :: x in b ==> x in q;
    assert forall x :: x in q ==> x in p;
  }
}
