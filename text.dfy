/** String operations of the JavaScript runtime that the helpdesk code relies on:
    trimming, ASCII lower-casing, substring search, joining, splitting and decimal
    rendering. Strings are sequences of Unicode scalar values, so lengths count code
    points where JavaScript counts UTF-16 code units. */
module Text {
  import opened Wrappers

  /** The characters that JavaScript's `trim` and the regular-expression class `\s`
      treat as white space (WhiteSpace and LineTerminator of ECMA-262). */
  predicate IsSpace(c: char) {
    || c == ' ' || c == '\t' || c == '\n' || c == '\r' || c == '\U{B}' || c == '\U{C}'
    || c == '\U{A0}' || c == '\U{1680}' || ('\U{2000}' <= c <= '\U{200A}')
    || c == '\U{2028}' || c == '\U{2029}' || c == '\U{202F}' || c == '\U{205F}'
    || c == '\U{3000}' || c == '\U{FEFF}'
  }

  predicate IsBlank(s: string) {
    forall i :: 0 <= i < |s| ==> IsSpace(s[i])
  }

  lemma BlankConcat(a: string, b: string)
    ensures IsBlank(a + b) <==> IsBlank(a) && IsBlank(b)
  {
    if IsBlank(a + b) {
      forall i | 0 <= i < |a| ensures IsSpace(a[i]) {
        assert a[i] == (a + b)[i];
      }
      forall i | 0 <= i < |b| ensures IsSpace(b[i]) {
        assert b[i] == (a + b)[|a| + i];
      }
    }
    if IsBlank(a) && IsBlank(b) {
      forall i | 0 <= i < |a + b| ensures IsSpace((a + b)[i]) {
        if i < |a| { assert (a + b)[i] == a[i]; } else { assert (a + b)[i] == b[i - |a|]; }
      }
    }
  }

  /** No white space at either end. */
  predicate IsTrimmed(s: string) {
    s == [] || (!IsSpace(s[0]) && !IsSpace(s[|s| - 1]))
  }

  /** A blank prefix of `s[1..]` after a leading space is a blank prefix of `s`. */
  lemma BlankLead(s: string, k: nat)
    requires 0 < k <= |s| && IsSpace(s[0]) && IsBlank(s[1..][..k - 1])
    ensures IsBlank(s[..k])
  {
    forall i | 0 <= i < k ensures IsSpace(s[..k][i]) {
      if i > 0 { assert s[..k][i] == s[1..][..k - 1][i - 1]; }
    }
  }

  function TrimStart(s: string): (r: string)
    ensures |r| <= |s| && r == s[|s| - |r|..]
    ensures r == [] || !IsSpace(r[0])
  {
    if s != [] && IsSpace(s[0]) then
      var t := TrimStart(s[1..]);
      assert s[1..][|s| - 1 - |t|..] == s[|s| - |t|..];
      t
    else s
  }

  /** What `TrimStart` drops is white space. */
  lemma {:induction false} TrimStartDropsBlank(s: string)
    ensures IsBlank(s[..|s| - |TrimStart(s)|])
  {
    if s != [] && IsSpace(s[0]) {
      var t := TrimStart(s[1..]);
      TrimStartDropsBlank(s[1..]);
      assert TrimStart(s) == t;
      BlankLead(s, |s| - |t|);
    }
  }

  function TrimEnd(s: string): (r: string)
    ensures |r| <= |s| && r == s[..|r|]
    ensures r == [] || !IsSpace(r[|r| - 1])
  {
    if s != [] && IsSpace(s[|s| - 1]) then
      var t := TrimEnd(s[..|s| - 1]);
      assert s[..|s| - 1][..|t|] == s[..|t|];
      t
    else s
  }

  /** What `TrimEnd` drops is white space. */
  lemma {:induction false} TrimEndDropsBlank(s: string)
    ensures IsBlank(s[|TrimEnd(s)|..])
  {
    if s != [] && IsSpace(s[|s| - 1]) {
      var t := TrimEnd(s[..|s| - 1]);
      TrimEndDropsBlank(s[..|s| - 1]);
      assert TrimEnd(s) == t;
      forall i | 0 <= i < |s| - |t| ensures IsSpace(s[|t|..][i]) {
        if |t| + i < |s| - 1 { assert s[|t|..][i] == s[..|s| - 1][|t|..][i]; }
      }
    }
  }

  /** JavaScript's `String.prototype.trim`. */
  function Trim(s: string): (r: string)
    ensures IsTrimmed(r)
    ensures |r| <= |s|
  {
    var t := TrimStart(s);
    var r := TrimEnd(t);
    assert r != [] ==> r[0] == t[0];
    r
  }

  lemma TrimOfTrimmed(s: string)
    requires IsTrimmed(s)
    ensures Trim(s) == s
  {
  }

  lemma TrimIdempotent(s: string)
    ensures Trim(Trim(s)) == Trim(s)
  {
    TrimOfTrimmed(Trim(s));
  }

  /** Trimming leaves nothing exactly when the string is all white space. */
  lemma TrimEmptyIffBlank(s: string)
    ensures Trim(s) == [] <==> IsBlank(s)
  {
    if Trim(s) == [] {
      TrimmedAwayIsBlank(s);
    } else {
      TrimmedKeepsNonSpace(s);
    }
  }

  lemma TrimmedAwayIsBlank(s: string)
    requires Trim(s) == []
    ensures IsBlank(s)
  {
    var t := TrimStart(s);
    TrimStartDropsBlank(s);
    TrimEndDropsBlank(t);
    assert t[0..] == t;
    assert s[..|s|] == s;
  }

  lemma TrimmedKeepsNonSpace(s: string)
    requires Trim(s) != []
    ensures !IsBlank(s)
  {
    var t := TrimStart(s);
    var r := TrimEnd(t);
    var j := |s| - |t| + |r| - 1;
    assert s[j] == r[|r| - 1];
  }

  /** Every piece is non-empty and has no white space at either end. */
  predicate AllTrimmedNonEmpty(r: seq<string>) {
    forall k :: 0 <= k < |r| ==> r[k] != "" && IsTrimmed(r[k])
  }

  lemma TrimmedNonEmptyConcat(a: seq<string>, b: seq<string>)
    requires AllTrimmedNonEmpty(a) && AllTrimmedNonEmpty(b)
    ensures AllTrimmedNonEmpty(a + b)
  {
    forall k | 0 <= k < |a + b| ensures (a + b)[k] != "" && IsTrimmed((a + b)[k]) {
      if k < |a| { assert (a + b)[k] == a[k]; } else { assert (a + b)[k] == b[k - |a|]; }
    }
  }

  /** The trimmed text as a list of at most one piece: empty when nothing is left. */
  lemma TrimmedPiece(s: string)
    ensures AllTrimmedNonEmpty(if Trim(s) == "" then [] else [Trim(s)])
  {
    var t := Trim(s);
    if t != "" { TrimmedSingleton(t); }
  }

  lemma TrimmedSingleton(t: string)
    requires t != "" && IsTrimmed(t)
    ensures AllTrimmedNonEmpty([t])
  {
    assert [t][0] == t;
  }

  /** ASCII lower-casing; other characters are left unchanged. */
  function LowerChar(c: char): (r: char)
    ensures !('A' <= r <= 'Z')
    ensures IsSpace(r) <==> IsSpace(c)
  {
    if 'A' <= c <= 'Z' then (c as int + 32) as char else c
  }

  function ToLower(s: string): (r: string)
    ensures |r| == |s|
    ensures forall i :: 0 <= i < |s| ==> r[i] == LowerChar(s[i])
  {
    seq(|s|, i requires 0 <= i < |s| => LowerChar(s[i]))
  }

  lemma ToLowerAppend(a: string, b: string)
    ensures ToLower(a + b) == ToLower(a) + ToLower(b)
  {
    forall i | 0 <= i < |a + b| ensures ToLower(a + b)[i] == (ToLower(a) + ToLower(b))[i] {
      if i < |a| { assert (a + b)[i] == a[i]; } else { assert (a + b)[i] == b[i - |a|]; }
    }
  }

  /** `pat` occurs in `s` starting at index `i`. */
  predicate OccursAt(s: string, pat: string, i: int) {
    0 <= i && i + |pat| <= |s| && s[i..i + |pat|] == pat
  }

  /** First occurrence of `pat` at or after `k`, or -1. */
  function IndexOfFrom(s: string, pat: string, k: nat): (r: int)
    decreases |s| - k
    ensures r == -1 || (k <= r && OccursAt(s, pat, r))
    ensures r == -1 ==> forall j :: k <= j ==> !OccursAt(s, pat, j)
    ensures r >= 0 ==> forall j :: k <= j < r ==> !OccursAt(s, pat, j)
  {
    if k + |pat| > |s| then -1
    else if s[k..k + |pat|] == pat then k
    else IndexOfFrom(s, pat, k + 1)
  }

  /** JavaScript's `indexOf` for a substring. */
  function IndexOf(s: string, pat: string): int {
    IndexOfFrom(s, pat, 0)
  }

  /** JavaScript's `includes` for a substring. */
  predicate Contains(s: string, pat: string) {
    IndexOf(s, pat) >= 0
  }

  lemma ContainsIffOccurs(s: string, pat: string)
    ensures Contains(s, pat) <==> exists j :: OccursAt(s, pat, j)
  {
  }

  /** The first index where `pat` occurs, characterised without the search. */
  lemma IndexOfIsFirst(s: string, pat: string, i: nat)
    requires OccursAt(s, pat, i)
    requires forall j :: 0 <= j < i ==> !OccursAt(s, pat, j)
    ensures IndexOf(s, pat) == i
  {
  }

  /** A text that contains `pat` still does inside any surrounding text. */
  lemma ContainsInfix(a: string, t: string, b: string, pat: string)
    requires Contains(t, pat)
    ensures Contains(a + t + b, pat)
  {
    ContainsIffOccurs(t, pat);
    var j :| OccursAt(t, pat, j);
    var s := a + t + b;
    assert s[|a| + j..|a| + j + |pat|] == t[j..j + |pat|];
    assert OccursAt(s, pat, |a| + j);
    ContainsIffOccurs(s, pat);
  }

  /** Every character of a contained pattern occurs in the text. */
  lemma ContainsChar(s: string, pat: string, c: char)
    requires Contains(s, pat) && c in pat
    ensures c in s
  {
    ContainsIffOccurs(s, pat);
    var j :| OccursAt(s, pat, j);
    var k :| 0 <= k < |pat| && pat[k] == c;
    assert s[j..j + |pat|][k] == s[j + k];
  }

  /** A text without one of the pattern's characters does not contain the pattern. */
  lemma MissingCharNotContained(s: string, pat: string, c: char)
    requires c in pat && c !in s
    ensures !Contains(s, pat)
  {
    if Contains(s, pat) {
      ContainsChar(s, pat, c);
    }
  }

  /** A character that is not an upper-case letter is absent from the lower-cased text
      when neither it nor its upper-case form occurs in the text. */
  lemma ToLowerAbsent(s: string, c: char)
    requires !('A' <= c <= 'Z') && c !in s
    requires 'a' <= c <= 'z' ==> (c as int - 32) as char !in s
    ensures c !in ToLower(s)
  {
    forall i | 0 <= i < |s| ensures ToLower(s)[i] != c {
      assert s[i] != c;
    }
  }

  lemma ToLowerIdempotent(s: string)
    ensures ToLower(ToLower(s)) == ToLower(s)
  {
  }

  predicate StartsWith(s: string, prefix: string) {
    |prefix| <= |s| && s[..|prefix|] == prefix
  }

  lemma StartsWithAppend(a: string, b: string)
    ensures StartsWith(a + b, a)
  {
    assert (a + b)[..|a|] == a;
  }

  /** JavaScript's `Array.prototype.join`. */
  function Join(parts: seq<string>, sep: string): string {
    if |parts| == 0 then ""
    else if |parts| == 1 then parts[0]
    else parts[0] + sep + Join(parts[1..], sep)
  }

  /** `Join(parts + [last])` peels the last part off. */
  lemma JoinSnoc(parts: seq<string>, last: string, sep: string)
    requires |parts| > 0
    ensures Join(parts + [last], sep) == Join(parts, sep) + sep + last
  {
    if |parts| > 1 {
      assert (parts + [last])[1..] == parts[1..] + [last];
      JoinSnoc(parts[1..], last, sep);
    }
  }

  /** Index of the first `c` in `s`, or |s| when there is none. */
  function FieldEnd(s: string, c: char): (i: nat)
    ensures i <= |s|
    ensures c !in s[..i]
    ensures i < |s| ==> s[i] == c
  {
    if s == [] then 0
    else if s[0] == c then 0
    else
      var j := FieldEnd(s[1..], c);
      assert s[..j + 1] == [s[0]] + s[1..][..j];
      j + 1
  }

  /** JavaScript's `split` on a single-character separator. */
  function Split(s: string, c: char): (r: seq<string>)
    decreases |s|
    ensures |r| >= 1
  {
    var i := FieldEnd(s, c);
    if i == |s| then [s] else [s[..i]] + Split(s[i + 1..], c)
  }

  /** `FieldEnd` finds the first separator and only that one. */
  lemma {:induction false} FieldEndFirst(s: string, c: char, k: nat)
    requires k <= |s| && (k < |s| ==> s[k] == c) && c !in s[..k]
    ensures FieldEnd(s, c) == k
  {
    if k > 0 {
      assert s[0] == s[..k][0];
      assert s[1..][..k - 1] == s[1..k];
      forall x | x in s[1..k] ensures x in s[..k] {
        var j :| 0 <= j < k - 1 && s[1..k][j] == x;
        assert s[..k][j + 1] == x;
      }
      FieldEndFirst(s[1..], c, k - 1);
    }
  }

  lemma SplitNoSeparator(s: string, c: char)
    requires c !in s
    ensures Split(s, c) == [s]
  {
    assert s[..|s|] == s;
    FieldEndFirst(s, c, |s|);
  }

  lemma SplitFirstField(a: string, c: char, b: string)
    requires c !in a
    ensures Split(a + [c] + b, c)[0] == a
    ensures |Split(a + [c] + b, c)| >= 2
    ensures Split(a + [c] + b, c)[1..] == Split(b, c)
  {
    var s := a + [c] + b;
    assert s[..|a|] == a;
    FieldEndFirst(s, c, |a|);
    assert s[|a| + 1..] == b;
  }

  function DigitChar(d: nat): (c: char)
    requires d < 10
    ensures '0' <= c <= '9'
  {
    ('0' as int + d) as char
  }

  predicate IsDigit(c: char) { '0' <= c <= '9' }

  /** Decimal rendering of a natural number, as JavaScript's `String(n)`. */
  function NatToDecimal(n: nat): (r: string)
    ensures |r| >= 1
    ensures forall i :: 0 <= i < |r| ==> IsDigit(r[i])
  {
    if n < 10 then [DigitChar(n)] else NatToDecimal(n / 10) + [DigitChar(n % 10)]
  }

  function DecimalValue(s: string): nat
    requires forall i :: 0 <= i < |s| ==> IsDigit(s[i])
  {
    if s == [] then 0
    else
      assert IsDigit(s[|s| - 1]);
      DecimalValue(s[..|s| - 1]) * 10 + ((s[|s| - 1] as int) - ('0' as int))
  }

  lemma {:induction false} DecimalRoundTrip(n: nat)
    ensures DecimalValue(NatToDecimal(n)) == n
  {
    if n >= 10 {
      var r := NatToDecimal(n);
      assert r[..|r| - 1] == NatToDecimal(n / 10);
      DecimalRoundTrip(n / 10);
    }
  }

  lemma NatToDecimalInjective(m: nat, n: nat)
    requires NatToDecimal(m) == NatToDecimal(n)
    ensures m == n
  {
    DecimalRoundTrip(m);
    DecimalRoundTrip(n);
  }

  /** Decimal rendering of an integer, with a leading '-' for negative values. */
  function IntToDecimal(i: int): string {
    if i < 0 then "-" + NatToDecimal(-i) else NatToDecimal(i)
  }

  newtype Byte = b: int | 0 <= b < 256

  /** The UTF-8 encoding of one Unicode scalar value. */
  function Utf8Char(c: char): (r: seq<Byte>)
    ensures 1 <= |r| <= 4
    ensures (c as int < 0x80) <==> |r| == 1
  {
    var cp := c as int;
    if cp < 0x80 then [cp as Byte]
    else if cp < 0x800 then [(0xC0 + cp / 64) as Byte, (0x80 + cp % 64) as Byte]
    else if cp < 0x10000 then
      [(0xE0 + cp / 4096) as Byte, (0x80 + (cp / 64) % 64) as Byte, (0x80 + cp % 64) as Byte]
    else
      [(0xF0 + cp / 262144) as Byte, (0x80 + (cp / 4096) % 64) as Byte,
       (0x80 + (cp / 64) % 64) as Byte, (0x80 + cp % 64) as Byte]
  }

  /** `Buffer.from(s, "utf8")`. */
  function Utf8(s: string): (r: seq<Byte>)
    ensures |s| <= |r| <= 4 * |s|
  {
    if s == [] then [] else Utf8Char(s[0]) + Utf8(s[1..])
  }

  /** The number of bytes a UTF-8 sequence starting with `b` occupies. */
  function SequenceLength(b: Byte): nat {
    if b < 0x80 then 1 else if b < 0xE0 then 2 else if b < 0xF0 then 3 else 4
  }

  /** Decoding of one well-formed UTF-8 sequence. */
  function DecodeSequence(bs: seq<Byte>): int
    requires |bs| >= 1 && |bs| >= SequenceLength(bs[0])
  {
    var n := SequenceLength(bs[0]);
    if n == 1 then bs[0] as int
    else if n == 2 then (bs[0] as int - 0xC0) * 64 + (bs[1] as int - 0x80)
    else if n == 3 then
      (bs[0] as int - 0xE0) * 4096 + (bs[1] as int - 0x80) * 64 + (bs[2] as int - 0x80)
    else
      (bs[0] as int - 0xF0) * 262144 + (bs[1] as int - 0x80) * 4096
      + (bs[2] as int - 0x80) * 64 + (bs[3] as int - 0x80)
  }

  /** Division by 64 is determined by a quotient and an in-range remainder. */
  lemma DivMod64(x: int, q: int, m: int)
    requires 0 <= m < 64 && x == q * 64 + m
    ensures x / 64 == q && x % 64 == m
  {
  }

  lemma DivMod4096(x: int, q: int, m: int)
    requires 0 <= m < 4096 && x == q * 4096 + m
    ensures x / 4096 == q && x % 4096 == m
  {
  }

  lemma Digits2(cp: int)
    requires 0x80 <= cp < 0x800
    ensures 2 <= cp / 64 < 32 && cp == (cp / 64) * 64 + cp % 64
  {
  }

  lemma Digits3(cp: int)
    requires 0x800 <= cp < 0x10000
    ensures 0 <= cp / 4096 < 16 && 0 <= (cp / 64) % 64 < 64
    ensures cp == (cp / 4096) * 4096 + ((cp / 64) % 64) * 64 + cp % 64
  {
    var a, rem := cp / 4096, cp % 4096;
    var b, c := rem / 64, rem % 64;
    assert cp == (a * 64 + b) * 64 + c;
    DivMod64(cp, a * 64 + b, c);
    DivMod64(a * 64 + b, a, b);
  }

  lemma Digits4(cp: int)
    requires 0x10000 <= cp < 0x110000
    ensures 0 <= cp / 262144 < 5 && 0 <= (cp / 4096) % 64 < 64 && 0 <= (cp / 64) % 64 < 64
    ensures cp == (cp / 262144) * 262144 + ((cp / 4096) % 64) * 4096 + ((cp / 64) % 64) * 64 + cp % 64
  {
    var a, rem := cp / 262144, cp % 262144;
    var b, rem2 := rem / 4096, rem % 4096;
    var c, d := rem2 / 64, rem2 % 64;
    assert cp == ((a * 64 + b) * 64 + c) * 64 + d;
    assert cp == (a * 64 + b) * 4096 + (c * 64 + d);
    DivMod64(cp, (a * 64 + b) * 64 + c, d);
    DivMod64((a * 64 + b) * 64 + c, a * 64 + b, c);
    DivMod4096(cp, a * 64 + b, c * 64 + d);
    DivMod64(a * 64 + b, a, b);
  }

  lemma Utf8CharDecodes(c: char, rest: seq<Byte>)
    ensures SequenceLength(Utf8Char(c)[0]) == |Utf8Char(c)|
    ensures DecodeSequence(Utf8Char(c) + rest) == c as int
  {
    var cp := c as int;
    var r := Utf8Char(c);
    var t := r + rest;
    assert t[0] == r[0];
    if cp < 0x80 {
    } else if cp < 0x800 {
      Digits2(cp);
      assert t[1] == r[1];
    } else if cp < 0x10000 {
      Digits3(cp);
      assert t[1] == r[1] && t[2] == r[2];
    } else {
      Digits4(cp);
      assert t[1] == r[1] && t[2] == r[2] && t[3] == r[3];
    }
  }

  /** Decoding of well-formed UTF-8 into code points; `None` when a sequence is cut short. */
  function Utf8Decode(bs: seq<Byte>): Option<seq<int>>
    decreases |bs|
  {
    if bs == [] then Some([])
    else if |bs| < SequenceLength(bs[0]) then None
    else
      var n := SequenceLength(bs[0]);
      match Utf8Decode(bs[n..])
      case None => None
      case Some(rest) => Some([DecodeSequence(bs)] + rest)
  }

  /** The code points of a string. */
  function CodePoints(s: string): (r: seq<int>)
    ensures |r| == |s|
  {
    seq(|s|, i requires 0 <= i < |s| => s[i] as int)
  }

  /** Decoding the UTF-8 encoding of a string gives its code points back. */
  lemma {:induction false} Utf8RoundTrip(s: string)
    ensures Utf8Decode(Utf8(s)) == Some(CodePoints(s))
  {
    if s != [] {
      var head, rest := Utf8Char(s[0]), Utf8(s[1..]);
      Utf8CharDecodes(s[0], rest);
      assert (head + rest)[0] == head[0];
      assert (head + rest)[|head|..] == rest;
      Utf8RoundTrip(s[1..]);
      assert CodePoints(s) == [s[0] as int] + CodePoints(s[1..]);
    }
  }

  /** An ASCII string encodes to one byte per character. */
  lemma {:induction false} Utf8Ascii(s: string)
    requires forall i :: 0 <= i < |s| ==> s[i] as int < 0x80
    ensures |Utf8(s)| == |s|
  {
    if s != [] {
      Utf8Ascii(s[1..]);
    }
  }

  /** `s.replace(/\r\n/g, "\n")`: every CR LF pair, scanned left to right, becomes LF. */
  function ReplaceCrlf(s: string): (r: string)
    ensures |r| <= |s|
    ensures '\r' !in s ==> r == s
  {
    if |s| >= 2 && s[0] == '\r' && s[1] == '\n' then "\n" + ReplaceCrlf(s[2..])
    else if s == [] then []
    else [s[0]] + ReplaceCrlf(s[1..])
  }

  /** `s.replace(/c/g, "")`: every occurrence of `c` removed. */
  function RemoveChar(s: string, c: char): (r: string)
    ensures |r| <= |s|
    ensures c !in r
    ensures forall x :: x != c ==> (x in r <==> x in s)
  {
    if s == [] then []
    else (if s[0] == c then [] else [s[0]]) + RemoveChar(s[1..], c)
  }

  /** `s.slice(0, n)` for a non-negative `n`. */
  function Prefix(s: string, n: nat): (r: string)
    ensures |r| == if n < |s| then n else |s|
    ensures r == s[..|r|]
  {
    if n < |s| then s[..n] else s
  }

  /** `s.slice(-n)` for a positive `n`: the last `n` characters, or all of `s`. */
  function Suffix(s: string, n: nat): (r: string)
    requires n > 0
    ensures |r| == if n < |s| then n else |s|
    ensures r == s[|s| - |r|..]
  {
    if n < |s| then s[|s| - n..] else s
  }

  /** `s.slice(i, j)` for `0 <= i`, `0 <= j`: the characters from `i` up to, not
      including, `j`, both clamped to the length. */
  function Slice(s: string, i: nat, j: nat): (r: string)
    ensures i < j && i < |s| ==> r == s[i..if j < |s| then j else |s|]
    ensures j <= i || |s| <= i ==> r == ""
  {
    var e := if j < |s| then j else |s|;
    if i < e then s[i..e] else ""
  }

  /** Lexicographic order of code points, as an SQL `ORDER BY` on a text column compares
      ids under a binary collation. */
  predicate LexLe(a: string, b: string) {
    a == [] || (b != [] && (a[0] < b[0] || (a[0] == b[0] && LexLe(a[1..], b[1..]))))
  }

  predicate LexLt(a: string, b: string) {
    LexLe(a, b) && a != b
  }

  lemma {:induction false} LexLeTotal(a: string, b: string)
    ensures LexLe(a, b) || LexLe(b, a)
  {
    if a != [] && b != [] && a[0] == b[0] {
      LexLeTotal(a[1..], b[1..]);
    }
  }

  lemma {:induction false} LexLeTransitive(a: string, b: string, c: string)
    requires LexLe(a, b) && LexLe(b, c)
    ensures LexLe(a, c)
  {
    if a != [] && b != [] && c != [] && a[0] == b[0] && b[0] == c[0] {
      LexLeTransitive(a[1..], b[1..], c[1..]);
    }
  }

  lemma {:induction false} LexLeAntisymmetric(a: string, b: string)
    requires LexLe(a, b) && LexLe(b, a)
    ensures a == b
  {
    if a != [] && b != [] {
      LexLeAntisymmetric(a[1..], b[1..]);
      assert a == [a[0]] + a[1..] && b == [b[0]] + b[1..];
    }
  }
}
