/** The text helpers at the top of the tickets controller: truncating prompt material,
    clamping a comment to the stored length, the key under which two questions count as
    the same, and the order-keeping merge of questions by that key. */
module AssistText {
  import opened Wrappers
  import opened Json
  import Text
  import Embedding
  import Seqs

  // ---------------------------------------------------------------------------------
  // truncate and clamp

  const TruncateMarker := "\n...[truncated]"
  const ClampMarker := "\n\n...[truncated]"
  const MaxCommentLength := 4800

  /** `truncate(s, max)`: a text longer than `max` keeps its first `max` characters and
      gets the marker; a shorter one is kept. */
  function Truncate(s: string, max: nat): (r: string)
    ensures |s| <= max ==> r == s
    ensures |s| > max ==> r == s[..max] + TruncateMarker
  {
    if s == "" then ""
    else if |s| > max then s[..max] + TruncateMarker
    else s
  }

  /** `s.slice(0, e)` for an end that may be negative: it then counts from the end. */
  function SliceTo(s: string, e: int): (r: string)
    ensures 0 <= e ==> r == Text.Prefix(s, e)
    ensures e < 0 ==> r == Text.Prefix(s, if |s| + e < 0 then 0 else |s| + e)
  {
    if e >= 0 then Text.Prefix(s, e)
    else Text.Prefix(s, if |s| + e < 0 then 0 else |s| + e)
  }

  /** `clamp(s, max)`: a text longer than `max` keeps its first `max - 20` characters and
      gets the 16-character marker, so that for `max >= 20` the result is never longer
      than `max`. */
  function Clamp(s: string, max: nat): (r: string)
    ensures |s| <= max ==> r == s
    ensures |s| > max && max >= 20 ==> r == s[..max - 20] + ClampMarker
    ensures max >= 20 ==> |r| <= max
  {
    if s == "" then ""
    else if |s| > max then SliceTo(s, max - 20) + ClampMarker
    else s
  }

  // ---------------------------------------------------------------------------------
  // normalizeQuestion

  /** The regular-expression class `\w`. */
  predicate IsWordChar(c: char) {
    ('a' <= c <= 'z') || ('A' <= c <= 'Z') || ('0' <= c <= '9') || c == '_'
  }

  predicate NoUpper(s: string) {
    forall i :: 0 <= i < |s| ==> !('A' <= s[i] <= 'Z')
  }

  /** The end of the run of white space starting at `k`. */
  function SpaceRunEnd(s: string, k: nat): (e: nat)
    requires k <= |s|
    ensures k <= e <= |s|
    ensures forall j :: k <= j < e ==> Text.IsSpace(s[j])
    ensures e < |s| ==> !Text.IsSpace(s[e])
    decreases |s| - k
  {
    if k < |s| && Text.IsSpace(s[k]) then SpaceRunEnd(s, k + 1) else k
  }

  /** Where a match of `\b<word>\s+in\b` starting at `i` ends, if there is one. The
      word starts with a word character, so the boundary before it is the absence of
      a word character before `i`. */
  function PhraseEnd(s: string, word: string, i: nat): (j: Option<nat>)
    requires i < |s|
    ensures j.Some? ==> i + |word| + 3 <= j.value <= |s|
    ensures j.Some? ==> Text.OccursAt(s, word, i) && (i == 0 || !IsWordChar(s[i - 1]))
    ensures j.Some? ==> Text.OccursAt(s, "in", j.value - 2) && (j.value == |s| || !IsWordChar(s[j.value]))
  {
    if (i == 0 || !IsWordChar(s[i - 1])) && Text.OccursAt(s, word, i) then
      var e := SpaceRunEnd(s, i + |word|);
      if e > i + |word| && Text.OccursAt(s, "in", e) && (e + 2 == |s| || !IsWordChar(s[e + 2])) then Some(e + 2)
      else None
    else None
  }

  /** `s.replace(/\b<word>\s+in\b/g, repl)` from index `i` on: matches are replaced left
      to right, the scan going on after each match. */
  function ReplacePhrase(s: string, word: string, repl: string, i: nat): (r: string)
    requires i <= |s|
    ensures NoUpper(s) && NoUpper(repl) ==> NoUpper(r)
    decreases |s| - i
  {
    if i == |s| then ""
    else match PhraseEnd(s, word, i)
      case Some(j) => repl + ReplacePhrase(s, word, repl, j)
      case None =>
        [s[i]] + ReplacePhrase(s, word, repl, i + 1)
  }

  /** A text in which the phrase's first letter does not occur is left as it is. */
  lemma {:induction false} ReplaceWithoutWord(s: string, word: string, repl: string, i: nat)
    requires i <= |s| && |word| > 0
    requires forall j :: i <= j < |s| ==> s[j] != word[0]
    ensures ReplacePhrase(s, word, repl, i) == s[i..]
    decreases |s| - i
  {
    if i < |s| {
      ReplaceWithoutWord(s, word, repl, i + 1);
      assert s[i..] == [s[i]] + s[i + 1..];
    }
  }

  /** A text without white space is its own collapse. */
  lemma {:induction false} CollapseWithoutSpace(s: string)
    requires forall j :: 0 <= j < |s| ==> !Text.IsSpace(s[j])
    ensures Embedding.CollapseSpaces(s) == s
    decreases |s|
  {
    if s != [] {
      CollapseWithoutSpace(s[1..]);
      assert s == [s[0]] + s[1..];
    }
  }

  /** `replace(/[.?!]+$/g, "")`. */
  function StripEndPunctuation(s: string): (r: string)
    ensures |r| <= |s| && r == s[..|r|]
    ensures r == [] || r[|r| - 1] !in ".?!"
    ensures forall j :: |r| <= j < |s| ==> s[j] in ".?!"
  {
    if s != [] && s[|s| - 1] in ".?!" then StripEndPunctuation(s[..|s| - 1]) else s
  }

  /** The key of a question: trimmed, lower-cased, "log in" and "sign in" as one word,
      each white-space run one space, and no closing `.`, `?` or `!`. */
  function NormalizeQuestion(s: string): string {
    StripEndPunctuation(Collapsed(s))
  }

  lemma NoUpperSuffix(s: string, k: nat)
    requires NoUpper(s) && k <= |s|
    ensures NoUpper(s[k..])
  {
    forall i | 0 <= i < |s[k..]| ensures !('A' <= s[k..][i] <= 'Z') {
      assert s[k..][i] == s[k + i];
    }
  }

  lemma NoUpperPrefix(s: string, k: nat)
    requires NoUpper(s) && k <= |s|
    ensures NoUpper(s[..k])
  {
    forall i | 0 <= i < k ensures !('A' <= s[..k][i] <= 'Z') {
      assert s[..k][i] == s[i];
    }
  }

  lemma NoUpperCons(c: char, t: string)
    requires !('A' <= c <= 'Z') && NoUpper(t)
    ensures NoUpper([c] + t)
  {
    forall i | 0 <= i < |[c] + t| ensures !('A' <= ([c] + t)[i] <= 'Z') {
      if i > 0 { assert ([c] + t)[i] == t[i - 1]; }
    }
  }

  lemma {:induction false} CollapseNoUpper(s: string)
    requires NoUpper(s)
    ensures NoUpper(Embedding.CollapseSpaces(s))
    decreases |s|
  {
    if s != [] {
      assert !('A' <= s[0] <= 'Z');
      NoUpperSuffix(s, 1);
      if Text.IsSpace(s[0]) {
        var rest := Text.TrimStart(s[1..]);
        NoUpperSuffix(s[1..], |s[1..]| - |rest|);
        CollapseNoUpper(rest);
        NoUpperCons(' ', Embedding.CollapseSpaces(rest));
      } else {
        CollapseNoUpper(s[1..]);
        NoUpperCons(s[0], Embedding.CollapseSpaces(s[1..]));
      }
    }
  }

  /** What the stages before the last one make of a question. */
  function Collapsed(s: string): string {
    Embedding.CollapseSpaces(ReplacePhrase(ReplacePhrase(Text.ToLower(Text.Trim(s)), "log", "login", 0), "sign", "signin", 0))
  }

  lemma LowerNoUpper(t: string)
    ensures NoUpper(Text.ToLower(t))
  {
    var l := Text.ToLower(t);
    forall i | 0 <= i < |l| ensures !('A' <= l[i] <= 'Z') {
      assert l[i] == Text.LowerChar(t[i]);
    }
  }

  lemma JoinedWordsNoUpper()
    ensures NoUpper("login") && NoUpper("signin")
  {
    forall i | 0 <= i < 5 ensures !('A' <= "login"[i] <= 'Z') {
      assert i == 0 || i == 1 || i == 2 || i == 3 || i == 4;
    }
    forall i | 0 <= i < 6 ensures !('A' <= "signin"[i] <= 'Z') {
      assert i == 0 || i == 1 || i == 2 || i == 3 || i == 4 || i == 5;
    }
  }

  lemma CollapsedNoUpper(s: string)
    ensures NoUpper(Collapsed(s))
  {
    var lowered := Text.ToLower(Text.Trim(s));
    LowerNoUpper(Text.Trim(s));
    JoinedWordsNoUpper();
    var joined := ReplacePhrase(lowered, "log", "login", 0);
    var signed := ReplacePhrase(joined, "sign", "signin", 0);
    CollapseNoUpper(signed);
  }

  lemma CollapsedSpaces(s: string)
    ensures Embedding.PlainSpaces(Collapsed(s)) && Embedding.NoDoubleSpace(Collapsed(s))
  {
    Embedding.CollapseSpacesShape(ReplacePhrase(ReplacePhrase(Text.ToLower(Text.Trim(s)), "log", "login", 0), "sign", "signin", 0));
  }

  /** A prefix of a collapsed text keeps its shape. */
  lemma ShapePrefix(c: string, n: nat)
    requires n <= |c| && NoUpper(c) && Embedding.PlainSpaces(c) && Embedding.NoDoubleSpace(c)
    ensures NoUpper(c[..n]) && Embedding.PlainSpaces(c[..n]) && Embedding.NoDoubleSpace(c[..n])
  {
    NoUpperPrefix(c, n);
    forall i | 0 <= i < n ensures c[..n][i] == c[i] {
    }
  }

  /** A key has no upper-case letter, no white space but single plain spaces, and does
      not end in `.`, `?` or `!`. */
  lemma NormalizedShape(s: string)
    ensures var k := NormalizeQuestion(s);
      && NoUpper(k)
      && Embedding.PlainSpaces(k) && Embedding.NoDoubleSpace(k)
      && (k == [] || k[|k| - 1] !in ".?!")
  {
    CollapsedNoUpper(s);
    CollapsedSpaces(s);
    StrippedShape(Collapsed(s));
  }

  /** Stripping the closing punctuation of a collapsed text keeps its shape. */
  lemma StrippedShape(c: string)
    requires NoUpper(c) && Embedding.PlainSpaces(c) && Embedding.NoDoubleSpace(c)
    ensures var k := StripEndPunctuation(c);
      && NoUpper(k)
      && Embedding.PlainSpaces(k) && Embedding.NoDoubleSpace(k)
      && (k == [] || k[|k| - 1] !in ".?!")
  {
    ShapePrefix(c, |StripEndPunctuation(c)|);
  }

  lemma ExampleLowered()
    ensures Text.ToLower(Text.Trim("Log  in?")) == "log  in?"
  {
    assert Text.TrimStart("Log  in?") == "Log  in?";
    assert Text.TrimEnd("Log  in?") == "Log  in?";
  }

  lemma ExampleJoined()
    ensures ReplacePhrase("log  in?", "log", "login", 0) == "login?"
  {
    var l := "log  in?";
    assert SpaceRunEnd(l, 5) == 5;
    assert SpaceRunEnd(l, 4) == 5;
    assert SpaceRunEnd(l, 3) == 5;
    assert PhraseEnd(l, "log", 0) == Some(7);
    assert ReplacePhrase(l, "log", "login", 8) == "";
    assert PhraseEnd(l, "log", 7).None?;
  }

  lemma ExampleUnreplaced()
    ensures ReplacePhrase("login?", "sign", "signin", 0) == "login?"
  {
    ReplaceWithoutWord("login?", "sign", "signin", 0);
  }

  lemma ExampleUncollapsed()
    ensures Embedding.CollapseSpaces("login?") == "login?"
  {
    var s := "login?";
    assert s[0] == 'l' && s[1] == 'o' && s[2] == 'g' && s[3] == 'i' && s[4] == 'n' && s[5] == '?';
    CollapseWithoutSpace(s);
  }

  lemma ExampleStripped()
    ensures StripEndPunctuation("login?") == "login"
  {
    assert StripEndPunctuation("login") == "login";
  }

  lemma ExampleRest()
    ensures StripEndPunctuation(Embedding.CollapseSpaces(ReplacePhrase("login?", "sign", "signin", 0))) == "login"
  {
    ExampleUnreplaced();
    ExampleUncollapsed();
    ExampleStripped();
  }

  /** "Log  in?" and "login" are the same question. */
  lemma LogInKey()
    ensures NormalizeQuestion("Log  in?") == "login"
  {
    ExampleLowered();
    ExampleJoined();
    ExampleRest();
  }

  /** A blank question has the empty key. */
  lemma BlankQuestionEmptyKey(s: string)
    requires Text.Trim(s) == ""
    ensures NormalizeQuestion(s) == ""
  {
    assert Text.ToLower("") == "";
  }

  lemma NonBlankQuestion(s: string)
    ensures NormalizeQuestion(s) != "" ==> Text.Trim(s) != ""
  {
    if Text.Trim(s) == "" {
      BlankQuestionEmptyKey(s);
    }
  }

  /** The key ignores white space at either end. */
  lemma KeyOfTrimmed(s: string)
    ensures NormalizeQuestion(Text.Trim(s)) == NormalizeQuestion(s)
  {
    Text.TrimIdempotent(s);
  }

  // ---------------------------------------------------------------------------------
  // qMerge and normalizeQuestionsArray

  /** The merge state: (key, question) pairs in insertion order. */
  type Entries = seq<(string, string)>

  predicate HasKey(entries: Entries, k: string) {
    exists i :: 0 <= i < |entries| && entries[i].0 == k
  }

  lemma HasKeyAppend(entries: Entries, k: string, v: string)
    ensures forall k' :: HasKey(entries + [(k, v)], k') <==> HasKey(entries, k') || k' == k
  {
    var e := entries + [(k, v)];
    assert e[|entries|].0 == k;
    forall k' | HasKey(entries, k') ensures HasKey(e, k') {
      var i :| 0 <= i < |entries| && entries[i].0 == k';
      assert e[i] == entries[i];
    }
  }

  /** No key is empty and no two entries share one; every question is trimmed and not
      empty. */
  ghost predicate Keyed(entries: Entries) {
    && (forall i :: 0 <= i < |entries| ==>
          entries[i].0 != "" && entries[i].1 != "" && Text.IsTrimmed(entries[i].1))
    && (forall i, j :: 0 <= i < j < |entries| ==> entries[i].0 != entries[j].0)
  }

  /** A question under its key, unless the key is empty or already present. */
  function MergeKeyed(entries: Entries, k: string, v: string): (r: Entries)
    ensures Keyed(entries) && (k != "" ==> v != "" && Text.IsTrimmed(v)) ==> Keyed(r)
  {
    if k == "" || HasKey(entries, k) then entries else entries + [(k, v)]
  }

  /** One question added: kept, trimmed, under its key, unless the key is empty or
      already present. */
  function MergeOne(entries: Entries, q: string): (r: Entries)
    ensures Keyed(entries) ==> Keyed(r)
  {
    NonBlankQuestion(q);
    MergeKeyed(entries, NormalizeQuestion(q), Text.Trim(q))
  }

  lemma MergeOneIs(entries: Entries, q: string)
    ensures var k := NormalizeQuestion(q);
      MergeOne(entries, q) == if k == "" || HasKey(entries, k) then entries else entries + [(k, Text.Trim(q))]
    ensures Keyed(entries) ==> Keyed(MergeOne(entries, q))
  {
  }

  /** The questions added one after the other. */
  function MergeAll(entries: Entries, qs: seq<string>): (r: Entries)
    ensures Keyed(entries) ==> Keyed(r)
  {
    if qs == [] then entries else MergeOne(MergeAll(entries, qs[..|qs| - 1]), qs[|qs| - 1])
  }

  function Values(entries: Entries): (r: seq<string>)
    ensures |r| == |entries| && forall i :: 0 <= i < |r| ==> r[i] == entries[i].1
  {
    seq(|entries|, i requires 0 <= i < |entries| => entries[i].1)
  }

  /** Merging only appends. */
  lemma {:induction false} MergeAllExtends(entries: Entries, qs: seq<string>)
    ensures entries <= MergeAll(entries, qs)
  {
    if qs != [] {
      MergeAllExtends(entries, qs[..|qs| - 1]);
    }
  }

  /** A key is present after merging exactly when it was before or it is the non-empty
      key of one of the questions. */
  lemma {:induction false} MergeAllKeys(entries: Entries, qs: seq<string>, k: string)
    ensures HasKey(MergeAll(entries, qs), k) <==>
      HasKey(entries, k) || (k != "" && exists i :: 0 <= i < |qs| && NormalizeQuestion(qs[i]) == k)
  {
    if qs != [] {
      var init, last := qs[..|qs| - 1], qs[|qs| - 1];
      MergeAllKeys(entries, init, k);
      MergeOneKeys(MergeAll(entries, init), last, k);
      SomeKeySnoc(qs, init, k, NormalizeQuestion);
    }
  }

  /** A key is present after adding one question exactly when it was before or it is
      the question's non-empty key. */
  lemma MergeOneKeys(entries: Entries, q: string, k: string)
    ensures HasKey(MergeOne(entries, q), k) <==> HasKey(entries, k) || (k != "" && NormalizeQuestion(q) == k)
  {
    var key := NormalizeQuestion(q);
    if key != "" && !HasKey(entries, key) {
      HasKeyAppend(entries, key, Text.Trim(q));
    }
  }

  /** Some question of a non-empty list has key `k` exactly when one before the last has,
      or the last has; for any way `key` of computing keys. */
  lemma SomeKeySnoc(qs: seq<string>, init: seq<string>, k: string, key: string -> string)
    requires qs != [] && init == qs[..|qs| - 1]
    ensures (exists i :: 0 <= i < |qs| && key(qs[i]) == k) <==>
      (exists i :: 0 <= i < |init| && key(init[i]) == k) || key(qs[|qs| - 1]) == k
  {
    if exists i :: 0 <= i < |qs| && key(qs[i]) == k {
      var i :| 0 <= i < |qs| && key(qs[i]) == k;
      if i < |init| {
        assert init[i] == qs[i];
      }
    }
    if exists i :: 0 <= i < |init| && key(init[i]) == k {
      var i :| 0 <= i < |init| && key(init[i]) == k;
      assert init[i] == qs[i];
    }
  }

  /** The first question with a given key, trimmed, is the one kept for it. */
  lemma {:induction false} MergeAllFirstWins(entries: Entries, qs: seq<string>, i: nat)
    requires i < |qs| && NormalizeQuestion(qs[i]) != ""
    requires !HasKey(entries, NormalizeQuestion(qs[i]))
    requires forall j :: 0 <= j < i ==> NormalizeQuestion(qs[j]) != NormalizeQuestion(qs[i])
    ensures (NormalizeQuestion(qs[i]), Text.Trim(qs[i])) in MergeAll(entries, qs)
  {
    if i < |qs| - 1 {
      var init := qs[..|qs| - 1];
      assert forall j :: 0 <= j <= i ==> init[j] == qs[j];
      MergeAllFirstWins(entries, init, i);
      MergeOneIs(MergeAll(entries, init), qs[|qs| - 1]);
      assert MergeAll(entries, init) <= MergeAll(entries, qs);
    } else {
      LastFirstWins(entries, qs);
    }
  }

  /** The last question, when no earlier one and no entry has its key, is kept. */
  lemma LastFirstWins(entries: Entries, qs: seq<string>)
    requires qs != [] && NormalizeQuestion(qs[|qs| - 1]) != ""
    requires !HasKey(entries, NormalizeQuestion(qs[|qs| - 1]))
    requires forall j :: 0 <= j < |qs| - 1 ==> NormalizeQuestion(qs[j]) != NormalizeQuestion(qs[|qs| - 1])
    ensures (NormalizeQuestion(qs[|qs| - 1]), Text.Trim(qs[|qs| - 1])) in MergeAll(entries, qs)
  {
    var init, last := qs[..|qs| - 1], qs[|qs| - 1];
    MergeAllKeys(entries, init, NormalizeQuestion(last));
    assert !HasKey(MergeAll(entries, init), NormalizeQuestion(last));
    MergeOneIs(MergeAll(entries, init), last);
  }

  /** `qMerge`: a map from key to the first question seen with it, kept in insertion
      order. */
  class QMerge {
    var entries: Entries

    ghost predicate Valid()
      reads this
    {
      Keyed(entries)
    }

    /** `qMerge(initial)`: the initial questions, `[]` when absent, merged in order. */
    constructor(initial: Option<seq<string>>)
      ensures Valid()
      ensures entries == MergeAll([], initial.GetOr([]))
    {
      var qs := initial.GetOr([]);
      var acc: Entries := [];
      for i := 0 to |qs|
        invariant acc == MergeAll([], qs[..i])
        invariant Keyed(acc)
      {
        MergeAllSnoc([], qs, i);
        MergeOneIs(acc, qs[i]);
        var norm := NormalizeQuestion(qs[i]);
        if norm != "" && !HasKey(acc, norm) {
          acc := acc + [(norm, Text.Trim(qs[i]))];
        }
      }
      assert qs[..|qs|] == qs;
      entries := acc;
    }

    /** `add(q)` */
    method Add(q: string)
      requires Valid()
      modifies this
      ensures Valid()
      ensures entries == MergeOne(old(entries), q)
    {
      MergeOneIs(entries, q);
      var norm := NormalizeQuestion(q);
      if norm == "" {
        return;
      }
      if !HasKey(entries, norm) {
        entries := entries + [(norm, Text.Trim(q))];
      }
    }

    /** `values()`: the kept questions in insertion order. */
    function Questions(): (r: seq<string>)
      reads this
      ensures r == Values(entries)
    {
      Values(entries)
    }
  }

  /** `String(v ?? "")` of each item. */
  function Texts(items: seq<Json>): (r: seq<string>)
    ensures |r| == |items| && forall i :: 0 <= i < |items| ==> r[i] == StringOrEmpty(Some(items[i]))
  {
    seq(|items|, i requires 0 <= i < |items| => StringOrEmpty(Some(items[i])))
  }

  /** The loop state of `normalizeQuestionsArray` mirrors a merge: `out` holds the kept
      questions and `seen` their keys. */
  ghost predicate Tracks(seen: set<string>, out: seq<string>, merged: Entries) {
    out == Values(merged) && forall k :: k in seen <==> HasKey(merged, k)
  }

  lemma TracksAdd(seen: set<string>, out: seq<string>, merged: Entries, key: string, raw: string)
    requires Tracks(seen, out, merged)
    ensures Tracks(seen + {key}, out + [raw], merged + [(key, raw)])
  {
    HasKeyAppend(merged, key, raw);
    var vs := Values(merged + [(key, raw)]);
    assert vs == Values(merged) + [raw] by {
      forall i | 0 <= i < |vs| ensures vs[i] == (Values(merged) + [raw])[i] {
        if i < |merged| { assert (merged + [(key, raw)])[i] == merged[i]; }
      }
    }
  }

  /** One item of `normalizeQuestionsArray`: trimmed; kept when its key is non-empty and
      not seen yet, and its key is then seen. */
  method Keep(seen: set<string>, out: seq<string>, ghost merged: Entries, text: string)
    returns (seen': set<string>, out': seq<string>, ghost merged': Entries)
    requires Tracks(seen, out, merged)
    ensures merged' == MergeOne(merged, text)
    ensures Tracks(seen', out', merged')
  {
    seen', out', merged' := seen, out, merged;
    MergeOneTrimmed(merged, text);
    var raw := Text.Trim(text);
    if raw == "" {
      return;
    }
    var key := NormalizeQuestion(raw);
    if key == "" || key in seen {
      return;
    }
    TracksAdd(seen, out, merged, key, raw);
    seen' := seen + {key};
    merged' := merged + [(key, raw)];
    out' := out + [raw];
  }

  /** `normalizeQuestionsArray`: not an array gives []; otherwise the items, rendered
      and trimmed, deduplicated by key with empty keys dropped, first one kept. */
  method NormalizeQuestionsArray(arr: Json) returns (out: seq<string>)
    ensures !arr.JArr? ==> out == []
    ensures arr.JArr? ==> out == Values(MergeAll([], Texts(arr.items)))
  {
    if !arr.JArr? {
      return [];
    }
    var texts := Texts(arr.items);
    var seen: set<string> := {};
    out := [];
    ghost var merged: Entries := [];
    for i := 0 to |texts|
      invariant merged == MergeAll([], texts[..i])
      invariant Tracks(seen, out, merged)
    {
      MergeAllSnoc([], texts, i);
      seen, out, merged := Keep(seen, out, merged, texts[i]);
    }
    assert texts[..|texts|] == texts;
  }

  lemma MergeAllSnoc(entries: Entries, qs: seq<string>, i: nat)
    requires i < |qs|
    ensures MergeAll(entries, qs[..i + 1]) == MergeOne(MergeAll(entries, qs[..i]), qs[i])
  {
    assert qs[..i + 1][..i] == qs[..i];
  }

  /** Adding a question is adding it trimmed under the trimmed question's key; a blank
      one adds nothing. */
  lemma MergeOneTrimmed(entries: Entries, q: string)
    ensures var k := NormalizeQuestion(Text.Trim(q));
      MergeOne(entries, q) == if k == "" || HasKey(entries, k) then entries else entries + [(k, Text.Trim(q))]
    ensures Text.Trim(q) == "" ==> MergeOne(entries, q) == entries
  {
    KeyOfTrimmed(q);
    if Text.Trim(q) == "" {
      BlankQuestionEmptyKey(q);
    }
  }

  /** Each entry a merge adds is keyed by the key of its question. */
  lemma {:induction false} MergeAllKeyOfValue(entries: Entries, qs: seq<string>, i: nat)
    requires |entries| <= i < |MergeAll(entries, qs)|
    ensures MergeAll(entries, qs)[i].0 == NormalizeQuestion(MergeAll(entries, qs)[i].1)
  {
    var init, last := qs[..|qs| - 1], qs[|qs| - 1];
    var before := MergeAll(entries, init);
    MergeOneIs(before, last);
    if i < |before| {
      MergeAllKeyOfValue(entries, init, i);
      assert MergeAll(entries, qs)[i] == before[i];
    } else {
      KeyOfTrimmed(last);
    }
  }

  /** The questions kept are trimmed and non-empty, and no two share a key. */
  lemma MergedQuestionsDistinct(qs: seq<string>)
    ensures var vs := Values(MergeAll([], qs));
      && (forall i :: 0 <= i < |vs| ==> vs[i] != "" && Text.IsTrimmed(vs[i]))
      && (forall i, j :: 0 <= i < j < |vs| ==> NormalizeQuestion(vs[i]) != NormalizeQuestion(vs[j]))
  {
    var m := MergeAll([], qs);
    forall i, j | 0 <= i < j < |m| ensures NormalizeQuestion(m[i].1) != NormalizeQuestion(m[j].1) {
      MergeAllKeyOfValue([], qs, i);
      MergeAllKeyOfValue([], qs, j);
    }
  }

  /** In entries without a repeated key, no entry before the i-th has its key. */
  lemma KeyAbsentBefore(m: Entries, i: nat)
    requires Keyed(m) && i < |m|
    ensures !HasKey(m[..i], m[i].0)
  {
    forall j | 0 <= j < i ensures m[..i][j].0 != m[i].0 {
      assert m[..i][j] == m[j];
    }
  }

  /** Re-adding the next kept question to the entries before it appends it again. */
  lemma ReplayStep(m: Entries, i: nat)
    requires Keyed(m) && i < |m| && m[i].0 == NormalizeQuestion(m[i].1)
    ensures MergeOne(m[..i], m[i].1) == m[..i + 1]
  {
    var k, v := m[i].0, m[i].1;
    Text.TrimOfTrimmed(v);
    KeyAbsentBefore(m, i);
    assert MergeKeyed(m[..i], k, v) == m[..i] + [(k, v)];
    Seqs.PrefixSnoc(m, i);
  }

  /** Merging the questions a merge kept gives them back unchanged: a stored answer's
      questions survive being normalized again. */
  lemma MergeOfMerged(qs: seq<string>)
    ensures Values(MergeAll([], Values(MergeAll([], qs)))) == Values(MergeAll([], qs))
  {
    var m := MergeAll([], qs);
    ReplayUpTo(qs, |m|);
    assert Values(m)[..|m|] == Values(m);
    assert m[..|m|] == m;
  }

  /** Replaying the first `i` kept questions gives the first `i` entries back. */
  lemma {:induction false} ReplayUpTo(qs: seq<string>, i: nat)
    requires i <= |MergeAll([], qs)|
    ensures MergeAll([], Values(MergeAll([], qs))[..i]) == MergeAll([], qs)[..i]
  {
    if i > 0 {
      ReplayUpTo(qs, i - 1);
      ReplayPrefix(qs, i);
    }
  }

  /** One more kept question replayed gives one more entry back. */
  lemma ReplayPrefix(qs: seq<string>, i: nat)
    requires 0 < i <= |MergeAll([], qs)|
    requires MergeAll([], Values(MergeAll([], qs))[..i - 1]) == MergeAll([], qs)[..i - 1]
    ensures MergeAll([], Values(MergeAll([], qs))[..i]) == MergeAll([], qs)[..i]
  {
    var m := MergeAll([], qs);
    var j := i - 1;
    assert Keyed(m) by {
      assert Keyed([]);
    }
    MergeAllKeyOfValue([], qs, j);
    ReplayStep(m, j);
    MergeAllSnoc([], Values(m), j);
    assert Values(m)[j] == m[j].1;
  }
}
