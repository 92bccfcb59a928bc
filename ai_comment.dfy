/** The internal comment the assistant leaves on a ticket: a readable summary followed by
    the response as JSON between two marker lines, and the reading of that JSON back out
    of a comment, which is how a repeated request is answered from the comment. */
module AiComment {
  import opened Wrappers
  import opened Json
  import opened Records
  import Text
  import Seqs

  const JsonStart := "[AIAssistResponseJSON]"
  const JsonEnd := "[/AIAssistResponseJSON]"

  /** What a null citation does to the template `${c.source}`. */
  const NullCitation := "Cannot read properties of null (reading 'source')"

  datatype CommentArgs = CommentArgs(
    customerReply: string,
    internalNotes: string,
    nextSteps: seq<string>,
    questions: seq<string>,
    citations: seq<Json>,
    cacheJson: Json)

  /** `s || "(none)"` */
  function OrNone(s: string): (r: string)
    ensures s != "" ==> r == s
    ensures s == "" ==> r == "(none)"
  {
    if s == "" then "(none)" else s
  }

  /** One `- ` line per item, or `- (none)` for no items. */
  function Bullets(items: seq<string>): (r: seq<string>)
    ensures items == [] ==> r == ["- (none)"]
    ensures items != [] ==> |r| == |items| && forall i :: 0 <= i < |items| ==> r[i] == "- " + items[i]
  {
    if items == [] then ["- (none)"] else seq(|items|, i requires 0 <= i < |items| => "- " + items[i])
  }

  /** `${c.source} ${c.filename} (chunkId: ${c.chunkId})` for a citation that is not null. */
  function CitationText(c: Json): string {
    Interpolate(Get(c, "source")) + " " + Interpolate(Get(c, "filename")) + " (chunkId: " + Interpolate(Get(c, "chunkId")) + ")"
  }

  function CitationTexts(cs: seq<Json>): (r: seq<string>)
    ensures |r| == |cs| && forall i :: 0 <= i < |cs| ==> r[i] == CitationText(cs[i])
  {
    seq(|cs|, i requires 0 <= i < |cs| => CitationText(cs[i]))
  }

  predicate HasNull(cs: seq<Json>) {
    exists i :: 0 <= i < |cs| && cs[i].JNull?
  }

  /** A titled list followed by an empty line. */
  function Section(title: string, items: seq<string>): seq<string> {
    [title] + Bullets(items) + [""]
  }

  function HeadLines(args: CommentArgs): seq<string> {
    ["[AI Assist]", "", "Customer reply (suggested):", OrNone(args.customerReply), "",
     "Internal notes: " + OrNone(args.internalNotes), ""]
  }

  /** Everything before the JSON block. */
  function SummaryLines(args: CommentArgs): seq<string> {
    HeadLines(args) + Section("Next steps:", args.nextSteps)
      + Section("Questions for customer:", args.questions)
      + Section("Citations:", CitationTexts(args.citations))
  }

  /** The lines of the comment: the summary, then the JSON of `cacheJson` between the
      marker lines; a null citation fails the way the template does. */
  function CommentLines(args: CommentArgs, stringify: Json -> string): (r: Result<seq<string>, Exception>)
    ensures r.Err? <==> HasNull(args.citations)
    ensures r.Ok? ==> |r.value| >= 3 && r.value[|r.value| - 3..] == [JsonStart, stringify(args.cacheJson), JsonEnd]
  {
    if HasNull(args.citations) then Err(Exception(Internal, NullCitation))
    else
      var lines := SummaryLines(args) + [JsonStart, stringify(args.cacheJson), JsonEnd];
      assert lines[|lines| - 3..] == [JsonStart, stringify(args.cacheJson), JsonEnd];
      Ok(lines)
  }

  /** Pushes one `- ` line per item, or `- (none)`. */
  method PushBullets(lines: seq<string>, items: seq<string>) returns (out: seq<string>)
    ensures out == lines + Bullets(items)
  {
    if items == [] {
      return lines + ["- (none)"];
    }
    out := lines;
    for i := 0 to |items|
      invariant out == lines + Bullets(items)[..i]
    {
      Seqs.PrefixSnoc(Bullets(items), i);
      out := out + ["- " + items[i]];
    }
    assert Bullets(items)[..|items|] == Bullets(items);
  }

  /** The citation texts, or the failure on the first null citation. */
  method CitationLines(cs: seq<Json>) returns (r: Result<seq<string>, Exception>)
    ensures HasNull(cs) ==> r == Err(Exception(Internal, NullCitation))
    ensures !HasNull(cs) ==> r == Ok(CitationTexts(cs))
  {
    var texts: seq<string> := [];
    ghost var all := CitationTexts(cs);
    for i := 0 to |cs|
      invariant texts == all[..i]
      invariant forall j :: 0 <= j < i ==> !cs[j].JNull?
    {
      if cs[i].JNull? {
        return Err(Exception(Internal, NullCitation));
      }
      Seqs.PrefixSnoc(all, i);
      texts := texts + [CitationText(cs[i])];
    }
    assert all[..|cs|] == all;
    return Ok(texts);
  }

  /** Pushes a title, its list and an empty line. */
  method PushSection(lines: seq<string>, title: string, items: seq<string>) returns (out: seq<string>)
    ensures out == lines + Section(title, items)
  {
    out := lines + [title];
    out := PushBullets(out, items);
    out := out + [""];
  }

  /** The summary lines pushed one after the other. */
  method PushSummary(args: CommentArgs) returns (r: Result<seq<string>, Exception>)
    ensures HasNull(args.citations) ==> r == Err(Exception(Internal, NullCitation))
    ensures !HasNull(args.citations) ==> r == Ok(SummaryLines(args))
  {
    var lines := HeadLines(args);
    lines := PushSection(lines, "Next steps:", args.nextSteps);
    lines := PushSection(lines, "Questions for customer:", args.questions);
    var cited := CitationLines(args.citations);
    if cited.Err? {
      return Err(cited.error);
    }
    lines := PushSection(lines, "Citations:", cited.value);
    return Ok(lines);
  }

  /** `buildAiCommentBody`: the comment lines pushed one after the other and joined
      with line breaks. */
  method BuildAiCommentBody(args: CommentArgs, stringify: Json -> string) returns (r: Result<string, Exception>)
    ensures CommentLines(args, stringify).Err? ==> r == Err(Exception(Internal, NullCitation))
    ensures CommentLines(args, stringify).Ok? ==> r == Ok(Text.Join(CommentLines(args, stringify).value, "\n"))
  {
    var summary := PushSummary(args);
    if summary.Err? {
      return Err(summary.error);
    }
    var lines := summary.value + [JsonStart, stringify(args.cacheJson), JsonEnd];
    return Ok(Text.Join(lines, "\n"));
  }

  /** `extractCachedJsonFromComment`: the text between the first start marker and the
      first end marker, trimmed and parsed; nothing when either marker is missing or the
      end marker comes first. */
  function ExtractCachedJson(body: string, parse: string -> Option<Json>): (r: Option<Json>)
    ensures !Text.Contains(body, JsonStart) || !Text.Contains(body, JsonEnd) ==> r.None?
    ensures r.Some? ==> Text.IndexOf(body, JsonStart) < Text.IndexOf(body, JsonEnd)
  {
    if body == "" then None
    else
      var start := Text.IndexOf(body, JsonStart);
      var end := Text.IndexOf(body, JsonEnd);
      if start < 0 || end < 0 || end <= start then None
      else parse(Text.Trim(Text.Slice(body, start + |JsonStart|, end)))
  }

  // ---------------------------------------------------------------------------------
  // the round trip

  lemma MarkersOneLine()
    ensures '\n' !in JsonStart && '\n' !in JsonEnd
  {
  }

  /** Neither marker occurs in the text. */
  predicate Plain(s: string) {
    !Text.Contains(s, JsonStart) && !Text.Contains(s, JsonEnd)
  }

  /** The texts a comment is made of carry no marker. */
  predicate Unmarked(args: CommentArgs) {
    && Plain(args.customerReply)
    && Plain(args.internalNotes)
    && (forall i :: 0 <= i < |args.nextSteps| ==> Plain(args.nextSteps[i]))
    && (forall i :: 0 <= i < |args.questions| ==> Plain(args.questions[i]))
    && (forall i :: 0 <= i < |args.citations| ==> Plain(CitationText(args.citations[i])))
  }

  /** A pattern starting with a character absent from `p` occurs in `p + x` only where
      it occurs in `x`. */
  lemma PrefixCannotStart(p: string, x: string, pat: string)
    requires pat != [] && pat[0] !in p
    ensures !Text.Contains(x, pat) ==> !Text.Contains(p + x, pat)
  {
    if Text.Contains(p + x, pat) {
      Text.ContainsIffOccurs(p + x, pat);
      var j :| Text.OccursAt(p + x, pat, j);
      assert (p + x)[j..j + |pat|][0] == (p + x)[j];
      assert j >= |p|;
      assert x[j - |p|..j - |p| + |pat|] == (p + x)[j..j + |pat|];
      assert Text.OccursAt(x, pat, j - |p|);
      Text.ContainsIffOccurs(x, pat);
    }
  }

  /** A text shorter than a pattern does not contain it. */
  lemma ShortIsPlain(s: string, pat: string)
    requires |s| < |pat|
    ensures !Text.Contains(s, pat)
  {
  }

  /** A text without the pattern's first character does not contain it. */
  lemma WithoutFirstChar(s: string, pat: string)
    requires pat != [] && pat[0] !in s
    ensures !Text.Contains(s, pat)
  {
    PrefixCannotStart(s, "", pat);
    assert s + "" == s;
  }

  /** An occurrence cannot reach across a character the pattern does not contain. */
  lemma SliceLeft(x: string, y: string, j: nat, n: nat)
    requires j + n <= |x|
    ensures (x + y)[j..j + n] == x[j..j + n]
  {
  }

  lemma SliceRight(x: string, y: string, k: nat, n: nat)
    requires k + n <= |y|
    ensures (x + y)[|x| + k..|x| + k + n] == y[k..k + n]
  {
  }

  /** An occurrence cannot reach across a character the pattern does not contain. */
  lemma NoStraddle(a: string, c: char, b: string, pat: string)
    requires c !in pat && !Text.Contains(a, pat) && !Text.Contains(b, pat)
    ensures !Text.Contains(a + [c] + b, pat)
  {
    var s := a + [c] + b;
    Text.ContainsIffOccurs(a, pat);
    Text.ContainsIffOccurs(b, pat);
    forall j | 0 <= j ensures !Text.OccursAt(s, pat, j) {
      NotAt(a, c, b, pat, j);
    }
    Text.ContainsIffOccurs(s, pat);
  }

  lemma NotAt(a: string, c: char, b: string, pat: string, j: nat)
    requires c !in pat
    requires forall k :: 0 <= k ==> !Text.OccursAt(a, pat, k)
    requires forall k :: 0 <= k ==> !Text.OccursAt(b, pat, k)
    ensures !Text.OccursAt(a + [c] + b, pat, j)
  {
    var s := a + [c] + b;
    if j + |pat| <= |a| {
      SliceLeft(a, [c] + b, j, |pat|);
      assert s == a + ([c] + b);
      assert !Text.OccursAt(a, pat, j);
    } else if j > |a| && j + |pat| <= |s| {
      SliceRight(a + [c], b, j - |a| - 1, |pat|);
      assert !Text.OccursAt(b, pat, j - |a| - 1);
    } else if j + |pat| <= |s| {
      assert s[j..j + |pat|][|a| - j] == s[|a|] == c;
      assert pat[|a| - j] in pat;
    }
  }

  /** Lines without the pattern joined by line breaks do not contain it. */
  lemma {:induction false} JoinWithout(parts: seq<string>, pat: string)
    requires '\n' !in pat && pat != []
    requires forall i :: 0 <= i < |parts| ==> !Text.Contains(parts[i], pat)
    ensures !Text.Contains(Text.Join(parts, "\n"), pat)
  {
    if |parts| > 1 {
      assert forall i :: 0 <= i < |parts| - 1 ==> parts[1..][i] == parts[i + 1];
      JoinWithout(parts[1..], pat);
      NoStraddle(parts[0], '\n', Text.Join(parts[1..], "\n"), pat);
      assert parts[0] + "\n" + Text.Join(parts[1..], "\n") == parts[0] + ['\n'] + Text.Join(parts[1..], "\n");
    }
  }

  /** After a text without the pattern and a separator it does not contain, the first
      occurrence is where the rest starts with it. */
  lemma FirstAfterSeparator(a: string, c: char, b: string, pat: string)
    requires c !in pat && !Text.Contains(a, pat) && Text.StartsWith(b, pat)
    ensures Text.IndexOf(a + [c] + b, pat) == |a| + 1
  {
    var s := a + [c] + b;
    assert s[|a| + 1..|a| + 1 + |pat|] == b[..|pat|];
    Text.ContainsIffOccurs(a, pat);
    forall j | 0 <= j < |a| + 1 ensures !Text.OccursAt(s, pat, j) {
      if j + |pat| <= |a| {
        SliceLeft(a, [c] + b, j, |pat|);
        assert s == a + ([c] + b);
        assert !Text.OccursAt(a, pat, j);
      } else if j + |pat| <= |s| {
        assert s[j..j + |pat|][|a| - j] == s[|a|] == c;
        assert pat[|a| - j] in pat;
      }
    }
    Text.IndexOfIsFirst(s, pat, |a| + 1);
  }

  /** Trimming removes the line breaks around a trimmed text. */
  lemma TrimNewlines(j: string)
    requires Text.IsTrimmed(j)
    ensures Text.Trim("\n" + j + "\n") == j
  {
    var s := "\n" + j + "\n";
    assert s[1..] == j + "\n";
    if j == "" {
      assert Text.TrimStart("\n") == "";
    } else {
      assert Text.TrimStart(j + "\n") == j + "\n";
      assert (j + "\n")[..|j|] == j;
      assert Text.TrimEnd(j) == j;
    }
  }

  predicate NoneContains(lines: seq<string>, pat: string) {
    forall i :: 0 <= i < |lines| ==> !Text.Contains(lines[i], pat)
  }

  lemma ConcatNoneContains(a: seq<string>, b: seq<string>, pat: string)
    requires NoneContains(a, pat) && NoneContains(b, pat)
    ensures NoneContains(a + b, pat)
  {
  }

  /** The fixed texts of the summary hold no '['. */
  lemma HeadTextsUnbracketed()
    ensures '[' !in "(none)" && '[' !in "" && '[' !in "Customer reply (suggested):"
    ensures '[' !in "Internal notes: " && '[' !in "- (none)"
  {
  }

  lemma TitlesUnbracketed()
    ensures '[' !in "Next steps:" && '[' !in "Questions for customer:" && '[' !in "Citations:"
  {
  }

  lemma MarkerShape(pat: string)
    requires pat == JsonStart || pat == JsonEnd
    ensures |pat| > 11 && pat[0] == '['
  {
  }

  lemma HeadPlain(args: CommentArgs, pat: string)
    requires |pat| > 11 && pat[0] == '['
    requires !Text.Contains(args.customerReply, pat) && !Text.Contains(args.internalNotes, pat)
    ensures NoneContains(HeadLines(args), pat)
  {
    HeadTextsUnbracketed();
    WithoutFirstChar("(none)", pat);
    WithoutFirstChar("", pat);
    ShortIsPlain("[AI Assist]", pat);
    WithoutFirstChar("Customer reply (suggested):", pat);
    var notes := OrNone(args.internalNotes);
    assert !Text.Contains(notes, pat);
    PrefixCannotStart("Internal notes: ", notes, pat);
  }

  lemma BulletsPlain(items: seq<string>, pat: string)
    requires pat != [] && pat[0] == '['
    requires NoneContains(items, pat)
    ensures NoneContains(Bullets(items), pat)
  {
    HeadTextsUnbracketed();
    WithoutFirstChar("- (none)", pat);
    forall i | 0 <= i < |items| {
      PrefixCannotStart("- ", items[i], pat);
    }
  }

  lemma SectionPlain(title: string, items: seq<string>, pat: string)
    requires pat != [] && pat[0] == '[' && '[' !in title
    requires NoneContains(items, pat)
    ensures NoneContains(Section(title, items), pat)
  {
    HeadTextsUnbracketed();
    WithoutFirstChar(title, pat);
    WithoutFirstChar("", pat);
    BulletsPlain(items, pat);
  }

  /** What `Unmarked` says about one of the two markers. */
  lemma UnmarkedFor(args: CommentArgs, pat: string)
    requires pat == JsonStart || pat == JsonEnd
    requires Unmarked(args)
    ensures !Text.Contains(args.customerReply, pat) && !Text.Contains(args.internalNotes, pat)
    ensures NoneContains(args.nextSteps, pat) && NoneContains(args.questions, pat)
    ensures NoneContains(CitationTexts(args.citations), pat)
  {
    var cs := CitationTexts(args.citations);
    forall i | 0 <= i < |cs| ensures !Text.Contains(cs[i], pat) {
      assert Plain(CitationText(args.citations[i]));
    }
  }

  /** The summary carries no occurrence of a pattern that the texts avoid and that
      starts with a '[' and is longer than the head's first line. */
  lemma SummaryAvoids(args: CommentArgs, pat: string)
    requires |pat| > 11 && pat[0] == '['
    requires !Text.Contains(args.customerReply, pat) && !Text.Contains(args.internalNotes, pat)
    requires NoneContains(args.nextSteps, pat) && NoneContains(args.questions, pat)
    requires NoneContains(CitationTexts(args.citations), pat)
    ensures NoneContains(SummaryLines(args), pat)
  {
    TitlesUnbracketed();
    var h := HeadLines(args);
    var n := Section("Next steps:", args.nextSteps);
    var q := Section("Questions for customer:", args.questions);
    var c := Section("Citations:", CitationTexts(args.citations));
    HeadPlain(args, pat);
    SectionPlain("Next steps:", args.nextSteps, pat);
    SectionPlain("Questions for customer:", args.questions, pat);
    SectionPlain("Citations:", CitationTexts(args.citations), pat);
    ConcatNoneContains(h, n, pat);
    ConcatNoneContains(h + n, q, pat);
    ConcatNoneContains(h + n + q, c, pat);
  }

  /** The lines before the JSON block carry no marker. */
  lemma SummaryPlain(args: CommentArgs, pat: string)
    requires pat == JsonStart || pat == JsonEnd
    requires Unmarked(args)
    ensures NoneContains(SummaryLines(args), pat)
  {
    MarkerShape(pat);
    UnmarkedFor(args, pat);
    SummaryAvoids(args, pat);
  }

  /** A head, then the start marker, the JSON and the end marker on lines of their own. */
  function Layout(h: string, json: string): string {
    h + "\n" + JsonStart + "\n" + json + "\n" + JsonEnd
  }

  lemma StartFound(h: string, json: string)
    requires !Text.Contains(h, JsonStart)
    ensures Text.IndexOf(Layout(h, json), JsonStart) == |h| + 1
  {
    var rest := JsonStart + "\n" + json + "\n" + JsonEnd;
    assert Layout(h, json) == h + ['\n'] + rest;
    assert rest[..|JsonStart|] == JsonStart;
    FirstAfterSeparator(h, '\n', rest, JsonStart);
  }

  lemma EndFound(h: string, json: string)
    requires !Text.Contains(h, JsonEnd) && !Text.Contains(json, JsonEnd)
    ensures Text.IndexOf(Layout(h, json), JsonEnd) == |h| + |JsonStart| + |json| + 3
  {
    var upTo := h + "\n" + JsonStart + "\n" + json;
    ShortIsPlain(JsonStart, JsonEnd);
    assert h + "\n" + JsonStart == h + ['\n'] + JsonStart;
    NoStraddle(h, '\n', JsonStart, JsonEnd);
    assert upTo == (h + "\n" + JsonStart) + ['\n'] + json;
    NoStraddle(h + "\n" + JsonStart, '\n', json, JsonEnd);
    assert Layout(h, json) == upTo + ['\n'] + JsonEnd;
    FirstAfterSeparator(upTo, '\n', JsonEnd, JsonEnd);
  }

  lemma Between(h: string, json: string)
    ensures Text.Slice(Layout(h, json), |h| + 1 + |JsonStart|, |h| + |JsonStart| + |json| + 3) == "\n" + json + "\n"
  {
    var body := Layout(h, json);
    assert body == (h + "\n" + JsonStart) + ("\n" + json + "\n") + JsonEnd;
    SliceRight(h + "\n" + JsonStart, "\n" + json + "\n" + JsonEnd, 0, |json| + 2);
    assert ("\n" + json + "\n" + JsonEnd)[..|json| + 2] == "\n" + json + "\n";
  }

  /** In that layout, with no marker in the head, no end marker in the JSON and the JSON
      trimmed, the extraction parses exactly the JSON. */
  lemma ExtractFromLayout(h: string, json: string, parse: string -> Option<Json>)
    requires Plain(h) && !Text.Contains(json, JsonEnd) && Text.IsTrimmed(json)
    ensures ExtractCachedJson(Layout(h, json), parse) == parse(json)
  {
    StartFound(h, json);
    EndFound(h, json);
    Between(h, json);
    TrimNewlines(json);
  }

  /** A comment written by `buildAiCommentBody` gives back the JSON it was written
      with, as long as its texts carry no marker and the codec is lawful. */
  lemma ExtractAfterBuild(args: CommentArgs, codec: Codec)
    requires Lawful(codec)
    requires !HasNull(args.citations)
    requires Unmarked(args) && !Text.Contains(codec.stringify(args.cacheJson), JsonEnd)
    ensures CommentLines(args, codec.stringify).Ok?
    ensures ExtractCachedJson(Text.Join(CommentLines(args, codec.stringify).value, "\n"), codec.parse) == Some(args.cacheJson)
  {
    var summary := SummaryLines(args);
    var json := codec.stringify(args.cacheJson);
    assert CommentLines(args, codec.stringify) == Ok(summary + [JsonStart, json, JsonEnd]);
    SummaryTextPlain(args);
    JoinLayout(summary, json);
    ExtractFromLayout(Text.Join(summary, "\n"), json, codec.parse);
  }

  lemma SummaryTextPlain(args: CommentArgs)
    requires Unmarked(args)
    ensures Plain(Text.Join(SummaryLines(args), "\n"))
  {
    SummaryTextWithout(args, JsonStart);
    SummaryTextWithout(args, JsonEnd);
  }

  lemma SummaryTextWithout(args: CommentArgs, pat: string)
    requires pat == JsonStart || pat == JsonEnd
    requires Unmarked(args)
    ensures !Text.Contains(Text.Join(SummaryLines(args), "\n"), pat)
  {
    SummaryPlain(args, pat);
    MarkersOneLine();
    JoinWithout(SummaryLines(args), pat);
  }

  lemma JoinLayout(summary: seq<string>, json: string)
    requires summary != []
    ensures Text.Join(summary + [JsonStart, json, JsonEnd], "\n") == Layout(Text.Join(summary, "\n"), json)
  {
    Text.JoinSnoc(summary, JsonStart, "\n");
    Text.JoinSnoc(summary + [JsonStart], json, "\n");
    Text.JoinSnoc(summary + [JsonStart, json], JsonEnd, "\n");
    assert summary + [JsonStart] + [json] == summary + [JsonStart, json];
    assert summary + [JsonStart, json] + [JsonEnd] == summary + [JsonStart, json, JsonEnd];
  }
}
