/** The indexing worker: the paragraph-aware chunker it uses and the job/source state
    machine of one indexing run. */
module IndexProcessor {
  import opened Wrappers
  import opened Records
  import Json
  import Text
  import Paths
  import Seqs
  import KbService
  import KbStorage

  const MaxChars := 1200
  const Overlap := 200

  // ---------------------------------------------------------------------------------
  // Paragraphs

  /** The first index from `k` on where two line feeds start, or |s|. */
  function BreakFrom(s: string, k: nat): (i: nat)
    requires k <= |s|
    decreases |s| - k
    ensures k <= i <= |s|
    ensures i < |s| ==> i + 1 < |s| && s[i] == '\n' && s[i + 1] == '\n'
    ensures forall j :: k <= j < i && j + 1 < |s| ==> !(s[j] == '\n' && s[j + 1] == '\n')
  {
    if k + 1 >= |s| then |s|
    else if s[k] == '\n' && s[k + 1] == '\n' then k
    else BreakFrom(s, k + 1)
  }

  /** The end of the run of line feeds that starts at `i`. */
  function NewlineRunEnd(s: string, i: nat): (j: nat)
    requires i <= |s|
    decreases |s| - i
    ensures i <= j <= |s|
    ensures forall k :: i <= k < j ==> s[k] == '\n'
    ensures j < |s| ==> s[j] != '\n'
  {
    if i < |s| && s[i] == '\n' then NewlineRunEnd(s, i + 1) else i
  }

  /** `s.split(/\n{2,}/)`: each run of two or more line feeds separates two fields. */
  function SplitBlankLines(s: string): (r: seq<string>)
    decreases |s|
    ensures |r| >= 1
  {
    var i := BreakFrom(s, 0);
    if i == |s| then [s] else [s[..i]] + SplitBlankLines(s[NewlineRunEnd(s, i)..])
  }

  /** `.map((p) => p.trim()).filter(Boolean)`. */
  function TrimmedNonEmpty(fields: seq<string>): (r: seq<string>)
    ensures Text.AllTrimmedNonEmpty(r)
    ensures |r| <= |fields|
  {
    if fields == [] then []
    else
      var p := Text.Trim(fields[0]);
      var head := if p == "" then [] else [p];
      var rest := TrimmedNonEmpty(fields[1..]);
      Text.TrimmedPiece(fields[0]);
      Text.TrimmedNonEmptyConcat(head, rest);
      head + rest
  }

  /** The paragraphs of a text once carriage returns are removed: non-empty and trimmed. */
  function Paragraphs(text: string): (r: seq<string>)
    ensures Text.AllTrimmedNonEmpty(r)
  {
    TrimmedNonEmpty(SplitBlankLines(Text.RemoveChar(text, '\r')))
  }

  /** A text without a blank line is one paragraph: itself, trimmed. */
  lemma SingleParagraph(text: string)
    requires forall j :: 0 <= j < |text| - 1 ==> !(text[j] == '\n' && text[j + 1] == '\n')
    requires '\r' !in text && !Text.IsBlank(text)
    ensures Paragraphs(text) == [Text.Trim(text)]
  {
    Text.TrimEmptyIffBlank(text);
    RemoveAbsent(text, '\r');
    assert BreakFrom(text, 0) == |text|;
    assert TrimmedNonEmpty([text]) == [Text.Trim(text)] + TrimmedNonEmpty([]);
  }

  lemma {:induction false} RemoveAbsent(s: string, c: char)
    requires c !in s
    ensures Text.RemoveChar(s, c) == s
  {
    if s != [] {
      assert c !in s[1..] by {
        assert forall x :: x in s[1..] ==> x in s;
      }
      RemoveAbsent(s[1..], c);
      assert s == [s[0]] + s[1..];
    }
  }

  // ---------------------------------------------------------------------------------
  // Packing

  /** The loop's `buf` and `out`. */
  datatype Packing = Packing(buf: string, out: seq<string>)

  /** `flush`: the trimmed buffer, unless it is blank. */
  function Flush(buf: string): (r: seq<string>)
    ensures |r| <= 1
    ensures Text.AllTrimmedNonEmpty(r)
  {
    Text.TrimmedPiece(buf);
    var t := Text.Trim(buf);
    if t != "" then [t] else []
  }

  /** The distance between the starts of two slices: `max(1, maxChars - overlap)`. */
  function SliceStep(maxChars: nat, overlap: nat): (step: nat)
    ensures step >= 1
    ensures overlap < maxChars ==> step == maxChars - overlap
  {
    if maxChars - overlap > 1 then maxChars - overlap else 1
  }

  /** The slices `p.slice(i, i + maxChars)` for `i` from `start` on, stepping by `step`. */
  function SlicesFrom(p: string, maxChars: nat, step: nat, start: nat): seq<string>
    requires step >= 1
    decreases |p| - start
  {
    if start >= |p| then [] else [Text.Slice(p, start, start + maxChars)] + SlicesFrom(p, maxChars, step, start + step)
  }

  /** How an oversized paragraph is cut. */
  function Slices(p: string, maxChars: nat, overlap: nat): seq<string> {
    SlicesFrom(p, maxChars, SliceStep(maxChars, overlap), 0)
  }

  /** One turn of the `for (const p of paras)` loop. */
  function Step(maxChars: nat, overlap: nat, st: Packing, p: string): Packing {
    if (if st.buf != "" then |st.buf| + 2 else 0) + |p| <= maxChars then
      Packing(if st.buf != "" then st.buf + "\n\n" + p else p, st.out)
    else if st.buf == "" then Packing("", st.out + Slices(p, maxChars, overlap))
    else Packing(p, st.out + Flush(st.buf))
  }

  /** The loop state after the given paragraphs. */
  function PackAll(paras: seq<string>, maxChars: nat, overlap: nat): Packing
    decreases |paras|
  {
    if paras == [] then Packing("", [])
    else Step(maxChars, overlap, PackAll(paras[..|paras| - 1], maxChars, overlap), paras[|paras| - 1])
  }

  /** The pieces before the overlap stage: the loop's output and a final flush. */
  function Packed(paras: seq<string>, maxChars: nat, overlap: nat): seq<string> {
    var st := PackAll(paras, maxChars, overlap);
    st.out + Flush(st.buf)
  }

  /** Piece `i` of the overlap stage. */
  function OverlapPiece(out: seq<string>, i: nat, overlap: nat): string
    requires i < |out| && overlap > 0
  {
    var prevTail := if i == 0 then "" else Text.Suffix(out[i - 1], overlap);
    if prevTail != "" then prevTail + "\n" + out[i] else out[i]
  }

  /** The overlap stage: each piece but the first is prefixed by the last `overlap`
      characters of the piece before it and a line feed. */
  function WithOverlap(out: seq<string>, overlap: nat): (r: seq<string>)
    requires overlap > 0
    ensures |r| == |out|
    ensures |out| > 0 ==> r[0] == out[0]
    ensures forall i :: 0 < i < |out| && out[i - 1] != "" ==>
              r[i] == Text.Suffix(out[i - 1], overlap) + "\n" + out[i]
  {
    seq(|out|, i requires 0 <= i < |out| => OverlapPiece(out, i, overlap))
  }

  lemma WithOverlapAt(out: seq<string>, overlap: nat, i: nat)
    requires overlap > 0 && i < |out|
    ensures WithOverlap(out, overlap)[i] == OverlapPiece(out, i, overlap)
  {
  }

  /** What `chunkText` returns. */
  function ParagraphChunks(text: string, maxChars: nat, overlap: nat): seq<string> {
    var out := Packed(Paragraphs(text), maxChars, overlap);
    if overlap > 0 && |out| > 1 then WithOverlap(out, overlap) else out
  }

  lemma SlicesStep(acc: seq<string>, p: string, maxChars: nat, step: nat, i: nat)
    requires step >= 1 && i < |p|
    ensures acc + SlicesFrom(p, maxChars, step, i)
         == (acc + [Text.Slice(p, i, i + maxChars)]) + SlicesFrom(p, maxChars, step, i + step)
  {
    Seqs.AppendAssociative(acc, [Text.Slice(p, i, i + maxChars)], SlicesFrom(p, maxChars, step, i + step));
  }

  /** The `while (i < p.length)` loop that cuts a paragraph too long for an empty buffer. */
  method SliceParagraph(p: string, maxChars: nat, overlap: nat) returns (slices: seq<string>)
    ensures slices == Slices(p, maxChars, overlap)
  {
    slices := [];
    var step := if maxChars - overlap > 1 then maxChars - overlap else 1;
    var i := 0;
    while i < |p|
      invariant 0 <= i
      invariant SlicesFrom(p, maxChars, step, 0) == slices + SlicesFrom(p, maxChars, step, i)
      decreases |p| - i
    {
      SlicesStep(slices, p, maxChars, step, i);
      slices := slices + [Text.Slice(p, i, i + maxChars)];
      i := i + step;
    }
  }

  /** The `for (const p of paras)` loop and the final `flush()`. */
  method Pack(paras: seq<string>, maxChars: nat, overlap: nat) returns (out: seq<string>)
    ensures out == Packed(paras, maxChars, overlap)
  {
    out := [];
    var buf := "";
    for k := 0 to |paras|
      invariant PackAll(paras[..k], maxChars, overlap) == Packing(buf, out)
    {
      var p := paras[k];
      assert paras[..k + 1][..k] == paras[..k];
      if (if buf != "" then |buf| + 2 else 0) + |p| <= maxChars {
        buf := if buf != "" then buf + "\n\n" + p else p;
      } else if buf == "" {
        var slices := SliceParagraph(p, maxChars, overlap);
        out := out + slices;
      } else {
        var t := Text.Trim(buf);
        if t != "" {
          out := out + [t];
        }
        buf := p;
      }
    }
    assert paras[..|paras|] == paras;
    var t := Text.Trim(buf);
    if t != "" {
      out := out + [t];
    }
  }

  /** The loop that builds `withOverlap`. */
  method AddOverlap(out: seq<string>, overlap: nat) returns (withOverlap: seq<string>)
    requires overlap > 0
    ensures withOverlap == WithOverlap(out, overlap)
  {
    withOverlap := [];
    for i := 0 to |out|
      invariant withOverlap == WithOverlap(out, overlap)[..i]
    {
      var prevTail := if i == 0 then "" else Text.Suffix(out[i - 1], overlap);
      var piece := if prevTail != "" then prevTail + "\n" + out[i] else out[i];
      WithOverlapAt(out, overlap, i);
      Seqs.PrefixSnoc(WithOverlap(out, overlap), i);
      withOverlap := withOverlap + [piece];
    }
    assert WithOverlap(out, overlap)[..|out|] == WithOverlap(out, overlap);
  }

  /** `chunkText`: packs paragraphs into pieces of at most `maxChars` where they fit,
      slices a paragraph too long for an empty buffer, then adds the overlaps. */
  method ChunkParagraphs(text: string, maxChars: nat, overlap: nat) returns (chunks: seq<string>)
    ensures chunks == ParagraphChunks(text, maxChars, overlap)
  {
    var paras := Paragraphs(text);
    var out := Pack(paras, maxChars, overlap);
    assert ParagraphChunks(text, maxChars, overlap) == if overlap > 0 && |out| > 1 then WithOverlap(out, overlap) else out;
    if overlap > 0 && |out| > 1 {
      chunks := AddOverlap(out, overlap);
      return;
    }
    return out;
  }

  // ---------------------------------------------------------------------------------
  // Properties of the chunker

  lemma {:induction false} SlicesNonEmpty(p: string, maxChars: nat, step: nat, start: nat)
    requires maxChars > 0 && step >= 1
    decreases |p| - start
    ensures forall k :: 0 <= k < |SlicesFrom(p, maxChars, step, start)| ==> SlicesFrom(p, maxChars, step, start)[k] != ""
  {
    if start < |p| {
      SlicesNonEmpty(p, maxChars, step, start + step);
      var e := if start + maxChars < |p| then start + maxChars else |p|;
      assert Text.Slice(p, start, start + maxChars) == p[start..e];
    }
  }

  /** Slice `k` of an oversized paragraph is `p.slice(k * step, k * step + maxChars)`. */
  lemma {:induction false} SliceAt(p: string, maxChars: nat, step: nat, start: nat, k: nat)
    requires step >= 1 && k < |SlicesFrom(p, maxChars, step, start)|
    decreases k
    ensures SlicesFrom(p, maxChars, step, start)[k] == Text.Slice(p, start + k * step, start + k * step + maxChars)
  {
    if k > 0 {
      SliceAt(p, maxChars, step, start + step, k - 1);
      MulStep(k, step);
    }
  }

  /** The slices stop at the first start at or past the end of the paragraph. */
  lemma {:induction false} SlicesCount(p: string, maxChars: nat, step: nat, start: nat)
    requires step >= 1
    decreases |p| - start
    ensures var n := |SlicesFrom(p, maxChars, step, start)|;
      && (n == 0 <==> start >= |p|)
      && (n > 0 ==> start + (n - 1) * step < |p| <= start + n * step)
  {
    if start < |p| {
      var n := |SlicesFrom(p, maxChars, step, start)|;
      SlicesCount(p, maxChars, step, start + step);
      MulStep(n - 1, step);
      MulStep(n, step);
    }
  }

  /** No slice is longer than `maxChars`. */
  lemma {:induction false} SlicesBounded(p: string, maxChars: nat, step: nat, start: nat)
    requires step >= 1
    decreases |p| - start
    ensures forall k :: 0 <= k < |SlicesFrom(p, maxChars, step, start)| ==> |SlicesFrom(p, maxChars, step, start)[k]| <= maxChars
  {
    if start < |p| {
      SlicesBounded(p, maxChars, step, start + step);
    }
  }

  lemma MulStep(k: int, step: int)
    ensures step + (k - 1) * step == k * step
  {
  }

  lemma {:induction false} PackAllNonEmpty(paras: seq<string>, maxChars: nat, overlap: nat)
    requires maxChars > 0
    decreases |paras|
    ensures forall k :: 0 <= k < |PackAll(paras, maxChars, overlap).out| ==> PackAll(paras, maxChars, overlap).out[k] != ""
  {
    if paras != [] {
      var init := paras[..|paras| - 1];
      PackAllNonEmpty(init, maxChars, overlap);
      SlicesNonEmpty(paras[|paras| - 1], maxChars, SliceStep(maxChars, overlap), 0);
    }
  }

  lemma PackedNonEmpty(paras: seq<string>, maxChars: nat, overlap: nat)
    requires maxChars > 0
    ensures forall k :: 0 <= k < |Packed(paras, maxChars, overlap)| ==> Packed(paras, maxChars, overlap)[k] != ""
  {
    var st := PackAll(paras, maxChars, overlap);
    PackAllNonEmpty(paras, maxChars, overlap);
    var out := Packed(paras, maxChars, overlap);
    forall k | 0 <= k < |out| ensures out[k] != "" {
      if k < |st.out| {
        assert out[k] == st.out[k];
      } else {
        assert out[k] == Flush(st.buf)[k - |st.out|];
      }
    }
  }

  lemma WithOverlapNonEmpty(out: seq<string>, overlap: nat)
    requires overlap > 0 && forall k :: 0 <= k < |out| ==> out[k] != ""
    ensures forall k :: 0 <= k < |out| ==> WithOverlap(out, overlap)[k] != ""
  {
    forall k | 0 <= k < |out| ensures WithOverlap(out, overlap)[k] != "" {
      WithOverlapAt(out, overlap, k);
      var prevTail := if k == 0 then "" else Text.Suffix(out[k - 1], overlap);
      assert |OverlapPiece(out, k, overlap)| >= |out[k]|;
    }
  }

  /** With a positive `maxChars`, no chunk is empty. */
  lemma ChunksNonEmpty(text: string, maxChars: nat, overlap: nat)
    requires maxChars > 0
    ensures forall k :: 0 <= k < |ParagraphChunks(text, maxChars, overlap)| ==> ParagraphChunks(text, maxChars, overlap)[k] != ""
  {
    var out := Packed(Paragraphs(text), maxChars, overlap);
    PackedNonEmpty(Paragraphs(text), maxChars, overlap);
    if overlap > 0 && |out| > 1 {
      WithOverlapNonEmpty(out, overlap);
    }
  }

  /** With a positive overlap and more than one piece, the count and the first piece stay
      as they were, and each later piece is the previous piece's last `overlap`
      characters, a line feed, and itself. */
  lemma OverlapShape(text: string, maxChars: nat, overlap: nat)
    requires maxChars > 0 && overlap > 0
    requires |Packed(Paragraphs(text), maxChars, overlap)| > 1
    ensures var out := Packed(Paragraphs(text), maxChars, overlap);
      var chunks := ParagraphChunks(text, maxChars, overlap);
      && |chunks| == |out| && chunks[0] == out[0]
      && forall i :: 0 < i < |out| ==> chunks[i] == Text.Suffix(out[i - 1], overlap) + "\n" + out[i]
  {
    var out := Packed(Paragraphs(text), maxChars, overlap);
    var chunks := ParagraphChunks(text, maxChars, overlap);
    PackedNonEmpty(Paragraphs(text), maxChars, overlap);
    assert chunks == WithOverlap(out, overlap);
    forall i | 0 < i < |out| ensures chunks[i] == Text.Suffix(out[i - 1], overlap) + "\n" + out[i] {
      assert out[i - 1] != "";
    }
  }

  lemma {:induction false} JoinBounds(parts: seq<string>, sep: string)
    requires |parts| > 0 && forall k :: 0 <= k < |parts| ==> parts[k] != "" && Text.IsTrimmed(parts[k])
    ensures var j := Text.Join(parts, sep);
      j != "" && j[0] == parts[0][0] && j[|j| - 1] == parts[|parts| - 1][|parts[|parts| - 1]| - 1]
  {
    if |parts| > 1 {
      JoinBounds(parts[1..], sep);
    }
  }

  /** While every paragraph fits, the buffer is the paragraphs joined by a blank line
      and nothing has been emitted. */
  lemma {:induction false} PackAllFits(paras: seq<string>, maxChars: nat, overlap: nat)
    requires forall k :: 0 <= k < |paras| ==> paras[k] != ""
    requires |Text.Join(paras, "\n\n")| <= maxChars
    decreases |paras|
    ensures PackAll(paras, maxChars, overlap) == Packing(Text.Join(paras, "\n\n"), [])
  {
    if |paras| > 1 {
      var init, last := paras[..|paras| - 1], paras[|paras| - 1];
      assert paras == init + [last];
      Text.JoinSnoc(init, last, "\n\n");
      PackAllFits(init, maxChars, overlap);
      JoinNonEmpty(init, "\n\n");
    } else if |paras| == 1 {
      assert paras[..0] == [];
    }
  }

  lemma JoinNonEmpty(parts: seq<string>, sep: string)
    requires |parts| > 0 && parts[0] != ""
    ensures Text.Join(parts, sep) != ""
  {
  }

  /** Text whose paragraphs, joined by blank lines, fit in `maxChars` is a single chunk:
      those paragraphs so joined. */
  lemma AllFitOneChunk(text: string, maxChars: nat, overlap: nat)
    requires Paragraphs(text) != []
    requires |Text.Join(Paragraphs(text), "\n\n")| <= maxChars
    ensures ParagraphChunks(text, maxChars, overlap) == [Text.Join(Paragraphs(text), "\n\n")]
  {
    var paras := Paragraphs(text);
    var j := Text.Join(paras, "\n\n");
    PackAllFits(paras, maxChars, overlap);
    JoinBounds(paras, "\n\n");
    Text.TrimOfTrimmed(j);
  }

  // ---------------------------------------------------------------------------------
  // Text extraction

  /** The decoders the worker calls on a stored file: `pdf-parse` (which may fail with a
      message) and `Buffer.toString("utf8")`. */
  datatype Extractors = Extractors(pdfParse: seq<Text.Byte> -> Result<string, string>,
                                   decodeUtf8: seq<Text.Byte> -> string)

  predicate IsPdf(src: Source) {
    src.mimeType == "application/pdf" || Text.ToLower(Paths.ExtName(src.filename)) == ".pdf"
  }

  const MissingPathMessage := "Missing storagePath for knowledge source"
  const NoTextMessage := "No text found in source file."
  const PdfUnavailablePrefix := "PDF parsing not available. Install 'pdf-parse'. "

  /** `extractTextFromSource`; an error is the message of the exception it throws. */
  function ExtractText(src: Source, files: map<string, seq<Text.Byte>>, ex: Extractors): (r: Result<string, string>)
    ensures src.storagePath.None? || src.storagePath == Some("") ==> r == Err(MissingPathMessage)
  {
    match src.storagePath
    case None => Err(MissingPathMessage)
    case Some(path) =>
      if path == "" then Err(MissingPathMessage)
      else if path !in files then Err("ENOENT: no such file or directory, open '" + path + "'")
      else if IsPdf(src) then
        match ex.pdfParse(files[path])
        case Err(m) => Err(PdfUnavailablePrefix + m)
        case Ok(t) => Ok(t)
      else Ok(ex.decodeUtf8(files[path]))
  }

  /** The chunks of a source, or the message of the exception that stops the run before
      any chunk is written: extracted text shorter than 5 characters once trimmed is a
      failure. */
  function PrepareChunks(src: Source, files: map<string, seq<Text.Byte>>, ex: Extractors): (r: Result<seq<string>, string>)
    ensures r.Ok? <==> ExtractText(src, files, ex).Ok? && |Text.Trim(ExtractText(src, files, ex).value)| >= 5
    ensures r.Ok? ==> r.value == ParagraphChunks(ExtractText(src, files, ex).value, MaxChars, Overlap)
  {
    match ExtractText(src, files, ex)
    case Err(m) => Err(m)
    case Ok(t) => if |Text.Trim(t)| < 5 then Err(NoTextMessage) else Ok(ParagraphChunks(t, MaxChars, Overlap))
  }

  /** The rows handed to `replaceSourceChunks`: ordinal `i` and metadata `{ sourceId }`. */
  function ChunkInputs(chunks: seq<string>, sourceId: Id): (r: seq<KbService.ChunkInput>)
    ensures |r| == |chunks|
    ensures forall i :: 0 <= i < |r| ==> r[i].content == chunks[i] && r[i].ordinal == i
  {
    seq(|chunks|, i requires 0 <= i < |chunks| =>
      KbService.ChunkInput(chunks[i], i, Some(Json.JObj(map["sourceId" := Json.JStr(sourceId)]))))
  }

  // ---------------------------------------------------------------------------------
  // Progress

  /** `25 + Math.floor(p01 * 70)` for the report `p01 = num / den`. */
  function Percent(f: KbService.Fraction): int
    requires f.den >= 1
  {
    25 + (f.num * 70) / f.den
  }

  /** The progress a run reports with `n` chunks of which `k` were stored, ending with
      100 when it succeeded. */
  function Reports(n: nat, k: nat, succeeded: bool): (r: seq<int>)
    requires k <= n
  {
    var fractions := KbService.Progress(k, n);
    [10, 25] + seq(k, i requires 0 <= i < k => Percent(fractions[i])) + (if succeeded then [100] else [])
  }

  lemma MulMonotone(x: int, y: int, d: nat)
    ensures x <= y ==> x * d <= y * d
  {
    assert y * d == x * d + (y - x) * d;
  }

  lemma DivMonotone(a: nat, b: nat, d: nat)
    requires a <= b && d >= 1
    ensures a / d <= b / d
  {
    var qa, qb := a / d, b / d;
    assert a == qa * d + a % d && b == qb * d + b % d;
    assert (qb + 1) * d == qb * d + d;
    MulMonotone(qb + 1, qa, d);
  }

  lemma PercentBounds(i: nat, n: nat)
    requires i < n
    ensures var den := if n > 1 then n else 1;
      25 <= Percent(KbService.Fraction(i + 1, den)) <= 95
  {
    var den := if n > 1 then n else 1;
    assert i + 1 <= den;
    MulMonotone(i + 1, den, 70);
    DivMonotone((i + 1) * 70, den * 70, den);
    MulDiv(70, den);
    assert 0 <= ((i + 1) * 70) / den <= 70;
  }

  lemma MulDiv(q: nat, d: nat)
    requires d >= 1
    ensures (q * d) / d == q
  {
    var x := q * d;
    var q', r := x / d, x % d;
    assert x == q' * d + r && 0 <= r < d;
    assert (q' + 1) * d == q' * d + d && (q + 1) * d == q * d + d;
    MulMonotone(q' + 1, q, d);
    MulMonotone(q + 1, q', d);
  }

  /** Every report lies in [0, 100] and the reports never go down. */
  lemma ReportsMonotone(n: nat, k: nat, succeeded: bool)
    requires k <= n
    ensures forall i :: 0 <= i < |Reports(n, k, succeeded)| ==> 0 <= Reports(n, k, succeeded)[i] <= 100
    ensures forall i, j :: 0 <= i < j < |Reports(n, k, succeeded)| ==> Reports(n, k, succeeded)[i] <= Reports(n, k, succeeded)[j]
  {
    var r := Reports(n, k, succeeded);
    var den := if n > 1 then n else 1;
    forall i | 2 <= i < k + 2 ensures 25 <= r[i] <= 95 && r[i] == Percent(KbService.Fraction(i - 1, den)) {
      PercentBounds(i - 2, n);
    }
    forall i, j | 0 <= i < j < |r| ensures r[i] <= r[j] {
      if 2 <= i && j < k + 2 {
        DivMonotone((i - 1) * 70, (j - 1) * 70, den);
      }
    }
  }

  /** The percentages reported for the embedding progress fractions. */
  function Percents(fractions: seq<KbService.Fraction>): (r: seq<int>)
    requires forall i :: 0 <= i < |fractions| ==> fractions[i].den >= 1
    ensures |r| == |fractions|
    ensures forall i :: 0 <= i < |r| ==> r[i] == Percent(fractions[i])
  {
    seq(|fractions|, i requires 0 <= i < |fractions| => Percent(fractions[i]))
  }

  // ---------------------------------------------------------------------------------
  // The job

  const MissingJobIdMessage := "Bull job id is missing"
  const SourceMismatchMessage := "KnowledgeSource not found (or tenant mismatch)"
  /** What the ORM throws when `update` names a row that does not exist. */
  const RecordNotFoundMessage := "Record to update not found."

  /** The tables a run writes. */
  datatype Tables = Tables(jobs: map<Id, Job>, sources: map<Id, Source>, chunks: seq<Chunk>, usage: seq<UsageEvent>)

  /** How a run that reached its `try` block ends: the number of chunks, or the exception
      it rethrows (extraction failures are plain errors). */
  function Outcome(prepared: Result<seq<string>, string>, embed: nat -> Result<Vector, Exception>): (r: Result<nat, Exception>)
    ensures r.Ok? <==> prepared.Ok? && forall j :: 0 <= j < |prepared.value| ==> embed(j).Ok?
    ensures r.Ok? ==> r.value == |prepared.value|
    ensures prepared.Err? ==> r == Err(Exception(Internal, prepared.error))
  {
    match prepared
    case Err(m) => Err(Exception(Internal, m))
    case Ok(chunks) =>
      var k := KbService.FirstFailure(embed, |chunks|);
      if k < |chunks| then Err(embed(k).error) else Ok(|chunks|)
  }

  /** The usage event a successful run records: the user is `requestedByUserId ?? userId`. */
  function Metering(payload: QueuePayload, jobId: Id, amount: nat, now: int): UsageEvent {
    var user := if payload.requestedByUserId.Some? then payload.requestedByUserId else payload.userId;
    var mode := if payload.mode.Some? then payload.mode.value else "full";
    UsageEvent(payload.tenantId, user, KbEmbedding, amount, now,
      Json.JObj(map["sourceId" := Json.JStr(payload.sourceId), "jobId" := Json.JStr(jobId), "mode" := Json.JStr(mode)]))
  }

  /** The chunks a run leaves and the progress it reports: nothing happens until text
      was found; then the chunks are those `replaceSourceChunks` left. */
  predicate Indexed(before: seq<Chunk>, after: seq<Chunk>, prepared: Result<seq<string>, string>,
                    tenantId: Id, sourceId: Id, chunkId: nat -> Id, embed: nat -> Result<Vector, Exception>,
                    progress: seq<int>)
  {
    && (prepared.Err? ==> after == before && progress == [])
    && (prepared.Ok? ==>
          var inputs := ChunkInputs(prepared.value, sourceId);
          var k := KbService.FirstFailure(embed, |inputs|);
          && after == KbService.WithoutSource(before, tenantId, sourceId)
                      + KbService.NewRows(tenantId, sourceId, inputs, chunkId, embed, if k < |inputs| then k + 1 else k)
          && progress == Reports(|inputs|, k, k == |inputs|))
  }

  lemma ReportsOf(n: nat, k: nat, fractions: seq<KbService.Fraction>, succeeded: bool)
    requires k <= n && fractions == KbService.Progress(k, n)
    ensures forall i :: 0 <= i < |fractions| ==> fractions[i].den >= 1
    ensures [10] + [25] + Percents(fractions) + (if succeeded then [100] else []) == Reports(n, k, succeeded)
  {
    assert Percents(fractions) == seq(k, i requires 0 <= i < k => Percent(KbService.Progress(k, n)[i]));
  }

  lemma ReplacedRows(before: seq<Chunk>, after: seq<Chunk>, inputs: seq<KbService.ChunkInput>, tenantId: Id, sourceId: Id,
                     chunkId: nat -> Id, embed: nat -> Result<Vector, Exception>,
                     replaced: Result<KbService.ReplaceSummary, Exception>, fractions: seq<KbService.Fraction>)
    requires KbService.Replaced(before, after, tenantId, sourceId, inputs, chunkId, embed, replaced, fractions)
    ensures var k := KbService.FirstFailure(embed, |inputs|);
      && (replaced.Ok? <==> k == |inputs|)
      && fractions == KbService.Progress(k, |inputs|)
      && after == KbService.WithoutSource(before, tenantId, sourceId)
                  + KbService.NewRows(tenantId, sourceId, inputs, chunkId, embed, if k < |inputs| then k + 1 else k)
  {
  }

  /** The `try` block up to the final writes: extract, chunk, replace the chunks. */
  method IndexText(db: Db, files: map<string, seq<Text.Byte>>, src: Source, tenantId: Id, sourceId: Id,
                   ex: Extractors, chunkId: nat -> Id, embed: nat -> Result<Vector, Exception>)
    returns (outcome: Result<nat, Exception>, progress: seq<int>)
    modifies db`chunks
    ensures outcome == Outcome(PrepareChunks(src, files, ex), embed)
    ensures Indexed(old(db.chunks), db.chunks, PrepareChunks(src, files, ex), tenantId, sourceId, chunkId, embed, progress)
  {
    progress := [];
    var text := ExtractText(src, files, ex);
    if text.Err? {
      outcome := Err(Exception(Internal, text.error));
    } else if |Text.Trim(text.value)| < 5 {
      outcome := Err(Exception(Internal, NoTextMessage));
    } else {
      progress := [10];
      var chunks := ChunkParagraphs(text.value, MaxChars, Overlap);
      progress := progress + [25];
      var inputs := ChunkInputs(chunks, sourceId);
      ghost var before := db.chunks;
      var replaced, fractions := KbService.ReplaceSourceChunks(db, tenantId, sourceId, inputs, chunkId, embed);
      ReplacedRows(before, db.chunks, inputs, tenantId, sourceId, chunkId, embed, replaced, fractions);
      ReportsOf(|inputs|, KbService.FirstFailure(embed, |inputs|), fractions, replaced.Ok?);
      progress := progress + Percents(fractions);
      if replaced.Err? {
        outcome := Err(replaced.error);
      } else {
        progress := progress + [100];
        outcome := Ok(|chunks|);
      }
    }
  }

  /** The tables after a run on an existing job and a source the tenant owns: both rows
      settle on the outcome (the same message on each when it fails), the chunks are
      those `replaceSourceChunks` left, progress is reported only once text was found,
      and a success is metered unless the metering write fails. */
  predicate Ran(b: Tables, a: Tables, files: map<string, seq<Text.Byte>>, payload: QueuePayload, jobId: Id,
                ex: Extractors, chunkId: nat -> Id, embed: nat -> Result<Vector, Exception>,
                now: int, meteringFails: bool, r: Result<nat, Exception>, progress: seq<int>)
    requires jobId in b.jobs && payload.sourceId in b.sources
  {
    var (tenantId, sourceId) := (payload.tenantId, payload.sourceId);
    var src := b.sources[sourceId];
    var prepared := PrepareChunks(src, files, ex);
    && r == Outcome(prepared, embed)
    && a.jobs == b.jobs[jobId := b.jobs[jobId].(status := if r.Ok? then JobSucceeded else JobFailed,
                                                lastError := if r.Ok? then None else Some(r.error.message))]
    && a.sources == b.sources[sourceId := src.(status := if r.Ok? then Ready else Failed,
                                               error := if r.Ok? then None else Some(r.error.message),
                                               indexedAt := if r.Ok? then Some(now) else src.indexedAt)]
    && Indexed(b.chunks, a.chunks, prepared, tenantId, sourceId, chunkId, embed, progress)
    && a.usage == (if r.Ok? && !meteringFails then b.usage + [Metering(payload, jobId, r.value, now)] else b.usage)
  }

  /** The final writes: both rows take the outcome, and a success is metered unless the
      metering write fails. */
  method Settle(db: Db, payload: QueuePayload, jobId: Id, job: Job, src: Source, outcome: Result<nat, Exception>,
                now: int, meteringFails: bool)
    modifies db`jobs, db`sources, db`usage
    ensures db.jobs == old(db.jobs)[jobId := job.(status := if outcome.Ok? then JobSucceeded else JobFailed,
                                                  lastError := if outcome.Ok? then None else Some(outcome.error.message))]
    ensures db.sources == old(db.sources)[payload.sourceId := src.(status := if outcome.Ok? then Ready else Failed,
                                                  error := if outcome.Ok? then None else Some(outcome.error.message),
                                                  indexedAt := if outcome.Ok? then Some(now) else src.indexedAt)]
    ensures db.usage == if outcome.Ok? && !meteringFails then old(db.usage) + [Metering(payload, jobId, outcome.value, now)]
                        else old(db.usage)
  {
    if outcome.Ok? {
      db.jobs := db.jobs[jobId := job.(status := JobSucceeded, lastError := None)];
      db.sources := db.sources[payload.sourceId := src.(status := Ready, indexedAt := Some(now), error := None)];
      if !meteringFails {
        db.usage := db.usage + [Metering(payload, jobId, outcome.value, now)];
      }
    } else {
      var msg := outcome.error.message;
      db.jobs := db.jobs[jobId := job.(status := JobFailed, lastError := Some(msg))];
      db.sources := db.sources[payload.sourceId := src.(status := Failed, error := Some(msg))];
    }
  }

  lemma UpdateTwice<K, V>(m: map<K, V>, k: K, first: V, second: V)
    ensures m[k := first][k := second] == m[k := second]
  {
  }

  lemma RanOf(b: Tables, a: Tables, files: map<string, seq<Text.Byte>>, payload: QueuePayload, jobId: Id,
              ex: Extractors, chunkId: nat -> Id, embed: nat -> Result<Vector, Exception>,
              now: int, meteringFails: bool, r: Result<nat, Exception>, progress: seq<int>)
    requires jobId in b.jobs && payload.sourceId in b.sources
    requires var src := b.sources[payload.sourceId];
      && r == Outcome(PrepareChunks(src, files, ex), embed)
      && a.jobs == b.jobs[jobId := b.jobs[jobId].(status := if r.Ok? then JobSucceeded else JobFailed,
                                                  lastError := if r.Ok? then None else Some(r.error.message))]
      && a.sources == b.sources[payload.sourceId := src.(status := if r.Ok? then Ready else Failed,
                                                 error := if r.Ok? then None else Some(r.error.message),
                                                 indexedAt := if r.Ok? then Some(now) else src.indexedAt)]
      && Indexed(b.chunks, a.chunks, PrepareChunks(src, files, ex), payload.tenantId, payload.sourceId, chunkId, embed, progress)
      && a.usage == (if r.Ok? && !meteringFails then b.usage + [Metering(payload, jobId, r.value, now)] else b.usage)
    ensures Ran(b, a, files, payload, jobId, ex, chunkId, embed, now, meteringFails, r, progress)
  {
  }

  /** `IndexKbSourceProcessor.process`. `bullJobId` is the queue's id for the job (the
      database id it was submitted under); `progress` lists the values passed to
      `updateProgress`, in order. */
  method Process(db: Db, store: KbStorage.FileStore, payload: QueuePayload, bullJobId: Option<string>,
                 ex: Extractors, chunkId: nat -> Id, embed: nat -> Result<Vector, Exception>,
                 now: int, meteringFails: bool)
    returns (r: Result<nat, Exception>, progress: seq<int>)
    modifies db`jobs, db`sources, db`chunks, db`usage
    ensures bullJobId.None? || bullJobId == Some("") ==>
      r == Err(Exception(Internal, MissingJobIdMessage)) && progress == [] && unchanged(db)
    ensures bullJobId.Some? && bullJobId.value != "" && bullJobId.value !in old(db.jobs) ==>
      r == Err(Exception(Internal, RecordNotFoundMessage)) && progress == [] && unchanged(db)
    ensures bullJobId.Some? && bullJobId.value != "" && bullJobId.value in old(db.jobs)
            && !KbService.OwnedBy(old(db.sources), payload.tenantId, payload.sourceId) ==>
      && r == Err(Exception(Internal, SourceMismatchMessage)) && progress == []
      && db.jobs == old(db.jobs)[bullJobId.value := old(db.jobs)[bullJobId.value].(status := JobFailed,
                                                      lastError := Some(SourceMismatchMessage))]
      && db.sources == old(db.sources) && db.chunks == old(db.chunks) && db.usage == old(db.usage)
    ensures bullJobId.Some? && bullJobId.value != "" && bullJobId.value in old(db.jobs)
            && KbService.OwnedBy(old(db.sources), payload.tenantId, payload.sourceId) ==>
      Ran(Tables(old(db.jobs), old(db.sources), old(db.chunks), old(db.usage)),
          Tables(db.jobs, db.sources, db.chunks, db.usage),
          store.files, payload, bullJobId.value, ex, chunkId, embed, now, meteringFails, r, progress)
  {
    if bullJobId.None? || bullJobId.value == "" {
      return Err(Exception(Internal, MissingJobIdMessage)), [];
    }
    var jobId := bullJobId.value;
    var tenantId, sourceId := payload.tenantId, payload.sourceId;
    if jobId !in db.jobs {
      return Err(Exception(Internal, RecordNotFoundMessage)), [];
    }
    ghost var before := Tables(db.jobs, db.sources, db.chunks, db.usage);
    var job := db.jobs[jobId];
    db.jobs := db.jobs[jobId := job.(status := JobRunning, lastError := None)];
    if !KbService.OwnedBy(db.sources, tenantId, sourceId) {
      db.jobs := db.jobs[jobId := job.(status := JobFailed, lastError := Some(SourceMismatchMessage))];
      return Err(Exception(Internal, SourceMismatchMessage)), [];
    }
    var src := db.sources[sourceId];
    db.sources := db.sources[sourceId := src.(status := Indexing, error := None)];

    var outcome;
    outcome, progress := IndexText(db, store.files, src, tenantId, sourceId, ex, chunkId, embed);

    ghost var midJobs, midSources := db.jobs, db.sources;
    Settle(db, payload, jobId, job, src, outcome, now, meteringFails);
    r := outcome;
    UpdateTwice(before.jobs, jobId, midJobs[jobId], db.jobs[jobId]);
    UpdateTwice(before.sources, sourceId, midSources[sourceId], db.sources[sourceId]);
    RanOf(before, Tables(db.jobs, db.sources, db.chunks, db.usage), store.files, payload, jobId,
          ex, chunkId, embed, now, meteringFails, r, progress);
  }

  /** After a successful run the source's chunks are exactly the chunks of its text, in
      order and numbered from 0; no other source's chunks changed; both rows are
      settled and the last report is 100. */
  lemma SucceededRun(b: Tables, a: Tables, files: map<string, seq<Text.Byte>>, payload: QueuePayload, jobId: Id,
                     ex: Extractors, chunkId: nat -> Id, embed: nat -> Result<Vector, Exception>,
                     now: int, meteringFails: bool, r: Result<nat, Exception>, progress: seq<int>, t2: Id, s2: Id)
    requires jobId in b.jobs && payload.sourceId in b.sources
    requires Ran(b, a, files, payload, jobId, ex, chunkId, embed, now, meteringFails, r, progress)
    requires r.Ok?
    ensures PrepareChunks(b.sources[payload.sourceId], files, ex).Ok?
    ensures var chunks := PrepareChunks(b.sources[payload.sourceId], files, ex).value;
      var own := KbService.OfSource(a.chunks, payload.tenantId, payload.sourceId);
      && r.value == |chunks| == |own|
      && forall i :: 0 <= i < |own| ==> own[i].content == chunks[i] && own[i].idx == i
    ensures (t2, s2) != (payload.tenantId, payload.sourceId) ==>
      KbService.OfSource(a.chunks, t2, s2) == KbService.OfSource(b.chunks, t2, s2)
    ensures a.jobs[jobId].status == JobSucceeded && a.jobs[jobId].lastError == None
    ensures a.sources[payload.sourceId].status == Ready && a.sources[payload.sourceId].indexedAt == Some(now)
    ensures |progress| >= 3 && progress[|progress| - 1] == 100
  {
    var (tenantId, sourceId) := (payload.tenantId, payload.sourceId);
    var chunks := PrepareChunks(b.sources[sourceId], files, ex).value;
    var inputs := ChunkInputs(chunks, sourceId);
    var n := |inputs|;
    var added := KbService.NewRows(tenantId, sourceId, inputs, chunkId, embed, n);
    assert KbService.FirstFailure(embed, n) == n;
    assert a.chunks == KbService.WithoutSource(b.chunks, tenantId, sourceId) + added;
    KbService.ReplacementScope(b.chunks, tenantId, sourceId, added, t2, s2);
  }

  /** A run that fails after finding its source records the same message on the job and
      on the source, marks both FAILED and meters nothing. */
  lemma FailedRun(b: Tables, a: Tables, files: map<string, seq<Text.Byte>>, payload: QueuePayload, jobId: Id,
                  ex: Extractors, chunkId: nat -> Id, embed: nat -> Result<Vector, Exception>,
                  now: int, meteringFails: bool, r: Result<nat, Exception>, progress: seq<int>)
    requires jobId in b.jobs && payload.sourceId in b.sources
    requires Ran(b, a, files, payload, jobId, ex, chunkId, embed, now, meteringFails, r, progress)
    requires r.Err?
    ensures a.jobs[jobId].status == JobFailed && a.sources[payload.sourceId].status == Failed
    ensures a.jobs[jobId].lastError == a.sources[payload.sourceId].error == Some(r.error.message)
    ensures a.usage == b.usage
    ensures 100 !in progress
  {
    var prepared := PrepareChunks(b.sources[payload.sourceId], files, ex);
    if prepared.Ok? {
      var n := |prepared.value|;
      var k := KbService.FirstFailure(embed, n);
      assert k < n;
      ReportsMonotone(n, k, false);
      PercentsBelow(n, k);
    }
  }

  lemma PercentsBelow(n: nat, k: nat)
    requires k < n
    ensures 100 !in Reports(n, k, false)
  {
    var r := Reports(n, k, false);
    forall i | 2 <= i < |r| ensures r[i] <= 95 {
      PercentBounds(i - 2, n);
    }
  }
}
