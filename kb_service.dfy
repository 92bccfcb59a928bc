/** The knowledge-base service: the sliding-window chunker, replacement of a source's
    chunks, similarity retrieval, listing with keyset cursors, status counts and
    deletion of a source. */
module KbService {
  import opened Wrappers
  import opened Records
  import Json
  import Text
  import Sorting
  import KbStorage
  import Seqs

  const DefaultChunkSize := 1200
  const DefaultOverlap := 150

  // ---------------------------------------------------------------------------------
  // Sliding-window chunker

  /** The text the chunker works on: CR LF pairs normalised to LF, then trimmed. */
  function CleanText(text: string): (r: string)
    ensures Text.IsTrimmed(r)
  {
    Text.Trim(Text.ReplaceCrlf(text))
  }

  /** The windows `[start, end)` the loop visits from `i` on. */
  function Windows(n: nat, size: nat, overlap: nat, i: nat): (ws: seq<(nat, nat)>)
    requires overlap < size
    decreases n - i
    ensures forall k :: 0 <= k < |ws| ==> i <= ws[k].0 < ws[k].1 <= n && ws[k].1 - ws[k].0 <= size
    ensures Within(ws, n)
  {
    if i >= n then []
    else
      var end := if i + size < n then i + size else n;
      var next := if end - overlap > 0 then end - overlap else 0;
      [(i, end)] + (if end >= n then [] else Windows(n, size, overlap, next))
  }

  /** The first window starts at `i`; each is `size` long except the last, which reaches
      the end; the next window starts `overlap` characters before the previous one ends. */
  lemma {:induction false} WindowsShape(n: nat, size: nat, overlap: nat, i: nat)
    requires overlap < size && i < n
    decreases n - i
    ensures var ws := Windows(n, size, overlap, i);
      && |ws| > 0 && ws[0].0 == i && ws[|ws| - 1].1 == n
      && (forall k :: 0 <= k < |ws| - 1 ==> ws[k].1 - ws[k].0 == size && ws[k + 1].0 == ws[k].1 - overlap)
  {
    var end := if i + size < n then i + size else n;
    if end < n {
      var next := end - overlap;
      WindowsShape(n, size, overlap, next);
      var rest := Windows(n, size, overlap, next);
      var ws := Windows(n, size, overlap, i);
      assert ws == [(i, end)] + rest;
      forall k | 1 <= k < |ws| ensures ws[k] == rest[k - 1] {
      }
    }
  }

  /** Every window lies inside a text of length `n`. */
  predicate Within(ws: seq<(nat, nat)>, n: nat) {
    forall k :: 0 <= k < |ws| ==> ws[k].0 <= ws[k].1 <= n
  }

  lemma WithinTail(ws: seq<(nat, nat)>, n: nat)
    requires ws != [] && Within(ws, n)
    ensures Within(ws[1..], n)
  {
    forall k | 0 <= k < |ws[1..]| ensures ws[1..][k].0 <= ws[1..][k].1 <= n {
      assert ws[1..][k] == ws[k + 1];
    }
  }

  /** The trimmed, non-empty contents of the windows. */
  function Pieces(c: string, ws: seq<(nat, nat)>): (r: seq<string>)
    requires Within(ws, |c|)
    ensures Text.AllTrimmedNonEmpty(r)
  {
    if ws == [] then []
    else
      WithinTail(ws, |c|);
      var rest := Pieces(c, ws[1..]);
      var p := Text.Trim(c[ws[0].0..ws[0].1]);
      var head := if p == [] then [] else [p];
      Text.TrimmedPiece(c[ws[0].0..ws[0].1]);
      Text.TrimmedNonEmptyConcat(head, rest);
      head + rest
  }

  lemma {:induction false} PiecesBounded(c: string, ws: seq<(nat, nat)>, size: nat)
    requires Within(ws, |c|) && forall k :: 0 <= k < |ws| ==> ws[k].1 - ws[k].0 <= size
    ensures forall k :: 0 <= k < |Pieces(c, ws)| ==> |Pieces(c, ws)[k]| <= size
  {
    if ws != [] {
      WithinTail(ws, |c|);
      forall k | 0 <= k < |ws[1..]| ensures ws[1..][k].1 - ws[1..][k].0 <= size {
        assert ws[1..][k] == ws[k + 1];
      }
      PiecesBounded(c, ws[1..], size);
    }
  }

  /** What `chunkText` returns. */
  function SlidingChunks(text: string, size: nat, overlap: nat): seq<string>
    requires overlap < size
  {
    var c := CleanText(text);
    Pieces(c, Windows(|c|, size, overlap, 0))
  }

  /** One turn of the chunker's loop, read off the specification. */
  lemma PiecesStep(c: string, size: nat, overlap: nat, i: nat, end: nat, next: nat)
    requires overlap < size && i < |c|
    requires end == (if i + size < |c| then i + size else |c|)
    requires next == (if end - overlap > 0 then end - overlap else 0)
    ensures Pieces(c, Windows(|c|, size, overlap, i))
         == (if Text.Trim(c[i..end]) == [] then [] else [Text.Trim(c[i..end])])
            + (if end >= |c| then [] else Pieces(c, Windows(|c|, size, overlap, next)))
  {
    var ws := Windows(|c|, size, overlap, i);
    var rest := if end >= |c| then [] else Windows(|c|, size, overlap, next);
    assert ws == [(i, end)] + rest;
    assert ws[1..] == rest;
    var slice := Text.Trim(c[i..end]);
    assert Pieces(c, ws) == (if slice == [] then [] else [slice]) + Pieces(c, rest);
    if end >= |c| {
      assert Pieces(c, rest) == [];
    }
  }

  /** The loop invariant is kept by one turn: what has been collected, followed by the
      pieces still to come, stays the same. */
  lemma ChunkLoopStep(acc: seq<string>, acc': seq<string>, c: string, size: nat, overlap: nat,
                      i: nat, end: nat, next: nat)
    requires overlap < size && i < |c|
    requires end == (if i + size < |c| then i + size else |c|)
    requires next == (if end - overlap > 0 then end - overlap else 0)
    requires acc' == if Text.Trim(c[i..end]) != [] then acc + [Text.Trim(c[i..end])] else acc
    ensures end >= |c| ==> acc + Pieces(c, Windows(|c|, size, overlap, i)) == acc'
    ensures end < |c| ==> acc + Pieces(c, Windows(|c|, size, overlap, i))
                          == acc' + Pieces(c, Windows(|c|, size, overlap, next))
  {
    var rest := if end >= |c| then [] else Pieces(c, Windows(|c|, size, overlap, next));
    PiecesStep(c, size, overlap, i, end, next);
    CollectStep(acc, acc', Text.Trim(c[i..end]), rest, Pieces(c, Windows(|c|, size, overlap, i)));
  }

  /** Collecting the non-empty `slice` out of `whole` leaves `rest` to come. */
  lemma CollectStep(acc: seq<string>, acc': seq<string>, slice: string, rest: seq<string>, whole: seq<string>)
    requires whole == (if slice == [] then [] else [slice]) + rest
    requires acc' == if slice != [] then acc + [slice] else acc
    ensures acc + whole == acc' + rest
    ensures rest == [] ==> acc + whole == acc'
  {
    var head := if slice == [] then [] else [slice];
    assert acc + [] == acc;
    Seqs.AppendAssociative(acc, head, rest);
    assert acc' + [] == acc';
  }

  /** `chunkText`: slides a window of `chunkSize` characters over the cleaned text,
      stepping back `overlap` characters each time. The loop only ends when the overlap
      is smaller than the window. */
  method ChunkText(text: string, chunkSize: nat, overlap: nat) returns (chunks: seq<string>)
    requires overlap < chunkSize
    ensures chunks == SlidingChunks(text, chunkSize, overlap)
  {
    var cleaned := CleanText(text);
    if cleaned == [] {
      return [];
    }
    ghost var goal := SlidingChunks(text, chunkSize, overlap);
    chunks := [];
    var i := 0;
    while i < |cleaned|
      invariant 0 <= i
      invariant chunks + Pieces(cleaned, Windows(|cleaned|, chunkSize, overlap, i)) == goal
      decreases |cleaned| - i
    {
      var end := if i + chunkSize < |cleaned| then i + chunkSize else |cleaned|;
      var slice := Text.Trim(cleaned[i..end]);
      var next := if end - overlap > 0 then end - overlap else 0;
      var acc := if slice != [] then chunks + [slice] else chunks;
      ChunkLoopStep(chunks, acc, cleaned, chunkSize, overlap, i, end, next);
      chunks := acc;
      if end >= |cleaned| {
        return;
      }
      i := next;
    }
  }

  /** Every chunk is non-empty, trimmed and at most `size` characters long. */
  lemma SlidingChunksShape(text: string, size: nat, overlap: nat)
    requires overlap < size
    ensures forall k :: 0 <= k < |SlidingChunks(text, size, overlap)| ==>
      var p := SlidingChunks(text, size, overlap)[k];
      p != [] && Text.IsTrimmed(p) && |p| <= size
  {
    var c := CleanText(text);
    PiecesBounded(c, Windows(|c|, size, overlap, 0), size);
  }

  /** Text that is all white space yields no chunk. */
  lemma BlankTextNoChunks(text: string, size: nat, overlap: nat)
    requires overlap < size
    requires Text.IsBlank(Text.ReplaceCrlf(text))
    ensures SlidingChunks(text, size, overlap) == []
  {
    Text.TrimEmptyIffBlank(Text.ReplaceCrlf(text));
  }

  /** A cleaned text that fits in one window is its own single chunk. */
  lemma ShortTextOneChunk(text: string, size: nat, overlap: nat)
    requires overlap < size
    requires CleanText(text) != [] && |CleanText(text)| <= size
    ensures SlidingChunks(text, size, overlap) == [CleanText(text)]
  {
    var c := CleanText(text);
    PiecesStep(c, size, overlap, 0, |c|, if |c| - overlap > 0 then |c| - overlap else 0);
    assert c[0..|c|] == c;
    Text.TrimOfTrimmed(c);
  }

  // ---------------------------------------------------------------------------------
  // Chunk replacement

  datatype ChunkInput = ChunkInput(content: string, ordinal: int, metadata: Option<Json.Json>)

  datatype ReplaceSummary = ReplaceSummary(inserted: nat, embedded: nat)

  /** A progress report `num / den`. */
  datatype Fraction = Fraction(num: nat, den: nat)

  /** The chunks of one source, in table order. */
  function OfSource(rows: seq<Chunk>, tenantId: Id, sourceId: Id): (r: seq<Chunk>)
    ensures forall k :: 0 <= k < |r| ==> r[k].tenantId == tenantId && r[k].sourceId == sourceId
  {
    if rows == [] then []
    else
      (if rows[0].tenantId == tenantId && rows[0].sourceId == sourceId then [rows[0]] else [])
      + OfSource(rows[1..], tenantId, sourceId)
  }

  /** `deleteMany({ tenantId, sourceId })` on the chunk table. */
  function WithoutSource(rows: seq<Chunk>, tenantId: Id, sourceId: Id): (r: seq<Chunk>)
    ensures forall k :: 0 <= k < |r| ==> !(r[k].tenantId == tenantId && r[k].sourceId == sourceId)
    ensures forall c :: c in r <==> c in rows && !(c.tenantId == tenantId && c.sourceId == sourceId)
  {
    if rows == [] then []
    else
      (if rows[0].tenantId == tenantId && rows[0].sourceId == sourceId then [] else [rows[0]])
      + WithoutSource(rows[1..], tenantId, sourceId)
  }

  /** The embedding a chunk row ends up with: a non-empty vector is stored, anything else
      leaves the column null. */
  function Stored(e: Result<Vector, Exception>): Option<Vector> {
    if e.Ok? && e.value != [] then Some(e.value) else None
  }

  /** The first `count` rows `replaceSourceChunks` inserts; `chunkId(i)` is the id the
      database assigns to the i-th row and `embed(i)` the outcome of the i-th embedding. */
  function NewRows(tenantId: Id, sourceId: Id, inputs: seq<ChunkInput>, chunkId: nat -> Id,
                   embed: nat -> Result<Vector, Exception>, count: nat): (r: seq<Chunk>)
    requires count <= |inputs|
    ensures |r| == count
    ensures forall i :: 0 <= i < count ==>
      && r[i].tenantId == tenantId && r[i].sourceId == sourceId
      && r[i].idx == inputs[i].ordinal && r[i].content == inputs[i].content
      && r[i].meta == inputs[i].metadata && r[i].embedding == Stored(embed(i))
  {
    seq(count, i requires 0 <= i < count =>
      Chunk(chunkId(i), tenantId, sourceId, inputs[i].ordinal, inputs[i].content,
            inputs[i].metadata, Stored(embed(i))))
  }

  /** Index of the first failing embedding among the first `n` calls, or `n`. */
  function FirstFailure(embed: nat -> Result<Vector, Exception>, n: nat): (k: nat)
    ensures k <= n
    ensures forall j :: 0 <= j < k ==> embed(j).Ok?
    ensures k < n ==> embed(k).Err?
  {
    if n == 0 then 0
    else
      var k := FirstFailure(embed, n - 1);
      if k < n - 1 then k else if embed(n - 1).Err? then n - 1 else n
  }

  /** The number of the first `n` embeddings that were stored. */
  function EmbeddedCount(embed: nat -> Result<Vector, Exception>, n: nat): (r: nat)
    ensures r <= n
  {
    if n == 0 then 0 else EmbeddedCount(embed, n - 1) + (if Stored(embed(n - 1)).Some? then 1 else 0)
  }

  /** The progress reports after `m` completed chunks out of `n`. */
  function Progress(m: nat, n: nat): (r: seq<Fraction>)
    ensures |r| == m
    ensures forall i :: 0 <= i < m ==> r[i] == Fraction(i + 1, if n > 1 then n else 1)
  {
    seq(m, i requires 0 <= i < m => Fraction(i + 1, if n > 1 then n else 1))
  }

  lemma ProgressSnoc(m: nat, n: nat)
    ensures Progress(m + 1, n) == Progress(m, n) + [Fraction(m + 1, if n > 1 then n else 1)]
  {
    assert Progress(m + 1, n)[..m] == Progress(m, n);
  }

  lemma NewRowsSnoc(tenantId: Id, sourceId: Id, inputs: seq<ChunkInput>, chunkId: nat -> Id,
                    embed: nat -> Result<Vector, Exception>, i: nat)
    requires i < |inputs|
    ensures NewRows(tenantId, sourceId, inputs, chunkId, embed, i + 1)
         == NewRows(tenantId, sourceId, inputs, chunkId, embed, i)
            + [Chunk(chunkId(i), tenantId, sourceId, inputs[i].ordinal, inputs[i].content,
                     inputs[i].metadata, Stored(embed(i)))]
  {
  }

  /** One turn of the insertion loop: appending the i-th row without an embedding, and
      then storing a non-empty vector in it, extends the table by the i-th new row. */
  lemma RowsStep(base: seq<Chunk>, tenantId: Id, sourceId: Id, inputs: seq<ChunkInput>,
                 chunkId: nat -> Id, embed: nat -> Result<Vector, Exception>, i: nat)
    requires i < |inputs|
    ensures var row := Chunk(chunkId(i), tenantId, sourceId, inputs[i].ordinal, inputs[i].content,
                             inputs[i].metadata, None);
            var prefix := base + NewRows(tenantId, sourceId, inputs, chunkId, embed, i);
            && (embed(i).Err? || embed(i).value == [] ==>
                  prefix + [row] == base + NewRows(tenantId, sourceId, inputs, chunkId, embed, i + 1))
            && (embed(i).Ok? && embed(i).value != [] ==>
                  (prefix + [row])[|prefix| := row.(embedding := Some(embed(i).value))]
                  == base + NewRows(tenantId, sourceId, inputs, chunkId, embed, i + 1))
  {
    var row := Chunk(chunkId(i), tenantId, sourceId, inputs[i].ordinal, inputs[i].content,
                     inputs[i].metadata, None);
    var prefix := base + NewRows(tenantId, sourceId, inputs, chunkId, embed, i);
    var full := Chunk(chunkId(i), tenantId, sourceId, inputs[i].ordinal, inputs[i].content,
                      inputs[i].metadata, Stored(embed(i)));
    NewRowsSnoc(tenantId, sourceId, inputs, chunkId, embed, i);
    assert base + NewRows(tenantId, sourceId, inputs, chunkId, embed, i + 1) == prefix + [full];
    if embed(i).Ok? && embed(i).value != [] {
      assert (prefix + [row])[|prefix| := row.(embedding := Some(embed(i).value))] == prefix + [full];
    }
  }

  lemma {:induction false} FirstFailureIs(embed: nat -> Result<Vector, Exception>, n: nat, k: nat)
    requires k <= n && (forall j :: 0 <= j < k ==> embed(j).Ok?) && (k < n ==> embed(k).Err?)
    ensures FirstFailure(embed, n) == k
  {
    if n > 0 && k < n {
      FirstFailureIs(embed, n - 1, if k < n - 1 then k else n - 1);
    } else if n > 0 {
      FirstFailureIs(embed, n - 1, n - 1);
    }
  }

  /** The outcome `replaceSourceChunks` promises: with `k` the first failing embedding,
      it succeeds exactly when none fails, reporting `n` inserted rows and the number of
      stored embeddings; the table then holds the other sources' chunks followed by the
      new rows (only the first `k + 1` of them when the `k`-th embedding throws, which
      is the error returned); and one progress report is made per finished chunk. */
  predicate Replaced(before: seq<Chunk>, after: seq<Chunk>, tenantId: Id, sourceId: Id,
                     inputs: seq<ChunkInput>, chunkId: nat -> Id, embed: nat -> Result<Vector, Exception>,
                     r: Result<ReplaceSummary, Exception>, progress: seq<Fraction>)
  {
    var k := FirstFailure(embed, |inputs|);
    && (r.Ok? <==> k == |inputs|)
    && (r.Ok? ==> r.value == ReplaceSummary(|inputs|, EmbeddedCount(embed, |inputs|)))
    && (r.Ok? ==> after == WithoutSource(before, tenantId, sourceId)
                           + NewRows(tenantId, sourceId, inputs, chunkId, embed, |inputs|))
    && (r.Err? ==> k < |inputs| && r.error == embed(k).error)
    && (r.Err? ==> k < |inputs| && after == WithoutSource(before, tenantId, sourceId)
                                           + NewRows(tenantId, sourceId, inputs, chunkId, embed, k + 1))
    && progress == Progress(k, |inputs|)
  }

  /** What the insertion loop has done after `i` turns without a failure. */
  predicate Inserting(rows: seq<Chunk>, embedded: nat, progress: seq<Fraction>, base: seq<Chunk>,
                      tenantId: Id, sourceId: Id, inputs: seq<ChunkInput>, chunkId: nat -> Id,
                      embed: nat -> Result<Vector, Exception>, i: nat)
  {
    && i <= |inputs|
    && (forall j :: 0 <= j < i ==> embed(j).Ok?)
    && rows == base + NewRows(tenantId, sourceId, inputs, chunkId, embed, i)
    && embedded == EmbeddedCount(embed, i)
    && progress == Progress(i, |inputs|)
  }

  /** A successful turn of the insertion loop keeps `Inserting`, one row further on. */
  lemma InsertingStep(rows: seq<Chunk>, embedded: nat, progress: seq<Fraction>, base: seq<Chunk>,
                      tenantId: Id, sourceId: Id, inputs: seq<ChunkInput>, chunkId: nat -> Id,
                      embed: nat -> Result<Vector, Exception>, i: nat)
    requires Inserting(rows, embedded, progress, base, tenantId, sourceId, inputs, chunkId, embed, i)
    requires i < |inputs| && embed(i).Ok?
    ensures var row := Chunk(chunkId(i), tenantId, sourceId, inputs[i].ordinal, inputs[i].content,
                             inputs[i].metadata, None);
            var v := embed(i).value;
            Inserting(if v != [] then (rows + [row])[|rows| := row.(embedding := Some(v))] else rows + [row],
                      if v != [] then embedded + 1 else embedded,
                      progress + [Fraction(i + 1, if |inputs| > 1 then |inputs| else 1)],
                      base, tenantId, sourceId, inputs, chunkId, embed, i + 1)
  {
    RowsStep(base, tenantId, sourceId, inputs, chunkId, embed, i);
    ProgressSnoc(i, |inputs|);
  }

  /** The loop ran to its end: the outcome is the promised success. */
  lemma ReplacedOk(before: seq<Chunk>, after: seq<Chunk>, tenantId: Id, sourceId: Id,
                   inputs: seq<ChunkInput>, chunkId: nat -> Id, embed: nat -> Result<Vector, Exception>,
                   embedded: nat, progress: seq<Fraction>)
    requires Inserting(after, embedded, progress, WithoutSource(before, tenantId, sourceId),
                       tenantId, sourceId, inputs, chunkId, embed, |inputs|)
    ensures Replaced(before, after, tenantId, sourceId, inputs, chunkId, embed,
                     Ok(ReplaceSummary(|inputs|, embedded)), progress)
  {
    FirstFailureIs(embed, |inputs|, |inputs|);
  }

  /** The `i`-th embedding threw after its row was inserted: the outcome is the promised
      failure. */
  lemma ReplacedErr(before: seq<Chunk>, rows: seq<Chunk>, tenantId: Id, sourceId: Id,
                    inputs: seq<ChunkInput>, chunkId: nat -> Id, embed: nat -> Result<Vector, Exception>,
                    embedded: nat, progress: seq<Fraction>, i: nat)
    requires Inserting(rows, embedded, progress, WithoutSource(before, tenantId, sourceId),
                       tenantId, sourceId, inputs, chunkId, embed, i)
    requires i < |inputs| && embed(i).Err?
    ensures Replaced(before, rows + [Chunk(chunkId(i), tenantId, sourceId, inputs[i].ordinal, inputs[i].content,
                                           inputs[i].metadata, None)],
                     tenantId, sourceId, inputs, chunkId, embed, Err(embed(i).error), progress)
  {
    RowsStep(WithoutSource(before, tenantId, sourceId), tenantId, sourceId, inputs, chunkId, embed, i);
    FirstFailureIs(embed, |inputs|, i);
  }

  /** `replaceSourceChunks`: deletes the source's chunks, then inserts one row per input,
      storing its embedding when that is non-empty. */
  method ReplaceSourceChunks(db: Db, tenantId: Id, sourceId: Id, inputs: seq<ChunkInput>,
                             chunkId: nat -> Id, embed: nat -> Result<Vector, Exception>)
    returns (r: Result<ReplaceSummary, Exception>, progress: seq<Fraction>)
    modifies db`chunks
    ensures Replaced(old(db.chunks), db.chunks, tenantId, sourceId, inputs, chunkId, embed, r, progress)
  {
    ghost var before := db.chunks;
    var base := WithoutSource(db.chunks, tenantId, sourceId);
    db.chunks := base;
    var embedded: nat := 0;
    progress := [];
    var den := if |inputs| > 1 then |inputs| else 1;
    for i := 0 to |inputs|
      invariant Inserting(db.chunks, embedded, progress, base, tenantId, sourceId, inputs, chunkId, embed, i)
    {
      var input := inputs[i];
      var row := Chunk(chunkId(i), tenantId, sourceId, input.ordinal, input.content, input.metadata, None);
      ghost var rows := db.chunks;
      var n := |db.chunks|;
      db.chunks := db.chunks + [row];
      var e := embed(i);
      if e.Err? {
        ReplacedErr(before, rows, tenantId, sourceId, inputs, chunkId, embed, embedded, progress, i);
        return Err(e.error), progress;
      }
      InsertingStep(rows, embedded, progress, base, tenantId, sourceId, inputs, chunkId, embed, i);
      if e.value != [] {
        db.chunks := db.chunks[n := row.(embedding := Some(e.value))];
        embedded := embedded + 1;
      }
      progress := progress + [Fraction(i + 1, den)];
    }
    ReplacedOk(before, db.chunks, tenantId, sourceId, inputs, chunkId, embed, embedded, progress);
    return Ok(ReplaceSummary(|inputs|, embedded)), progress;
  }

  lemma {:induction false} OfSourceAppend(a: seq<Chunk>, b: seq<Chunk>, tenantId: Id, sourceId: Id)
    ensures OfSource(a + b, tenantId, sourceId) == OfSource(a, tenantId, sourceId) + OfSource(b, tenantId, sourceId)
  {
    if a == [] {
      assert a + b == b;
    } else {
      assert (a + b)[0] == a[0] && (a + b)[1..] == a[1..] + b;
      OfSourceAppend(a[1..], b, tenantId, sourceId);
    }
  }

  lemma {:induction false} OfSourceNone(rows: seq<Chunk>, tenantId: Id, sourceId: Id)
    requires forall k :: 0 <= k < |rows| ==> !(rows[k].tenantId == tenantId && rows[k].sourceId == sourceId)
    ensures OfSource(rows, tenantId, sourceId) == []
  {
    if rows != [] {
      OfSourceNone(rows[1..], tenantId, sourceId);
    }
  }

  lemma {:induction false} OfSourceAll(rows: seq<Chunk>, tenantId: Id, sourceId: Id)
    requires forall k :: 0 <= k < |rows| ==> rows[k].tenantId == tenantId && rows[k].sourceId == sourceId
    ensures OfSource(rows, tenantId, sourceId) == rows
  {
    if rows != [] {
      OfSourceAll(rows[1..], tenantId, sourceId);
      assert rows == [rows[0]] + rows[1..];
    }
  }

  lemma {:induction false} OfOtherSource(rows: seq<Chunk>, t: Id, s: Id, t2: Id, s2: Id)
    requires (t2, s2) != (t, s)
    ensures OfSource(WithoutSource(rows, t, s), t2, s2) == OfSource(rows, t2, s2)
  {
    if rows != [] {
      OfOtherSource(rows[1..], t, s, t2, s2);
      var w := WithoutSource(rows[1..], t, s);
      var head := if rows[0].tenantId == t && rows[0].sourceId == s then [] else [rows[0]];
      assert WithoutSource(rows, t, s) == head + w;
      OfSourceAppend(head, w, t2, s2);
      if head != [] {
        assert OfSource(head, t2, s2) == (if rows[0].tenantId == t2 && rows[0].sourceId == s2 then [rows[0]] else []);
      }
    }
  }

  /** After a replacement the source's chunks are exactly the new rows, in input order,
      and every other source keeps its chunks. */
  lemma ReplacementScope(rows: seq<Chunk>, tenantId: Id, sourceId: Id, added: seq<Chunk>, t2: Id, s2: Id)
    requires forall k :: 0 <= k < |added| ==> added[k].tenantId == tenantId && added[k].sourceId == sourceId
    ensures OfSource(WithoutSource(rows, tenantId, sourceId) + added, tenantId, sourceId) == added
    ensures (t2, s2) != (tenantId, sourceId) ==>
      OfSource(WithoutSource(rows, tenantId, sourceId) + added, t2, s2) == OfSource(rows, t2, s2)
  {
    var kept := WithoutSource(rows, tenantId, sourceId);
    OfSourceAppend(kept, added, tenantId, sourceId);
    OfSourceNone(kept, tenantId, sourceId);
    OfSourceAll(added, tenantId, sourceId);
    OfSourceAppend(kept, added, t2, s2);
    if (t2, s2) != (tenantId, sourceId) {
      OfSourceNone(added, t2, s2);
      OfOtherSource(rows, tenantId, sourceId, t2, s2);
    }
  }

  lemma {:induction false} WithoutSourceAppend(a: seq<Chunk>, b: seq<Chunk>, tenantId: Id, sourceId: Id)
    ensures WithoutSource(a + b, tenantId, sourceId)
         == WithoutSource(a, tenantId, sourceId) + WithoutSource(b, tenantId, sourceId)
  {
    if a == [] {
      assert a + b == b;
    } else {
      assert (a + b)[0] == a[0] && (a + b)[1..] == a[1..] + b;
      WithoutSourceAppend(a[1..], b, tenantId, sourceId);
    }
  }

  lemma {:induction false} WithoutSourceIdempotent(rows: seq<Chunk>, tenantId: Id, sourceId: Id)
    ensures WithoutSource(WithoutSource(rows, tenantId, sourceId), tenantId, sourceId)
         == WithoutSource(rows, tenantId, sourceId)
  {
    if rows != [] {
      WithoutSourceIdempotent(rows[1..], tenantId, sourceId);
      var rest := WithoutSource(rows[1..], tenantId, sourceId);
      var head := if rows[0].tenantId == tenantId && rows[0].sourceId == sourceId then [] else [rows[0]];
      assert WithoutSource(rows, tenantId, sourceId) == head + rest;
      WithoutSourceAppend(head, rest, tenantId, sourceId);
      if head != [] {
        assert WithoutSource(head, tenantId, sourceId) == head;
      }
    }
  }

  /** Replacing twice leaves what the second replacement inserted next to the other
      sources' chunks: the first run leaves no trace. */
  lemma ReplaceTwice(rows: seq<Chunk>, tenantId: Id, sourceId: Id, first: seq<Chunk>, second: seq<Chunk>)
    requires forall k :: 0 <= k < |first| ==> first[k].tenantId == tenantId && first[k].sourceId == sourceId
    ensures WithoutSource(WithoutSource(rows, tenantId, sourceId) + first, tenantId, sourceId) + second
         == WithoutSource(rows, tenantId, sourceId) + second
  {
    var kept := WithoutSource(rows, tenantId, sourceId);
    WithoutSourceAppend(kept, first, tenantId, sourceId);
    WithoutSourceIdempotent(rows, tenantId, sourceId);
    WithoutSourceNone(first, tenantId, sourceId);
    assert WithoutSource(kept + first, tenantId, sourceId) == kept + [];
    assert kept + [] == kept;
  }

  lemma {:induction false} WithoutSourceNone(rows: seq<Chunk>, tenantId: Id, sourceId: Id)
    requires forall k :: 0 <= k < |rows| ==> rows[k].tenantId == tenantId && rows[k].sourceId == sourceId
    ensures WithoutSource(rows, tenantId, sourceId) == []
  {
    if rows != [] {
      WithoutSourceNone(rows[1..], tenantId, sourceId);
    }
  }

  /** The reports are `1/n, 2/n, ..., n/n`: increasing, and the last is 1. */
  lemma ProgressReachesOne(n: nat)
    requires n >= 1
    ensures Progress(n, n)[n - 1].num == Progress(n, n)[n - 1].den
    ensures forall i, j :: 0 <= i < j < n ==> Progress(n, n)[i].num < Progress(n, n)[j].num
  {
  }

  // ---------------------------------------------------------------------------------
  // Retrieval

  const SnippetLength := 240

  /** One retrieval result. Similarity is `1 - distance`, both in thousandths. */
  datatype Hit = Hit(chunkId: Id, sourceId: Id, filename: string, mimeType: string, idx: int,
                     similarity: int, snippet: string, content: string)

  /** The rows the query's join and `WHERE` clause admit: the tenant's embedded chunks
      whose source row exists. */
  function Candidates(rows: seq<Chunk>, sources: map<Id, Source>, tenantId: Id): (r: seq<Chunk>)
    ensures forall c :: c in r <==>
      c in rows && c.tenantId == tenantId && c.embedding.Some? && c.sourceId in sources
  {
    if rows == [] then []
    else
      var c := rows[0];
      (if c.tenantId == tenantId && c.embedding.Some? && c.sourceId in sources then [c] else [])
      + Candidates(rows[1..], sources, tenantId)
  }

  function Distance(distance: (Vector, Vector) -> int, q: Vector, c: Chunk): int {
    if c.embedding.Some? then distance(c.embedding.value, q) else 0
  }

  function HitOf(c: Chunk, sources: map<Id, Source>, q: Vector, distance: (Vector, Vector) -> int): Hit
    requires c.sourceId in sources
  {
    var s := sources[c.sourceId];
    Hit(c.id, c.sourceId, s.filename, s.mimeType, c.idx, 1000 - Distance(distance, q, c),
        Text.Prefix(c.content, SnippetLength), c.content)
  }

  /** The candidates in ascending distance from the query vector. */
  function Ranked(rows: seq<Chunk>, sources: map<Id, Source>, tenantId: Id, q: Vector,
                  distance: (Vector, Vector) -> int): (r: seq<Chunk>)
    ensures multiset(r) == multiset(Candidates(rows, sources, tenantId))
    ensures |r| == |Candidates(rows, sources, tenantId)|
    ensures forall i :: 0 <= i < |r| ==> r[i] in Candidates(rows, sources, tenantId)
  {
    var r := Sorting.SortBy(Candidates(rows, sources, tenantId), (c: Chunk) => Distance(distance, q, c));
    assert forall i :: 0 <= i < |r| ==> r[i] in multiset(r);
    r
  }

  /** The `LIMIT topK` rows of the ranking, mapped to hits. */
  function TopHits(rows: seq<Chunk>, sources: map<Id, Source>, tenantId: Id, q: Vector, topK: nat,
                   distance: (Vector, Vector) -> int): (r: seq<Hit>)
    ensures var ranked := Ranked(rows, sources, tenantId, q, distance);
      && |r| == (if topK < |ranked| then topK else |ranked|)
      && forall i :: 0 <= i < |r| ==> r[i] == HitOf(ranked[i], sources, q, distance)
  {
    var ranked := Ranked(rows, sources, tenantId, q, distance);
    var n := if topK < |ranked| then topK else |ranked|;
    seq(n, i requires 0 <= i < n => HitOf(ranked[i], sources, q, distance))
  }

  /** `query` once the query text has been embedded (`embedded` is that call's outcome). */
  function Query(rows: seq<Chunk>, sources: map<Id, Source>, tenantId: Id,
                 embedded: Result<Vector, Exception>, topK: nat,
                 distance: (Vector, Vector) -> int): (r: Result<seq<Hit>, Exception>)
    ensures embedded.Err? ==> r == Err(embedded.error)
    ensures embedded == Ok([]) ==> r == Ok([])
    ensures r.Ok? ==> |r.value| <= topK
  {
    match embedded
    case Err(e) => Err(e)
    case Ok(q) => if q == [] then Ok([]) else Ok(TopHits(rows, sources, tenantId, q, topK, distance))
  }

  /** The query returns `min(topK, |candidates|)` hits, each of which renders one of the
      tenant's embedded chunks whose source exists, with the first 240 characters of the
      content as its snippet. */
  lemma QueryHitsFromCandidates(rows: seq<Chunk>, sources: map<Id, Source>, tenantId: Id, q: Vector,
                                topK: nat, distance: (Vector, Vector) -> int)
    requires q != []
    ensures var hits := Query(rows, sources, tenantId, Ok(q), topK, distance).value;
      var n := |Candidates(rows, sources, tenantId)|;
      && |hits| == (if topK < n then topK else n)
      && (forall i :: 0 <= i < |hits| ==>
            (exists c :: (c in rows && c.tenantId == tenantId && c.embedding.Some?
                          && c.sourceId in sources && hits[i] == HitOf(c, sources, q, distance))))
      && (forall i :: 0 <= i < |hits| ==> hits[i].snippet == Text.Prefix(hits[i].content, SnippetLength))
  {
    var ranked := Ranked(rows, sources, tenantId, q, distance);
    var hits := TopHits(rows, sources, tenantId, q, topK, distance);
    assert Query(rows, sources, tenantId, Ok(q), topK, distance) == Ok(hits);
    forall i | 0 <= i < |hits|
      ensures exists c :: (c in rows && c.tenantId == tenantId && c.embedding.Some?
                           && c.sourceId in sources && hits[i] == HitOf(c, sources, q, distance))
      ensures hits[i].snippet == Text.Prefix(hits[i].content, SnippetLength)
    {
      var c := ranked[i];
      assert c in Candidates(rows, sources, tenantId);
      assert hits[i] == HitOf(c, sources, q, distance);
    }
  }

  /** Hits come in descending similarity. */
  lemma {:induction false} QueryOrdered(rows: seq<Chunk>, sources: map<Id, Source>, tenantId: Id, q: Vector,
                                        topK: nat, distance: (Vector, Vector) -> int)
    requires q != []
    ensures var hits := Query(rows, sources, tenantId, Ok(q), topK, distance).value;
      forall i, j :: 0 <= i < j < |hits| ==> hits[i].similarity >= hits[j].similarity
  {
    var key := (c: Chunk) => Distance(distance, q, c);
    var ranked := Ranked(rows, sources, tenantId, q, distance);
    Sorting.SortBySorted(Candidates(rows, sources, tenantId), key);
    var hits := Query(rows, sources, tenantId, Ok(q), topK, distance).value;
    forall i, j | 0 <= i < j < |hits| ensures hits[i].similarity >= hits[j].similarity {
      assert key(ranked[i]) <= key(ranked[j]);
    }
  }

  /** Top-K completeness: a candidate left out of the result is no closer to the query
      than any hit returned. */
  lemma {:induction false} QueryKeepsClosest(rows: seq<Chunk>, sources: map<Id, Source>, tenantId: Id, q: Vector,
                                             topK: nat, distance: (Vector, Vector) -> int, c: Chunk)
    requires q != [] && c in Candidates(rows, sources, tenantId)
    ensures var hits := Query(rows, sources, tenantId, Ok(q), topK, distance).value;
      || HitOf(c, sources, q, distance) in hits
      || forall i :: 0 <= i < |hits| ==> 1000 - hits[i].similarity <= Distance(distance, q, c)
  {
    var key := (c: Chunk) => Distance(distance, q, c);
    var ranked := Ranked(rows, sources, tenantId, q, distance);
    Sorting.SortBySorted(Candidates(rows, sources, tenantId), key);
    var hits := Query(rows, sources, tenantId, Ok(q), topK, distance).value;
    assert c in multiset(ranked);
    var j :| 0 <= j < |ranked| && ranked[j] == c;
    if j < |hits| {
      assert hits[j] == HitOf(c, sources, q, distance);
    } else {
      forall i | 0 <= i < |hits| ensures 1000 - hits[i].similarity <= Distance(distance, q, c) {
        assert key(ranked[i]) <= key(ranked[j]);
      }
    }
  }

  // ---------------------------------------------------------------------------------
  // Listing

  datatype Cursor = Cursor(createdAt: int, id: Id)

  /** The optional `status` and `q` (case-insensitive file-name substring) filters. */
  datatype SourceFilter = SourceFilter(status: Option<SourceStatus>, q: Option<string>)

  predicate MatchesFilter(src: Source, tenantId: Id, f: SourceFilter) {
    && src.tenantId == tenantId
    && (f.status.Some? ==> src.status == f.status.value)
    && (f.q.Some? && f.q.value != [] ==>
          Text.Contains(Text.ToLower(src.filename), Text.ToLower(f.q.value)))
  }

  /** Strictly after the cursor in newest-first order. */
  predicate AfterCursor(id: Id, src: Source, c: Cursor) {
    src.createdAt < c.createdAt || (src.createdAt == c.createdAt && Text.LexLt(id, c.id))
  }

  /** `orderBy: [{ createdAt: "desc" }, { id: "desc" }]`. */
  predicate NewestFirst(a: (Id, Source), b: (Id, Source)) {
    a.1.createdAt > b.1.createdAt || (a.1.createdAt == b.1.createdAt && Text.LexLe(b.0, a.0))
  }

  lemma NewestFirstTotal()
    ensures Sorting.TotalPreorder(NewestFirst)
  {
    forall a: (Id, Source), b: (Id, Source) ensures NewestFirst(a, b) || NewestFirst(b, a) {
      Text.LexLeTotal(a.0, b.0);
    }
    forall a: (Id, Source), b: (Id, Source), c: (Id, Source) | NewestFirst(a, b) && NewestFirst(b, c)
      ensures NewestFirst(a, c)
    {
      if a.1.createdAt == b.1.createdAt == c.1.createdAt {
        Text.LexLeTransitive(c.0, b.0, a.0);
      }
    }
  }

  /** The rows of a table, in some order. */
  ghost function Rows(m: map<Id, Source>): (r: seq<(Id, Source)>)
    ensures forall p :: p in r <==> p.0 in m && m[p.0] == p.1
    decreases |m|
  {
    if m == map[] then []
    else
      var k :| k in m;
      [(k, m[k])] + Rows(m - {k})
  }

  ghost function Select(rows: seq<(Id, Source)>, tenantId: Id, f: SourceFilter, cursor: Option<Cursor>): (r: seq<(Id, Source)>)
    ensures forall p :: p in r <==>
      p in rows && MatchesFilter(p.1, tenantId, f) && (cursor.Some? ==> AfterCursor(p.0, p.1, cursor.value))
  {
    if rows == [] then []
    else
      var p := rows[0];
      (if MatchesFilter(p.1, tenantId, f) && (cursor.Some? ==> AfterCursor(p.0, p.1, cursor.value)) then [p] else [])
      + Select(rows[1..], tenantId, f, cursor)
  }

  /** The matching sources, newest first. */
  ghost function Ordered(sources: map<Id, Source>, tenantId: Id, f: SourceFilter, cursor: Option<Cursor>): seq<(Id, Source)> {
    Sorting.SortWith(Select(Rows(sources), tenantId, f, cursor), NewestFirst)
  }

  ghost function Take<T>(s: seq<T>, n: nat): (r: seq<T>)
    ensures |r| == if n < |s| then n else |s|
    ensures r == s[..|r|]
  {
    if n < |s| then s[..n] else s
  }

  datatype CursorCodec = CursorCodec(
    toIso: int -> string, parseIso: string -> Option<int>,
    toBase64: seq<Text.Byte> -> string, fromBase64: string -> Result<seq<Text.Byte>, string>,
    decodeUtf8: seq<Text.Byte> -> string)

  /** `encodeCursor`: base64 of the UTF-8 bytes of `<ISO date>|<id>`. */
  function EncodeCursor(codec: CursorCodec, createdAt: int, id: Id): string {
    codec.toBase64(Text.Utf8(codec.toIso(createdAt) + "|" + id))
  }

  datatype SourcePage =
    | CursorPage(items: seq<(Id, Source)>, nextCursor: Option<string>, limit: nat)
    | OffsetPage(items: seq<(Id, Source)>, total: nat, page: nat, pageSize: nat)

  datatype ListOptions = ListOptions(filter: SourceFilter, page: Option<nat>, pageSize: Option<nat>,
                                     cursor: Option<Cursor>, limit: Option<nat>)

  /** `listSources`: keyset pagination when a cursor is given, offset pagination otherwise. */
  ghost function ListSources(sources: map<Id, Source>, tenantId: Id, opts: ListOptions, codec: CursorCodec): SourcePage {
    var page := opts.page.GetOr(1);
    var pageSize := opts.pageSize.GetOr(20);
    var limit := opts.limit.GetOr(pageSize);
    var ordered := Ordered(sources, tenantId, opts.filter, opts.cursor);
    if opts.cursor.Some? then
      var items := Take(ordered, limit);
      var next := if |items| == limit && limit > 0
                  then Some(EncodeCursor(codec, items[|items| - 1].1.createdAt, items[|items| - 1].0))
                  else None;
      CursorPage(items, next, limit)
    else
      var skip := if page >= 1 then (page - 1) * pageSize else 0;
      var rest := if skip < |ordered| then ordered[skip..] else [];
      OffsetPage(Take(rest, pageSize), |ordered|, page, pageSize)
  }

  /** A cursor page holds at most `limit` sources, all of the tenant, matching the
      filters and strictly after the cursor, newest first; it is the first `limit` of
      them; and it carries a next cursor exactly when it is full. */
  lemma CursorPageContents(sources: map<Id, Source>, tenantId: Id, opts: ListOptions, codec: CursorCodec)
    requires opts.cursor.Some? && opts.limit.GetOr(opts.pageSize.GetOr(20)) > 0
    ensures var p := ListSources(sources, tenantId, opts, codec);
      && p.CursorPage?
      && |p.items| <= p.limit
      && (forall i :: 0 <= i < |p.items| ==> var it := p.items[i];
            it.0 in sources && sources[it.0] == it.1 && MatchesFilter(it.1, tenantId, opts.filter)
            && AfterCursor(it.0, it.1, opts.cursor.value))
      && (forall i, j :: 0 <= i < j < |p.items| ==> NewestFirst(p.items[i], p.items[j]))
      && (p.nextCursor.Some? <==> |p.items| == p.limit)
  {
    var ordered := Ordered(sources, tenantId, opts.filter, opts.cursor);
    var sel := Select(Rows(sources), tenantId, opts.filter, opts.cursor);
    NewestFirstTotal();
    Sorting.SortWithSorted(sel, NewestFirst);
    var p := ListSources(sources, tenantId, opts, codec);
    forall i | 0 <= i < |p.items|
      ensures var it := p.items[i];
        it.0 in sources && sources[it.0] == it.1 && MatchesFilter(it.1, tenantId, opts.filter)
        && AfterCursor(it.0, it.1, opts.cursor.value)
    {
      assert p.items[i] == ordered[i];
      assert ordered[i] in multiset(sel);
    }
  }

  // ---------------------------------------------------------------------------------
  // Status counts

  const AllStatuses: seq<SourceStatus> := [Queued, Indexing, Ready, Failed]

  lemma AllStatusesListed(st: SourceStatus)
    ensures st in AllStatuses
  {
  }

  function StatusCount(sources: map<Id, Source>, tenantId: Id, st: SourceStatus): nat {
    |set id | id in sources && sources[id].tenantId == tenantId && sources[id].status == st|
  }

  /** The `groupBy` result: a row `(status, count)` for each status that at least one of
      the tenant's sources has, with that count. */
  function GroupByStatus(sources: map<Id, Source>, tenantId: Id): (rows: seq<(SourceStatus, nat)>)
    ensures forall p :: p in rows <==> p.1 > 0 && p.1 == StatusCount(sources, tenantId, p.0)
  {
    var r := seq(|AllStatuses|, i requires 0 <= i < |AllStatuses| =>
      (AllStatuses[i], StatusCount(sources, tenantId, AllStatuses[i])));
    forall p: (SourceStatus, nat) | p.1 == StatusCount(sources, tenantId, p.0) ensures p in r {
      assert r[AllStatusesIndex(p.0)] == p;
    }
    FilterPositive(r)
  }

  function AllStatusesIndex(st: SourceStatus): (i: nat)
    ensures i < |AllStatuses| && AllStatuses[i] == st
  {
    match st
    case Queued => 0
    case Indexing => 1
    case Ready => 2
    case Failed => 3
  }

  function FilterPositive(r: seq<(SourceStatus, nat)>): (rows: seq<(SourceStatus, nat)>)
    ensures forall p :: p in rows <==> p in r && p.1 > 0
  {
    if r == [] then [] else (if r[0].1 > 0 then [r[0]] else []) + FilterPositive(r[1..])
  }

  /** Some of the first `j` rows is about `st`. */
  predicate Seen(rows: seq<(SourceStatus, nat)>, j: nat, st: SourceStatus)
    requires j <= |rows|
  {
    exists k :: 0 <= k < j && rows[k].0 == st
  }

  /** `getStatusCounts`: every status gets an entry, 0 when no source has it. */
  method GetStatusCounts(db: Db, tenantId: Id) returns (counts: map<SourceStatus, nat>)
    ensures forall st :: st in counts && counts[st] == StatusCount(db.sources, tenantId, st)
  {
    counts := map[];
    for i := 0 to |AllStatuses|
      invariant forall k :: 0 <= k < i ==> AllStatuses[k] in counts
      invariant forall st :: st in counts ==> counts[st] == 0
    {
      counts := counts[AllStatuses[i] := 0];
    }
    forall st ensures st in counts {
      assert AllStatuses[AllStatusesIndex(st)] == st;
    }
    var rows := GroupByStatus(db.sources, tenantId);
    for j := 0 to |rows|
      invariant forall st :: st in counts
      invariant forall st :: counts[st] == if Seen(rows, j, st) then StatusCount(db.sources, tenantId, st) else 0
    {
      assert rows[j] in rows;
      counts := counts[rows[j].0 := rows[j].1];
      forall st ensures Seen(rows, j + 1, st) <==> Seen(rows, j, st) || rows[j].0 == st {
        if Seen(rows, j + 1, st) && rows[j].0 != st {
          var k :| 0 <= k < j + 1 && rows[k].0 == st;
          assert k < j;
        }
      }
    }
    forall st ensures counts[st] == StatusCount(db.sources, tenantId, st) {
      var n := StatusCount(db.sources, tenantId, st);
      if n > 0 {
        assert (st, n) in rows;
        var k :| 0 <= k < |rows| && rows[k] == (st, n);
        assert Seen(rows, |rows|, st);
      }
    }
  }

  // ---------------------------------------------------------------------------------
  // Deletion

  predicate OwnedBy(sources: map<Id, Source>, tenantId: Id, id: Id) {
    id in sources && sources[id].tenantId == tenantId
  }

  function JobsWithout(jobs: map<Id, Job>, tenantId: Id, sourceId: Id): (r: map<Id, Job>)
    ensures forall j :: j in r <==> j in jobs && !(jobs[j].tenantId == tenantId && jobs[j].sourceId == sourceId)
    ensures forall j :: j in r ==> r[j] == jobs[j]
  {
    map j | j in jobs && !(jobs[j].tenantId == tenantId && jobs[j].sourceId == sourceId) :: jobs[j]
  }

  /** `deleteSource`: `None` for a source the tenant does not own; otherwise its chunks,
      jobs and row go in one transaction, then its directory, where a disk failure is
      swallowed. */
  method DeleteSource(db: Db, store: KbStorage.FileStore, tenantId: Id, id: Id, diskFailure: Option<string>)
    returns (r: Option<Id>)
    modifies db`chunks, db`jobs, db`sources, store
    ensures !OwnedBy(old(db.sources), tenantId, id) ==>
      r == None && db.chunks == old(db.chunks) && db.jobs == old(db.jobs)
      && db.sources == old(db.sources) && store.files == old(store.files)
    ensures OwnedBy(old(db.sources), tenantId, id) ==>
      && r == Some(id)
      && db.chunks == WithoutSource(old(db.chunks), tenantId, id)
      && db.jobs == JobsWithout(old(db.jobs), tenantId, id)
      && db.sources == old(db.sources) - {id}
      && store.files == (if diskFailure.None?
                         then KbStorage.RemoveUnder(old(store.files), KbStorage.SourceDir(store.baseDir, tenantId, id))
                         else old(store.files))
  {
    if !OwnedBy(db.sources, tenantId, id) {
      return None;
    }
    db.chunks := WithoutSource(db.chunks, tenantId, id);
    db.jobs := JobsWithout(db.jobs, tenantId, id);
    db.sources := db.sources - {id};
    var _ := store.RemoveSourceDir(tenantId, id, diskFailure);
    return Some(id);
  }
}
