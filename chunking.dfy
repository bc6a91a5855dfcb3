/**
 * Text chunking and the extension dispatch of text extraction
 * (helpers.py). The document readers themselves (PDF, Word, PowerPoint,
 * plain text) are not modelled: their output is the `read` parameter.
 */
module Helpers {
  import opened Wrappers
  import opened Text

  const DefaultChunkSize: int := 500
  const DefaultOverlap: int := 250

  /** Extensions the upload handlers treat as documents and as images. */
  const DocExtensions: seq<string> := [".pdf", ".docx", ".pptx", ".txt"]
  const ImgExtensions: seq<string> := [".jpg", ".jpeg", ".png"]

  /** The overlap actually used: one at least as large as the chunk size is
      replaced by `chunk_size // 2` (Dafny's `/` by a positive divisor is
      Python's floor division). */
  function EffectiveOverlap(chunkSize: int, overlap: int): int
  {
    if chunkSize <= overlap then chunkSize / 2 else overlap
  }

  /** `max(1, chunk_size - overlap)` with the corrected overlap. */
  function StepSize(chunkSize: int, overlap: int): (step: int)
    ensures step >= 1
    ensures chunkSize >= 1 && overlap >= 0 ==> step <= chunkSize
  {
    var d := chunkSize - EffectiveOverlap(chunkSize, overlap);
    if d < 1 then 1 else d
  }

  /** Python's index normalisation for a slice bound. */
  function SliceBound(i: int, n: nat): (b: nat)
    ensures b <= n
  {
    if i < 0 then (if i + n < 0 then 0 else i + n) else if i > n then n else i
  }

  /** Python's `s[i:j]`, negative bounds counting from the end. */
  function PySlice<T>(s: seq<T>, i: int, j: int): seq<T>
  {
    var lo, hi := SliceBound(i, |s|), SliceBound(j, |s|);
    if lo < hi then s[lo..hi] else []
  }

  /** The chunks whose windows start at `start`, `start + step`, ... while
      the start is below `|tokens|`. */
  function ChunksFrom(tokens: seq<string>, start: nat, step: nat, size: int): seq<string>
    requires step >= 1
    decreases |tokens| - start
  {
    if start >= |tokens| then []
    else [Join(" ", PySlice(tokens, start, start + size))] + ChunksFrom(tokens, start + step, step, size)
  }

  /** `chunk_text(text, chunk_size, overlap)`. */
  function ChunkText(text: string, chunkSize: int, overlap: int): seq<string>
  {
    ChunksFrom(Split(text), 0, StepSize(chunkSize, overlap), chunkSize)
  }

  /** Number of windows a range of starts below `n` with the given step has. */
  function CeilDiv(n: nat, step: nat): nat
    requires step >= 1
  {
    (n + step - 1) / step
  }

  /** Euclidean division has a unique quotient. */
  lemma DivUnique(x: int, d: int, q: int, r: int)
    requires d >= 1 && 0 <= r < d && x == q * d + r
    ensures x / d == q
  {
    var q0, r0 := x / d, x % d;
    assert x == q0 * d + r0 && 0 <= r0 < d;
    if q0 < q {
      MulAtLeast(q - q0, d);
    } else if q0 > q {
      MulAtLeast(q0 - q, d);
    }
  }

  lemma MulAtLeast(a: int, d: int)
    requires a >= 1 && d >= 1
    ensures a * d >= d
  {
  }

  lemma DivShift(x: int, d: int)
    requires x >= 0 && d >= 1
    ensures (x + d) / d == x / d + 1
  {
    var q, r := x / d, x % d;
    assert x == q * d + r && 0 <= r < d;
    assert x + d == (q + 1) * d + r;
    DivUnique(x + d, d, q + 1, r);
  }

  lemma DivOne(x: int, d: int)
    requires d >= 1 && d <= x < 2 * d
    ensures x / d == 1
  {
    DivUnique(x, d, 1, x - d);
  }

  lemma {:induction false} ChunksFromCount(tokens: seq<string>, start: nat, step: nat, size: int)
    requires step >= 1
    ensures |ChunksFrom(tokens, start, step, size)| == if start >= |tokens| then 0 else CeilDiv(|tokens| - start, step)
    decreases |tokens| - start
  {
    if start < |tokens| {
      ChunksFromCount(tokens, start + step, step, size);
      var x := |tokens| - start;
      if start + step >= |tokens| {
        DivOne(x + step - 1, step);
      } else {
        DivShift(x - 1, step);
      }
    }
  }

  lemma {:induction false} ChunksFromAt(tokens: seq<string>, start: nat, step: nat, size: int, k: nat)
    requires step >= 1
    requires k < |ChunksFrom(tokens, start, step, size)|
    ensures start + k * step < |tokens|
    ensures ChunksFrom(tokens, start, step, size)[k] == Join(" ", PySlice(tokens, start + k * step, start + k * step + size))
    decreases |tokens| - start
  {
    if k == 0 {
      assert start + k * step == start;
    } else {
      ChunksFromAt(tokens, start + step, step, size, k - 1);
      assert start + step + (k - 1) * step == start + k * step;
    }
  }

  /** For N whitespace tokens the result has exactly ceil(N / step) chunks;
      empty or whitespace-only text gives no chunk. */
  lemma ChunkCount(text: string, chunkSize: int, overlap: int)
    ensures |ChunkText(text, chunkSize, overlap)| == CeilDiv(|Split(text)|, StepSize(chunkSize, overlap))
    ensures Split(text) == [] ==> ChunkText(text, chunkSize, overlap) == []
  {
    ChunksFromCount(Split(text), 0, StepSize(chunkSize, overlap), chunkSize);
  }

  /** The tokens `tokens[start : start + size]` of one window. */
  function Window(tokens: seq<string>, start: nat, size: nat): (w: seq<string>)
    ensures |w| <= size
    ensures start + size <= |tokens| ==> |w| == size
    ensures start <= |tokens| ==> start + |w| <= |tokens| && w == tokens[start..start + |w|]
  {
    if start >= |tokens| then []
    else if start + size < |tokens| then tokens[start..start + size]
    else tokens[start..]
  }

  lemma {:induction false} ChunksFromWindow(tokens: seq<string>, step: nat, size: nat, k: nat)
    requires step >= 1
    requires k < |ChunksFrom(tokens, 0, step, size)|
    ensures k * step < |tokens|
    ensures ChunksFrom(tokens, 0, step, size)[k] == Join(" ", Window(tokens, k * step, size))
  {
    ChunksFromAt(tokens, 0, step, size, k);
    JoinedSliceIsWindow(tokens, step, size, k, ChunksFrom(tokens, 0, step, size)[k]);
  }

  lemma JoinedSliceIsWindow(tokens: seq<string>, step: nat, size: nat, k: nat, c: string)
    requires k * step < |tokens|
    requires c == Join(" ", PySlice(tokens, 0 + k * step, 0 + k * step + size))
    ensures c == Join(" ", Window(tokens, k * step, size))
  {
    SliceIsWindow(tokens, k * step, size);
  }

  /** A slice starting inside the sequence is the window there. */
  lemma SliceIsWindow(tokens: seq<string>, start: nat, size: nat)
    requires start < |tokens|
    ensures PySlice(tokens, start, start + size) == Window(tokens, start, size)
  {
  }

  /** Chunk k is the space-join of tokens[k*step : k*step + chunk_size], so
      consecutive windows start exactly `step` tokens apart, every window has
      at most `chunk_size` tokens and only windows running past the end of
      the text are shorter. */
  lemma ChunkWindow(text: string, chunkSize: nat, overlap: int, k: nat)
    requires k < |ChunkText(text, chunkSize, overlap)|
    ensures k * StepSize(chunkSize, overlap) < |Split(text)|
    ensures ChunkText(text, chunkSize, overlap)[k] == Join(" ", Window(Split(text), k * StepSize(chunkSize, overlap), chunkSize))
  {
    ChunksFromWindow(Split(text), StepSize(chunkSize, overlap), chunkSize, k);
  }

  /** Token `j` lies in the window of one of the first `count` chunks. */
  predicate Covered(j: nat, count: nat, step: nat, size: int)
  {
    exists k :: 0 <= k < count && k * step <= j < k * step + size
  }

  /** The window of chunk `j / step` holds token `j`. */
  lemma WindowOf(j: nat, n: nat, step: nat, size: int)
    requires 1 <= step <= size && j < n
    ensures Covered(j, CeilDiv(n, step), step, size)
  {
    var k := j / step;
    assert j == k * step + j % step;
    DivShift(n - 1, step);
    DivMonotone(j, n - 1, step);
    assert k < CeilDiv(n, step) && k * step <= j < k * step + size;
  }

  lemma DivMonotone(x: int, y: int, d: int)
    requires 0 <= x <= y && d >= 1
    ensures x / d <= y / d
  {
    var qx, qy := x / d, y / d;
    assert x == qx * d + x % d && y == qy * d + y % d;
    if qx > qy {
      MulAtLeast(qx - qy, d);
    }
  }

  /** With a positive chunk size and a non-negative overlap every token lies
      in the window of some chunk. */
  lemma Coverage(text: string, chunkSize: int, overlap: int, j: nat)
    requires chunkSize >= 1 && overlap >= 0
    requires j < |Split(text)|
    ensures Covered(j, |ChunkText(text, chunkSize, overlap)|, StepSize(chunkSize, overlap), chunkSize)
  {
    var step := StepSize(chunkSize, overlap);
    ChunkCount(text, chunkSize, overlap);
    WindowOf(j, |Split(text)|, step, chunkSize);
  }

  /** The regression case of an overlap equal to the chunk size: 10 and 10
      give a step of 5. */
  lemma OverlapCorrection(chunkSize: int, overlap: int)
    requires chunkSize <= overlap
    ensures StepSize(chunkSize, overlap) == if chunkSize - chunkSize / 2 < 1 then 1 else chunkSize - chunkSize / 2
    ensures StepSize(10, 10) == 5
  {
  }

  /** A chunk size of 0 makes the overlap 0 and the step 1: one empty chunk
      per token. */
  lemma {:induction false} ZeroChunkSize(text: string, overlap: int)
    requires overlap >= 0
    ensures ChunkText(text, 0, overlap) == seq(|Split(text)|, _ => "")
  {
    var tokens := Split(text);
    assert StepSize(0, overlap) == 1;
    ZeroChunksFrom(tokens, 0);
  }

  lemma {:induction false} ZeroChunksFrom(tokens: seq<string>, start: nat)
    requires start <= |tokens|
    ensures ChunksFrom(tokens, start, 1, 0) == seq(|tokens| - start, _ => "")
    decreases |tokens| - start
  {
    if start < |tokens| {
      ZeroChunksFrom(tokens, start + 1);
      assert PySlice(tokens, start, start) == [];
    }
  }

  datatype DocFormat = Pdf | Docx | Pptx | Txt

  datatype ExtractError = UnsupportedFormat | ReaderFailed

  /** The reader `extract_text` picks from the lower-cased file name. */
  function FormatOf(path: string): (f: Option<DocFormat>)
    ensures f.None? <==> !(exists e :: e in DocExtensions && EndsWith(Lower(path), e))
  {
    var p := Lower(path);
    assert forall e :: e in DocExtensions <==> e == ".pdf" || e == ".docx" || e == ".pptx" || e == ".txt";
    if EndsWith(p, ".pdf") then assert ".pdf" in DocExtensions; Some(Pdf)
    else if EndsWith(p, ".docx") then assert ".docx" in DocExtensions; Some(Docx)
    else if EndsWith(p, ".pptx") then assert ".pptx" in DocExtensions; Some(Pptx)
    else if EndsWith(p, ".txt") then assert ".txt" in DocExtensions; Some(Txt)
    else None
  }

  /** `extract_text(file_path, chunk_size)`: `read(path)` is the full text the
      format's reader produces, or `None` when the reader raises. */
  function ExtractText(path: string, chunkSize: int, read: string -> Option<string>): (r: Result<seq<string>, ExtractError>)
    ensures r == Err(UnsupportedFormat) <==> FormatOf(path).None?
    ensures r == Err(ReaderFailed) <==> FormatOf(path).Some? && read(path).None?
    ensures r.Ok? ==> r.value == ChunkText(read(path).value, chunkSize, DefaultOverlap)
  {
    match FormatOf(path)
    case None => Err(UnsupportedFormat)
    case Some(_) =>
      match read(path)
      case None => Err(ReaderFailed)
      case Some(text) => Ok(ChunkText(text, chunkSize, DefaultOverlap))
  }
}
