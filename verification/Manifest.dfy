/**
 * The manifest of a bundle and its validator (internal/share/bundle/bundle.go). The validator
 * sorts the chunks by offset and walks them; what it decides is that the chunks cover every byte
 * before the manifest once and only once.
 */
module Manifest {
  import opened Bytes
  import opened Format
  import opened Sorting

  datatype Chunk = Chunk(index: int, offset: Int64, length: Int64, plaintextSize: Int64)
  datatype File = File(index: int, path: string, name: string, mime: string, size: Int64, chunks: seq<Chunk>)
  datatype Manifest = Manifest(version: int, bundleName: string, chunkSize: Int64, files: seq<File>)

  // ------------------------------------------------------ what a valid manifest is

  predicate HeaderOk(m: Manifest, manifestOffset: Int64, bundleSize: Int64) {
    && m.version == VERSION
    && m.chunkSize == CHUNK_SIZE
    && m.bundleName != ""
    && m.files != []
    && manifestOffset >= 0
    && Wrap64(manifestOffset + FOOTER_LENGTH) <= bundleSize
  }

  predicate ChunkShapeOk(c: Chunk, index: int) {
    && c.index == index
    && c.offset >= 0
    && 0 < c.plaintextSize <= CHUNK_SIZE
    && c.length == c.plaintextSize + RECORD_OVERHEAD
  }

  function PlaintextTotal(chunks: seq<Chunk>): int {
    if chunks == [] then 0 else PlaintextTotal(chunks[..|chunks| - 1]) + chunks[|chunks| - 1].plaintextSize
  }

  predicate FileOk(f: File, index: int) {
    && f.index == index
    && f.path != "" && f.name != ""
    && f.size >= 0
    && (forall i :: 0 <= i < |f.chunks| ==> ChunkShapeOk(f.chunks[i], i))
    && PlaintextTotal(f.chunks) == f.size
  }

  /** The chunks of all files, in file order. */
  function AllChunks(files: seq<File>): seq<Chunk> {
    if files == [] then [] else AllChunks(files[..|files| - 1]) + files[|files| - 1].chunks
  }

  /** How many of the chunks hold byte x of the bundle. */
  function Cover(chunks: seq<Chunk>, x: int): nat {
    if chunks == [] then 0
    else Cover(chunks[1..], x) + (if chunks[0].offset <= x < chunks[0].offset + chunks[0].length then 1 else 0)
  }

  ghost predicate CoverOnce(chunks: seq<Chunk>, from: int, to: int) {
    forall x :: Cover(chunks, x) == if from <= x < to then 1 else 0
  }

  ghost predicate Valid(m: Manifest, manifestOffset: Int64, bundleSize: Int64) {
    && HeaderOk(m, manifestOffset, bundleSize)
    && (forall i :: 0 <= i < |m.files| ==> FileOk(m.files[i], i))
    && CoverOnce(AllChunks(m.files), 0, manifestOffset)
  }

  // ------------------------------------------------------ sorting spans

  /** A chunk's first and last byte; last is what the 64-bit addition yields. */
  datatype Span = Span(start: Int64, end: Int64)

  function SpanOf(c: Chunk): Span {
    Span(c.offset, Wrap64(c.offset + c.length - 1))
  }

  function Spans(chunks: seq<Chunk>): (s: seq<Span>)
    ensures |s| == |chunks|
  {
    seq(|chunks|, i requires 0 <= i < |chunks| => SpanOf(chunks[i]))
  }

  function SpanCover(s: seq<Span>, x: int): nat {
    if s == [] then 0 else SpanCover(s[1..], x) + (if s[0].start <= x <= s[0].end then 1 else 0)
  }

  function StartOf(s: Span): int {
    s.start
  }

  lemma {:induction false} InsertCover(x: Span, s: seq<Span>, at: int)
    ensures SpanCover(Insert(StartOf, x, s), at) == SpanCover([x] + s, at)
  {
    if s == [] {
      assert [x] + s == [x];
    } else if x.start > s[0].start {
      InsertCover(x, s[1..], at);
      assert ([s[0]] + Insert(StartOf, x, s[1..]))[1..] == Insert(StartOf, x, s[1..]);
      assert ([x] + s)[1..] == s && ([x] + s[1..])[1..] == s[1..];
    }
  }

  lemma {:induction false} SortCover(s: seq<Span>, at: int)
    ensures SpanCover(Sort(StartOf, s), at) == SpanCover(s, at)
  {
    if s != [] {
      SortCover(s[1..], at);
      InsertCover(s[0], Sort(StartOf, s[1..]), at);
      assert ([s[0]] + Sort(StartOf, s[1..]))[1..] == Sort(StartOf, s[1..]);
    }
  }

  // ------------------------------------------------------ the walk

  /** The final walk: each span starts where the previous one ended, the last ends at to. */
  predicate Chained(s: seq<Span>, from: int, to: int) {
    if s == [] then from == to else s[0].start == from && Chained(s[1..], s[0].end + 1, to)
  }

  ghost predicate SpanCoverOnce(s: seq<Span>, from: int, to: int) {
    forall x :: SpanCover(s, x) == if from <= x < to then 1 else 0
  }

  lemma {:induction false} ChainCovers(s: seq<Span>, from: int, to: int)
    requires forall i :: 0 <= i < |s| ==> s[i].start <= s[i].end
    requires Chained(s, from, to)
    ensures from <= to
    ensures SpanCoverOnce(s, from, to)
  {
    if s != [] {
      ChainCovers(s[1..], s[0].end + 1, to);
    }
  }

  lemma {:induction false} BelowAllStarts(s: seq<Span>, x: int)
    requires forall i :: 0 <= i < |s| ==> x < s[i].start
    ensures SpanCover(s, x) == 0
  {
    if s != [] {
      BelowAllStarts(s[1..], x);
    }
  }

  lemma {:induction false} CoverChains(s: seq<Span>, from: int, to: int)
    requires SortedBy(StartOf, s) && from <= to
    requires forall i :: 0 <= i < |s| ==> s[i].start <= s[i].end
    requires SpanCoverOnce(s, from, to)
    ensures Chained(s, from, to)
  {
    if s == [] {
      assert SpanCover(s, from) == 0;
    } else {
      var first, rest := s[0], s[1..];
      assert SpanCover(s, first.start) >= 1 && SpanCover(s, first.end) >= 1;
      if first.start > from {
        BelowAllStarts(s, from);
      }
      forall x ensures SpanCover(rest, x) == if first.end + 1 <= x < to then 1 else 0 {
        assert SpanCover(s, x) == SpanCover(rest, x) + if first.start <= x <= first.end then 1 else 0;
      }
      CoverChains(rest, first.end + 1, to);
    }
  }

  /** A span whose last byte wrapped below zero breaks the walk, whatever follows it. */
  lemma {:induction false} WrappedBreaksChain(s: seq<Span>, from: int, to: int, x: Span)
    requires forall y :: y in s ==> y.start >= 0
    requires x in s && x.end < -1
    requires to >= 0
    ensures !Chained(s, from, to)
  {
    if s[0] != x {
      WrappedBreaksChain(s[1..], s[0].end + 1, to, x);
    }
  }

  // ------------------------------------------------------ the validator decides validity

  ghost predicate Shaped(chunks: seq<Chunk>) {
    forall i :: 0 <= i < |chunks| ==> ChunkShapeOk(chunks[i], chunks[i].index)
  }

  predicate Reaches(c: Chunk) {
    c.offset + c.length - 1 > MAX_INT64
  }

  lemma {:induction false} SpansCover(chunks: seq<Chunk>, x: int)
    requires Shaped(chunks)
    requires forall i :: 0 <= i < |chunks| ==> !Reaches(chunks[i])
    ensures SpanCover(Spans(chunks), x) == Cover(chunks, x)
  {
    if chunks != [] {
      SpansCover(chunks[1..], x);
      assert Spans(chunks)[1..] == Spans(chunks[1..]);
    }
  }

  lemma {:induction false} CoverAtLeast(chunks: seq<Chunk>, k: nat, x: int)
    requires k < |chunks|
    requires chunks[k].offset <= x < chunks[k].offset + chunks[k].length
    ensures Cover(chunks, x) >= 1
  {
    if k > 0 {
      CoverAtLeast(chunks[1..], k - 1, x);
    }
  }

  lemma WrappedEnd(c: Chunk)
    requires ChunkShapeOk(c, c.index) && Reaches(c)
    ensures SpanOf(c).end < -1
  {
  }

  lemma SpansStart(chunks: seq<Chunk>)
    requires Shaped(chunks)
    ensures forall y :: y in Spans(chunks) ==> y.start >= 0
  {
  }

  lemma WalkRejectsWrapped(chunks: seq<Chunk>, manifestOffset: Int64, k: nat)
    requires Shaped(chunks) && manifestOffset >= 0
    requires k < |chunks| && Reaches(chunks[k])
    ensures !Chained(Sort(StartOf, Spans(chunks)), 0, manifestOffset)
  {
    var spans := Spans(chunks);
    SortMembers(StartOf, spans);
    SpansStart(chunks);
    WrappedEnd(chunks[k]);
    assert spans[k] in spans;
    WrappedBreaksChain(Sort(StartOf, spans), 0, manifestOffset, spans[k]);
  }

  /** The decision over the spans, wrap-around included, is coverage once and only once. */
  lemma WalkDecidesCoverage(chunks: seq<Chunk>, manifestOffset: Int64)
    requires Shaped(chunks) && manifestOffset >= 0
    ensures CoverOnce(chunks, 0, manifestOffset) <==>
            (forall i :: 0 <= i < |chunks| ==> SpanOf(chunks[i]).end < manifestOffset)
            && Chained(Sort(StartOf, Spans(chunks)), 0, manifestOffset)
  {
    if k :| 0 <= k < |chunks| && Reaches(chunks[k]) {
      CoverAtLeast(chunks, k, chunks[k].offset + chunks[k].length - 1);
      WalkRejectsWrapped(chunks, manifestOffset, k);
    } else {
      WalkDecidesUnwrapped(chunks, manifestOffset);
    }
  }

  lemma SortedSpansCover(chunks: seq<Chunk>, x: int)
    requires Shaped(chunks)
    requires forall i :: 0 <= i < |chunks| ==> !Reaches(chunks[i])
    ensures SpanCover(Sort(StartOf, Spans(chunks)), x) == Cover(chunks, x)
  {
    SortCover(Spans(chunks), x);
    SpansCover(chunks, x);
  }

  lemma SortedSpansOrdered(chunks: seq<Chunk>)
    requires Shaped(chunks)
    requires forall i :: 0 <= i < |chunks| ==> !Reaches(chunks[i])
    ensures var sorted := Sort(StartOf, Spans(chunks));
            SortedBy(StartOf, sorted) && forall i :: 0 <= i < |sorted| ==> sorted[i].start <= sorted[i].end
  {
    var sorted := Sort(StartOf, Spans(chunks));
    SortSorts(StartOf, Spans(chunks));
    SortMembers(StartOf, Spans(chunks));
    SpansOrdered(chunks);
    forall i | 0 <= i < |sorted| ensures sorted[i].start <= sorted[i].end {
      assert sorted[i] in sorted;
    }
  }

  lemma SpansOrdered(chunks: seq<Chunk>)
    requires Shaped(chunks)
    requires forall i :: 0 <= i < |chunks| ==> !Reaches(chunks[i])
    ensures forall y :: y in Spans(chunks) ==> y.start <= y.end
  {
  }

  lemma WalkDecidesUnwrapped(chunks: seq<Chunk>, manifestOffset: Int64)
    requires Shaped(chunks) && manifestOffset >= 0
    requires forall i :: 0 <= i < |chunks| ==> !Reaches(chunks[i])
    ensures CoverOnce(chunks, 0, manifestOffset) <==>
            (forall i :: 0 <= i < |chunks| ==> SpanOf(chunks[i]).end < manifestOffset)
            && Chained(Sort(StartOf, Spans(chunks)), 0, manifestOffset)
  {
    var sorted := Sort(StartOf, Spans(chunks));
    SortedSpansOrdered(chunks);
    forall x ensures SpanCover(sorted, x) == Cover(chunks, x) {
      SortedSpansCover(chunks, x);
    }
    if CoverOnce(chunks, 0, manifestOffset) {
      CoverChains(sorted, 0, manifestOffset);
      forall i | 0 <= i < |chunks| ensures SpanOf(chunks[i]).end < manifestOffset {
        CoverAtLeast(chunks, i, SpanOf(chunks[i]).end);
      }
    } else if Chained(sorted, 0, manifestOffset) {
      ChainCovers(sorted, 0, manifestOffset);
    }
  }

  // ------------------------------------------------------ sums

  lemma WrapSum(a: int, b: int)
    ensures Wrap64(Wrap64(a) + b) == Wrap64(a + b)
  {
    var q := (a - Wrap64(a)) / TWO_POW_64;
    assert a == Wrap64(a) + q * TWO_POW_64;
    var q' := (Wrap64(a) + b - Wrap64(Wrap64(a) + b)) / TWO_POW_64;
    assert a + b == Wrap64(Wrap64(a) + b) + (q + q') * TWO_POW_64;
    var p := (a + b - Wrap64(a + b)) / TWO_POW_64;
    assert Wrap64(a + b) - Wrap64(Wrap64(a) + b) == (q + q' - p) * TWO_POW_64;
  }

  function SpanTotal(s: seq<Span>): int {
    if s == [] then 0 else SpanTotal(s[1..]) + s[0].end - s[0].start + 1
  }

  lemma {:induction false} ChainTotal(s: seq<Span>, from: int, to: int)
    requires Chained(s, from, to)
    ensures SpanTotal(s) == to - from
  {
    if s != [] {
      ChainTotal(s[1..], s[0].end + 1, to);
    }
  }

  lemma {:induction false} InsertTotal(x: Span, s: seq<Span>)
    ensures SpanTotal(Insert(StartOf, x, s)) == SpanTotal(s) + x.end - x.start + 1
  {
    if s != [] && x.start > s[0].start {
      InsertTotal(x, s[1..]);
      assert ([s[0]] + Insert(StartOf, x, s[1..]))[1..] == Insert(StartOf, x, s[1..]);
    } else {
      assert ([x] + s)[1..] == s;
    }
  }

  lemma {:induction false} SortTotal(s: seq<Span>)
    ensures SpanTotal(Sort(StartOf, s)) == SpanTotal(s)
  {
    if s != [] {
      SortTotal(s[1..]);
      InsertTotal(s[0], Sort(StartOf, s[1..]));
    }
  }

  lemma {:induction false} SpanTotalSnoc(s: seq<Span>, x: Span)
    ensures SpanTotal(s + [x]) == SpanTotal(s) + x.end - x.start + 1
  {
    if s != [] {
      assert (s + [x])[1..] == s[1..] + [x];
      SpanTotalSnoc(s[1..], x);
    }
  }

  lemma SpanTotalPrefix(s: seq<Span>, i: nat)
    requires i < |s|
    ensures SpanTotal(s[..i + 1]) == SpanTotal(s[..i]) + s[i].end - s[i].start + 1
  {
    assert s[..i + 1] == s[..i] + [s[i]];
    SpanTotalSnoc(s[..i], s[i]);
  }

  /** Chunks that end before the manifest hold at least their plaintext. */
  lemma {:induction false} PlaintextBelowSpans(chunks: seq<Chunk>)
    requires Shaped(chunks)
    requires forall i :: 0 <= i < |chunks| ==> !Reaches(chunks[i])
    ensures 0 <= PlaintextTotal(chunks) <= SpanTotal(Spans(chunks))
  {
    if chunks != [] {
      var n := |chunks| - 1;
      PlaintextBelowSpans(chunks[..n]);
      assert Spans(chunks) == Spans(chunks[..n]) + [SpanOf(chunks[n])];
      SpanTotalSnoc(Spans(chunks[..n]), SpanOf(chunks[n]));
    }
  }

  lemma {:induction false} PlaintextAppend(a: seq<Chunk>, b: seq<Chunk>)
    ensures PlaintextTotal(a + b) == PlaintextTotal(a) + PlaintextTotal(b)
  {
    if b == [] {
      assert a + b == a;
    } else {
      assert (a + b)[..|a + b| - 1] == a + b[..|b| - 1];
      PlaintextAppend(a, b[..|b| - 1]);
    }
  }

  lemma {:induction false} PlaintextNonNegative(chunks: seq<Chunk>)
    requires Shaped(chunks)
    ensures PlaintextTotal(chunks) >= 0
  {
    if chunks != [] {
      PlaintextNonNegative(chunks[..|chunks| - 1]);
    }
  }

  lemma ShapedParts(a: seq<Chunk>, b: seq<Chunk>)
    requires Shaped(a + b)
    ensures Shaped(a) && Shaped(b)
  {
    assert forall i :: 0 <= i < |a| ==> (a + b)[i] == a[i];
    assert forall i :: 0 <= i < |b| ==> (a + b)[|a| + i] == b[i];
  }

  lemma {:induction false} FileBelowAll(files: seq<File>, k: nat)
    requires k < |files| && Shaped(AllChunks(files))
    ensures Shaped(files[k].chunks)
    ensures PlaintextTotal(files[k].chunks) <= PlaintextTotal(AllChunks(files))
  {
    var n := |files| - 1;
    var before, last := AllChunks(files[..n]), files[n].chunks;
    assert AllChunks(files) == before + last;
    ShapedParts(before, last);
    PlaintextAppend(before, last);
    PlaintextNonNegative(before);
    PlaintextNonNegative(last);
    if k < n {
      FileBelowAll(files[..n], k);
    }
  }

  // ------------------------------------------------------ the validator as written

  /** What the loop over one file checks, with the sum in 64 bits. */
  predicate ChunkChecks(c: Chunk, index: int, manifestOffset: Int64) {
    ChunkShapeOk(c, index) && SpanOf(c).end < manifestOffset
  }

  predicate FileChecks(f: File, index: int, manifestOffset: Int64) {
    && f.index == index && f.path != "" && f.name != "" && f.size >= 0
    && (forall i :: 0 <= i < |f.chunks| ==> ChunkChecks(f.chunks[i], i, manifestOffset))
    && Wrap64(PlaintextTotal(f.chunks)) == f.size
    && !(f.size == 0 && f.chunks != [])
  }

  ghost predicate Accepts(m: Manifest, manifestOffset: Int64, bundleSize: Int64) {
    && HeaderOk(m, manifestOffset, bundleSize)
    && (forall i :: 0 <= i < |m.files| ==> FileChecks(m.files[i], i, manifestOffset))
    && Chained(Sort(StartOf, Spans(AllChunks(m.files))), 0, manifestOffset)
  }

  lemma {:induction false} AllChunksShaped(files: seq<File>, manifestOffset: Int64)
    requires forall i :: 0 <= i < |files| ==> FileChecks(files[i], i, manifestOffset)
    ensures Shaped(AllChunks(files))
    ensures forall i :: 0 <= i < |AllChunks(files)| ==> SpanOf(AllChunks(files)[i]).end < manifestOffset
  {
    if files != [] {
      AllChunksShaped(files[..|files| - 1], manifestOffset);
    }
  }

  lemma {:induction false} AllChunksShapedOk(files: seq<File>)
    requires forall i :: 0 <= i < |files| ==> FileOk(files[i], i)
    ensures Shaped(AllChunks(files))
    ensures forall i, j :: 0 <= i < |files| && 0 <= j < |files[i].chunks| ==> files[i].chunks[j] in AllChunks(files)
  {
    if files != [] {
      AllChunksShapedOk(files[..|files| - 1]);
    }
  }

  /** Covering [0, to) once leaves no room for a plaintext sum that wraps. */
  lemma CoverBoundsPlaintext(chunks: seq<Chunk>, to: Int64)
    requires Shaped(chunks) && to >= 0 && CoverOnce(chunks, 0, to)
    ensures 0 <= PlaintextTotal(chunks) <= to
  {
    WalkDecidesCoverage(chunks, to);
    if k :| 0 <= k < |chunks| && Reaches(chunks[k]) {
      CoverAtLeast(chunks, k, chunks[k].offset + chunks[k].length - 1);
    }
    PlaintextBelowSpans(chunks);
    SortTotal(Spans(chunks));
    ChainTotal(Sort(StartOf, Spans(chunks)), 0, to);
  }

  lemma {:induction false} PlaintextPositive(chunks: seq<Chunk>)
    requires Shaped(chunks) && chunks != []
    ensures PlaintextTotal(chunks) > 0
  {
    PlaintextNonNegative(chunks[..|chunks| - 1]);
  }

  lemma AcceptedIsValid(m: Manifest, manifestOffset: Int64, bundleSize: Int64)
    requires Accepts(m, manifestOffset, bundleSize)
    ensures Valid(m, manifestOffset, bundleSize)
  {
    AllChunksShaped(m.files, manifestOffset);
    WalkDecidesCoverage(AllChunks(m.files), manifestOffset);
    CoverBoundsPlaintext(AllChunks(m.files), manifestOffset);
    forall i | 0 <= i < |m.files| ensures FileOk(m.files[i], i) {
      FileBelowAll(m.files, i);
      PlaintextNonNegative(m.files[i].chunks);
    }
  }

  lemma ValidIsAccepted(m: Manifest, manifestOffset: Int64, bundleSize: Int64)
    requires Valid(m, manifestOffset, bundleSize)
    ensures Accepts(m, manifestOffset, bundleSize)
  {
    AllChunksShapedOk(m.files);
    WalkDecidesCoverage(AllChunks(m.files), manifestOffset);
    forall i | 0 <= i < |m.files| ensures FileChecks(m.files[i], i, manifestOffset) {
      var f := m.files[i];
      forall j | 0 <= j < |f.chunks| ensures SpanOf(f.chunks[j]).end < manifestOffset {
        assert f.chunks[j] in AllChunks(m.files);
      }
      if f.chunks != [] {
        PlaintextPositive(f.chunks);
      }
    }
  }

  lemma AcceptsExactlyValid(m: Manifest, manifestOffset: Int64, bundleSize: Int64)
    ensures Accepts(m, manifestOffset, bundleSize) <==> Valid(m, manifestOffset, bundleSize)
  {
    if Accepts(m, manifestOffset, bundleSize) {
      AcceptedIsValid(m, manifestOffset, bundleSize);
    } else if Valid(m, manifestOffset, bundleSize) {
      ValidIsAccepted(m, manifestOffset, bundleSize);
    }
  }

  // ------------------------------------------------------ what a reader may rely on

  predicate Holds(c: Chunk, x: int) {
    c.offset <= x < c.offset + c.length
  }

  lemma {:induction false} CoverNone(chunks: seq<Chunk>, x: int)
    ensures Cover(chunks, x) == 0 <==> forall k :: 0 <= k < |chunks| ==> !Holds(chunks[k], x)
  {
    if chunks != [] {
      CoverNone(chunks[1..], x);
      assert forall k :: 0 < k < |chunks| ==> chunks[k] == chunks[1..][k - 1];
      assert forall k :: 0 <= k < |chunks| - 1 ==> chunks[1..][k] == chunks[k + 1];
    }
  }

  ghost predicate HeldOnce(chunks: seq<Chunk>, x: int) {
    && (exists k :: 0 <= k < |chunks| && Holds(chunks[k], x))
    && forall k, l :: 0 <= k < |chunks| && 0 <= l < |chunks| && Holds(chunks[k], x) && Holds(chunks[l], x) ==> k == l
  }

  lemma {:induction false} CoverOneIsHeldOnce(chunks: seq<Chunk>, x: int)
    ensures Cover(chunks, x) == 1 <==> HeldOnce(chunks, x)
  {
    if chunks != [] {
      var rest := chunks[1..];
      assert forall k :: 0 < k < |chunks| ==> chunks[k] == rest[k - 1];
      if Holds(chunks[0], x) {
        CoverNone(rest, x);
        HeldByFirst(chunks, x);
      } else {
        CoverOneIsHeldOnce(rest, x);
        HeldByRest(chunks, x);
      }
    }
  }

  lemma HeldByFirst(chunks: seq<Chunk>, x: int)
    requires chunks != [] && Holds(chunks[0], x)
    ensures HeldOnce(chunks, x) <==> forall k :: 0 <= k < |chunks[1..]| ==> !Holds(chunks[1..][k], x)
  {
    var rest := chunks[1..];
    if HeldOnce(chunks, x) {
      forall k | 0 <= k < |rest| ensures !Holds(rest[k], x) {
        assert rest[k] == chunks[k + 1];
      }
    }
    assert forall k :: 0 < k < |chunks| ==> chunks[k] == rest[k - 1];
  }

  lemma HeldByRest(chunks: seq<Chunk>, x: int)
    requires chunks != [] && !Holds(chunks[0], x)
    ensures HeldOnce(chunks, x) <==> HeldOnce(chunks[1..], x)
  {
    var rest := chunks[1..];
    if HeldOnce(chunks, x) {
      var k :| 0 <= k < |chunks| && Holds(chunks[k], x);
      assert Holds(rest[k - 1], x);
      assert forall k :: 0 <= k < |rest| ==> rest[k] == chunks[k + 1];
    }
    if HeldOnce(rest, x) {
      var k :| 0 <= k < |rest| && Holds(rest[k], x);
      assert Holds(chunks[k + 1], x);
      assert forall k :: 0 < k < |chunks| ==> chunks[k] == rest[k - 1];
    }
  }

  /** Where file i's chunks begin in the list of all. */
  function ChunksBefore(files: seq<File>, i: nat): nat
    requires i <= |files|
  {
    |AllChunks(files[..i])|
  }

  lemma {:induction false} ChunkPosition(files: seq<File>, i: nat, j: nat)
    requires i < |files| && j < |files[i].chunks|
    ensures ChunksBefore(files, i) + j < |AllChunks(files)|
    ensures AllChunks(files)[ChunksBefore(files, i) + j] == files[i].chunks[j]
    ensures ChunksBefore(files, i) + |files[i].chunks| == ChunksBefore(files, i + 1)
    decreases |files|
  {
    assert files[..i + 1][..i] == files[..i];
    var n := |files| - 1;
    if i < n {
      ChunkPosition(files[..n], i, j);
      assert files[..n][..i] == files[..i];
    } else {
      assert files[..i + 1] == files;
    }
  }

  lemma {:induction false} ChunkOfPosition(files: seq<File>, k: nat) returns (i: nat, j: nat)
    requires k < |AllChunks(files)|
    ensures i < |files| && j < |files[i].chunks| && k == ChunksBefore(files, i) + j
  {
    var n := |files| - 1;
    if k < |AllChunks(files[..n])| {
      i, j := ChunkOfPosition(files[..n], k);
      assert files[..n][..i] == files[..i];
    } else {
      i, j := n, k - |AllChunks(files[..n])|;
    }
  }

  /** Chunk j of file i holds byte x of the bundle. */
  predicate HeldAt(files: seq<File>, i: nat, j: nat, x: int) {
    i < |files| && j < |files[i].chunks| && Holds(files[i].chunks[j], x)
  }

  ghost predicate ByteHeldOnce(files: seq<File>, x: int) {
    && (exists i: nat, j: nat :: HeldAt(files, i, j, x))
    && forall i: nat, j: nat, i': nat, j': nat ::
         HeldAt(files, i, j, x) && HeldAt(files, i', j', x) ==> i == i' && j == j'
  }

  /** A byte before to is in one chunk of one file, and another one in none. */
  ghost predicate ByteSaid(files: seq<File>, to: int, x: int) {
    if 0 <= x < to then ByteHeldOnce(files, x) else forall i: nat, j: nat :: !HeldAt(files, i, j, x)
  }

  lemma {:induction false} PositionsIncrease(files: seq<File>, i: nat, i': nat)
    requires i <= i' <= |files|
    ensures ChunksBefore(files, i) <= ChunksBefore(files, i')
  {
    if i < i' {
      PositionsIncrease(files, i, i' - 1);
      assert files[..i'][..i' - 1] == files[..i' - 1];
    }
  }

  lemma PositionsDiffer(files: seq<File>, i: nat, j: nat, i': nat, j': nat)
    requires i < |files| && j < |files[i].chunks| && i' < |files| && j' < |files[i'].chunks|
    requires ChunksBefore(files, i) + j == ChunksBefore(files, i') + j'
    ensures i == i' && j == j'
  {
    ChunkPosition(files, i, j);
    ChunkPosition(files, i', j');
    if i < i' {
      PositionsIncrease(files, i + 1, i');
    } else if i' < i {
      PositionsIncrease(files, i' + 1, i);
    }
  }

  lemma FilesHold(files: seq<File>, x: int)
    ensures HeldOnce(AllChunks(files), x) <==> ByteHeldOnce(files, x)
  {
    if HeldOnce(AllChunks(files), x) {
      HeldInFile(files, x);
    }
    if ByteHeldOnce(files, x) {
      HeldInList(files, x);
    }
  }

  lemma HeldInFile(files: seq<File>, x: int)
    requires HeldOnce(AllChunks(files), x)
    ensures ByteHeldOnce(files, x)
  {
    var all := AllChunks(files);
    var k :| 0 <= k < |all| && Holds(all[k], x);
    var i, j := ChunkOfPosition(files, k);
    ChunkPosition(files, i, j);
    assert HeldAt(files, i, j, x);
    forall i: nat, j: nat, i': nat, j': nat | HeldAt(files, i, j, x) && HeldAt(files, i', j', x)
      ensures i == i' && j == j'
    {
      ChunkPosition(files, i, j);
      ChunkPosition(files, i', j');
      PositionsDiffer(files, i, j, i', j');
    }
  }

  lemma HeldInList(files: seq<File>, x: int)
    requires ByteHeldOnce(files, x)
    ensures HeldOnce(AllChunks(files), x)
  {
    var all := AllChunks(files);
    var i: nat, j: nat :| HeldAt(files, i, j, x);
    ChunkPosition(files, i, j);
    forall k, l | 0 <= k < |all| && 0 <= l < |all| && Holds(all[k], x) && Holds(all[l], x) ensures k == l {
      var i, j := HeldPlace(files, k, x);
      var i', j' := HeldPlace(files, l, x);
    }
  }

  lemma HeldPlace(files: seq<File>, k: nat, x: int) returns (i: nat, j: nat)
    requires k < |AllChunks(files)| && Holds(AllChunks(files)[k], x)
    ensures HeldAt(files, i, j, x) && k == ChunksBefore(files, i) + j
  {
    i, j := ChunkOfPosition(files, k);
    ChunkPosition(files, i, j);
  }

  lemma FilesHoldNone(files: seq<File>, x: int)
    ensures Cover(AllChunks(files), x) == 0 <==> forall i: nat, j: nat :: !HeldAt(files, i, j, x)
  {
    var all := AllChunks(files);
    CoverNone(all, x);
    if i: nat, j: nat :| HeldAt(files, i, j, x) {
      ChunkPosition(files, i, j);
    }
    if k :| 0 <= k < |all| && Holds(all[k], x) {
      var i, j := ChunkOfPosition(files, k);
      ChunkPosition(files, i, j);
      assert HeldAt(files, i, j, x);
    }
  }

  /** One chunk as the format has it: numbered, at most 4 MiB of plaintext, and 40 bytes longer than that. */
  predicate ChunkSaid(c: Chunk, j: int) {
    c.index == j && 0 <= c.offset && 1 <= c.plaintextSize <= CHUNK_SIZE && c.length == c.plaintextSize + RECORD_OVERHEAD
  }

  /**
   * A manifest is valid exactly if its header is this format's, its files and chunks are numbered and shaped as said,
   * each file's plaintext adds up to its size, and every byte before the manifest is in one chunk of one file, and no
   * byte from there on in any.
   */
  lemma ValidExactly(m: Manifest, manifestOffset: Int64, bundleSize: Int64)
    ensures Valid(m, manifestOffset, bundleSize) <==>
            && m.version == VERSION && m.chunkSize == CHUNK_SIZE && m.bundleName != "" && m.files != []
            && 0 <= manifestOffset
            && (manifestOffset + FOOTER_LENGTH <= bundleSize
                || (manifestOffset + FOOTER_LENGTH > MAX_INT64
                    && manifestOffset + FOOTER_LENGTH - TWO_POW_64 <= bundleSize))
            && (forall i :: 0 <= i < |m.files| ==>
                  var f := m.files[i];
                  && f.index == i && f.path != "" && f.name != "" && 0 <= f.size == PlaintextTotal(f.chunks)
                  && forall j :: 0 <= j < |f.chunks| ==> ChunkSaid(f.chunks[j], j))
            && forall x :: ByteSaid(m.files, manifestOffset, x)
  {
    HeaderSaid(m, manifestOffset, bundleSize);
    FilesSaid(m.files);
    CoverSaid(m.files, manifestOffset);
  }

  lemma HeaderSaid(m: Manifest, manifestOffset: Int64, bundleSize: Int64)
    ensures HeaderOk(m, manifestOffset, bundleSize) <==>
            && m.version == VERSION && m.chunkSize == CHUNK_SIZE && m.bundleName != "" && m.files != []
            && 0 <= manifestOffset
            && (manifestOffset + FOOTER_LENGTH <= bundleSize
                || (manifestOffset + FOOTER_LENGTH > MAX_INT64
                    && manifestOffset + FOOTER_LENGTH - TWO_POW_64 <= bundleSize))
  {
  }

  lemma FilesSaid(files: seq<File>)
    ensures (forall i :: 0 <= i < |files| ==> FileOk(files[i], i)) <==>
            forall i :: 0 <= i < |files| ==>
              var f := files[i];
              && f.index == i && f.path != "" && f.name != "" && 0 <= f.size == PlaintextTotal(f.chunks)
              && forall j :: 0 <= j < |f.chunks| ==> ChunkSaid(f.chunks[j], j)
  {
    forall c: Chunk, j: int ensures ChunkShapeOk(c, j) <==> ChunkSaid(c, j) {
    }
  }

  lemma CoverSaid(files: seq<File>, to: int)
    ensures CoverOnce(AllChunks(files), 0, to) <==>
            forall x :: ByteSaid(files, to, x)
  {
    forall x ensures Cover(AllChunks(files), x) == (if 0 <= x < to then 1 else 0) <==> ByteSaid(files, to, x) {
      CoverOneIsHeldOnce(AllChunks(files), x);
      FilesHold(files, x);
      FilesHoldNone(files, x);
    }
  }

  lemma SpansAppend(a: seq<Chunk>, b: seq<Chunk>)
    ensures Spans(a + b) == Spans(a) + Spans(b)
  {
  }

  /** validate: nested loops over files and chunks, then the walk over the sorted spans. */
  method Validate(m: Manifest, manifestOffset: Int64, bundleSize: Int64) returns (ok: bool)
    ensures ok <==> Valid(m, manifestOffset, bundleSize)
  {
    AcceptsExactlyValid(m, manifestOffset, bundleSize);
    if !HeaderOk(m, manifestOffset, bundleSize) {
      return false;
    }
    var filesOk, spans := ValidateFiles(m.files, manifestOffset);
    if !filesOk {
      return false;
    }
    ok := Walk(Sort(StartOf, spans), manifestOffset);
  }

  method ValidateFiles(files: seq<File>, manifestOffset: Int64) returns (ok: bool, spans: seq<Span>)
    ensures ok <==> forall i :: 0 <= i < |files| ==> FileChecks(files[i], i, manifestOffset)
    ensures ok ==> spans == Spans(AllChunks(files))
  {
    spans := [];
    for fileIndex := 0 to |files|
      invariant spans == Spans(AllChunks(files[..fileIndex]))
      invariant forall i :: 0 <= i < fileIndex ==> FileChecks(files[i], i, manifestOffset)
    {
      var fileOk, fileSpans := ValidateFile(files[fileIndex], fileIndex, manifestOffset);
      if !fileOk {
        return false, spans;
      }
      spans := spans + fileSpans;
      assert files[..fileIndex + 1][..fileIndex] == files[..fileIndex];
      SpansAppend(AllChunks(files[..fileIndex]), files[fileIndex].chunks);
    }
    assert files[..|files|] == files;
    ok := true;
  }

  /** The wrapped sum and the spans of these chunks. */
  predicate Summed(chunks: seq<Chunk>, fileSize: Int64, spans: seq<Span>) {
    fileSize == Wrap64(PlaintextTotal(chunks)) && spans == Spans(chunks)
  }

  lemma NextTotal(chunks: seq<Chunk>, i: nat, fileSize: Int64, spans: seq<Span>)
    requires i < |chunks| && Summed(chunks[..i], fileSize, spans)
    ensures Summed(chunks[..i + 1], Wrap64(fileSize + chunks[i].plaintextSize), spans + [SpanOf(chunks[i])])
  {
    assert chunks[..i + 1][..i] == chunks[..i];
    WrapSum(PlaintextTotal(chunks[..i]), chunks[i].plaintextSize);
  }

  method ValidateFile(f: File, fileIndex: nat, manifestOffset: Int64) returns (ok: bool, spans: seq<Span>)
    ensures ok <==> FileChecks(f, fileIndex, manifestOffset)
    ensures ok ==> spans == Spans(f.chunks)
  {
    if f.index != fileIndex || f.path == "" || f.name == "" || f.size < 0 {
      return false, [];
    }
    var fileSize;
    ok, fileSize, spans := ValidateChunks(f.chunks, manifestOffset);
    if ok {
      ok := !(fileSize != f.size || (f.size == 0 && |f.chunks| != 0));
    }
  }

  /** Its loop over the chunks. */
  method ValidateChunks(chunks: seq<Chunk>, manifestOffset: Int64) returns (ok: bool, fileSize: Int64, spans: seq<Span>)
    ensures ok <==> forall i :: 0 <= i < |chunks| ==> ChunkChecks(chunks[i], i, manifestOffset)
    ensures ok ==> fileSize == Wrap64(PlaintextTotal(chunks)) && spans == Spans(chunks)
  {
    ok, fileSize, spans := true, 0, [];
    for chunkIndex := 0 to |chunks|
      invariant ok && Summed(chunks[..chunkIndex], fileSize, spans)
      invariant forall i :: 0 <= i < chunkIndex ==> ChunkChecks(chunks[i], i, manifestOffset)
    {
      var c := chunks[chunkIndex];
      var end := Wrap64(c.offset + c.length - 1);
      if !ChunkShapeOk(c, chunkIndex) || end >= manifestOffset {
        ok := false;
        return;
      }
      NextTotal(chunks, chunkIndex, fileSize, spans);
      spans := spans + [Span(c.offset, end)];
      fileSize := Wrap64(fileSize + c.plaintextSize);
    }
    assert chunks[..|chunks|] == chunks;
  }

  method Walk(spans: seq<Span>, manifestOffset: Int64) returns (ok: bool)
    ensures ok <==> Chained(spans, 0, manifestOffset)
  {
    var expected := 0;
    for i := 0 to |spans|
      invariant Chained(spans, 0, manifestOffset) <==> Chained(spans[i..], expected, manifestOffset)
    {
      if spans[i].start != expected {
        return false;
      }
      assert spans[i..][1..] == spans[i + 1..];
      expected := spans[i].end + 1;
    }
    ok := expected == manifestOffset;
  }
}
