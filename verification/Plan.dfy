/**
 * The layout of a bundle before it is encrypted (NewPlan in internal/share/bundle/bundle.go,
 * planBundle in web/frontend/src/lib/bundle.ts): files cut into 4 MiB records, back to back.
 */
module Plan {
  import opened Bytes
  import opened Format
  import opened Manifest

  const MAX_MANIFEST_BYTES := 256 * 1024
  const DEFAULT_TYPE := "application/octet-stream"

  datatype Source = Source(name: string, path: string, mime: string, data: Buffer)

  datatype Record = Record(fileIndex: nat, chunkIndex: nat, start: nat, end: nat,
                           offset: Int64, length: Int64, plaintextSize: Int64)

  datatype Plan = Plan(manifest: Manifest, manifestJson: Buffer, records: seq<Record>,
                       dataSize: Int64, encryptedManifestLength: Int64, totalSize: Int64)

  datatype PlanError = EmptyBundle | ManifestTooLarge

  /** JSON text of a manifest and back. */
  datatype Json = Json(encode: Manifest -> Buffer, decode: Buffer -> Option<Manifest>)

  ghost predicate InversePair(json: Json) {
    forall m :: json.encode(m) != [] && json.decode(json.encode(m)) == Some(m)
  }

  // ------------------------------------------------------ closed form of the layout

  function ChunkCount(size: nat): nat {
    (size + CHUNK_SIZE - 1) / CHUNK_SIZE
  }

  function EncryptedSize(size: nat): nat {
    size + ChunkCount(size) * RECORD_OVERHEAD
  }

  /** Where the records of source i begin; for i == |sources|, where the manifest begins. */
  function Base(sources: seq<Source>, i: nat): nat
    requires i <= |sources|
  {
    if i == 0 then 0 else Base(sources, i - 1) + EncryptedSize(|sources[i - 1].data|)
  }

  /** Sources whose bundle has a size a 64-bit signed integer can hold. */
  predicate Representable(sources: seq<Source>) {
    Base(sources, |sources|) <= MAX_INT64 / 2
  }

  function Plaintext(size: nat, k: nat): nat
    requires k < ChunkCount(size)
  {
    if (k + 1) * CHUNK_SIZE <= size then CHUNK_SIZE else size - k * CHUNK_SIZE
  }

  function RecordAt(file: nat, k: nat, size: nat, base: nat): Record
    requires k < ChunkCount(size) && base + EncryptedSize(size) <= MAX_INT64
  {
    var plaintext := Plaintext(size, k);
    Record(file, k, k * CHUNK_SIZE, k * CHUNK_SIZE + plaintext,
           base + k * (CHUNK_SIZE + RECORD_OVERHEAD), plaintext + RECORD_OVERHEAD, plaintext)
  }

  function FileRecords(file: nat, size: nat, base: nat, count: nat): (r: seq<Record>)
    requires count <= ChunkCount(size) && base + EncryptedSize(size) <= MAX_INT64
    ensures |r| == count
  {
    seq(count, k requires 0 <= k < count => RecordAt(file, k, size, base))
  }

  function ChunkOf(r: Record): Chunk {
    Chunk(r.chunkIndex, r.offset, r.length, r.plaintextSize)
  }

  function Chunks(records: seq<Record>): (c: seq<Chunk>)
    ensures |c| == |records|
  {
    seq(|records|, i requires 0 <= i < |records| => ChunkOf(records[i]))
  }

  lemma {:induction false} BaseIncreases(sources: seq<Source>, i: nat, j: nat)
    requires i <= j <= |sources|
    ensures Base(sources, i) <= Base(sources, j)
  {
    if i < j {
      BaseIncreases(sources, i, j - 1);
    }
  }

  function RecordsOf(sources: seq<Source>, i: nat): seq<Record>
    requires i < |sources| && Representable(sources)
  {
    BaseIncreases(sources, i + 1, |sources|);
    var size := |sources[i].data|;
    FileRecords(i, size, Base(sources, i), ChunkCount(size))
  }

  function AllRecords(sources: seq<Source>, n: nat): seq<Record>
    requires n <= |sources| && Representable(sources)
  {
    if n == 0 then [] else AllRecords(sources, n - 1) + RecordsOf(sources, n - 1)
  }

  function FileOf(sources: seq<Source>, i: nat): File
    requires i < |sources| && Representable(sources)
  {
    BaseIncreases(sources, i + 1, |sources|);
    var s := sources[i];
    File(i, if s.path == "" then s.name else s.path, s.name,
         if s.mime == "" then DEFAULT_TYPE else s.mime, |s.data|, Chunks(RecordsOf(sources, i)))
  }

  function FilesOf(sources: seq<Source>, n: nat): (f: seq<File>)
    requires n <= |sources| && Representable(sources)
    ensures |f| == n
  {
    seq(n, i requires 0 <= i < n => FileOf(sources, i))
  }

  function ManifestOf(sources: seq<Source>, bundleName: string): Manifest
    requires Representable(sources)
  {
    Manifest(VERSION, bundleName, CHUNK_SIZE, FilesOf(sources, |sources|))
  }

  function PlanOf(sources: seq<Source>, bundleName: string, json: Json): Result<Plan, PlanError>
    requires Representable(sources)
  {
    var manifest := ManifestOf(sources, bundleName);
    var manifestJson := json.encode(manifest);
    if sources == [] then Err(EmptyBundle)
    else if |manifestJson| > MAX_MANIFEST_BYTES then Err(ManifestTooLarge)
    else
      var dataSize := Base(sources, |sources|);
      Ok(Plan(manifest, manifestJson, AllRecords(sources, |sources|), dataSize,
              |manifestJson| + RECORD_OVERHEAD, dataSize + |manifestJson| + RECORD_OVERHEAD + FOOTER_LENGTH))
  }

  lemma ChunksSnoc(a: seq<Record>, r: Record)
    ensures Chunks(a + [r]) == Chunks(a) + [ChunkOf(r)]
  {
  }

  /** NewPlan: nested loops that carry the running offset. */
  method NewPlan(sources: seq<Source>, bundleName: string, json: Json) returns (r: Result<Plan, PlanError>)
    requires Representable(sources)
    ensures r == PlanOf(sources, bundleName, json)
  {
    if |sources| == 0 {
      return Err(EmptyBundle);
    }
    var offset: Int64 := 0;
    var records: seq<Record> := [];
    var files: seq<File> := [];
    for fileIndex := 0 to |sources|
      invariant offset == Base(sources, fileIndex)
      invariant records == AllRecords(sources, fileIndex)
      invariant files == FilesOf(sources, fileIndex)
    {
      var src := sources[fileIndex];
      var fileRecords, chunks;
      BaseIncreases(sources, fileIndex + 1, |sources|);
      fileRecords, chunks, offset := PlanFile(fileIndex, |src.data|, offset);
      records := records + fileRecords;
      var path := if src.path == "" then src.name else src.path;
      var mime := if src.mime == "" then DEFAULT_TYPE else src.mime;
      files := files + [File(fileIndex, path, src.name, mime, |src.data|, chunks)];
      SourcePlanned(sources, fileIndex);
    }
    var manifest := Manifest(VERSION, bundleName, CHUNK_SIZE, files);
    var manifestJson := json.encode(manifest);
    if |manifestJson| > MAX_MANIFEST_BYTES {
      return Err(ManifestTooLarge);
    }
    var encryptedManifestLength := |manifestJson| + RECORD_OVERHEAD;
    r := Ok(Plan(manifest, manifestJson, records, offset, encryptedManifestLength,
                 offset + encryptedManifestLength + FOOTER_LENGTH));
  }

  lemma SourcePlanned(sources: seq<Source>, i: nat)
    requires i < |sources| && Representable(sources)
    ensures FilesOf(sources, i + 1) == FilesOf(sources, i) + [FileOf(sources, i)]
    ensures AllRecords(sources, i + 1) == AllRecords(sources, i) + RecordsOf(sources, i)
  {
  }

  method PlanFile(fileIndex: nat, size: Int64, base: Int64)
    returns (records: seq<Record>, chunks: seq<Chunk>, offset: Int64)
    requires size >= 0 && base >= 0 && base + EncryptedSize(size) <= MAX_INT64 / 2
    ensures records == FileRecords(fileIndex, size, base, ChunkCount(size))
    ensures chunks == Chunks(records)
    ensures offset == base + EncryptedSize(size)
  {
    records, chunks, offset := [], [], base;
    var start, chunkIndex := 0, 0;
    while start < size
      invariant start == chunkIndex * CHUNK_SIZE
      invariant 0 <= chunkIndex <= ChunkCount(size) && (start < size <==> chunkIndex < ChunkCount(size))
      invariant offset == EndOf(size, base, chunkIndex)
      invariant records == FileRecords(fileIndex, size, base, chunkIndex)
      invariant chunks == Chunks(records)
      decreases size - start
    {
      NextRecord(fileIndex, size, base, chunkIndex);
      var end := if start + CHUNK_SIZE < size then start + CHUNK_SIZE else size;
      var plaintextSize := end - start;
      var length := plaintextSize + RECORD_OVERHEAD;
      ChunksSnoc(records, Record(fileIndex, chunkIndex, start, end, offset, length, plaintextSize));
      records := records + [Record(fileIndex, chunkIndex, start, end, offset, length, plaintextSize)];
      chunks := chunks + [Chunk(chunkIndex, offset, length, plaintextSize)];
      offset := offset + length;
      start, chunkIndex := start + CHUNK_SIZE, chunkIndex + 1;
    }
  }

  lemma NextRecord(file: nat, size: nat, base: nat, k: nat)
    requires k < ChunkCount(size) && base + EncryptedSize(size) <= MAX_INT64
    ensures FileRecords(file, size, base, k + 1) == FileRecords(file, size, base, k) + [RecordAt(file, k, size, base)]
    ensures var start := k * CHUNK_SIZE;
            var end := if start + CHUNK_SIZE < size then start + CHUNK_SIZE else size;
            && 0 < end - start <= CHUNK_SIZE
            && RecordAt(file, k, size, base)
                == Record(file, k, start, end, EndOf(size, base, k), end - start + RECORD_OVERHEAD, end - start)
            && EndOf(size, base, k + 1)
                == EndOf(size, base, k) + (end - start) + RECORD_OVERHEAD <= base + EncryptedSize(size)
    ensures (k + 1) * CHUNK_SIZE < size <==> k + 1 < ChunkCount(size)
  {
    RecordEnds(size, k, base);
    EndOfBounded(size, base, k + 1);
  }

  // ------------------------------------------------------ every planned manifest is valid

  lemma {:induction false} ChainAppend(a: seq<Span>, b: seq<Span>, from: int, mid: int, to: int)
    requires Chained(a, from, mid) && Chained(b, mid, to)
    ensures Chained(a + b, from, to)
  {
    if a == [] {
      assert a + b == b;
    } else {
      assert (a + b)[1..] == a[1..] + b;
      ChainAppend(a[1..], b, a[0].end + 1, mid, to);
    }
  }

  /** Where the first count records of a file end. */
  function EndOf(size: nat, base: nat, count: nat): nat {
    if count < ChunkCount(size) then base + count * (CHUNK_SIZE + RECORD_OVERHEAD) else base + EncryptedSize(size)
  }

  /** The k-th record begins where the ones before it end. */
  lemma RecordEnds(size: nat, k: nat, base: nat)
    requires k < ChunkCount(size)
    ensures 0 < Plaintext(size, k) <= CHUNK_SIZE
    ensures EndOf(size, base, k) == base + k * (CHUNK_SIZE + RECORD_OVERHEAD)
    ensures EndOf(size, base, k + 1) == EndOf(size, base, k) + Plaintext(size, k) + RECORD_OVERHEAD
    ensures k + 1 == ChunkCount(size) <==> k * CHUNK_SIZE + Plaintext(size, k) == size
    ensures k + 1 < ChunkCount(size) ==> Plaintext(size, k) == CHUNK_SIZE
  {
  }

  lemma EndOfBounded(size: nat, base: nat, k: nat)
    requires k <= ChunkCount(size)
    ensures EndOf(size, base, k) <= base + EncryptedSize(size)
  {
  }

  lemma RecordSpan(file: nat, k: nat, size: nat, base: nat)
    requires k < ChunkCount(size) && base + EncryptedSize(size) <= MAX_INT64
    ensures SpanOf(ChunkOf(RecordAt(file, k, size, base))) == Span(EndOf(size, base, k), EndOf(size, base, k + 1) - 1)
  {
    RecordEnds(size, k, base);
    EndOfBounded(size, base, k + 1);
  }

  lemma ChainOne(span: Span)
    ensures Chained([span], span.start, span.end + 1)
  {
    assert [span][1..] == [];
  }

  lemma {:induction false} FileChains(file: nat, size: nat, base: nat, count: nat)
    requires count <= ChunkCount(size) && base + EncryptedSize(size) <= MAX_INT64
    ensures Chained(Spans(Chunks(FileRecords(file, size, base, count))), base, EndOf(size, base, count))
  {
    if count > 0 {
      var k := count - 1;
      FileChains(file, size, base, k);
      var before, last := FileRecords(file, size, base, k), RecordAt(file, k, size, base);
      RecordSpan(file, k, size, base);
      var span := SpanOf(ChunkOf(last));
      ChainOne(span);
      ChainAppend(Spans(Chunks(before)), [span], base, span.start, span.end + 1);
      assert FileRecords(file, size, base, count) == before + [last];
      assert Spans(Chunks(before + [last])) == Spans(Chunks(before)) + [span];
    }
  }

  lemma ChunksAppend(a: seq<Record>, b: seq<Record>)
    ensures Chunks(a + b) == Chunks(a) + Chunks(b)
  {
  }

  lemma SourceChains(sources: seq<Source>, i: nat)
    requires i < |sources| && Representable(sources)
    ensures Chained(Spans(Chunks(RecordsOf(sources, i))), Base(sources, i), Base(sources, i + 1))
  {
    BaseIncreases(sources, i + 1, |sources|);
    var size := |sources[i].data|;
    FileChains(i, size, Base(sources, i), ChunkCount(size));
  }

  lemma {:induction false} PlanChains(sources: seq<Source>, n: nat)
    requires n <= |sources| && Representable(sources)
    ensures Chained(Spans(Chunks(AllRecords(sources, n))), 0, Base(sources, n))
  {
    if n > 0 {
      PlanChains(sources, n - 1);
      SourceJoins(sources, n - 1);
    }
  }

  lemma SourceJoins(sources: seq<Source>, i: nat)
    requires i < |sources| && Representable(sources)
    requires Chained(Spans(Chunks(AllRecords(sources, i))), 0, Base(sources, i))
    ensures Chained(Spans(Chunks(AllRecords(sources, i + 1))), 0, Base(sources, i + 1))
  {
    var before, last, from, to := AllRecords(sources, i), RecordsOf(sources, i), Base(sources, i), Base(sources, i + 1);
    assert AllRecords(sources, i + 1) == before + last;
    assert Chained(Spans(Chunks(last)), from, to) by {
      SourceChains(sources, i);
    }
    RecordsChain(before, last, 0, from, to);
  }

  lemma RecordsChain(a: seq<Record>, b: seq<Record>, from: int, mid: int, to: int)
    requires Chained(Spans(Chunks(a)), from, mid) && Chained(Spans(Chunks(b)), mid, to)
    ensures Chained(Spans(Chunks(a + b)), from, to)
  {
    ChunksAppend(a, b);
    SpansAppend(Chunks(a), Chunks(b));
    ChainAppend(Spans(Chunks(a)), Spans(Chunks(b)), from, mid, to);
  }

  lemma {:induction false} PlannedChunks(sources: seq<Source>, n: nat)
    requires n <= |sources| && Representable(sources)
    ensures AllChunks(FilesOf(sources, n)) == Chunks(AllRecords(sources, n))
  {
    if n > 0 {
      PlannedChunks(sources, n - 1);
      assert FilesOf(sources, n)[..n - 1] == FilesOf(sources, n - 1);
      ChunksAppend(AllRecords(sources, n - 1), RecordsOf(sources, n - 1));
    }
  }

  lemma {:induction false} FilePlaintext(file: nat, size: nat, base: nat, count: nat)
    requires count <= ChunkCount(size) && base + EncryptedSize(size) <= MAX_INT64
    ensures PlaintextTotal(Chunks(FileRecords(file, size, base, count))) ==
            if count < ChunkCount(size) then count * CHUNK_SIZE else size
  {
    if count > 0 {
      FilePlaintext(file, size, base, count - 1);
      PlaintextStep(file, size, base, count - 1);
      RecordEnds(size, count - 1, base);
    }
  }

  lemma PlaintextStep(file: nat, size: nat, base: nat, k: nat)
    requires k < ChunkCount(size) && base + EncryptedSize(size) <= MAX_INT64
    ensures PlaintextTotal(Chunks(FileRecords(file, size, base, k + 1))) ==
            PlaintextTotal(Chunks(FileRecords(file, size, base, k))) + Plaintext(size, k)
  {
    var chunks := Chunks(FileRecords(file, size, base, k + 1));
    assert chunks[..k] == Chunks(FileRecords(file, size, base, k));
  }

  lemma ChunkShape(file: nat, k: nat, size: nat, base: nat)
    requires k < ChunkCount(size) && base + EncryptedSize(size) <= MAX_INT64
    ensures ChunkShapeOk(ChunkOf(RecordAt(file, k, size, base)), k)
  {
    RecordEnds(size, k, base);
  }

  lemma PlannedFileOk(sources: seq<Source>, i: nat)
    requires i < |sources| && Representable(sources) && sources[i].name != ""
    ensures FileOk(FileOf(sources, i), i)
  {
    BaseIncreases(sources, i + 1, |sources|);
    var size, base := |sources[i].data|, Base(sources, i);
    FilePlaintext(i, size, base, ChunkCount(size));
    forall k | 0 <= k < ChunkCount(size) ensures ChunkShapeOk(FileOf(sources, i).chunks[k], k) {
      ChunkShape(i, k, size, base);
    }
  }

  predicate Named(sources: seq<Source>) {
    forall i :: 0 <= i < |sources| ==> sources[i].name != ""
  }

  /** What is planned for named files passes the reader's validator. */
  lemma PlannedManifestValid(sources: seq<Source>, bundleName: string, json: Json)
    requires Representable(sources) && Named(sources) && bundleName != ""
    requires PlanOf(sources, bundleName, json).Ok?
    ensures var plan := PlanOf(sources, bundleName, json).value;
            Valid(plan.manifest, plan.dataSize, plan.totalSize)
  {
    var plan := PlanOf(sources, bundleName, json).value;
    forall i | 0 <= i < |sources| ensures FileOk(plan.manifest.files[i], i) {
      PlannedFileOk(sources, i);
    }
    PlannedChunksCover(sources);
  }

  predicate RecordOk(sources: seq<Source>, r: Record) {
    && r.offset >= 0 && 0 < r.plaintextSize <= CHUNK_SIZE
    && r.length == r.plaintextSize + RECORD_OVERHEAD && r.offset + r.length <= MAX_INT64
    && r.fileIndex < |sources| && r.end <= |sources[r.fileIndex].data| && r.end - r.start == r.plaintextSize
  }

  lemma FileRecordOk(sources: seq<Source>, i: nat, k: nat)
    requires i < |sources| && Representable(sources) && k < |RecordsOf(sources, i)|
    ensures RecordOk(sources, RecordsOf(sources, i)[k])
  {
    BaseIncreases(sources, i + 1, |sources|);
    var size, base := |sources[i].data|, Base(sources, i);
    RecordEnds(size, k, base);
    EndOfBounded(size, base, k + 1);
  }

  lemma {:induction false} RecordsBounded(sources: seq<Source>, n: nat)
    requires n <= |sources| && Representable(sources)
    ensures forall i :: 0 <= i < |AllRecords(sources, n)| ==> RecordOk(sources, AllRecords(sources, n)[i])
  {
    if n > 0 {
      RecordsBounded(sources, n - 1);
      var last := RecordsOf(sources, n - 1);
      forall k | 0 <= k < |last| ensures RecordOk(sources, last[k]) {
        FileRecordOk(sources, n - 1, k);
      }
    }
  }

  lemma RecordsShaped(sources: seq<Source>, records: seq<Record>)
    requires forall i :: 0 <= i < |records| ==> RecordOk(sources, records[i])
    ensures Shaped(Chunks(records)) && forall i :: 0 <= i < |records| ==> !Reaches(Chunks(records)[i])
  {
  }

  lemma ChainedChunksCover(chunks: seq<Chunk>, to: int)
    requires Shaped(chunks) && forall i :: 0 <= i < |chunks| ==> !Reaches(chunks[i])
    requires Chained(Spans(chunks), 0, to)
    ensures CoverOnce(chunks, 0, to)
  {
    ChainCovers(Spans(chunks), 0, to);
    forall x ensures Cover(chunks, x) == SpanCover(Spans(chunks), x) {
      SpansCover(chunks, x);
    }
  }

  lemma PlannedChunksCover(sources: seq<Source>)
    requires Representable(sources)
    ensures CoverOnce(AllChunks(FilesOf(sources, |sources|)), 0, Base(sources, |sources|))
  {
    PlanChains(sources, |sources|);
    PlannedChunks(sources, |sources|);
    RecordsBounded(sources, |sources|);
    RecordsShaped(sources, AllRecords(sources, |sources|));
    ChainedChunksCover(Chunks(AllRecords(sources, |sources|)), Base(sources, |sources|));
  }

  // ------------------------------------------------------ the size estimate

  /** EstimateEncryptedSize: two running sums over the sizes. */
  method EstimateEncryptedSize(sources: seq<Source>) returns (estimate: int)
    ensures estimate == Base(sources, |sources|) + MAX_MANIFEST_BYTES + RECORD_OVERHEAD + FOOTER_LENGTH
  {
    var chunks, plaintext := 0, 0;
    for i := 0 to |sources|
      invariant plaintext + chunks * RECORD_OVERHEAD == Base(sources, i)
    {
      var size := |sources[i].data|;
      chunks := chunks + (size + CHUNK_SIZE - 1) / CHUNK_SIZE;
      plaintext := plaintext + size;
    }
    estimate := plaintext + chunks * RECORD_OVERHEAD + MAX_MANIFEST_BYTES + RECORD_OVERHEAD + FOOTER_LENGTH;
  }

  /** The estimate is never below the bundle and exceeds it by the unused manifest room only. */
  lemma EstimateBounds(sources: seq<Source>, bundleName: string, json: Json)
    requires Representable(sources) && PlanOf(sources, bundleName, json).Ok?
    ensures var plan := PlanOf(sources, bundleName, json).value;
            var estimate := Base(sources, |sources|) + MAX_MANIFEST_BYTES + RECORD_OVERHEAD + FOOTER_LENGTH;
            plan.totalSize == estimate - (MAX_MANIFEST_BYTES - |plan.manifestJson|) <= estimate
  {
  }
}
