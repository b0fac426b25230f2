/**
 * The whole way of a secret's bytes: planned, sealed, split into parts, reassembled by the server,
 * located again through footer and manifest, and read back through coalesced ranges.
 */
module RoundTrip {
  import opened Bytes
  import opened Format
  import opened Manifest
  import opened Plan
  import opened Partition
  import opened Delivery
  import opened Reader
  import opened RangeHeader

  // ------------------------------------------------------ planned files are readable

  lemma {:induction false} RecordPosition(sources: seq<Source>, n: nat, i: nat, j: nat)
    requires i < n <= |sources| && Representable(sources) && j < |RecordsOf(sources, i)|
    ensures |AllRecords(sources, i)| + j < |AllRecords(sources, n)|
    ensures AllRecords(sources, n)[|AllRecords(sources, i)| + j] == RecordsOf(sources, i)[j]
  {
    if i < n - 1 {
      RecordPosition(sources, n - 1, i, j);
    }
  }

  lemma MiddleSlice(a: Buffer, b: Buffer, rest: Buffer)
    ensures (a + b + rest)[|a|..|a| + |b|] == b
  {
  }

  lemma PieceSlice(pieces: seq<Buffer>, tail: Buffer, n: nat)
    requires n < |pieces|
    ensures var at, whole := |Flatten(pieces[..n])|, Flatten(pieces) + tail;
            at + |pieces[n]| <= |whole| && whole[at..at + |pieces[n]|] == pieces[n]
  {
    assert pieces == pieces[..n] + [pieces[n]] + pieces[n + 1..];
    FlattenAppend(pieces[..n] + [pieces[n]], pieces[n + 1..]);
    FlattenSnoc(pieces[..n], pieces[n]);
    MiddleSlice(Flatten(pieces[..n]), pieces[n], Flatten(pieces[n + 1..]) + tail);
    assert Flatten(pieces) + tail == Flatten(pieces[..n]) + pieces[n] + (Flatten(pieces[n + 1..]) + tail);
  }

  lemma SealedPiece(c: Crypto, sources: seq<Source>, records: seq<Record>, tail: Buffer, n: nat)
    requires Lawful(c) && AllRead(sources, records) && n < |records|
    ensures var sealed, r := Sealed(c, sources, records), records[n];
            var at, whole := |Flatten(sealed[..n])|, Flatten(sealed) + tail;
            && Reads(sources, r) && |SealRecord(c, sources, r, n)| == r.length > 0
            && at + r.length <= |whole| && whole[at..at + r.length] == SealRecord(c, sources, r, n)
  {
    assert Reads(sources, records[n]);
    PieceSlice(Sealed(c, sources, records), tail, n);
  }

  /** The n-th sealed record sits at the n-th planned offset. */
  lemma RecordBytes(blob: Buffer, c: Crypto, sources: seq<Source>, plan: Plan, json: Json, n: nat)
    requires Lawful(c) && PlanFor(plan, sources, json) && AllRead(sources, plan.records)
    requires Tail(c, plan.manifestJson, |plan.records|).Ok? && blob == Bundle(c, sources, plan) && n < |plan.records|
    ensures var r := plan.records[n];
            && 0 <= r.offset < r.offset + r.length <= |blob| && Reads(sources, r)
            && blob[r.offset..r.offset + r.length] == SealRecord(c, sources, r, n)
  {
    RecordOffsets(c, sources, plan, json, n);
    SealedPiece(c, sources, plan.records, Tail(c, plan.manifestJson, |plan.records|).value, n);
  }

  lemma PlannedChunk(sources: seq<Source>, i: nat, j: nat)
    requires i < |sources| && Representable(sources) && j < |FileOf(sources, i).chunks|
    ensures var chunks, r := FileOf(sources, i).chunks, RecordsOf(sources, i)[j];
            && chunks[j] == ChunkOf(r) && ChunkShapeOk(chunks[j], j)
            && r.fileIndex == i && r.chunkIndex == j
            && r.start == PlaintextTotal(chunks[..j]) && r.end == r.start + r.plaintextSize <= |sources[i].data|
            && (j + 1 < |chunks| ==> r.plaintextSize == CHUNK_SIZE)
            && (j > 0 ==> chunks[j].offset == chunks[j - 1].offset + chunks[j - 1].length)
  {
    BaseIncreases(sources, i + 1, |sources|);
    var size, base := |sources[i].data|, Base(sources, i);
    var chunks := FileOf(sources, i).chunks;
    ChunkShape(i, j, size, base);
    FilePlaintext(i, size, base, j);
    assert chunks[..j] == Chunks(FileRecords(i, size, base, j));
    RecordEnds(size, j, base);
    if j > 0 {
      RecordEnds(size, j - 1, base);
    }
  }

  lemma OpensTo(c: Crypto, sources: seq<Source>, r: Record, n: nat)
    requires Lawful(c) && Reads(sources, r)
    ensures c.open(ChunkAad(r.fileIndex, r.chunkIndex, r.plaintextSize), SealRecord(c, sources, r, n))
            == Some(sources[r.fileIndex].data[r.start..r.end])
  {
  }

  lemma ReadableFrom(blob: Buffer, c: Crypto, file: File, data: Buffer, j: nat, r: Record)
    requires j < |file.chunks| && file.chunks[j] == ChunkOf(r) && ChunkShapeOk(file.chunks[j], j)
    requires r.start == PlaintextTotal(file.chunks[..j]) && 0 <= r.start && r.end == r.start + r.plaintextSize <= |data|
    requires j + 1 < |file.chunks| ==> r.plaintextSize == CHUNK_SIZE
    requires j > 0 ==> file.chunks[j].offset == file.chunks[j - 1].offset + file.chunks[j - 1].length
    requires r.offset + r.length <= |blob| && r.chunkIndex == j
    requires c.open(ChunkAad(file.index, j, r.plaintextSize), blob[r.offset..r.offset + r.length])
             == Some(data[r.start..r.end])
    ensures ReadableChunk(blob, c, file, data, j)
  {
  }

  lemma PlannedPosition(sources: seq<Source>, plan: Plan, json: Json, i: nat, j: nat)
    requires PlanFor(plan, sources, json) && i < |sources| && j < |RecordsOf(sources, i)|
    ensures var n := |AllRecords(sources, i)| + j;
            n < |plan.records| && plan.records[n] == RecordsOf(sources, i)[j] && Reads(sources, plan.records[n])
  {
    RecordPosition(sources, |sources|, i, j);
    PlanReads(plan, sources, json);
  }

  /** Record j of file i opens to its slice of the source. */
  lemma PlannedRecord(blob: Buffer, c: Crypto, sources: seq<Source>, plan: Plan, json: Json, i: nat, j: nat)
    requires Lawful(c) && PlanFor(plan, sources, json) && AllRead(sources, plan.records)
    requires Tail(c, plan.manifestJson, |plan.records|).Ok? && blob == Bundle(c, sources, plan)
    requires i < |sources| && j < |RecordsOf(sources, i)|
    ensures var r := RecordsOf(sources, i)[j];
            && 0 <= r.offset < r.offset + r.length <= |blob| && Reads(sources, r)
            && c.open(ChunkAad(r.fileIndex, r.chunkIndex, r.plaintextSize), blob[r.offset..r.offset + r.length])
               == Some(sources[r.fileIndex].data[r.start..r.end])
  {
    PlannedPosition(sources, plan, json, i, j);
    RecordOpens(blob, c, sources, plan, json, |AllRecords(sources, i)| + j);
  }

  lemma RecordOpens(blob: Buffer, c: Crypto, sources: seq<Source>, plan: Plan, json: Json, n: nat)
    requires Lawful(c) && PlanFor(plan, sources, json) && AllRead(sources, plan.records)
    requires Tail(c, plan.manifestJson, |plan.records|).Ok? && blob == Bundle(c, sources, plan) && n < |plan.records|
    ensures var r := plan.records[n];
            && 0 <= r.offset < r.offset + r.length <= |blob| && Reads(sources, r)
            && c.open(ChunkAad(r.fileIndex, r.chunkIndex, r.plaintextSize), blob[r.offset..r.offset + r.length])
               == Some(sources[r.fileIndex].data[r.start..r.end])
  {
    RecordBytes(blob, c, sources, plan, json, n);
    OpensTo(c, sources, plan.records[n], n);
  }

  lemma PlannedChunkReadable(blob: Buffer, c: Crypto, sources: seq<Source>, plan: Plan, json: Json, i: nat, j: nat)
    requires Lawful(c) && PlanFor(plan, sources, json) && AllRead(sources, plan.records)
    requires Tail(c, plan.manifestJson, |plan.records|).Ok? && blob == Bundle(c, sources, plan)
    requires i < |sources| && j < |FileOf(sources, i).chunks|
    ensures ReadableChunk(blob, c, FileOf(sources, i), sources[i].data, j)
  {
    var r := RecordsOf(sources, i)[j];
    PlannedChunk(sources, i, j);
    PlannedRecord(blob, c, sources, plan, json, i, j);
    ReadableFrom(blob, c, FileOf(sources, i), sources[i].data, j, r);
  }

  /** Every file of a bundle is readable from the bundle's bytes, as its source's bytes. */
  lemma PlannedFileReadable(blob: Buffer, c: Crypto, sources: seq<Source>, plan: Plan, json: Json, i: nat)
    requires IsBundle(blob, c, sources, plan, json) && i < |sources|
    ensures |plan.manifest.files| == |sources|
    ensures Readable(blob, c, plan.manifest.files[i], sources[i].data)
  {
    var file := FileOf(sources, i);
    forall j | 0 <= j < |file.chunks| ensures ReadableChunk(blob, c, file, sources[i].data, j) {
      PlannedChunkReadable(blob, c, sources, plan, json, i, j);
    }
    BaseIncreases(sources, i + 1, |sources|);
    var size := |sources[i].data|;
    FilePlaintext(i, size, Base(sources, i), ChunkCount(size));
  }

  // ------------------------------------------------------ what a dishonest server can do

  /** Every planned record is some file's, at its own index. */
  lemma {:induction false} RecordHome(sources: seq<Source>, n: nat, at: nat) returns (i: nat, j: nat)
    requires n <= |sources| && Representable(sources) && at < |AllRecords(sources, n)|
    ensures i < n && j < |RecordsOf(sources, i)| && AllRecords(sources, n)[at] == RecordsOf(sources, i)[j]
    ensures AllRecords(sources, n)[at].fileIndex == i && AllRecords(sources, n)[at].chunkIndex == j
  {
    var before := |AllRecords(sources, n - 1)|;
    if at < before {
      i, j := RecordHome(sources, n - 1, at);
    } else {
      i, j := n - 1, at - before;
      PlannedChunk(sources, i, j);
    }
  }

  /** What was sealed as a chunk of file i is that chunk's bytes. */
  lemma SealedChunk(sources: seq<Source>, plan: Plan, json: Json, i: nat, k: nat, plain: Buffer)
    requires PlanFor(plan, sources, json) && i < |sources| && k < |FileOf(sources, i).chunks|
    requires var chunk := FileOf(sources, i).chunks[k];
             SealedUnder(ChunkAad(i, chunk.index, chunk.plaintextSize), plain, sources, plan)
    ensures plain == PlainRange(FileOf(sources, i).chunks, sources[i].data, k, k + 1)
  {
    var chunks := FileOf(sources, i).chunks;
    PlannedChunk(sources, i, k);
    var n: nat :| SealedRecordIs(n, ChunkAad(i, chunks[k].index, chunks[k].plaintextSize), plain, sources, plan);
    var _, _ := RecordHome(sources, |sources|, n);
    PlaintextNext(chunks, k);
  }

  lemma UnforgedGenuine(b: Buffer, c: Crypto, sources: seq<Source>, plan: Plan, json: Json, i: nat)
    requires PlanFor(plan, sources, json) && i < |sources| && Unforged(b, c, sources, plan)
    ensures Genuine(b, c, FileOf(sources, i), sources[i].data)
  {
    var file, data := FileOf(sources, i), sources[i].data;
    forall k | 0 <= k < |file.chunks| ensures OpensOnlyTo(b, c, file, data, k) {
      var aad := ChunkAad(file.index, file.chunks[k].index, file.chunks[k].plaintextSize);
      forall from: nat, to: nat | from <= to <= |b| && c.open(aad, b[from..to]).Some?
        ensures c.open(aad, b[from..to]).value == PlainRange(file.chunks, data, k, k + 1)
      {
        SealedChunk(sources, plan, json, i, k, c.open(aad, b[from..to]).value);
      }
    }
  }

  /** A server that forges nothing answers no other bytes for a planned file than its own. */
  lemma PlannedFileGenuine(fetch: RangeFetcher, c: Crypto, sources: seq<Source>, plan: Plan, json: Json, i: nat)
    requires PlanFor(plan, sources, json) && i < |sources| && ForgesNothing(fetch, c, sources, plan)
    ensures plan.manifest.files == FilesOf(sources, |sources|)
    ensures Sized(plan.manifest.files[i].chunks, sources[i].data)
    ensures AnswersGenuine(fetch, c, plan.manifest.files[i], sources[i].data)
  {
    FileSized(sources, i);
    forall start, end | fetch(start, end).Ok?
      ensures Genuine(fetch(start, end).value, c, FileOf(sources, i), sources[i].data)
    {
      UnforgedGenuine(fetch(start, end).value, c, sources, plan, json, i);
    }
  }

  lemma FileSized(sources: seq<Source>, i: nat)
    requires i < |sources| && Representable(sources)
    ensures Sized(FileOf(sources, i).chunks, sources[i].data)
  {
    BaseIncreases(sources, i + 1, |sources|);
    var size, base := |sources[i].data|, Base(sources, i);
    FilePlaintext(i, size, base, ChunkCount(size));
    forall k | 0 <= k < ChunkCount(size) ensures FileOf(sources, i).chunks[k].plaintextSize >= 0 {
      PlannedChunk(sources, i, k);
    }
  }

  // ------------------------------------------------------ reading everything back

  /** Open's read path: fetcher, manifest, then each file. */
  method OpenBundle(fetch: RangeFetcher, c: Crypto, json: Json, bundleSize: Int64,
                    ghost blob: Buffer, ghost sources: seq<Source>, ghost plan: Plan)
    returns (r: Result<Opened, ReadError>)
    ensures IsBundle(blob, c, sources, plan, json) && Serves(fetch, blob) && bundleSize == |blob| ==>
              r.Ok? && Restores(r.value, sources, plan.manifest.bundleName)
    ensures PlanFor(plan, sources, json) && ForgesNothing(fetch, c, sources, plan) && r.Ok? ==>
              Restores(r.value, sources, plan.manifest.bundleName)
  {
    ghost var unforged := PlanFor(plan, sources, json) && ForgesNothing(fetch, c, sources, plan);
    ghost var planned := IsBundle(blob, c, sources, plan, json) && Serves(fetch, blob) && bundleSize == |blob|;
    if planned {
      BundleEnd(blob, c, sources, plan, json);
    }
    var cached := CachingFetcher(fetch, bundleSize, blob, c, sources, plan);
    if cached.Err? {
      return Err(cached.error);
    }
    var manifest := ReadManifest(cached.value, c, json, bundleSize, blob, sources, plan);
    if manifest.Err? {
      return Err(manifest.error);
    }
    var files := manifest.value.files;
    if unforged {
      OnlyPlannedLocated(manifest.value, cached.value, c, json, bundleSize, sources, plan);
      PlannedDescribed(sources, plan, json);
      forall i | 0 <= i < |sources|
        ensures Sized(files[i].chunks, sources[i].data)
        ensures AnswersGenuine(cached.value, c, files[i], sources[i].data)
      {
        PlannedFileGenuine(cached.value, c, sources, plan, json, i);
      }
    }
    if planned {
      forall i | 0 <= i < |sources| ensures |files| == |sources| && Readable(blob, c, files[i], sources[i].data) {
        PlannedFileReadable(blob, c, sources, plan, json, i);
      }
    }
    var contents := OpenFiles(cached.value, c, files, blob, sources);
    if planned {
      PlannedDescribed(sources, plan, json);
    }
    if contents.Err? {
      return Err(contents.error);
    }
    r := Ok(Opened(manifest.value, contents.value));
  }

  /** What opening finds: the manifest, and the content of each of its files. */
  datatype Opened = Opened(manifest: Manifest, contents: seq<Buffer>)

  /** The file is described as the sharer gave it, with the defaults for what was not given. */
  predicate Describes(file: File, source: Source) {
    && file.name == source.name && file.size == |source.data|
    && (source.path != "" ==> file.path == source.path) && (source.path == "" ==> file.path == source.name)
    && (source.mime != "" ==> file.mime == source.mime)
    && (source.mime == "" ==> file.mime == "application/octet-stream")
  }

  lemma PlannedDescribed(sources: seq<Source>, plan: Plan, json: Json)
    requires PlanFor(plan, sources, json)
    ensures |plan.manifest.files| == |sources|
    ensures forall i :: 0 <= i < |sources| ==> Describes(plan.manifest.files[i], sources[i])
  {
  }

  /** Name, number, order, description and content of what was shared. */
  ghost predicate Restores(opening: Opened, sources: seq<Source>, bundleName: string) {
    && opening.manifest.bundleName == bundleName
    && |opening.contents| == |opening.manifest.files| == |sources|
    && forall i :: 0 <= i < |sources| ==>
         Describes(opening.manifest.files[i], sources[i]) && opening.contents[i] == sources[i].data
  }

  method OpenFiles(fetch: RangeFetcher, c: Crypto, files: seq<File>, ghost blob: Buffer, ghost sources: seq<Source>)
    returns (r: Result<seq<Buffer>, ReadError>)
    ensures && Serves(fetch, blob) && |files| == |sources|
            && (forall i :: 0 <= i < |sources| ==> Readable(blob, c, files[i], sources[i].data))
            ==> r.Ok? && |r.value| == |sources| && forall i :: 0 <= i < |sources| ==> r.value[i] == sources[i].data
    ensures (&& |files| == |sources|
             && forall i :: 0 <= i < |sources| ==>
                  Sized(files[i].chunks, sources[i].data) && AnswersGenuine(fetch, c, files[i], sources[i].data))
            ==> r.Ok? ==> |r.value| == |sources| && forall i :: 0 <= i < |sources| ==> r.value[i] == sources[i].data
  {
    ghost var genuine := && |files| == |sources|
                         && forall i :: 0 <= i < |sources| ==>
                              && Sized(files[i].chunks, sources[i].data)
                              && AnswersGenuine(fetch, c, files[i], sources[i].data);
    ghost var planned := && Serves(fetch, blob) && |files| == |sources|
                         && forall i :: 0 <= i < |sources| ==> Readable(blob, c, files[i], sources[i].data);
    var written: seq<Buffer> := [];
    for i := 0 to |files|
      invariant |written| == i
      invariant planned || genuine ==> forall k :: 0 <= k < i ==> written[k] == sources[k].data
    {
      ghost var data := if planned || genuine then sources[i].data else [];
      var content, _ := DecryptFile(fetch, c, files[i], blob, data);
      if content.Err? {
        return Err(content.error);
      }
      written := written + [content.value];
    }
    r := Ok(written);
  }

  datatype Failure = TooLargeToShare | NotPlanned(plan: PlanError) | NotSealed | NotStored | NotRead

  /**
   * Share, serve, open. The parts may arrive in any order and more than once; what comes out is what
   * went in.
   */
  method ShareAndOpen(sources: seq<Source>, bundleName: string, c: Crypto, json: Json, web: bool,
                      arrival: seq<nat>, etag: Buffer -> string, readAt: nat -> nat)
    returns (r: Result<Opened, Failure>)
    requires Lawful(c) && InversePair(json)
    requires Named(sources) && bundleName != "" && Representable(sources)
    ensures r.Ok? ==> Restores(r.value, sources, bundleName)
    ensures r.Ok? <==> Shareable(sources, bundleName, json) && Complete(arrival, c, sources, bundleName, json)
  {
    var estimate := EstimateEncryptedSize(sources);
    if estimate > MAX_FILE_SIZE {
      return Err(TooLargeToShare);
    }
    var planned := NewPlan(sources, bundleName, json);
    if planned.Err? {
      return Err(NotPlanned(planned.error));
    }
    var plan := planned.value;
    PlannedIsBundle(c, sources, bundleName, json);
    var blob := Store(sources, plan, c, json, web, arrival, etag, readAt);
    if blob.Err? {
      return Err(blob.error);
    }
    r := OpenStored(blob.value, c, json, sources, plan);
  }

  lemma PlannedIsBundle(c: Crypto, sources: seq<Source>, bundleName: string, json: Json)
    requires Lawful(c) && InversePair(json) && Representable(sources) && Named(sources) && bundleName != ""
    requires PlanOf(sources, bundleName, json).Ok?
    ensures var plan := PlanOf(sources, bundleName, json).value;
            && PlanFor(plan, sources, json) && AllRead(sources, plan.records)
            && Tail(c, plan.manifestJson, |plan.records|).Ok?
            && IsBundle(Bundle(c, sources, plan), c, sources, plan, json)
  {
    var plan := PlanOf(sources, bundleName, json).value;
    assert PlanFor(plan, sources, json);
    PlannedManifestValid(sources, bundleName, json);
    BundleSize(c, sources, plan, json);
  }

  /** One client's upload of a plan, as it ends in storage. */
  method Store(sources: seq<Source>, plan: Plan, c: Crypto, ghost json: Json, web: bool, arrival: seq<nat>,
               etag: Buffer -> string, readAt: nat -> nat)
    returns (r: Result<Buffer, Failure>)
    requires Lawful(c) && PlanFor(plan, sources, json) && plan.totalSize <= MAX_FILE_SIZE
    ensures AllRead(sources, plan.records) && Tail(c, plan.manifestJson, |plan.records|).Ok?
    ensures r == if Covers(arrival, |PartsOf(c, sources, plan, PART_SIZE)|) then Ok(Bundle(c, sources, plan))
            else Err(NotStored)
  {
    ghost var parts := PlannedDelivery(c, sources, plan, json);
    var emitted;
    if web {
      emitted := EncryptAndQueueParts(plan, sources, c, PART_SIZE, json);
    } else {
      emitted := Upload(plan, sources, c, PART_SIZE, json);
    }
    if emitted.Err? {
      return Err(NotSealed);
    }
    var sent := emitted.value;
    if !Covers(arrival, |sent|) {
      return Err(NotStored);
    }
    var arrived := Arrive(sent, arrival);
    var stored := ServeUpload(plan.totalSize, arrived, c, etag, readAt, parts, sent);
    r := if stored.Err? then Err(NotStored) else Ok(stored.value);
  }

  function Server(blob: Buffer): RangeFetcher
    requires |blob| <= MAX_INT64
  {
    (start: Int64, end: Int64) => ServeRange(blob, start, end)
  }

  lemma ServerServes(blob: Buffer)
    requires |blob| <= MAX_INT64
    ensures Serves(Server(blob), blob)
  {
    forall start: Int64, end: Int64 | Servable(start, end, |blob|)
      ensures Server(blob)(start, end) == Ok(blob[start..end + 1])
    {
      RangeServed(blob, start, end);
    }
  }

  /** A stored bundle, fetched and opened. */
  method OpenStored(blob: Buffer, c: Crypto, json: Json, ghost sources: seq<Source>, ghost plan: Plan)
    returns (r: Result<Opened, Failure>)
    requires IsBundle(blob, c, sources, plan, json)
    ensures r.Ok? && Restores(r.value, sources, plan.manifest.bundleName)
  {
    ServerServes(blob);
    var content := OpenBundle(Server(blob), c, json, |blob|, blob, sources, plan);
    if content.Err? {
      return Err(NotRead);
    }
    r := Ok(content.value);
  }

  /** An arrival order: indices of parts, each part at least once. */
  predicate Covers(arrival: seq<nat>, count: nat) {
    && (forall k :: 0 <= k < |arrival| ==> arrival[k] < count)
    && (forall n :: 0 <= n < count ==> n in arrival)
  }

  function Arrive(sent: seq<SentPart>, arrival: seq<nat>): (arrived: seq<SentPart>)
    requires Covers(arrival, |sent|)
    ensures forall p :: p in arrived <==> p in sent
  {
    var arrived := seq(|arrival|, k requires 0 <= k < |arrival| => sent[arrival[k]]);
    assert forall p :: p in sent ==> p in arrived by {
      forall p | p in sent ensures p in arrived {
        var n :| 0 <= n < |sent| && sent[n] == p;
        assert n in arrival;
        var k :| 0 <= k < |arrival| && arrival[k] == n;
        assert arrived[k] == p;
      }
    }
    arrived
  }

  /** What Share checks before it uploads anything. */
  ghost predicate Shareable(sources: seq<Source>, bundleName: string, json: Json)
    requires Representable(sources)
  {
    && sources != []
    && Base(sources, |sources|) + MAX_MANIFEST_BYTES + RECORD_OVERHEAD + FOOTER_LENGTH <= MAX_FILE_SIZE
    && |json.encode(ManifestOf(sources, bundleName))| <= MAX_MANIFEST_BYTES
  }

  /** Every part of the bundle arrives. */
  ghost predicate Complete(arrival: seq<nat>, c: Crypto, sources: seq<Source>, bundleName: string, json: Json)
    requires Representable(sources)
  {
    PlanOf(sources, bundleName, json).Ok? ==>
      var plan := PlanOf(sources, bundleName, json).value;
      && AllRead(sources, plan.records) && Tail(c, plan.manifestJson, |plan.records|).Ok?
      && Covers(arrival, |PartsOf(c, sources, plan, PART_SIZE)|)
  }
}
