/**
 * Reading a bundle back (internal/share/bundle/reader.go): a small bundle is fetched once, the
 * footer locates the manifest, and neighbouring records of a file are fetched together.
 */
module Reader {
  import opened Bytes
  import opened Format
  import opened Manifest
  import opened Plan
  import opened Partition
  import opened RangeHeader
  import Footer

  const COALESCE_BYTES := 16 * 1024 * 1024
  const SMALL_BUNDLE_BYTES := 1024 * 1024

  datatype ReadError = RangeMismatch | FetchFailed | InvalidFooter | TooLarge | InvalidManifest | DecryptFailed
    | SliceOutOfRange // Go's run-time panic

  /** Reads the bundle bytes from start to end, both inclusive. */
  type RangeFetcher = (Int64, Int64) -> Result<Buffer, ReadError>

  /** A range request as it travels: written by the client, read and served by the server. */
  function ServeRange(blob: Buffer, start: Int64, end: Int64): Result<Buffer, ReadError>
    requires |blob| <= MAX_INT64
  {
    ServeHeader(blob, FormatRange(start, end))
  }

  function ServeHeader(blob: Buffer, header: string): Result<Buffer, ReadError>
    requires |blob| <= MAX_INT64
  {
    OnlyServable(header, |blob|);
    match ParseBoundedRange(header, |blob|)
    case Err(_) => Err(FetchFailed)
    case Ok((first, last)) => Ok(blob[first..last + 1])
  }

  lemma HeaderServed(blob: Buffer, header: string, start: Int64, end: Int64)
    requires |blob| <= MAX_INT64 && Servable(start, end, |blob|)
             && ParseBoundedRange(header, |blob|) == Ok((start, end))
    ensures ServeHeader(blob, header) == Ok(blob[start..end + 1])
  {
  }

  lemma RangeServed(blob: Buffer, start: Int64, end: Int64)
    requires |blob| <= MAX_INT64 && Servable(start, end, |blob|)
    ensures ServeRange(blob, start, end) == Ok(blob[start..end + 1])
  {
    RangeRoundTrip(start, end, |blob|);
    HeaderServed(blob, FormatRange(start, end), start, end);
  }

  /** The fetcher answers every servable range with the bytes of blob. */
  ghost predicate Serves(fetch: RangeFetcher, blob: Buffer) {
    forall start: Int64, end: Int64 :: Servable(start, end, |blob|) ==> fetch(start, end) == Ok(blob[start..end + 1])
  }

  /** The sharer sealed this plaintext under this associated value: the manifest, or a planned record's slice. */
  ghost predicate SealedUnder(aad: Aad, plain: Buffer, sources: seq<Source>, plan: Plan) {
    match aad
    case ManifestAad => plain == plan.manifestJson
    case ChunkAad(fileIndex, chunkIndex, size) => exists n: nat :: SealedRecordIs(n, aad, plain, sources, plan)
  }

  ghost predicate SealedRecordIs(n: nat, aad: Aad, plain: Buffer, sources: seq<Source>, plan: Plan) {
    && n < |plan.records| && Reads(sources, plan.records[n])
    && var r := plan.records[n];
    aad == ChunkAad(r.fileIndex, r.chunkIndex, r.plaintextSize) && plain == sources[r.fileIndex].data[r.start..r.end]
  }

  /** Bytes in which no part opens to anything but what the sharer sealed under that value: no forgeries. */
  ghost predicate Unforged(b: Buffer, c: Crypto, sources: seq<Source>, plan: Plan) {
    forall from: nat, to: nat, aad :: from <= to <= |b| && c.open(aad, b[from..to]).Some? ==>
      SealedUnder(aad, c.open(aad, b[from..to]).value, sources, plan)
  }

  /** A server that answers whatever it likes, short of forging records. */
  ghost predicate ForgesNothing(fetch: RangeFetcher, c: Crypto, sources: seq<Source>, plan: Plan) {
    forall start, end :: fetch(start, end).Ok? ==> Unforged(fetch(start, end).value, c, sources, plan)
  }

  lemma PartUnforged(b: Buffer, c: Crypto, sources: seq<Source>, plan: Plan, from: nat, to: nat)
    requires Unforged(b, c, sources, plan) && from <= to <= |b|
    ensures Unforged(b[from..to], c, sources, plan)
  {
    forall i: nat, j: nat, aad | i <= j <= to - from && c.open(aad, b[from..to][i..j]).Some?
      ensures SealedUnder(aad, c.open(aad, b[from..to][i..j]).value, sources, plan)
    {
      SliceOfSlice(b, from, to, from + i, from + j);
    }
  }

  method CachingFetcher(fetch: RangeFetcher, bundleSize: Int64, ghost blob: Buffer, c: Crypto,
                        ghost sources: seq<Source>, ghost plan: Plan)
    returns (r: Result<RangeFetcher, ReadError>)
    ensures Serves(fetch, blob) && bundleSize == |blob| > 0 ==> r.Ok? && Serves(r.value, blob)
    ensures ForgesNothing(fetch, c, sources, plan) && r.Ok? ==> ForgesNothing(r.value, c, sources, plan)
  {
    if bundleSize > SMALL_BUNDLE_BYTES {
      return Ok(fetch);
    }
    var answer := fetch(0, Wrap64(bundleSize - 1));
    if answer.Err? {
      return Err(FetchFailed);
    }
    var whole := answer.value;
    if |whole| != bundleSize {
      return Err(RangeMismatch);
    }
    assert Serves(fetch, blob) && bundleSize == |blob| > 0 ==> whole == blob[0..|blob|] == blob;
    var cached := (start: Int64, end: Int64) =>
      if start < 0 || end >= bundleSize || end < start then Err(RangeMismatch) else Ok(whole[start..end + 1]);
    if ForgesNothing(fetch, c, sources, plan) {
      forall start: Int64, end: Int64 | cached(start, end).Ok?
        ensures Unforged(cached(start, end).value, c, sources, plan)
      {
        PartUnforged(whole, c, sources, plan, start, end + 1);
      }
    }
    r := Ok(cached);
  }

  // ------------------------------------------------------ the manifest

  /** blob is the bundle of these sources under this plan. */
  ghost predicate IsBundle(blob: Buffer, c: Crypto, sources: seq<Source>, plan: Plan, json: Json) {
    && Lawful(c) && PlanFor(plan, sources, json)
    && AllRead(sources, plan.records) && Tail(c, plan.manifestJson, |plan.records|).Ok?
    && blob == Bundle(c, sources, plan) && |blob| == plan.totalSize
    && Valid(plan.manifest, plan.dataSize, plan.totalSize)
  }

  lemma TwoTails(whole: Buffer, a: Buffer, b: Buffer, d: Buffer)
    requires whole == a + (b + d)
    ensures |whole| == |a| + |b| + |d| && whole[|a|..|a| + |b|] == b && whole[|whole| - |d|..] == d
  {
  }

  lemma TailParses(c: Crypto, manifestJson: Buffer, n: nat)
    requires Lawful(c) && 0 < |manifestJson| <= MAX_MANIFEST_BYTES
    ensures var sealed := c.seal(n, ManifestAad, manifestJson);
            var trailer := Footer.EncodeFooter(Footer.Footer(|sealed|, c.sha256(sealed)));
            && |sealed| == |manifestJson| + RECORD_OVERHEAD && trailer.Ok? && |trailer.value| == FOOTER_LENGTH
            && Tail(c, manifestJson, n) == Ok(sealed + trailer.value)
            && Footer.ParseFooter(trailer.value) == Ok(Footer.Footer(|sealed|, c.sha256(sealed)))
  {
    var sealed := c.seal(n, ManifestAad, manifestJson);
    Footer.ParseInvertsEncode(Footer.Footer(|sealed|, c.sha256(sealed)));
  }

  lemma BundleParts(c: Crypto, sources: seq<Source>, plan: Plan, json: Json)
    requires Lawful(c) && PlanFor(plan, sources, json)
    requires AllRead(sources, plan.records) && Tail(c, plan.manifestJson, |plan.records|).Ok?
    ensures var sealed := c.seal(|plan.records|, ManifestAad, plan.manifestJson);
            var trailer := Footer.EncodeFooter(Footer.Footer(|sealed|, c.sha256(sealed)));
            && |sealed| == plan.encryptedManifestLength > RECORD_OVERHEAD && trailer.Ok?
            && |trailer.value| == FOOTER_LENGTH
            && |Flatten(Sealed(c, sources, plan.records))| == plan.dataSize
            && Bundle(c, sources, plan) == Flatten(Sealed(c, sources, plan.records)) + (sealed + trailer.value)
            && Footer.ParseFooter(trailer.value) == Ok(Footer.Footer(|sealed|, c.sha256(sealed)))
  {
    PlanReads(plan, sources, json);
    BundleSize(c, sources, plan, json);
    TailParses(c, plan.manifestJson, |plan.records|);
  }

  /** Where the footer and the sealed manifest are in a bundle. */
  lemma BundleEnd(blob: Buffer, c: Crypto, sources: seq<Source>, plan: Plan, json: Json)
    requires Lawful(c) && PlanFor(plan, sources, json)
    requires AllRead(sources, plan.records) && Tail(c, plan.manifestJson, |plan.records|).Ok?
    requires blob == Bundle(c, sources, plan)
    ensures var sealed := c.seal(|plan.records|, ManifestAad, plan.manifestJson);
            && |sealed| == plan.encryptedManifestLength > RECORD_OVERHEAD
            && 0 <= plan.dataSize && plan.dataSize + |sealed| + FOOTER_LENGTH == |blob|
            && blob[plan.dataSize..plan.dataSize + |sealed|] == sealed
            && Footer.ParseFooter(blob[|blob| - FOOTER_LENGTH..]) == Ok(Footer.Footer(|sealed|, c.sha256(sealed)))
  {
    BundleParts(c, sources, plan, json);
    var sealed := c.seal(|plan.records|, ManifestAad, plan.manifestJson);
    EndRead(blob, Flatten(Sealed(c, sources, plan.records)), sealed,
            Footer.EncodeFooter(Footer.Footer(|sealed|, c.sha256(sealed))).value,
            Footer.Footer(|sealed|, c.sha256(sealed)));
  }

  lemma EndRead(blob: Buffer, data: Buffer, sealed: Buffer, trailer: Buffer, footer: Footer.Footer)
    requires blob == data + (sealed + trailer) && |trailer| == FOOTER_LENGTH
             && Footer.ParseFooter(trailer) == Ok(footer)
    ensures |data| + |sealed| + FOOTER_LENGTH == |blob| && blob[|data|..|data| + |sealed|] == sealed
    ensures Footer.ParseFooter(blob[|blob| - FOOTER_LENGTH..]) == Ok(footer)
  {
    TwoTails(blob, data, sealed, trailer);
  }

  /** The footer in the last bytes that the fetcher answers with. */
  function FetchedFooter(fetch: RangeFetcher, bundleSize: Int64): Result<Footer.Footer, ReadError> {
    if bundleSize < FOOTER_LENGTH then Err(InvalidFooter)
    else
      match fetch(bundleSize - FOOTER_LENGTH, bundleSize - 1)
      case Err(_) => Err(FetchFailed)
      case Ok(trailer) =>
        match Footer.ParseFooter(trailer)
        case Err(_) => Err(InvalidFooter)
        case Ok(footer) => Ok(footer)
  }

  /** The bytes the footer points at have its length and hash and open to this manifest, valid at that place. */
  ghost predicate Located(m: Manifest, footer: Footer.Footer, fetch: RangeFetcher, c: Crypto, json: Json,
                          bundleSize: Int64)
    requires bundleSize >= FOOTER_LENGTH && footer.manifestLength > RECORD_OVERHEAD
  {
    var length := footer.manifestLength;
    var offset := bundleSize - FOOTER_LENGTH - length;
    && length <= MAX_MANIFEST_BYTES + RECORD_OVERHEAD && 0 <= offset
    && var encrypted := fetch(offset, offset + length - 1);
    && encrypted.Ok? && |encrypted.value| == length && c.sha256(encrypted.value) == footer.manifestSha256
    && var plaintext := c.open(ManifestAad, encrypted.value);
    plaintext.Some? && json.decode(plaintext.value) == Some(m) && Valid(m, offset, bundleSize)
  }

  /** ReadManifest: footer, manifest bytes, hash, decryption, decoding, validation. */
  method ReadManifest(fetch: RangeFetcher, c: Crypto, json: Json, bundleSize: Int64,
                      ghost blob: Buffer, ghost sources: seq<Source>, ghost plan: Plan)
    returns (r: Result<Manifest, ReadError>)
    ensures forall m :: r == Ok(m) <==>
              && bundleSize >= FOOTER_LENGTH && FetchedFooter(fetch, bundleSize).Ok?
              && Located(m, FetchedFooter(fetch, bundleSize).value, fetch, c, json, bundleSize)
    ensures IsBundle(blob, c, sources, plan, json) && Serves(fetch, blob) && bundleSize == |blob| ==>
              r == Ok(plan.manifest)
  {
    if IsBundle(blob, c, sources, plan, json) && Serves(fetch, blob) && bundleSize == |blob| {
      PlannedLocated(fetch, c, json, blob, sources, plan);
    }
    if bundleSize < FOOTER_LENGTH {
      return Err(InvalidFooter);
    }
    var trailer := fetch(bundleSize - FOOTER_LENGTH, bundleSize - 1);
    if trailer.Err? {
      return Err(FetchFailed);
    }
    var footer := Footer.ParseFooter(trailer.value);
    if footer.Err? {
      return Err(InvalidFooter);
    }
    r := ReadManifestAt(fetch, c, json, bundleSize, footer.value);
  }

  /** Without forgeries no other manifest is found, wherever a footer points. */
  lemma OnlyPlannedLocated(m: Manifest, fetch: RangeFetcher, c: Crypto, json: Json, bundleSize: Int64,
                           sources: seq<Source>, plan: Plan)
    requires PlanFor(plan, sources, json) && ForgesNothing(fetch, c, sources, plan)
    requires bundleSize >= FOOTER_LENGTH && FetchedFooter(fetch, bundleSize).Ok?
    requires Located(m, FetchedFooter(fetch, bundleSize).value, fetch, c, json, bundleSize)
    ensures m == plan.manifest
  {
    PlannedJson(plan, sources, json);
    var footer := FetchedFooter(fetch, bundleSize).value;
    var offset := bundleSize - FOOTER_LENGTH - footer.manifestLength;
    var encrypted := fetch(offset, offset + footer.manifestLength - 1).value;
    assert encrypted[0..|encrypted|] == encrypted;
    assert SealedUnder(ManifestAad, c.open(ManifestAad, encrypted).value, sources, plan);
  }

  lemma PlannedLocated(fetch: RangeFetcher, c: Crypto, json: Json, blob: Buffer, sources: seq<Source>, plan: Plan)
    requires IsBundle(blob, c, sources, plan, json) && Serves(fetch, blob)
    ensures |blob| >= FOOTER_LENGTH && FetchedFooter(fetch, |blob|).Ok?
    ensures Located(plan.manifest, FetchedFooter(fetch, |blob|).value, fetch, c, json, |blob|)
  {
    BundleEnd(blob, c, sources, plan, json);
    PlannedJson(plan, sources, json);
    var sealed := c.seal(|plan.records|, ManifestAad, plan.manifestJson);
    TrailerFetched(fetch, blob, Footer.Footer(|sealed|, c.sha256(sealed)));
    SealedLocated(fetch, c, json, blob, plan.manifest, plan.dataSize, |plan.records|);
  }

  lemma PlannedJson(plan: Plan, sources: seq<Source>, json: Json)
    requires PlanFor(plan, sources, json)
    ensures plan.manifestJson == json.encode(plan.manifest) && 0 < |plan.manifestJson| <= MAX_MANIFEST_BYTES
  {
  }

  lemma TrailerFetched(fetch: RangeFetcher, blob: Buffer, footer: Footer.Footer)
    requires Serves(fetch, blob) && FOOTER_LENGTH <= |blob| <= MAX_INT64
    requires Footer.ParseFooter(blob[|blob| - FOOTER_LENGTH..]) == Ok(footer)
    ensures FetchedFooter(fetch, |blob|) == Ok(footer)
  {
    assert Servable(|blob| - FOOTER_LENGTH, |blob| - 1, |blob|);
    assert blob[|blob| - FOOTER_LENGTH..|blob|] == blob[|blob| - FOOTER_LENGTH..];
  }

  lemma SealedLocated(fetch: RangeFetcher, c: Crypto, json: Json, blob: Buffer, m: Manifest, offset: Int64, n: nat)
    requires offset >= 0 && Lawful(c) && InversePair(json) && Serves(fetch, blob) && |blob| <= MAX_INT64
             && Valid(m, offset, |blob|)
    requires 0 < |json.encode(m)| <= MAX_MANIFEST_BYTES
    requires var sealed := c.seal(n, ManifestAad, json.encode(m));
             && |sealed| == |json.encode(m)| + RECORD_OVERHEAD
             && offset + |sealed| + FOOTER_LENGTH == |blob| && blob[offset..offset + |sealed|] == sealed
    ensures var sealed := c.seal(n, ManifestAad, json.encode(m));
            Located(m, Footer.Footer(|sealed|, c.sha256(sealed)), fetch, c, json, |blob|)
  {
    var sealed := c.seal(n, ManifestAad, json.encode(m));
    assert Servable(offset, offset + |sealed| - 1, |blob|);
    assert fetch(offset, offset + |sealed| - 1) == Ok(sealed);
  }

  method ReadManifestAt(fetch: RangeFetcher, c: Crypto, json: Json, bundleSize: Int64, footer: Footer.Footer)
    returns (r: Result<Manifest, ReadError>)
    requires bundleSize >= FOOTER_LENGTH && footer.manifestLength > RECORD_OVERHEAD
    ensures forall m :: r == Ok(m) <==> Located(m, footer, fetch, c, json, bundleSize)
  {
    if footer.manifestLength > MAX_MANIFEST_BYTES + RECORD_OVERHEAD {
      return Err(TooLarge);
    }
    var manifestOffset := bundleSize - FOOTER_LENGTH - footer.manifestLength;
    if manifestOffset < 0 {
      return Err(InvalidFooter);
    }
    var encrypted := fetch(manifestOffset, manifestOffset + footer.manifestLength - 1);
    if encrypted.Err? {
      return Err(FetchFailed);
    }
    if |encrypted.value| != footer.manifestLength {
      return Err(RangeMismatch);
    }
    if c.sha256(encrypted.value) != footer.manifestSha256 {
      return Err(InvalidManifest);
    }
    var plaintext := c.open(ManifestAad, encrypted.value);
    if plaintext.None? {
      return Err(DecryptFailed);
    }
    var manifest := json.decode(plaintext.value);
    if manifest.None? {
      return Err(InvalidManifest);
    }
    var ok := Validate(manifest.value, manifestOffset, bundleSize);
    if !ok {
      return Err(InvalidManifest);
    }
    r := Ok(manifest.value);
  }

  // ------------------------------------------------------ files

  /** Chunk j of the file: its place in the blob and the plaintext it opens to. */
  ghost predicate ReadableChunk(blob: Buffer, c: Crypto, file: File, data: Buffer, j: nat)
    requires j < |file.chunks|
  {
    var chunk, start := file.chunks[j], PlaintextTotal(file.chunks[..j]);
    && ChunkShapeOk(chunk, j)
    && chunk.offset + chunk.length <= |blob|
    && (j + 1 < |file.chunks| ==> chunk.plaintextSize == CHUNK_SIZE)
    && (j > 0 ==> chunk.offset == file.chunks[j - 1].offset + file.chunks[j - 1].length)
    && 0 <= start && start + chunk.plaintextSize <= |data|
    && c.open(ChunkAad(file.index, j, chunk.plaintextSize), blob[chunk.offset..chunk.offset + chunk.length])
       == Some(data[start..start + chunk.plaintextSize])
  }

  /** The file's records lie back to back in the blob and open to its bytes, in order. */
  ghost predicate Readable(blob: Buffer, c: Crypto, file: File, data: Buffer) {
    && |blob| <= MAX_INT64
    && (forall j :: 0 <= j < |file.chunks| ==> ReadableChunk(blob, c, file, data, j))
    && PlaintextTotal(file.chunks) == |data|
  }

  lemma {:induction false} ChunksAdjacent(blob: Buffer, c: Crypto, file: File, data: Buffer, i: nat, j: nat)
    requires Readable(blob, c, file, data) && i <= j < |file.chunks|
    ensures 0 <= file.chunks[i].offset <= file.chunks[j].offset
    ensures file.chunks[j].offset - file.chunks[i].offset ==
            PlaintextTotal(file.chunks[..j]) - PlaintextTotal(file.chunks[..i]) + (j - i) * RECORD_OVERHEAD
    ensures i < j ==> file.chunks[i].offset + file.chunks[i].length <= file.chunks[j].offset
  {
    ChunkPlaced(blob, c, file, data, j);
    if i < j {
      ChunksAdjacent(blob, c, file, data, i, j - 1);
      ChunkPlaced(blob, c, file, data, j - 1);
      PlaintextNext(file.chunks, j - 1);
    }
  }

  lemma ChunkPlaced(blob: Buffer, c: Crypto, file: File, data: Buffer, j: nat)
    requires Readable(blob, c, file, data) && j < |file.chunks|
    ensures var chunk := file.chunks[j];
            && 0 <= chunk.offset && chunk.length == chunk.plaintextSize + RECORD_OVERHEAD && chunk.plaintextSize >= 0
            && (j > 0 ==> chunk.offset == file.chunks[j - 1].offset + file.chunks[j - 1].length)
  {
    assert ReadableChunk(blob, c, file, data, j);
  }

  /** How much plaintext chunks [start, end) hold. */
  function GroupPlaintext(chunks: seq<Chunk>, start: nat, end: nat): int
    requires start <= end <= |chunks|
  {
    PlaintextTotal(chunks[..end]) - PlaintextTotal(chunks[..start])
  }

  lemma PlaintextNext(chunks: seq<Chunk>, i: nat)
    requires i < |chunks|
    ensures PlaintextTotal(chunks[..i + 1]) == PlaintextTotal(chunks[..i]) + chunks[i].plaintextSize
  {
    assert chunks[..i + 1][..i] == chunks[..i];
  }

  /** The inner loop that grows a group while the next chunk fits; end is its last chunk. */
  method GrowGroup(chunks: seq<Chunk>, start: nat) returns (end: nat)
    requires start < |chunks|
    ensures start <= end < |chunks|
    ensures end == start || GroupPlaintext(chunks, start, end + 1) <= COALESCE_BYTES
    ensures end + 1 < |chunks| ==>
              GroupPlaintext(chunks, start, end + 1) + chunks[end + 1].plaintextSize > COALESCE_BYTES
  {
    end := start;
    var groupPlaintext := chunks[start].plaintextSize;
    PlaintextNext(chunks, start);
    while end + 1 < |chunks| && groupPlaintext + chunks[end + 1].plaintextSize <= COALESCE_BYTES
      invariant start <= end < |chunks|
      invariant groupPlaintext == GroupPlaintext(chunks, start, end + 1)
      invariant end == start || groupPlaintext <= COALESCE_BYTES
      decreases |chunks| - end
    {
      end := end + 1;
      groupPlaintext := groupPlaintext + chunks[end].plaintextSize;
      PlaintextNext(chunks, end);
    }
  }

  /** The bytes from the first record of the group to the end of its last one. */
  ghost function GroupBytes(blob: Buffer, file: File, start: nat, end: nat): Buffer
    requires start <= end < |file.chunks|
  {
    var first, last := file.chunks[start], file.chunks[end];
    if 0 <= first.offset <= last.offset + last.length <= |blob| then blob[first.offset..last.offset + last.length]
        else []
  }

  ghost function PlainRange(chunks: seq<Chunk>, data: Buffer, start: nat, end: nat): Buffer
    requires start <= end <= |chunks|
  {
    var from, to := PlaintextTotal(chunks[..start]), PlaintextTotal(chunks[..end]);
    if 0 <= from <= to <= |data| then data[from..to] else []
  }

  lemma SliceOfSlice(b: Buffer, from: nat, to: nat, first: nat, last: nat)
    requires from <= first <= last <= to <= |b|
    ensures b[from..to][first - from..last - from] == b[first..last]
  {
    var outer := b[from..to];
    var inner := outer[first - from..last - from];
    forall k | 0 <= k < last - first ensures inner[k] == b[first..last][k] {
      assert inner[k] == outer[first - from + k] == b[first + k];
    }
  }

  lemma SliceAt(b: Buffer, from: nat, length: nat, at: nat, width: nat)
    requires from + length <= |b| && at + width <= length
    ensures b[from..from + length][at..at + width] == b[from + at..from + at + width]
  {
    SliceOfSlice(b, from, from + length, from + at, from + at + width);
  }

  /** Where record i lies inside the fetched group. */
  lemma GroupPlace(blob: Buffer, c: Crypto, file: File, data: Buffer, start: nat, end: nat, i: nat)
    requires Readable(blob, c, file, data) && start <= i <= end < |file.chunks|
    ensures var first, chunk, last := file.chunks[start], file.chunks[i], file.chunks[end];
            && 0 <= first.offset <= chunk.offset < chunk.offset + chunk.length <= last.offset + last.length <= |blob|
            && GroupBytes(blob, file, start, end) == blob[first.offset..last.offset + last.length]
            && (i < end ==> file.chunks[i + 1].offset == chunk.offset + chunk.length)
  {
    assert ReadableChunk(blob, c, file, data, i) && ReadableChunk(blob, c, file, data, end);
    ChunksAdjacent(blob, c, file, data, start, i);
    ChunksAdjacent(blob, c, file, data, i, end);
    if i < end {
      assert ReadableChunk(blob, c, file, data, i + 1);
    }
  }

  /** Record i inside the fetched group, and what it opens to. */
  lemma GroupRecord(blob: Buffer, c: Crypto, file: File, data: Buffer, start: nat, end: nat, i: nat)
    requires Readable(blob, c, file, data) && start <= i <= end < |file.chunks|
    ensures var chunk, cursor := file.chunks[i], file.chunks[i].offset - file.chunks[start].offset;
            var group := GroupBytes(blob, file, start, end);
            && 0 <= cursor <= cursor + chunk.length <= |group| && chunk.index == i
            && c.open(ChunkAad(file.index, chunk.index, chunk.plaintextSize), group[cursor..cursor + chunk.length])
               == Some(PlainRange(file.chunks, data, i, i + 1))
            && |PlainRange(file.chunks, data, i, i + 1)| == chunk.plaintextSize
  {
    GroupPlace(blob, c, file, data, start, end, i);
    ChunkOpens(blob, c, file, data, i);
    var first, chunk, last := file.chunks[start], file.chunks[i], file.chunks[end];
    SliceAt(blob, first.offset, last.offset + last.length - first.offset, chunk.offset - first.offset, chunk.length);
  }

  lemma ChunkOpens(blob: Buffer, c: Crypto, file: File, data: Buffer, i: nat)
    requires Readable(blob, c, file, data) && i < |file.chunks|
    ensures var chunk, plain := file.chunks[i], PlainRange(file.chunks, data, i, i + 1);
            && 0 <= chunk.offset <= chunk.offset + chunk.length <= |blob| && chunk.index == i
            && c.open(ChunkAad(file.index, chunk.index, chunk.plaintextSize),
                      blob[chunk.offset..chunk.offset + chunk.length]) == Some(plain)
            && |plain| == chunk.plaintextSize
  {
    assert ReadableChunk(blob, c, file, data, i);
    PlaintextNext(file.chunks, i);
  }

  lemma PlainRangeNext(blob: Buffer, c: Crypto, file: File, data: Buffer, start: nat, i: nat)
    requires Readable(blob, c, file, data) && start <= i < |file.chunks|
    ensures PlainRange(file.chunks, data, start, i + 1) ==
            PlainRange(file.chunks, data, start, i) + PlainRange(file.chunks, data, i, i + 1)
  {
    assert ReadableChunk(blob, c, file, data, i) && ReadableChunk(blob, c, file, data, start);
    ChunksAdjacent(blob, c, file, data, start, i);
    PlaintextNext(file.chunks, i);
    PlaintextGrows(blob, c, file, data, start, i);
  }

  lemma {:induction false} PlaintextGrows(blob: Buffer, c: Crypto, file: File, data: Buffer, i: nat, j: nat)
    requires Readable(blob, c, file, data) && i <= j <= |file.chunks|
    ensures 0 <= PlaintextTotal(file.chunks[..i]) <= PlaintextTotal(file.chunks[..j]) <= |data|
  {
    if i < j {
      PlaintextGrows(blob, c, file, data, i, j - 1);
      PlaintextNext(file.chunks, j - 1);
      assert ReadableChunk(blob, c, file, data, j - 1);
    } else if i < |file.chunks| {
      assert ReadableChunk(blob, c, file, data, i);
    } else {
      assert file.chunks[..i] == file.chunks;
    }
  }

  // ------------------------------------------------------ files from a server that may answer anything

  ghost predicate OpensOnlyTo(b: Buffer, c: Crypto, file: File, data: Buffer, k: nat)
    requires k < |file.chunks|
  {
    forall from: nat, to: nat | from <= to <= |b| ::
      var plain := c.open(ChunkAad(file.index, file.chunks[k].index, file.chunks[k].plaintextSize), b[from..to]);
      plain.Some? ==> plain.value == PlainRange(file.chunks, data, k, k + 1)
  }

  /** No part of b opens as a chunk of the file to anything but that chunk's bytes. */
  ghost predicate Genuine(b: Buffer, c: Crypto, file: File, data: Buffer) {
    forall k {:trigger OpensOnlyTo(b, c, file, data, k)} :: 0 <= k < |file.chunks| ==>
      OpensOnlyTo(b, c, file, data, k)
  }

  ghost predicate AnswersGenuine(fetch: RangeFetcher, c: Crypto, file: File, data: Buffer) {
    forall start, end :: fetch(start, end).Ok? ==> Genuine(fetch(start, end).value, c, file, data)
  }

  /** The chunk sizes add up to the data. */
  ghost predicate Sized(chunks: seq<Chunk>, data: Buffer) {
    && PlaintextTotal(chunks) == |data|
    && forall k :: 0 <= k < |chunks| ==> chunks[k].plaintextSize >= 0
  }

  lemma {:induction false} SizedGrows(chunks: seq<Chunk>, data: Buffer, i: nat, j: nat)
    requires Sized(chunks, data) && i <= j <= |chunks|
    ensures 0 <= PlaintextTotal(chunks[..i]) <= PlaintextTotal(chunks[..j]) <= |data|
    decreases |chunks| - i, j - i
  {
    if i < j {
      SizedGrows(chunks, data, i, j - 1);
      PlaintextNext(chunks, j - 1);
    }
    TotalGrows(chunks, j, |chunks|);
    TotalGrows(chunks, 0, i);
    assert chunks[..|chunks|] == chunks;
  }

  lemma {:induction false} TotalGrows(chunks: seq<Chunk>, i: nat, j: nat)
    requires i <= j <= |chunks| && forall k :: 0 <= k < |chunks| ==> chunks[k].plaintextSize >= 0
    ensures PlaintextTotal(chunks[..i]) <= PlaintextTotal(chunks[..j])
  {
    if i < j {
      TotalGrows(chunks, i, j - 1);
      PlaintextNext(chunks, j - 1);
    }
  }

  lemma SizedJoins(chunks: seq<Chunk>, data: Buffer, i: nat, j: nat, k: nat)
    requires Sized(chunks, data) && i <= j <= k <= |chunks|
    ensures PlainRange(chunks, data, i, k) == PlainRange(chunks, data, i, j) + PlainRange(chunks, data, j, k)
  {
    SizedGrows(chunks, data, i, j);
    SizedGrows(chunks, data, j, k);
    SlicesJoin(data, PlaintextTotal(chunks[..i]), PlaintextTotal(chunks[..j]), PlaintextTotal(chunks[..k]));
  }

  lemma SlicesJoin(data: Buffer, i: nat, j: nat, k: nat)
    requires i <= j <= k <= |data|
    ensures data[i..k] == data[i..j] + data[j..k]
  {
  }

  lemma SizedWhole(chunks: seq<Chunk>, data: Buffer)
    requires Sized(chunks, data)
    ensures PlainRange(chunks, data, 0, 0) == [] && PlainRange(chunks, data, 0, |chunks|) == data
  {
    assert chunks[..|chunks|] == chunks;
  }

  /** One record out of the fetched group. */
  function OpenChunk(encrypted: Buffer, c: Crypto, file: File, i: nat, cursor: int): Result<Buffer, ReadError>
    requires i < |file.chunks|
  {
    var chunk := file.chunks[i];
    if !(0 <= cursor <= cursor + chunk.length <= |encrypted|) then Err(SliceOutOfRange)
    else
      match c.open(ChunkAad(file.index, chunk.index, chunk.plaintextSize), encrypted[cursor..cursor + chunk.length])
      case None => Err(DecryptFailed)
      case Some(plain) => if |plain| != chunk.plaintextSize then Err(InvalidManifest) else Ok(plain)
  }

  lemma GenuineChunk(encrypted: Buffer, c: Crypto, file: File, data: Buffer, start: nat, i: nat, cursor: int)
    requires Sized(file.chunks, data) && Genuine(encrypted, c, file, data)
    requires start <= i < |file.chunks| && OpenChunk(encrypted, c, file, i, cursor).Ok?
    ensures PlainRange(file.chunks, data, start, i) + OpenChunk(encrypted, c, file, i, cursor).value
            == PlainRange(file.chunks, data, start, i + 1)
  {
    assert OpensOnlyTo(encrypted, c, file, data, i);
    SizedJoins(file.chunks, data, start, i, i + 1);
  }

  /** Chunk i of the group at its place in it. */
  lemma GroupChunk(encrypted: Buffer, blob: Buffer, c: Crypto, file: File, data: Buffer, start: nat, end: nat, i: nat)
    requires Readable(blob, c, file, data) && start <= i <= end < |file.chunks|
    requires encrypted == GroupBytes(blob, file, start, end)
    ensures var cursor := file.chunks[i].offset - file.chunks[start].offset;
            && OpenChunk(encrypted, c, file, i, cursor) == Ok(PlainRange(file.chunks, data, i, i + 1))
            && (i < end ==> file.chunks[i + 1].offset - file.chunks[start].offset == cursor + file.chunks[i].length)
    ensures PlainRange(file.chunks, data, start, i + 1) ==
            PlainRange(file.chunks, data, start, i) + PlainRange(file.chunks, data, i, i + 1)
  {
    GroupPlace(blob, c, file, data, start, end, i);
    GroupRecord(blob, c, file, data, start, end, i);
    PlainRangeNext(blob, c, file, data, start, i);
  }

  /** Where chunk i begins in a group that starts with chunk start. */
  function CursorAt(chunks: seq<Chunk>, start: nat, i: nat): int
    requires start <= i <= |chunks|
  {
    if i == start then 0 else CursorAt(chunks, start, i - 1) + chunks[i - 1].length
  }

  /** Chunks start to i one after the other, up to the first that fails. */
  function OpenChunks(encrypted: Buffer, c: Crypto, file: File, start: nat, i: nat): Result<Buffer, ReadError>
    requires start <= i <= |file.chunks|
  {
    if i == start then Ok([])
    else
      match OpenChunks(encrypted, c, file, start, i - 1)
      case Err(e) => Err(e)
      case Ok(before) =>
        match OpenChunk(encrypted, c, file, i - 1, CursorAt(file.chunks, start, i - 1))
        case Err(e) => Err(e)
        case Ok(plain) => Ok(before + plain)
  }

  lemma {:induction false} FailureStays(encrypted: Buffer, c: Crypto, file: File, start: nat, i: nat, j: nat)
    requires start <= i <= j <= |file.chunks| && OpenChunks(encrypted, c, file, start, i).Err?
    ensures OpenChunks(encrypted, c, file, start, j) == OpenChunks(encrypted, c, file, start, i)
  {
    if i < j {
      FailureStays(encrypted, c, file, start, i, j - 1);
    }
  }

  /** The group's own bytes open to its plaintext. */
  lemma {:induction false} GroupOpens(encrypted: Buffer, blob: Buffer, c: Crypto, file: File, data: Buffer, start: nat,
                                      end: nat, i: nat)
    requires Readable(blob, c, file, data) && start <= i <= end + 1 <= |file.chunks| && start <= end
    requires encrypted == GroupBytes(blob, file, start, end)
    ensures OpenedTo(encrypted, c, file, data, start, end, i)
  {
    if i == start {
      NothingBetween(blob, c, file, data, start);
    } else {
      GroupOpens(encrypted, blob, c, file, data, start, end, i - 1);
      GroupOpensNext(encrypted, blob, c, file, data, start, end, i - 1);
    }
  }

  ghost predicate OpenedTo(encrypted: Buffer, c: Crypto, file: File, data: Buffer, start: nat, end: nat, i: nat)
    requires start <= i <= end + 1 <= |file.chunks|
  {
    && (i <= end ==> CursorAt(file.chunks, start, i) == file.chunks[i].offset - file.chunks[start].offset)
    && OpenChunks(encrypted, c, file, start, i) == Ok(PlainRange(file.chunks, data, start, i))
  }

  lemma GroupOpensNext(encrypted: Buffer, blob: Buffer, c: Crypto, file: File, data: Buffer, start: nat, end: nat,
                       i: nat)
    requires Readable(blob, c, file, data) && start <= i <= end < |file.chunks|
    requires encrypted == GroupBytes(blob, file, start, end) && OpenedTo(encrypted, c, file, data, start, end, i)
    ensures OpenedTo(encrypted, c, file, data, start, end, i + 1)
  {
    GroupChunk(encrypted, blob, c, file, data, start, end, i);
    OpenNext(encrypted, c, file, start, i, PlainRange(file.chunks, data, start, i),
             PlainRange(file.chunks, data, i, i + 1));
  }

  lemma NothingBetween(blob: Buffer, c: Crypto, file: File, data: Buffer, i: nat)
    requires Readable(blob, c, file, data) && i <= |file.chunks|
    ensures PlainRange(file.chunks, data, i, i) == []
  {
  }

  lemma OpenNext(encrypted: Buffer, c: Crypto, file: File, start: nat, i: nat, before: Buffer, plain: Buffer)
    requires start <= i < |file.chunks| && OpenChunks(encrypted, c, file, start, i) == Ok(before)
    requires OpenChunk(encrypted, c, file, i, CursorAt(file.chunks, start, i)) == Ok(plain)
    ensures OpenChunks(encrypted, c, file, start, i + 1) == Ok(before + plain)
    ensures CursorAt(file.chunks, start, i + 1) == CursorAt(file.chunks, start, i) + file.chunks[i].length
  {
  }

  /** Whatever bytes are fetched: if nothing in them is forged, they open to the group's plaintext or not at all. */
  lemma {:induction false} GenuineOpens(encrypted: Buffer, c: Crypto, file: File, data: Buffer, start: nat, i: nat)
    requires Sized(file.chunks, data) && Genuine(encrypted, c, file, data) && start <= i <= |file.chunks|
    requires OpenChunks(encrypted, c, file, start, i).Ok?
    ensures OpenChunks(encrypted, c, file, start, i).value == PlainRange(file.chunks, data, start, i)
  {
    if i == start {
      SizedGrows(file.chunks, data, start, start);
    } else {
      GenuineOpens(encrypted, c, file, data, start, i - 1);
      GenuineChunk(encrypted, c, file, data, start, i - 1, CursorAt(file.chunks, start, i - 1));
    }
  }

  /** The loop over the records of one fetched group. */
  method DecryptGroup(encrypted: Buffer, c: Crypto, file: File, start: nat, end: nat)
    returns (r: Result<Buffer, ReadError>)
    requires start <= end < |file.chunks|
    ensures r == OpenChunks(encrypted, c, file, start, end + 1)
  {
    var plain: Buffer, cursor := [], 0;
    for i := start to end + 1
      invariant cursor == CursorAt(file.chunks, start, i)
      invariant OpenChunks(encrypted, c, file, start, i) == Ok(plain)
    {
      var plaintext := OpenChunk(encrypted, c, file, i, cursor);
      if plaintext.Err? {
        FailureStays(encrypted, c, file, start, i + 1, end + 1);
        return Err(plaintext.error);
      }
      plain := plain + plaintext.value;
      cursor := cursor + file.chunks[i].length;
    }
    r := Ok(plain);
  }

  /** Groups [from, to) one after the other from the first chunk to the last. */
  ghost predicate Partitions(groups: seq<(nat, nat)>, count: nat) {
    && (forall g :: g in groups ==> g.0 < g.1 <= count)
    && (forall k :: 0 <= k < |groups| - 1 ==> groups[k].1 == groups[k + 1].0)
    && (if groups == [] then count == 0 else groups[0].0 == 0 && groups[|groups| - 1].1 == count)
  }

  /** A group stays within 16 MiB of plaintext and its range is one the server serves. */
  ghost predicate GroupOk(blob: Buffer, file: File, g: (nat, nat)) {
    && g.0 < g.1 <= |file.chunks|
    && GroupPlaintext(file.chunks, g.0, g.1) <= COALESCE_BYTES
    && Servable(file.chunks[g.0].offset, file.chunks[g.1 - 1].offset + file.chunks[g.1 - 1].length - 1, |blob|)
  }

  /** The bytes of a group: its plaintext and an overhead per record. */
  lemma GroupSpan(blob: Buffer, c: Crypto, file: File, data: Buffer, start: nat, end: nat)
    requires Readable(blob, c, file, data) && start <= end < |file.chunks|
    ensures var first, last := file.chunks[start], file.chunks[end];
            && 0 <= first.offset < last.offset + last.length <= |blob|
            && last.offset + last.length - first.offset
               == GroupPlaintext(file.chunks, start, end + 1) + (end - start + 1) * RECORD_OVERHEAD
            && (start == end ==> GroupPlaintext(file.chunks, start, end + 1) <= CHUNK_SIZE)
  {
    assert ReadableChunk(blob, c, file, data, start) && ReadableChunk(blob, c, file, data, end);
    ChunksAdjacent(blob, c, file, data, start, end);
    PlaintextNext(file.chunks, end);
  }

  lemma GroupServable(blob: Buffer, c: Crypto, file: File, data: Buffer, start: nat, end: nat)
    requires Readable(blob, c, file, data) && start <= end < |file.chunks|
    requires end == start || GroupPlaintext(file.chunks, start, end + 1) <= COALESCE_BYTES
    ensures GroupOk(blob, file, (start, end + 1))
    ensures var first, last := file.chunks[start], file.chunks[end];
            GroupBytes(blob, file, start, end) == blob[first.offset..last.offset + last.length]
  {
    GroupSpan(blob, c, file, data, start, end);
    GroupSize(blob, c, file, data, start, end);
  }

  /** All but the last chunk of a file are full, so a group has at most five records. */
  lemma GroupSize(blob: Buffer, c: Crypto, file: File, data: Buffer, start: nat, end: nat)
    requires Readable(blob, c, file, data) && start <= end < |file.chunks|
    ensures GroupPlaintext(file.chunks, start, end + 1) > (end - start) * CHUNK_SIZE
  {
    assert ReadableChunk(blob, c, file, data, end);
    PlaintextNext(file.chunks, end);
    FullBefore(blob, c, file, data, start, end);
  }

  lemma {:induction false} FullBefore(blob: Buffer, c: Crypto, file: File, data: Buffer, start: nat, end: nat)
    requires Readable(blob, c, file, data) && start <= end < |file.chunks|
    ensures GroupPlaintext(file.chunks, start, end) == (end - start) * CHUNK_SIZE
  {
    if start < end {
      FullBefore(blob, c, file, data, start, end - 1);
      FullChunk(blob, c, file, data, end - 1);
      PlaintextNext(file.chunks, end - 1);
    }
  }

  lemma FullChunk(blob: Buffer, c: Crypto, file: File, data: Buffer, j: nat)
    requires Readable(blob, c, file, data) && j + 1 < |file.chunks|
    ensures file.chunks[j].plaintextSize == CHUNK_SIZE
  {
    assert ReadableChunk(blob, c, file, data, j);
  }

  /** What DecryptFile has done when the chunks before start are written. */
  ghost predicate Written(written: Buffer, groups: seq<(nat, nat)>, blob: Buffer, file: File, data: Buffer,
                          start: nat) {
    && start <= |file.chunks| && written == PlainRange(file.chunks, data, 0, start)
    && Partitions(groups, start) && AllOk(groups, blob, file)
  }

  ghost predicate AllOk(groups: seq<(nat, nat)>, blob: Buffer, file: File) {
    forall g :: g in groups ==> GroupOk(blob, file, g)
  }

  lemma WrittenNext(written: Buffer, groups: seq<(nat, nat)>, blob: Buffer, c: Crypto, file: File, data: Buffer,
                    start: nat, end: nat)
    requires Readable(blob, c, file, data) && Written(written, groups, blob, file, data, start)
             && start < end <= |file.chunks|
    requires GroupOk(blob, file, (start, end))
    ensures Written(written + PlainRange(file.chunks, data, start, end), groups + [(start, end)], blob, file, data, end)
  {
    PlainRangeJoin(blob, c, file, data, start, end);
    PartitionsNext(groups, start, end);
  }

  lemma PartitionsNext(groups: seq<(nat, nat)>, start: nat, end: nat)
    requires Partitions(groups, start) && start < end
    ensures Partitions(groups + [(start, end)], end)
  {
  }

  lemma WholeFileWritten(blob: Buffer, c: Crypto, file: File, data: Buffer)
    requires Readable(blob, c, file, data)
    ensures PlainRange(file.chunks, data, 0, 0) == [] && PlainRange(file.chunks, data, 0, |file.chunks|) == data
  {
    assert file.chunks[..|file.chunks|] == file.chunks;
  }

  /** DecryptFile: groups of neighbouring records, each one range request. */
  method DecryptFile(fetch: RangeFetcher, c: Crypto, file: File, ghost blob: Buffer, ghost data: Buffer)
    returns (r: Result<Buffer, ReadError>, ghost groups: seq<(nat, nat)>)
    ensures Readable(blob, c, file, data) && Serves(fetch, blob) ==> r == Ok(data)
    ensures Readable(blob, c, file, data) && Serves(fetch, blob) ==>
              Partitions(groups, |file.chunks|) && forall g :: g in groups ==> GroupOk(blob, file, g)
    ensures Sized(file.chunks, data) && AnswersGenuine(fetch, c, file, data) && r.Ok? ==> r.value == data
  {
    ghost var sound := Readable(blob, c, file, data) && Serves(fetch, blob);
    ghost var genuine := Sized(file.chunks, data) && AnswersGenuine(fetch, c, file, data);
    groups := [];
    var written: Buffer := [];
    var start := 0;
    if sound {
      WholeFileWritten(blob, c, file, data);
    }
    if genuine {
      SizedWhole(file.chunks, data);
    }
    while start < |file.chunks|
      invariant start <= |file.chunks|
      invariant sound ==> Written(written, groups, blob, file, data, start)
      invariant genuine ==> written == PlainRange(file.chunks, data, 0, start)
    {
      var plain, end := NextGroup(fetch, c, file, start, written, groups, blob, data);
      groups := groups + [(start, end)];
      if plain.Err? {
        return Err(plain.error), groups;
      }
      if genuine {
        SizedJoins(file.chunks, data, 0, start, end);
      }
      written := written + plain.value;
      start := end;
    }
    r := Ok(written);
  }

  /** One round of its loop; the group ends before chunk end. */
  method NextGroup(fetch: RangeFetcher, c: Crypto, file: File, start: nat, ghost written: Buffer,
                   ghost groups: seq<(nat, nat)>, ghost blob: Buffer, ghost data: Buffer)
    returns (plain: Result<Buffer, ReadError>, end: nat)
    requires start < |file.chunks|
    ensures start < end <= |file.chunks|
    ensures Readable(blob, c, file, data) && Serves(fetch, blob)
            && Written(written, groups, blob, file, data, start) ==>
              plain.Ok? && Written(written + plain.value, groups + [(start, end)], blob, file, data, end)
    ensures Sized(file.chunks, data) && AnswersGenuine(fetch, c, file, data) && plain.Ok? ==>
              plain.value == PlainRange(file.chunks, data, start, end)
  {
    var last := GrowGroup(file.chunks, start);
    end := last + 1;
    plain := FetchGroup(fetch, c, file, start, last, blob, data);
    if Readable(blob, c, file, data) && Serves(fetch, blob) && Written(written, groups, blob, file, data, start) {
      GroupServable(blob, c, file, data, start, last);
      WrittenNext(written, groups, blob, c, file, data, start, end);
    }
  }

  lemma PlainRangeJoin(blob: Buffer, c: Crypto, file: File, data: Buffer, i: nat, j: nat)
    requires Readable(blob, c, file, data) && i <= j <= |file.chunks|
    ensures PlainRange(file.chunks, data, 0, j) ==
            PlainRange(file.chunks, data, 0, i) + PlainRange(file.chunks, data, i, j)
  {
    PlaintextGrows(blob, c, file, data, i, j);
    assert PlaintextTotal(file.chunks[..0]) == 0;
  }

  lemma GroupReads(encrypted: Buffer, blob: Buffer, c: Crypto, file: File, data: Buffer, start: nat, end: nat)
    requires Readable(blob, c, file, data) && start <= end < |file.chunks|
    requires var first, last := file.chunks[start], file.chunks[end];
             && 0 <= first.offset <= last.offset + last.length <= |blob|
             && encrypted == blob[first.offset..last.offset + last.length]
    ensures OpenChunks(encrypted, c, file, start, end + 1) == Ok(PlainRange(file.chunks, data, start, end + 1))
  {
    GroupOpens(encrypted, blob, c, file, data, start, end, end + 1);
  }

  method FetchGroup(fetch: RangeFetcher, c: Crypto, file: File, start: nat, end: nat, ghost blob: Buffer,
                    ghost data: Buffer)
    returns (r: Result<Buffer, ReadError>)
    requires start <= end < |file.chunks|
    ensures Readable(blob, c, file, data) && Serves(fetch, blob) && GroupOk(blob, file, (start, end + 1)) ==>
              r == Ok(PlainRange(file.chunks, data, start, end + 1))
    ensures Sized(file.chunks, data) && AnswersGenuine(fetch, c, file, data) && r.Ok? ==>
              r.value == PlainRange(file.chunks, data, start, end + 1)
  {
    var first, last := file.chunks[start], file.chunks[end];
    var groupLength := Wrap64(last.offset + last.length - first.offset);
    var encrypted := fetch(first.offset, Wrap64(first.offset + groupLength - 1));
    if encrypted.Err? {
      return Err(FetchFailed);
    }
    if |encrypted.value| != groupLength {
      return Err(RangeMismatch);
    }
    r := DecryptGroup(encrypted.value, c, file, start, end);
    if Readable(blob, c, file, data) && Serves(fetch, blob) && GroupOk(blob, file, (start, end + 1)) {
      GroupReads(encrypted.value, blob, c, file, data, start, end);
    }
    if Sized(file.chunks, data) && AnswersGenuine(fetch, c, file, data) && r.Ok? {
      GenuineOpens(encrypted.value, c, file, data, start, end + 1);
    }
  }
}
