/**
 * From a plan to what is uploaded: the whole bundle as Encrypt builds it in memory
 * (internal/share/bundle/writer.go), and the multipart parts the command line
 * (internal/share/share.go) and the web app (web/frontend/src/lib/multipartBundleUpload.ts) stream.
 */
module Partition {
  import opened Bytes
  import opened Format
  import opened Manifest
  import opened Plan
  import Footer

  const MIN_PART_BYTES := 5 * 1024 * 1024
  const PART_SIZE := 32 * 1024 * 1024

  /** What a sealed record is bound to. */
  datatype Aad = ManifestAad | ChunkAad(fileIndex: int, chunkIndex: int, plaintextSize: int)

  /**
   * The record cipher and the hash. The first argument of seal counts the calls, since each one
   * draws a fresh nonce.
   */
  datatype Crypto = Crypto(seal: (nat, Aad, Buffer) -> Buffer, open: (Aad, Buffer) -> Option<Buffer>,
                           sha256: Buffer -> Footer.Digest)

  ghost predicate Lawful(c: Crypto) {
    forall n, aad, plain :: && |c.seal(n, aad, plain)| == |plain| + RECORD_OVERHEAD
                            && c.open(aad, c.seal(n, aad, plain)) == Some(plain)
  }

  datatype BundleError = RecordSizeMismatch | ManifestSizeMismatch | BundleSizeMismatch | BadFooter

  // ------------------------------------------------------ the bundle

  predicate Reads(sources: seq<Source>, r: Record) {
    && r.fileIndex < |sources|
    && r.start <= r.end <= |sources[r.fileIndex].data|
    && r.plaintextSize == r.end - r.start && r.length == r.plaintextSize + RECORD_OVERHEAD
  }

  predicate AllRead(sources: seq<Source>, records: seq<Record>) {
    forall i :: 0 <= i < |records| ==> Reads(sources, records[i])
  }

  function SealRecord(c: Crypto, sources: seq<Source>, r: Record, n: nat): Buffer
    requires Reads(sources, r)
  {
    c.seal(n, ChunkAad(r.fileIndex, r.chunkIndex, r.plaintextSize), sources[r.fileIndex].data[r.start..r.end])
  }

  /** The sealed records, the i-th with the i-th nonce. */
  function Sealed(c: Crypto, sources: seq<Source>, records: seq<Record>): (s: seq<Buffer>)
    requires AllRead(sources, records)
    ensures |s| == |records|
  {
    seq(|records|, i requires 0 <= i < |records| => SealRecord(c, sources, records[i], i))
  }

  /** The sealed manifest and the footer that locates it. */
  function Tail(c: Crypto, manifestJson: Buffer, n: nat): Result<Buffer, BundleError> {
    var encrypted := c.seal(n, ManifestAad, manifestJson);
    if |encrypted| > MAX_INT64 then Err(BadFooter)
    else
      match Footer.EncodeFooter(Footer.Footer(|encrypted|, c.sha256(encrypted)))
      case Err(_) => Err(BadFooter)
      case Ok(trailer) => Ok(encrypted + trailer)
  }

  /** A plan for these very sources. */
  ghost predicate PlanFor(plan: Plan, sources: seq<Source>, json: Json) {
    && Representable(sources) && InversePair(json)
    && exists name :: PlanOf(sources, name, json) == Ok(plan)
  }

  lemma PlanReads(plan: Plan, sources: seq<Source>, json: Json)
    requires PlanFor(plan, sources, json)
    ensures AllRead(sources, plan.records)
    ensures Chained(Spans(Chunks(plan.records)), 0, plan.dataSize)
    ensures forall i :: 0 <= i < |plan.records| ==>
              RECORD_OVERHEAD < plan.records[i].length <= CHUNK_SIZE + RECORD_OVERHEAD
    ensures 0 < |plan.manifestJson| <= MAX_MANIFEST_BYTES
    ensures plan.encryptedManifestLength == |plan.manifestJson| + RECORD_OVERHEAD
    ensures plan.totalSize == plan.dataSize + plan.encryptedManifestLength + FOOTER_LENGTH
  {
    RecordsBounded(sources, |sources|);
    PlanChains(sources, |sources|);
  }

  lemma TailSize(c: Crypto, manifestJson: Buffer, n: nat)
    requires Lawful(c) && 0 < |manifestJson| <= MAX_MANIFEST_BYTES
    ensures Tail(c, manifestJson, n).Ok?
    ensures |Tail(c, manifestJson, n).value| == |manifestJson| + RECORD_OVERHEAD + FOOTER_LENGTH
  {
  }

  /** The bytes of the finished bundle. */
  function Bundle(c: Crypto, sources: seq<Source>, plan: Plan): Buffer
    requires AllRead(sources, plan.records) && Tail(c, plan.manifestJson, |plan.records|).Ok?
  {
    Flatten(Sealed(c, sources, plan.records)) + Tail(c, plan.manifestJson, |plan.records|).value
  }

  lemma {:induction false} SealedLength(c: Crypto, sources: seq<Source>, records: seq<Record>, n: nat)
    requires Lawful(c) && AllRead(sources, records) && n <= |records|
    requires Chained(Spans(Chunks(records)), 0, SpanTotal(Spans(Chunks(records))))
    requires forall i :: 0 <= i < |records| ==>
              records[i].offset + records[i].length <= MAX_INT64 && records[i].offset >= 0
    ensures |Flatten(Sealed(c, sources, records)[..n])| == SpanTotal(Spans(Chunks(records))[..n])
  {
    if n > 0 {
      SealedLength(c, sources, records, n - 1);
      FlattenPrefix(Sealed(c, sources, records), n - 1);
      SpanTotalPrefix(Spans(Chunks(records)), n - 1);
      SealedWidth(c, sources, records, n - 1);
    }
  }

  lemma SealedWidth(c: Crypto, sources: seq<Source>, records: seq<Record>, i: nat)
    requires Lawful(c) && AllRead(sources, records) && i < |records|
    requires records[i].offset >= 0 && records[i].offset + records[i].length <= MAX_INT64
    ensures var span := Spans(Chunks(records))[i];
            |Sealed(c, sources, records)[i]| == records[i].length == span.end - span.start + 1
  {
  }

  lemma BundleSize(c: Crypto, sources: seq<Source>, plan: Plan, json: Json)
    requires Lawful(c) && PlanFor(plan, sources, json)
    ensures AllRead(sources, plan.records) && Tail(c, plan.manifestJson, |plan.records|).Ok?
    ensures |Flatten(Sealed(c, sources, plan.records))| == plan.dataSize
    ensures |Bundle(c, sources, plan)| == plan.totalSize
  {
    PlanReads(plan, sources, json);
    TailSize(c, plan.manifestJson, |plan.records|);
    RecordsBounded(sources, |sources|);
    var spans, sealed := Spans(Chunks(plan.records)), Sealed(c, sources, plan.records);
    ChainTotal(spans, 0, plan.dataSize);
    SealedLength(c, sources, plan.records, |plan.records|);
    assert spans[..|plan.records|] == spans && sealed[..|plan.records|] == sealed;
  }

  /** Encrypt: the whole bundle in one buffer. */
  method Encrypt(plan: Plan, sources: seq<Source>, c: Crypto, ghost json: Json) returns (r: Result<Buffer, BundleError>)
    requires Lawful(c) && PlanFor(plan, sources, json)
    ensures AllRead(sources, plan.records) && Tail(c, plan.manifestJson, |plan.records|).Ok?
    ensures r == Ok(Bundle(c, sources, plan))
    ensures |r.value| == plan.totalSize
  {
    PlanReads(plan, sources, json);
    BundleSize(c, sources, plan, json);
    var ok, out := EncryptRecords(plan, sources, c);
    if !ok {
      return Err(RecordSizeMismatch);
    }
    var tail := SealManifest(plan, c);
    if tail.Err? {
      return tail;
    }
    out := out + tail.value;
    if |out| != plan.totalSize {
      return Err(BundleSizeMismatch);
    }
    r := Ok(out);
  }

  /** Its loop over the records. */
  method EncryptRecords(plan: Plan, sources: seq<Source>, c: Crypto) returns (ok: bool, out: Buffer)
    requires Lawful(c) && AllRead(sources, plan.records)
    ensures ok && out == Flatten(Sealed(c, sources, plan.records))
  {
    ghost var sealed := Sealed(c, sources, plan.records);
    ok, out := true, [];
    for i := 0 to |plan.records|
      invariant ok && out == Flatten(sealed[..i])
    {
      var record := plan.records[i];
      var encrypted := SealRecord(c, sources, record, i);
      if |encrypted| != record.length {
        ok := false;
        return;
      }
      FlattenPrefix(sealed, i);
      out := out + encrypted;
    }
    assert sealed[..|plan.records|] == sealed;
  }

  /** The end of every upload: the sealed manifest, then the footer built from it. */
  method SealManifest(plan: Plan, c: Crypto) returns (r: Result<Buffer, BundleError>)
    requires Lawful(c) && 0 < |plan.manifestJson| <= MAX_MANIFEST_BYTES
    requires plan.encryptedManifestLength == |plan.manifestJson| + RECORD_OVERHEAD
    ensures r.Ok? && r == Tail(c, plan.manifestJson, |plan.records|)
  {
    var encryptedManifest := c.seal(|plan.records|, ManifestAad, plan.manifestJson);
    if |encryptedManifest| != plan.encryptedManifestLength {
      return Err(ManifestSizeMismatch);
    }
    var trailer := Footer.FillFooter(Footer.Footer(|encryptedManifest|, c.sha256(encryptedManifest)));
    if trailer.Err? {
      return Err(BadFooter);
    }
    r := Ok(encryptedManifest + trailer.value);
  }

  // ------------------------------------------------------ parts

  datatype SentPart = SentPart(number: nat, offset: nat, data: Buffer)

  /** Records grouped into parts: a part is closed when the next record would overflow it. */
  function Group(pieces: seq<Buffer>, current: Buffer, tail: Buffer, partSize: int): (parts: seq<Buffer>)
    ensures parts != []
  {
    if pieces == [] then [current + tail]
    else if |current| > 0 && |current| + |pieces[0]| > partSize && |current| >= MIN_PART_BYTES then
      [current] + Group(pieces[1..], pieces[0], tail, partSize)
    else
      Group(pieces[1..], current + pieces[0], tail, partSize)
  }

  function Numbered(parts: seq<Buffer>, number: nat, offset: nat): seq<SentPart> {
    if parts == [] then []
    else [SentPart(number, offset, parts[0])] + Numbered(parts[1..], number + 1, offset + |parts[0]|)
  }

  function PartsOf(c: Crypto, sources: seq<Source>, plan: Plan, partSize: int): seq<SentPart>
    requires AllRead(sources, plan.records) && Tail(c, plan.manifestJson, |plan.records|).Ok?
  {
    var tail := Tail(c, plan.manifestJson, |plan.records|).value;
    Numbered(Group(Sealed(c, sources, plan.records), [], tail, partSize), 1, 0)
  }

  // The state both partitioners are in between two records: parts sent, and a part being filled.

  predicate Overflows(part: Buffer, next: int, partSize: int) {
    |part| > 0 && |part| + next > partSize && |part| >= MIN_PART_BYTES
  }

  ghost predicate Pending(goal: seq<SentPart>, sent: seq<SentPart>, number: nat, offset: nat, part: Buffer,
                          pieces: seq<Buffer>, tail: Buffer, partSize: int) {
    goal == sent + Numbered(Group(pieces, part, tail, partSize), number, offset)
  }

  lemma FlushPending(goal: seq<SentPart>, sent: seq<SentPart>, number: nat, offset: nat, part: Buffer,
                     pieces: seq<Buffer>, tail: Buffer, partSize: int)
    requires Pending(goal, sent, number, offset, part, pieces, tail, partSize)
    requires pieces != [] && Overflows(part, |pieces[0]|, partSize)
    ensures Pending(goal, sent + [SentPart(number, offset, part)], number + 1, offset + |part|, [], pieces, tail,
                    partSize)
  {
    var rest := Group(pieces[1..], pieces[0], tail, partSize);
    assert [] + pieces[0] == pieces[0];
    assert Group(pieces, [], tail, partSize) == rest;
    assert Group(pieces, part, tail, partSize) == [part] + rest;
    assert ([part] + rest)[1..] == rest;
  }

  lemma AppendPending(goal: seq<SentPart>, sent: seq<SentPart>, number: nat, offset: nat, part: Buffer,
                      pieces: seq<Buffer>, tail: Buffer, partSize: int)
    requires Pending(goal, sent, number, offset, part, pieces, tail, partSize)
    requires pieces != [] && !Overflows(part, |pieces[0]|, partSize)
    ensures Pending(goal, sent, number, offset, part + pieces[0], pieces[1..], tail, partSize)
  {
  }

  lemma AppendSealed(goal: seq<SentPart>, sent: seq<SentPart>, number: nat, offset: nat, part: Buffer,
                     sealed: seq<Buffer>, i: nat, tail: Buffer, partSize: int)
    requires i < |sealed| && Pending(goal, sent, number, offset, part, sealed[i..], tail, partSize)
    requires !Overflows(part, |sealed[i]|, partSize)
    ensures Pending(goal, sent, number, offset, part + sealed[i], sealed[i + 1..], tail, partSize)
  {
    assert sealed[i..][0] == sealed[i] && sealed[i..][1..] == sealed[i + 1..];
    AppendPending(goal, sent, number, offset, part, sealed[i..], tail, partSize);
  }

  lemma FinishPending(goal: seq<SentPart>, sent: seq<SentPart>, number: nat, offset: nat, part: Buffer,
                      tail: Buffer, partSize: int)
    requires Pending(goal, sent, number, offset, part, [], tail, partSize)
    ensures goal == sent + [SentPart(number, offset, part + tail)]
  {
    assert Group([], part, tail, partSize) == [part + tail];
    assert [part + tail][1..] == [];
    assert Numbered([part + tail][1..], number + 1, offset + |part + tail|) == [];
  }

  /** upload: the command line's partitioner. */
  method Upload(plan: Plan, sources: seq<Source>, c: Crypto, partSize: int, ghost json: Json)
    returns (r: Result<seq<SentPart>, BundleError>)
    requires Lawful(c) && PlanFor(plan, sources, json)
    ensures AllRead(sources, plan.records) && Tail(c, plan.manifestJson, |plan.records|).Ok?
    ensures r == Ok(PartsOf(c, sources, plan, partSize))
  {
    PlanReads(plan, sources, json);
    TailSize(c, plan.manifestJson, |plan.records|);
    ghost var tail := Tail(c, plan.manifestJson, |plan.records|).value;
    var ok, sent, partNumber, partOffset, part := UploadRecords(plan, sources, c, partSize, tail);
    var manifestAndFooter := SealManifest(plan, c);
    if !ok || manifestAndFooter.Err? {
      return Err(RecordSizeMismatch);
    }
    FinishPending(PartsOf(c, sources, plan, partSize), sent, partNumber, partOffset, part, tail, partSize);
    part := part + manifestAndFooter.value;
    r := Ok(sent + [SentPart(partNumber, partOffset, part)]);
  }

  /** Its loop over the records: flush when the next one does not fit, then seal and append it. */
  method UploadRecords(plan: Plan, sources: seq<Source>, c: Crypto, partSize: int, ghost tail: Buffer)
    returns (ok: bool, sent: seq<SentPart>, partNumber: nat, partOffset: nat, part: Buffer)
    requires Lawful(c) && AllRead(sources, plan.records)
    ensures ok
    ensures Pending(Numbered(Group(Sealed(c, sources, plan.records), [], tail, partSize), 1, 0),
                    sent, partNumber, partOffset, part, [], tail, partSize)
  {
    ghost var sealed := Sealed(c, sources, plan.records);
    ghost var goal := Numbered(Group(sealed, [], tail, partSize), 1, 0);
    ok, sent, partNumber, partOffset, part := true, [], 1, 0, [];
    assert sealed[0..] == sealed;
    for i := 0 to |plan.records|
      invariant ok && Pending(goal, sent, partNumber, partOffset, part, sealed[i..], tail, partSize)
    {
      var record := plan.records[i];
      SealedNext(c, sources, plan.records, i);
      sent, partNumber, partOffset, part :=
        FlushBefore(record.length, sent, partNumber, partOffset, part, partSize, goal, sealed[i..], tail);
      var encrypted := SealRecord(c, sources, record, i);
      if |encrypted| != record.length {
        ok := false;
        return;
      }
      AppendSealed(goal, sent, partNumber, partOffset, part, sealed, i, tail, partSize);
      part := part + encrypted;
    }
  }

  /** flush, when the next record would overflow the part. */
  method FlushBefore(next: nat, sent: seq<SentPart>, partNumber: nat, partOffset: nat, part: Buffer, partSize: int,
                     ghost goal: seq<SentPart>, ghost pieces: seq<Buffer>, ghost tail: Buffer)
    returns (sent': seq<SentPart>, partNumber': nat, partOffset': nat, part': Buffer)
    requires Pending(goal, sent, partNumber, partOffset, part, pieces, tail, partSize)
    requires pieces != [] && |pieces[0]| == next
    ensures Pending(goal, sent', partNumber', partOffset', part', pieces, tail, partSize)
    ensures !Overflows(part', next, partSize)
  {
    sent', partNumber', partOffset', part' := sent, partNumber, partOffset, part;
    if Overflows(part, next, partSize) {
      FlushPending(goal, sent, partNumber, partOffset, part, pieces, tail, partSize);
      sent' := sent + [SentPart(partNumber, partOffset, part)];
      partNumber', partOffset', part' := partNumber + 1, partOffset + |part|, [];
    }
  }

  lemma {:induction false} ChainStarts(s: seq<Span>, from: int, to: int, i: nat)
    requires Chained(s, from, to) && i < |s|
    ensures s[i].start == from + SpanTotal(s[..i])
  {
    if i > 0 {
      ChainStarts(s[1..], s[0].end + 1, to, i - 1);
      assert s[..i][1..] == s[1..][..i - 1];
    }
  }

  /** Record i is planned at the offset its ciphertext gets in the stream. */
  lemma RecordOffsets(c: Crypto, sources: seq<Source>, plan: Plan, json: Json, i: nat)
    requires Lawful(c) && PlanFor(plan, sources, json) && i < |plan.records|
    ensures AllRead(sources, plan.records)
    ensures plan.records[i].offset == |Flatten(Sealed(c, sources, plan.records)[..i])|
  {
    PlanReads(plan, sources, json);
    RecordsBounded(sources, |sources|);
    var spans := Spans(Chunks(plan.records));
    ChainTotal(spans, 0, plan.dataSize);
    SealedLength(c, sources, plan.records, i);
    ChainStarts(spans, 0, plan.dataSize, i);
  }

  /**
   * encryptAndQueueParts: the web app's partitioner. A part is a list of pieces, its offset is taken
   * from the record that opens it, and a part below the minimum is not flushed early.
   */
  method EncryptAndQueueParts(plan: Plan, sources: seq<Source>, c: Crypto, partSize: int, ghost json: Json)
    returns (r: Result<seq<SentPart>, BundleError>)
    requires Lawful(c) && PlanFor(plan, sources, json)
    ensures AllRead(sources, plan.records) && Tail(c, plan.manifestJson, |plan.records|).Ok?
    ensures r == Ok(PartsOf(c, sources, plan, partSize))
  {
    PlanReads(plan, sources, json);
    TailSize(c, plan.manifestJson, |plan.records|);
    ghost var tail := Tail(c, plan.manifestJson, |plan.records|).value;
    forall i | 0 <= i < |plan.records|
      ensures plan.records[i].offset == |Flatten(Sealed(c, sources, plan.records)[..i])|
    {
      RecordOffsets(c, sources, plan, json, i);
    }
    var ok, q := QueueRecords(plan, sources, c, partSize, tail);
    var manifestAndFooter := SealManifest(plan, c);
    if !ok || manifestAndFooter.Err? {
      return Err(ManifestSizeMismatch);
    }
    FinishPending(PartsOf(c, sources, plan, partSize), q.sent, q.partNumber, q.currentOffset, Flatten(q.currentParts),
                  tail, partSize);
    FlattenSnoc(q.currentParts, manifestAndFooter.value);
    var currentParts := q.currentParts + [manifestAndFooter.value];
    var last := FlushPart(true, q.partNumber, q.currentOffset, q.currentSize + |manifestAndFooter.value|, currentParts);
    r := Ok(q.sent + last);
  }

  lemma SealedNext(c: Crypto, sources: seq<Source>, records: seq<Record>, i: nat)
    requires Lawful(c) && AllRead(sources, records) && i < |records|
    ensures var sealed := Sealed(c, sources, records);
            && sealed[i..] != [] && sealed[i..][0] == sealed[i] == SealRecord(c, sources, records[i], i)
            && sealed[i..][1..] == sealed[i + 1..]
            && |sealed[i]| == records[i].length && |Flatten(sealed[..i + 1])| == |Flatten(sealed[..i])| + |sealed[i]|
  {
    var sealed := Sealed(c, sources, records);
    assert sealed[..i + 1] == sealed[..i] + [sealed[i]];
    FlattenSnoc(sealed[..i], sealed[i]);
  }

  /** The variables of the loop: parts queued, and the part being filled. */
  datatype Queue = Queue(sent: seq<SentPart>, partNumber: nat, currentOffset: nat, currentSize: nat,
                         currentParts: seq<Buffer>)

  ghost predicate Queued(q: Queue, goal: seq<SentPart>, sealed: seq<Buffer>, i: nat, tail: Buffer, partSize: int)
    requires i <= |sealed|
  {
    && q.currentSize == |Flatten(q.currentParts)| && (q.currentParts != [] <==> q.currentSize > 0)
    && q.currentOffset + q.currentSize == |Flatten(sealed[..i])|
    && Pending(goal, q.sent, q.partNumber, q.currentOffset, Flatten(q.currentParts), sealed[i..], tail, partSize)
  }

  method FlushFull(q: Queue, record: Record, partSize: int, ghost goal: seq<SentPart>, ghost sealed: seq<Buffer>,
                   ghost i: nat, ghost tail: Buffer)
    returns (q': Queue)
    requires i < |sealed| && Queued(q, goal, sealed, i, tail, partSize)
    requires |sealed[i]| == record.length && record.offset == |Flatten(sealed[..i])|
    ensures Queued(q', goal, sealed, i, tail, partSize)
    ensures !Overflows(Flatten(q'.currentParts), record.length, partSize)
  {
    q' := q;
    if q.currentParts != [] && q.currentSize + record.length > partSize && q.currentSize >= MIN_PART_BYTES {
      FlushPending(goal, q.sent, q.partNumber, q.currentOffset, Flatten(q.currentParts), sealed[i..], tail, partSize);
      var flushed := FlushPart(false, q.partNumber, q.currentOffset, q.currentSize, q.currentParts);
      q' := Queue(q.sent + flushed, q.partNumber + |flushed|, record.offset, 0, []);
    }
  }

  lemma QueueNext(q: Queue, encrypted: Buffer, goal: seq<SentPart>, sealed: seq<Buffer>, i: nat, tail: Buffer,
                  partSize: int)
    requires i < |sealed| && Queued(q, goal, sealed, i, tail, partSize) && encrypted == sealed[i] && |encrypted| > 0
    requires !Overflows(Flatten(q.currentParts), |encrypted|, partSize)
    requires |Flatten(sealed[..i + 1])| == |Flatten(sealed[..i])| + |encrypted|
    ensures Queued(q.(currentParts := q.currentParts + [encrypted], currentSize := q.currentSize + |encrypted|),
                   goal, sealed, i + 1, tail, partSize)
  {
    AppendSealed(goal, q.sent, q.partNumber, q.currentOffset, Flatten(q.currentParts), sealed, i, tail, partSize);
    FlattenSnoc(q.currentParts, encrypted);
  }

  /** Its loop over the records. */
  method QueueRecords(plan: Plan, sources: seq<Source>, c: Crypto, partSize: int, ghost tail: Buffer)
    returns (ok: bool, q: Queue)
    requires Lawful(c) && AllRead(sources, plan.records)
    requires forall i :: 0 <= i < |plan.records| ==>
              plan.records[i].offset == |Flatten(Sealed(c, sources, plan.records)[..i])|
    requires forall i :: 0 <= i < |plan.records| ==> plan.records[i].length > 0
    ensures ok
    ensures Queued(q, Numbered(Group(Sealed(c, sources, plan.records), [], tail, partSize), 1, 0),
                   Sealed(c, sources, plan.records), |plan.records|, tail, partSize)
  {
    ghost var sealed := Sealed(c, sources, plan.records);
    ghost var goal := Numbered(Group(sealed, [], tail, partSize), 1, 0);
    ok, q := true, Queue([], 1, 0, 0, []);
    assert sealed[0..] == sealed && sealed[..0] == [];
    for i := 0 to |plan.records|
      invariant ok && Queued(q, goal, sealed, i, tail, partSize)
    {
      var record := plan.records[i];
      SealedNext(c, sources, plan.records, i);
      q := FlushFull(q, record, partSize, goal, sealed, i, tail);
      var encrypted := SealRecord(c, sources, record, i);
      if |encrypted| != record.length {
        ok := false;
        return;
      }
      QueueNext(q, encrypted, goal, sealed, i, tail, partSize);
      q := q.(currentParts := q.currentParts + [encrypted], currentSize := q.currentSize + |encrypted|);
    }
  }

  /** flushPart: at most one part leaves. */
  method FlushPart(isFinal: bool, number: nat, offset: nat, size: nat, pieces: seq<Buffer>)
    returns (sent: seq<SentPart>)
    ensures sent == if pieces == [] || (!isFinal && size < MIN_PART_BYTES) then []
                    else [SentPart(number, offset, Flatten(pieces))]
  {
    if |pieces| == 0 {
      return [];
    }
    if !isFinal && size < MIN_PART_BYTES {
      return [];
    }
    sent := [SentPart(number, offset, Flatten(pieces))];
  }
}
