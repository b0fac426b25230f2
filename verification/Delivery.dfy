/**
 * The parts of an upload at the server: every part the partitioners emit passes every check, and
 * the object storage assembles is the bundle, in whatever order and however often parts arrive.
 */
module Delivery {
  import opened Bytes
  import opened Format
  import opened Sorting
  import opened Plan
  import opened Partition
  import opened PartLayout

  const MAX_FILE_SIZE := 1024 * 1024 * 1024

  // ------------------------------------------------------ what grouping yields

  lemma {:induction false} GroupFlattens(pieces: seq<Buffer>, current: Buffer, tail: Buffer, partSize: int)
    ensures Flatten(Group(pieces, current, tail, partSize)) == current + Flatten(pieces) + tail
  {
    if pieces == [] {
      FlattenSnoc([], current + tail);
      assert [] + [current + tail] == [current + tail];
    } else if Overflows(current, |pieces[0]|, partSize) {
      GroupFlattens(pieces[1..], pieces[0], tail, partSize);
      FlattenAppend([current], Group(pieces[1..], pieces[0], tail, partSize));
      FlattenSnoc([], current);
      assert [] + [current] == [current];
    } else {
      GroupFlattens(pieces[1..], current + pieces[0], tail, partSize);
    }
  }

  predicate SoundSizes(parts: seq<Buffer>) {
    && (forall i :: 0 <= i < |parts| ==> 1 <= |parts[i]| <= MAX_UPLOAD_PART)
    && (forall i :: 0 <= i < |parts| - 1 ==> |parts[i]| >= S3_MINIMUM_PART_SIZE)
  }

  lemma {:induction false} GroupSizes(pieces: seq<Buffer>, current: Buffer, tail: Buffer)
    requires forall i :: 0 <= i < |pieces| ==> 0 < |pieces[i]| <= CHUNK_SIZE + RECORD_OVERHEAD
    requires |current| <= PART_SIZE
    requires 0 < |tail| <= MAX_MANIFEST_BYTES + RECORD_OVERHEAD + FOOTER_LENGTH
    ensures SoundSizes(Group(pieces, current, tail, PART_SIZE))
  {
    if pieces != [] {
      if Overflows(current, |pieces[0]|, PART_SIZE) {
        GroupSizes(pieces[1..], pieces[0], tail);
      } else {
        GroupSizes(pieces[1..], current + pieces[0], tail);
      }
    }
  }

  lemma {:induction false} NumberedAt(parts: seq<Buffer>, number: nat, offset: nat, i: nat)
    requires i < |parts|
    ensures |Numbered(parts, number, offset)| == |parts|
    ensures Numbered(parts, number, offset)[i] == SentPart(number + i, offset + |Flatten(parts[..i])|, parts[i])
  {
    var rest := Numbered(parts[1..], number + 1, offset + |parts[0]|);
    if |parts| > 1 {
      NumberedAt(parts[1..], number + 1, offset + |parts[0]|, if i == 0 then 0 else i - 1);
    }
    if i > 0 {
      assert parts[..i][0] == parts[0] && parts[..i][1..] == parts[1..][..i - 1];
    }
  }

  // ------------------------------------------------------ rows of the parts table

  function Row(p: SentPart, etag: Buffer -> string): UploadPart
    requires p.offset + |p.data| <= MAX_INT64
  {
    UploadPart(p.number, p.offset, |p.data|, etag(p.data))
  }

  function Rows(sent: seq<SentPart>, etag: Buffer -> string): (rows: seq<UploadPart>)
    requires forall i :: 0 <= i < |sent| ==> sent[i].offset + |sent[i].data| <= MAX_INT64
    ensures |rows| == |sent|
  {
    seq(|sent|, i requires 0 <= i < |sent| => Row(sent[i], etag))
  }

  ghost predicate IsDelivery(parts: seq<Buffer>, sent: seq<SentPart>) {
    && sent == Numbered(parts, 1, 0) && parts != []
    && SoundSizes(parts) && |Flatten(parts)| <= MAX_INT64
  }

  lemma DeliveredAt(parts: seq<Buffer>, sent: seq<SentPart>, i: nat)
    requires IsDelivery(parts, sent) && i < |parts|
    ensures |sent| == |parts|
    ensures sent[i] == SentPart(i + 1, |Flatten(parts[..i])|, parts[i])
    ensures sent[i].offset + |sent[i].data| == |Flatten(parts[..i + 1])| <= |Flatten(parts)|
  {
    NumberedAt(parts, 1, 0, i);
    FlattenPrefix(parts, i);
    FlattenPrefix(parts, i + 1);
  }

  lemma {:induction false} RowsSizeBefore(parts: seq<Buffer>, sent: seq<SentPart>, etag: Buffer -> string, i: nat)
    requires IsDelivery(parts, sent) && i <= |parts|
    requires |sent| == |parts|
    requires forall k :: 0 <= k < |sent| ==> sent[k].offset + |sent[k].data| <= MAX_INT64
    ensures SizeBefore(Rows(sent, etag), i) == |Flatten(parts[..i])|
  {
    if i > 0 {
      RowsSizeBefore(parts, sent, etag, i - 1);
      DeliveredAt(parts, sent, i - 1);
    }
  }

  /** A delivery's rows are a layout of exactly its bytes. */
  lemma RowsAreLayout(parts: seq<Buffer>, sent: seq<SentPart>, etag: Buffer -> string)
    requires IsDelivery(parts, sent)
    ensures |sent| == |parts|
    ensures forall k :: 0 <= k < |sent| ==> sent[k].offset + |sent[k].data| <= MAX_INT64
    ensures Recorded(Rows(sent, etag)) && IsLayout(Rows(sent, etag), |Flatten(parts)|)
    ensures StrictlySortedBy(NumberOf, Rows(sent, etag))
  {
    DeliveredAt(parts, sent, 0);
    forall k | 0 <= k < |sent| ensures sent[k] == SentPart(k + 1, |Flatten(parts[..k])|, parts[k])
                               ensures sent[k].offset + |sent[k].data| <= MAX_INT64 {
      DeliveredAt(parts, sent, k);
    }
    var rows := Rows(sent, etag);
    forall i | 0 <= i < |rows| ensures Fits(rows, i) {
      RowsSizeBefore(parts, sent, etag, i);
    }
    RowsSizeBefore(parts, sent, etag, |parts|);
    assert parts[..|parts|] == parts;
  }

  /** The checks UploadPart makes before it stores a part. */
  predicate PartAdmitted(p: SentPart, blobSize: Int64) {
    && p.offset <= MAX_INT64 && 1 <= p.number <= MAX_PART_NUMBER
    && 0 < |p.data| <= MAX_UPLOAD_PART && |p.data| <= MAX_FILE_SIZE
    && ValidatePartPlacement(blobSize, p.number, p.offset, |p.data|).Ok?
  }

  /** A part is admitted exactly if storage can take it and, but for sums beyond 64 bits, it has a place in the blob. */
  lemma AdmittedExactly(p: SentPart, blobSize: Int64)
    requires 0 <= blobSize && p.offset + |p.data| <= MAX_INT64
    ensures PartAdmitted(p, blobSize) <==>
            && 1 <= p.number <= MAX_PART_NUMBER && 1 <= |p.data| <= MAX_UPLOAD_PART
            && (p.number - 1) * S3_MINIMUM_PART_SIZE <= p.offset && p.offset + |p.data| <= blobSize
            && (|p.data| < S3_MINIMUM_PART_SIZE ==> p.offset + |p.data| == blobSize)
            && (p.number == 1 || !CeilingWraps(blobSize))
  {
    if 1 <= p.number && 1 <= |p.data| {
      PlacementDecided(blobSize, p.number, p.offset, |p.data|);
    }
  }

  lemma DeliveryAdmitted(parts: seq<Buffer>, sent: seq<SentPart>, i: nat)
    requires IsDelivery(parts, sent) && |Flatten(parts)| <= MAX_FILE_SIZE && i < |parts|
    ensures |sent| == |parts| && PartAdmitted(sent[i], |Flatten(parts)|)
  {
    var etag := (b: Buffer) => "";
    RowsAreLayout(parts, sent, etag);
    DeliveredAt(parts, sent, i);
    LayoutPartsPlace(|Flatten(parts)|, Rows(sent, etag), i);
    PlacedNumber(|Flatten(parts)|, i + 1, sent[i].offset, |parts[i]|);
  }

  lemma PlacedNumber(blobSize: Int64, number: int, offset: Int64, size: Int64)
    requires blobSize <= MAX_FILE_SIZE && ValidatePartPlacement(blobSize, number, offset, size).Ok?
    ensures number <= MAX_PART_NUMBER
  {
  }

  /** The part passes the checks on arrival, and is the one sent under its number. */
  predicate Admissible(p: SentPart, sent: seq<SentPart>, blobSize: Int64) {
    && PartAdmitted(p, blobSize)
    && 1 <= p.number <= |sent| && sent[p.number - 1] == p && p.offset + |p.data| <= MAX_INT64
  }

  lemma ArrivalAdmitted(parts: seq<Buffer>, sent: seq<SentPart>, p: SentPart)
    requires IsDelivery(parts, sent) && |Flatten(parts)| <= MAX_FILE_SIZE && p in sent
    ensures Admissible(p, sent, |Flatten(parts)|)
  {
    var k :| 0 <= k < |sent| && sent[k] == p;
    DeliveredAt(parts, sent, 0);
    DeliveryAdmitted(parts, sent, k);
    DeliveredAt(parts, sent, k);
  }

  function Contents(sent: seq<SentPart>): seq<Buffer> {
    seq(|sent|, i requires 0 <= i < |sent| => sent[i].data)
  }

  /** Whatever the part size, the streamed parts concatenate to what Encrypt builds in memory. */
  lemma StreamedIsEncrypted(c: Crypto, sources: seq<Source>, plan: Plan, json: Json, partSize: int)
    requires Lawful(c) && PlanFor(plan, sources, json)
    ensures AllRead(sources, plan.records) && Tail(c, plan.manifestJson, |plan.records|).Ok?
    ensures Flatten(Contents(PartsOf(c, sources, plan, partSize))) == Bundle(c, sources, plan)
  {
    PlanReads(plan, sources, json);
    TailSize(c, plan.manifestJson, |plan.records|);
    var pieces, tail := Sealed(c, sources, plan.records), Tail(c, plan.manifestJson, |plan.records|).value;
    var parts := Group(pieces, [], tail, partSize);
    GroupFlattens(pieces, [], tail, partSize);
    assert [] + Flatten(pieces) == Flatten(pieces);
    NumberedAt(parts, 1, 0, 0);
    forall i | 0 <= i < |parts| ensures Numbered(parts, 1, 0)[i].data == parts[i] {
      NumberedAt(parts, 1, 0, i);
    }
    assert Contents(Numbered(parts, 1, 0)) == parts;
  }

  /** What either partitioner emits is a delivery of the bundle Encrypt builds. */
  lemma PlannedDelivery(c: Crypto, sources: seq<Source>, plan: Plan, json: Json) returns (parts: seq<Buffer>)
    requires Lawful(c) && PlanFor(plan, sources, json)
    ensures AllRead(sources, plan.records) && Tail(c, plan.manifestJson, |plan.records|).Ok?
    ensures IsDelivery(parts, PartsOf(c, sources, plan, PART_SIZE))
    ensures Flatten(parts) == Bundle(c, sources, plan)
    ensures |Flatten(parts)| == plan.totalSize
  {
    BundleSize(c, sources, plan, json);
    PiecesBounded(c, sources, plan, json);
    var pieces, tail := Sealed(c, sources, plan.records), Tail(c, plan.manifestJson, |plan.records|).value;
    parts := Group(pieces, [], tail, PART_SIZE);
    GroupFlattens(pieces, [], tail, PART_SIZE);
    GroupSizes(pieces, [], tail);
    assert [] + Flatten(pieces) == Flatten(pieces);
  }

  lemma PiecesBounded(c: Crypto, sources: seq<Source>, plan: Plan, json: Json)
    requires Lawful(c) && PlanFor(plan, sources, json)
    requires AllRead(sources, plan.records) && Tail(c, plan.manifestJson, |plan.records|).Ok?
    ensures var pieces := Sealed(c, sources, plan.records);
            forall i :: 0 <= i < |pieces| ==> 0 < |pieces[i]| <= CHUNK_SIZE + RECORD_OVERHEAD
    ensures 0 < |Tail(c, plan.manifestJson, |plan.records|).value|
              <= MAX_MANIFEST_BYTES + RECORD_OVERHEAD + FOOTER_LENGTH
  {
    PlanReads(plan, sources, json);
    TailSize(c, plan.manifestJson, |plan.records|);
    forall i | 0 <= i < |plan.records|
      ensures |Sealed(c, sources, plan.records)[i]| == plan.records[i].length
    {
      SealedNext(c, sources, plan.records, i);
    }
  }

  /**
   * For files that pass the 1 GiB estimate, every emitted part is admitted on arrival and the
   * recorded list is a layout of exactly the declared size.
   */
  lemma PlannedPartsAccepted(c: Crypto, sources: seq<Source>, plan: Plan, json: Json, etag: Buffer -> string)
    requires Lawful(c) && PlanFor(plan, sources, json)
    requires Base(sources, |sources|) + MAX_MANIFEST_BYTES + RECORD_OVERHEAD + FOOTER_LENGTH <= MAX_FILE_SIZE
    ensures AllRead(sources, plan.records) && Tail(c, plan.manifestJson, |plan.records|).Ok?
    ensures var sent := PartsOf(c, sources, plan, PART_SIZE);
            && (forall i :: 0 <= i < |sent| ==> PartAdmitted(sent[i], plan.totalSize))
            && (forall i :: 0 <= i < |sent| ==> sent[i].offset + |sent[i].data| <= MAX_INT64)
            && IsLayout(Rows(sent, etag), plan.totalSize)
  {
    var parts := PlannedDelivery(c, sources, plan, json);
    var sent := PartsOf(c, sources, plan, PART_SIZE);
    RowsAreLayout(parts, sent, etag);
    forall i | 0 <= i < |sent| ensures PartAdmitted(sent[i], plan.totalSize) {
      DeliveryAdmitted(parts, sent, i);
    }
  }

  // ------------------------------------------------------ receiving

  datatype ReceiveError = LayoutRefused

  /** A part row and the content storage holds for it. */
  datatype Slot = Slot(row: UploadPart, sha256: Buffer, content: Buffer)

  /** Row n is the part sent under that number, with its content. */
  ghost predicate HoldsPart(slots: map<nat, Slot>, sent: seq<SentPart>, c: Crypto, etag: Buffer -> string, n: nat)
    requires n in slots
    requires forall i :: 0 <= i < |sent| ==> sent[i].offset + |sent[i].data| <= MAX_INT64
  {
    1 <= n <= |sent| && slots[n] == Slot(Row(sent[n - 1], etag), c.sha256(sent[n - 1].data), sent[n - 1].data)
  }

  /** The recorded rows are distinct parts of the delivery, with their content. */
  ghost predicate Holds(slots: map<nat, Slot>, sent: seq<SentPart>, c: Crypto, etag: Buffer -> string)
    requires forall i :: 0 <= i < |sent| ==> sent[i].offset + |sent[i].data| <= MAX_INT64
  {
    forall n :: n in slots ==> HoldsPart(slots, sent, c, etag, n)
  }

  predicate SamePart(slot: Slot, p: SentPart, digest: Buffer) {
    slot.row.offset == p.offset && slot.row.size == |p.data| && slot.sha256 == digest
  }

  datatype PartAnswer = Accepted | Conflict

  /**
   * RecordUploadPart: read is the table as its locking read saw it, slots the table it inserts into, where
   * an overlapping request may have been first. The first content of a part number stays.
   */
  method RecordUploadPart(read: map<nat, Slot>, slots: map<nat, Slot>, p: SentPart, digest: Buffer,
                          etag: Buffer -> string)
    returns (answer: PartAnswer, slots': map<nat, Slot>)
    requires p.offset + |p.data| <= MAX_INT64
    requires forall n :: n in read ==> n in slots && slots[n] == read[n]
    ensures slots' == if p.number in slots then slots else slots[p.number := Slot(Row(p, etag), digest, p.data)]
    ensures answer == Accepted <==>
            if p.number in read then SamePart(read[p.number], p, digest) else p.number !in slots
  {
    if p.number in read {
      return if SamePart(read[p.number], p, digest) then Accepted else Conflict, slots;
    }
    if p.number in slots {
      return Conflict, slots;
    }
    return Accepted, slots[p.number := Slot(Row(p, etag), digest, p.data)];
  }

  /** How many earlier requests had recorded their part when request i read the table. */
  function ReadAfter(readAt: nat -> nat, i: nat): (k: nat)
    ensures k <= i
  {
    if readAt(i) <= i then readAt(i) else i
  }

  /** The table after the first k requests: their parts, once each, with their content. */
  ghost predicate RecordedUpTo(slots: map<nat, Slot>, arrived: seq<SentPart>, k: nat, sent: seq<SentPart>, c: Crypto,
                               etag: Buffer -> string)
    requires forall i :: 0 <= i < |sent| ==> sent[i].offset + |sent[i].data| <= MAX_INT64
  {
    k <= |arrived| && Holds(slots, sent, c, etag) && slots.Keys == Numbers(arrived[..k])
  }

  /** UploadPart for request i: checks, then the part is stored and recorded unless it already is. */
  method ReceivePart(history: seq<map<nat, Slot>>, blobSize: Int64, arrived: seq<SentPart>, i: nat, c: Crypto,
                     etag: Buffer -> string, readAt: nat -> nat, ghost sent: seq<SentPart>)
    returns (answer: PartAnswer, slots: map<nat, Slot>)
    requires forall k :: 0 <= k < |sent| ==> sent[k].offset + |sent[k].data| <= MAX_INT64
    requires i < |arrived| && Admissible(arrived[i], sent, blobSize)
    requires |history| == i + 1 && AllRecorded(history, arrived, sent, c, etag)
    ensures AllRecorded(history + [slots], arrived, sent, c, etag)
    ensures Answered(answer, arrived, readAt, i)
  {
    var p, read := arrived[i], history[ReadAfter(readAt, i)];
    slots := history[i];
    assert RecordedUpTo(slots, arrived, i, sent, c, etag);
    assert RecordedUpTo(read, arrived, ReadAfter(readAt, i), sent, c, etag);
    ArrivalKeys(read, slots, arrived, readAt, i);
    ArrivalAgrees(read, slots, sent, c, etag, p, blobSize);
    if PartAdmitted(p, blobSize) {
      answer, slots := RecordUploadPart(read, slots, p, c.sha256(p.data), etag);
    } else {
      answer := Conflict;
    }
    RecordedNext(history, slots, arrived, sent, c, etag);
  }

  /**
   * Any number of requests for the parts of one delivery, overlapping as readAt says. Conflict is answered
   * exactly when the same part was recorded between a request's read and its insert, and then the part is
   * there all the same.
   */
  method ReceiveParts(blobSize: Int64, arrived: seq<SentPart>, c: Crypto, etag: Buffer -> string, readAt: nat -> nat,
                      ghost sent: seq<SentPart>)
    returns (slots: map<nat, Slot>, answers: seq<PartAnswer>)
    requires forall i :: 0 <= i < |sent| ==> sent[i].offset + |sent[i].data| <= MAX_INT64
    requires forall i :: 0 <= i < |arrived| ==> Admissible(arrived[i], sent, blobSize)
    ensures Holds(slots, sent, c, etag) && slots.Keys == Numbers(arrived)
    ensures |answers| == |arrived|
    ensures forall i :: 0 <= i < |arrived| ==> (answers[i] == Conflict <==> Overtaken(arrived, readAt, i))
  {
    slots, answers := map[], [];
    var history := [slots];
    for i := 0 to |arrived|
      invariant |history| == i + 1 && history[i] == slots && |answers| == i
      invariant AllRecorded(history, arrived, sent, c, etag)
      invariant forall k :: 0 <= k < i ==> Answered(answers[k], arrived, readAt, k)
    {
      var answer;
      answer, slots := ReceivePart(history, blobSize, arrived, i, c, etag, readAt, sent);
      answers := answers + [answer];
      history := history + [slots];
    }
    assert RecordedUpTo(history[|arrived|], arrived, |arrived|, sent, c, etag);
    assert arrived[..|arrived|] == arrived;
  }

  predicate Answered(answer: PartAnswer, arrived: seq<SentPart>, readAt: nat -> nat, i: nat)
    requires i < |arrived|
  {
    answer == Conflict <==> Overtaken(arrived, readAt, i)
  }

  /** Each table of the history holds the parts of the requests before it. */
  ghost predicate AllRecorded(history: seq<map<nat, Slot>>, arrived: seq<SentPart>, sent: seq<SentPart>, c: Crypto,
                              etag: Buffer -> string)
    requires forall i :: 0 <= i < |sent| ==> sent[i].offset + |sent[i].data| <= MAX_INT64
  {
    forall k {:trigger RecordedUpTo(history[k], arrived, k, sent, c, etag)} :: 0 <= k < |history| ==>
      RecordedUpTo(history[k], arrived, k, sent, c, etag)
  }

  lemma RecordedNext(history: seq<map<nat, Slot>>, slots: map<nat, Slot>, arrived: seq<SentPart>, sent: seq<SentPart>,
                     c: Crypto, etag: Buffer -> string)
    requires forall i :: 0 <= i < |sent| ==> sent[i].offset + |sent[i].data| <= MAX_INT64
    requires AllRecorded(history, arrived, sent, c, etag) && RecordedUpTo(slots, arrived, |history|, sent, c, etag)
    ensures AllRecorded(history + [slots], arrived, sent, c, etag)
  {
    forall k | 0 <= k < |history + [slots]| ensures RecordedUpTo((history + [slots])[k], arrived, k, sent, c, etag) {
      assert k < |history| ==> RecordedUpTo(history[k], arrived, k, sent, c, etag);
    }
  }

  function Numbers(arrived: seq<SentPart>): set<nat> {
    set p | p in arrived :: p.number
  }

  /** The same part was recorded after request i read the table and before it inserted. */
  predicate Overtaken(arrived: seq<SentPart>, readAt: nat -> nat, i: nat)
    requires i < |arrived|
  {
    arrived[i].number in Numbers(arrived[..i]) && arrived[i].number !in Numbers(arrived[..ReadAfter(readAt, i)])
  }

  lemma NumbersNext(arrived: seq<SentPart>, i: nat)
    requires i < |arrived|
    ensures Numbers(arrived[..i + 1]) == Numbers(arrived[..i]) + {arrived[i].number}
  {
    assert arrived[..i + 1] == arrived[..i] + [arrived[i]];
  }

  lemma NumbersGrow(arrived: seq<SentPart>, k: nat, i: nat)
    requires k <= i <= |arrived|
    ensures Numbers(arrived[..k]) <= Numbers(arrived[..i])
  {
    assert arrived[..i] == arrived[..k] + arrived[k..i];
  }

  lemma ArrivalKeys(read: map<nat, Slot>, slots: map<nat, Slot>, arrived: seq<SentPart>, readAt: nat -> nat, i: nat)
    requires i < |arrived|
    requires read.Keys == Numbers(arrived[..ReadAfter(readAt, i)]) && slots.Keys == Numbers(arrived[..i])
    ensures read.Keys <= slots.Keys && slots.Keys + {arrived[i].number} == Numbers(arrived[..i + 1])
  {
    NumbersGrow(arrived, ReadAfter(readAt, i), i);
    NumbersNext(arrived, i);
  }

  /** A part of the delivery is the one any earlier row for it holds, and its row joins the others. */
  lemma ArrivalAgrees(read: map<nat, Slot>, slots: map<nat, Slot>, sent: seq<SentPart>, c: Crypto,
                      etag: Buffer -> string, p: SentPart, blobSize: Int64)
    requires forall k :: 0 <= k < |sent| ==> sent[k].offset + |sent[k].data| <= MAX_INT64
    requires Admissible(p, sent, blobSize) && read.Keys <= slots.Keys
    requires Holds(read, sent, c, etag) && Holds(slots, sent, c, etag)
    ensures forall n :: n in read ==> n in slots && slots[n] == read[n]
    ensures var slot := Slot(Row(p, etag), c.sha256(p.data), p.data);
            && (p.number in slots ==> slots[p.number] == slot)
            && (p.number in read ==> SamePart(read[p.number], p, slot.sha256))
            && Holds(slots[p.number := slot], sent, c, etag)
  {
    ReadKept(read, slots, sent, c, etag);
    assert p.number in slots ==> HoldsPart(slots, sent, c, etag, p.number);
    HoldsOneMore(slots, sent, c, etag, p);
  }

  lemma ReadKept(read: map<nat, Slot>, slots: map<nat, Slot>, sent: seq<SentPart>, c: Crypto, etag: Buffer -> string)
    requires forall k :: 0 <= k < |sent| ==> sent[k].offset + |sent[k].data| <= MAX_INT64
    requires Holds(read, sent, c, etag) && Holds(slots, sent, c, etag) && read.Keys <= slots.Keys
    ensures forall n :: n in read ==> n in slots && slots[n] == read[n]
  {
    forall n | n in read ensures n in slots && slots[n] == read[n] {
      assert HoldsPart(read, sent, c, etag, n) && HoldsPart(slots, sent, c, etag, n);
    }
  }

  lemma HoldsOneMore(slots: map<nat, Slot>, sent: seq<SentPart>, c: Crypto, etag: Buffer -> string, p: SentPart)
    requires forall k :: 0 <= k < |sent| ==> sent[k].offset + |sent[k].data| <= MAX_INT64
    requires Holds(slots, sent, c, etag) && 1 <= p.number <= |sent| && sent[p.number - 1] == p
    ensures Holds(slots[p.number := Slot(Row(p, etag), c.sha256(p.data), p.data)], sent, c, etag)
  {
    var more := slots[p.number := Slot(Row(p, etag), c.sha256(p.data), p.data)];
    forall n | n in more ensures HoldsPart(more, sent, c, etag, n) {
      assert n != p.number ==> HoldsPart(slots, sent, c, etag, n);
    }
  }

  /** ListUploadPartsBySession: the rows in order of part number. */
  method ListParts(slots: map<nat, Slot>, ghost sent: seq<SentPart>, ghost c: Crypto, ghost etag: Buffer -> string)
    returns (rows: seq<UploadPart>)
    requires forall i :: 0 <= i < |sent| ==> sent[i].offset + |sent[i].data| <= MAX_INT64
    requires Holds(slots, sent, c, etag) && |sent| <= MAX_PART_NUMBER
    requires forall n :: 1 <= n <= |sent| ==> n in slots
    ensures rows == Rows(sent, etag)
  {
    rows := [];
    for n := 1 to MAX_PART_NUMBER + 1
      invariant rows == Rows(sent[..if n - 1 <= |sent| then n - 1 else |sent|], etag)
    {
      if n in slots {
        rows := rows + [slots[n].row];
      }
    }
    assert sent[..|sent|] == sent;
  }

  /** CompleteMultipartUpload: storage joins the listed parts in order. */
  method Assemble(completed: seq<CompletedPart>, slots: map<nat, Slot>, ghost parts: seq<Buffer>) returns (blob: Buffer)
    requires |completed| == |parts|
    requires forall i :: 0 <= i < |parts| ==>
      completed[i].number == i + 1 && i + 1 in slots && slots[i + 1].content == parts[i]
    ensures blob == Flatten(parts)
  {
    blob := [];
    for i := 0 to |completed|
      invariant blob == Flatten(parts[..i])
    {
      assert parts[..i + 1] == parts[..i] + [parts[i]];
      FlattenSnoc(parts[..i], parts[i]);
      blob := blob + slots[completed[i].number].content;
    }
    assert parts[..|parts|] == parts;
  }

  lemma DeliveryCount(parts: seq<Buffer>, sent: seq<SentPart>)
    requires IsDelivery(parts, sent) && |Flatten(parts)| <= MAX_FILE_SIZE
    ensures |sent| == |parts| <= MAX_PART_NUMBER
  {
    DeliveryAdmitted(parts, sent, |parts| - 1);
    DeliveredAt(parts, sent, |parts| - 1);
  }

  /** The server's side of one upload, from the first part to the stored object. */
  method ServeUpload(blobSize: Int64, arrived: seq<SentPart>, c: Crypto, etag: Buffer -> string, readAt: nat -> nat,
                     ghost parts: seq<Buffer>, ghost sent: seq<SentPart>)
    returns (r: Result<Buffer, ReceiveError>)
    requires IsDelivery(parts, sent) && |Flatten(parts)| == blobSize <= MAX_FILE_SIZE
    requires forall p :: p in arrived <==> p in sent
    ensures r == Ok(Flatten(parts))
  {
    RowsAreLayout(parts, sent, etag);
    DeliveryCount(parts, sent);
    forall p | p in arrived ensures Admissible(p, sent, blobSize) {
      ArrivalAdmitted(parts, sent, p);
    }
    var slots, _ := ReceiveParts(blobSize, arrived, c, etag, readAt, sent);
    forall n | 1 <= n <= |sent| ensures n in slots {
      DeliveredAt(parts, sent, n - 1);
      assert sent[n - 1] in arrived;
    }
    r := CompleteUpload(blobSize, slots, c, etag, parts, sent);
  }

  /** CompleteUpload's part in it: the recorded list is validated and storage joins the parts. */
  method CompleteUpload(blobSize: Int64, slots: map<nat, Slot>, ghost c: Crypto, ghost etag: Buffer -> string,
                        ghost parts: seq<Buffer>, ghost sent: seq<SentPart>)
    returns (r: Result<Buffer, ReceiveError>)
    requires IsDelivery(parts, sent) && |Flatten(parts)| == blobSize <= MAX_FILE_SIZE
    requires forall i :: 0 <= i < |sent| ==> sent[i].offset + |sent[i].data| <= MAX_INT64
    requires Holds(slots, sent, c, etag) && forall n :: 1 <= n <= |sent| ==> n in slots
    ensures r == Ok(Flatten(parts))
  {
    RowsAreLayout(parts, sent, etag);
    DeliveryCount(parts, sent);
    var rows := ListParts(slots, sent, c, etag);
    SortRestores(NumberOf, rows, rows);
    var completed := ValidateUploadParts(blobSize, rows);
    if completed.Err? {
      return Err(LayoutRefused);
    }
    RowNumbers(parts, sent, etag);
    forall i | 0 <= i < |parts| ensures i + 1 in slots && slots[i + 1].content == parts[i] {
      DeliveredAt(parts, sent, i);
      assert HoldsPart(slots, sent, c, etag, i + 1);
    }
    var blob := Assemble(completed.value, slots, parts);
    r := Ok(blob);
  }

  lemma RowNumbers(parts: seq<Buffer>, sent: seq<SentPart>, etag: Buffer -> string)
    requires IsDelivery(parts, sent)
    ensures |sent| == |parts|
    ensures forall k :: 0 <= k < |sent| ==> sent[k].offset + |sent[k].data| <= MAX_INT64
    ensures forall i :: 0 <= i < |parts| ==> Completed(Rows(sent, etag))[i].number == i + 1
  {
    RowsAreLayout(parts, sent, etag);
    forall i | 0 <= i < |parts| ensures Completed(Rows(sent, etag))[i].number == i + 1 {
      DeliveredAt(parts, sent, i);
    }
  }
}
