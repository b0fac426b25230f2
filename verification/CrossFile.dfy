/**
 * The web app's reader (decryptBundleFiles and coalesceChunks in web/frontend/src/lib/bundle.ts):
 * the chunks of any selection of files are sorted by offset and coalesced across file boundaries.
 */
module CrossFile {
  import opened Bytes
  import opened Format
  import opened Sorting
  import opened Manifest
  import opened Partition
  import opened Reader
  import opened Plan
  import opened RangeHeader
  import opened RoundTrip

  /** A chunk of the slot-th selected file. */
  datatype Ref = Ref(slot: nat, file: File, chunk: Chunk)
  datatype Group = Group(refs: seq<Ref>, offset: int, length: int, plaintextSize: int)

  function OffsetOf(r: Ref): int {
    r.chunk.offset
  }

  function FileRefs(slot: nat, file: File, n: nat): (r: seq<Ref>)
    requires n <= |file.chunks|
    ensures |r| == n
  {
    seq(n, j requires 0 <= j < n => Ref(slot, file, file.chunks[j]))
  }

  function AllRefs(files: seq<File>, n: nat): seq<Ref>
    requires n <= |files|
  {
    if n == 0 then [] else AllRefs(files, n - 1) + FileRefs(n - 1, files[n - 1], |files[n - 1].chunks|)
  }

  // ------------------------------------------------------ what the refs of a slot open to

  function OpenRef(blob: Buffer, c: Crypto, r: Ref): Buffer {
    if 0 <= r.chunk.offset <= r.chunk.offset + r.chunk.length <= |blob| then
      match c.open(ChunkAad(r.file.index, r.chunk.index, r.chunk.plaintextSize),
                   blob[r.chunk.offset..r.chunk.offset + r.chunk.length])
      case Some(plain) => plain
      case None => []
    else []
  }

  /** The plaintext of a slot's refs, in the order of the list. */
  function Collect(blob: Buffer, c: Crypto, refs: seq<Ref>, slot: nat): Buffer {
    if refs == [] then []
    else Collect(blob, c, refs[..|refs| - 1], slot)
         + (if refs[|refs| - 1].slot == slot then OpenRef(blob, c, refs[|refs| - 1]) else [])
  }

  lemma {:induction false} CollectAppend(blob: Buffer, c: Crypto, a: seq<Ref>, b: seq<Ref>, slot: nat)
    ensures Collect(blob, c, a + b, slot) == Collect(blob, c, a, slot) + Collect(blob, c, b, slot)
  {
    if b == [] {
      assert a + b == a;
    } else {
      assert (a + b)[..|a + b| - 1] == a + b[..|b| - 1];
      CollectAppend(blob, c, a, b[..|b| - 1], slot);
    }
  }

  lemma CollectOne(blob: Buffer, c: Crypto, r: Ref, slot: nat)
    ensures Collect(blob, c, [r], slot) == if r.slot == slot then OpenRef(blob, c, r) else []
  {
    assert [r][..0] == [];
  }

  /** Within a slot, refs are listed by offset. */
  ghost predicate SlotOrdered(refs: seq<Ref>) {
    forall i, j :: 0 <= i < j < |refs| && refs[i].slot == refs[j].slot ==> refs[i].chunk.offset <= refs[j].chunk.offset
  }

  lemma CollectsSwap(blob: Buffer, c: Crypto, x: Ref, y: Ref, rest: seq<Ref>, slot: nat)
    requires x.slot != y.slot
    ensures Collect(blob, c, [y], slot) + Collect(blob, c, [x] + rest, slot)
            == Collect(blob, c, [x] + ([y] + rest), slot)
  {
    CollectAppend(blob, c, [x], rest, slot);
    CollectAppend(blob, c, [x], [y] + rest, slot);
    CollectAppend(blob, c, [y], rest, slot);
    CollectOne(blob, c, x, slot);
    CollectOne(blob, c, y, slot);
    OneEmptySwaps(Collect(blob, c, [x], slot), Collect(blob, c, [y], slot), Collect(blob, c, rest, slot));
  }

  lemma OneEmptySwaps(a: Buffer, b: Buffer, rest: Buffer)
    requires a == [] || b == []
    ensures b + (a + rest) == a + (b + rest)
  {
  }

  lemma {:induction false} InsertCollects(blob: Buffer, c: Crypto, x: Ref, s: seq<Ref>, slot: nat)
    requires forall y :: y in s && y.slot == x.slot ==> x.chunk.offset <= y.chunk.offset
    ensures Collect(blob, c, Insert(OffsetOf, x, s), slot) == Collect(blob, c, [x] + s, slot)
  {
    if s == [] {
      assert [x] + s == [x];
    } else if OffsetOf(x) > OffsetOf(s[0]) {
      var y, rest := s[0], s[1..];
      assert s == [y] + rest && y in s;
      InsertCollects(blob, c, x, rest, slot);
      CollectAppend(blob, c, [y], Insert(OffsetOf, x, rest), slot);
      CollectsSwap(blob, c, x, y, rest, slot);
    }
  }

  lemma FirstIsLeast(refs: seq<Ref>)
    requires refs != [] && SlotOrdered(refs)
    ensures forall y :: y in Sort(OffsetOf, refs[1..]) && y.slot == refs[0].slot ==>
              refs[0].chunk.offset <= y.chunk.offset
  {
    var x, rest := refs[0], refs[1..];
    SortMembers(OffsetOf, rest);
    forall y | y in rest && y.slot == x.slot ensures x.chunk.offset <= y.chunk.offset {
      var j :| 0 <= j < |rest| && rest[j] == y;
      assert refs[j + 1] == y;
    }
  }

  /** Sorting by offset leaves each file's bytes in order. */
  lemma {:induction false} SortCollects(blob: Buffer, c: Crypto, refs: seq<Ref>, slot: nat)
    requires SlotOrdered(refs)
    ensures Collect(blob, c, Sort(OffsetOf, refs), slot) == Collect(blob, c, refs, slot)
  {
    if refs != [] {
      var x, rest := refs[0], refs[1..];
      SortCollects(blob, c, rest, slot);
      FirstIsLeast(refs);
      InsertCollects(blob, c, x, Sort(OffsetOf, rest), slot);
      CollectAppend(blob, c, [x], Sort(OffsetOf, rest), slot);
      CollectAppend(blob, c, [x], rest, slot);
      assert refs == [x] + rest;
    }
  }

  // ------------------------------------------------------ coalescing

  function LengthTotal(refs: seq<Ref>): int {
    if refs == [] then 0 else LengthTotal(refs[..|refs| - 1]) + refs[|refs| - 1].chunk.length
  }

  function PlainTotal(refs: seq<Ref>): int {
    if refs == [] then 0 else PlainTotal(refs[..|refs| - 1]) + refs[|refs| - 1].chunk.plaintextSize
  }

  /** The chunks lie back to back from the group's offset; more than one only within the limit. */
  ghost predicate GroupSound(g: Group, limit: int) {
    && g.refs != []
    && (forall i :: 0 <= i < |g.refs| ==> g.refs[i].chunk.offset == g.offset + LengthTotal(g.refs[..i]))
    && g.length == LengthTotal(g.refs) && g.plaintextSize == PlainTotal(g.refs)
    && (|g.refs| > 1 ==> g.plaintextSize <= limit)
  }

  function Refs(groups: seq<Group>): seq<Ref> {
    if groups == [] then [] else Refs(groups[..|groups| - 1]) + groups[|groups| - 1].refs
  }

  lemma GroupOfOne(r: Ref, limit: int)
    ensures GroupSound(Group([r], r.chunk.offset, r.chunk.length, r.chunk.plaintextSize), limit)
  {
    assert [r][..0] == [];
  }

  lemma GroupExtended(g: Group, r: Ref, limit: int)
    requires GroupSound(g, limit) && r.chunk.offset == g.offset + g.length
    requires g.plaintextSize + r.chunk.plaintextSize <= limit
    ensures GroupSound(Group(g.refs + [r], g.offset, g.length + r.chunk.length,
                             g.plaintextSize + r.chunk.plaintextSize), limit)
  {
    var refs := g.refs + [r];
    assert refs[..|refs| - 1] == g.refs;
    forall i | 0 <= i < |refs| ensures refs[i].chunk.offset == g.offset + LengthTotal(refs[..i]) {
      if i < |g.refs| {
        assert refs[..i] == g.refs[..i];
      }
    }
  }

  ghost predicate AllSound(groups: seq<Group>, limit: int) {
    forall g :: g in groups ==> GroupSound(g, limit)
  }

  lemma GroupAdded(groups: seq<Group>, g: Group, limit: int)
    requires AllSound(groups, limit) && GroupSound(g, limit)
    ensures AllSound(groups + [g], limit) && Refs(groups + [g]) == Refs(groups) + g.refs
  {
    assert (groups + [g])[..|groups|] == groups;
  }

  /** The next group begins elsewhere than this one ends, or its first chunk no longer fits. */
  predicate Apart(g: Group, next: Group, limit: int) {
    next.refs != [] ==>
      var r := next.refs[0];
      r.chunk.offset != g.offset + g.length || g.plaintextSize + r.chunk.plaintextSize > limit
  }

  ghost predicate AllApart(groups: seq<Group>, limit: int) {
    forall k :: 0 < k < |groups| ==> Apart(groups[k - 1], groups[k], limit)
  }

  lemma ApartAdded(groups: seq<Group>, g: Group, limit: int)
    requires AllApart(groups, limit) && (groups != [] ==> Apart(groups[|groups| - 1], g, limit))
    ensures AllApart(groups + [g], limit)
  {
  }

  lemma ApartExtended(groups: seq<Group>, extended: Group, limit: int)
    requires groups != [] && AllApart(groups, limit)
    requires groups[|groups| - 1].refs != [] && extended.refs != [] && extended.refs[0] == groups[|groups| - 1].refs[0]
    ensures AllApart(groups[..|groups| - 1] + [extended], limit)
  {
    var longer := groups[..|groups| - 1] + [extended];
    forall k | 0 < k < |longer| ensures Apart(longer[k - 1], longer[k], limit) {
      assert Apart(groups[k - 1], groups[k], limit);
    }
  }

  /** coalesceChunks: each ref joins the last group or opens a new one. */
  method CoalesceChunks(refs: seq<Ref>, limit: int) returns (groups: seq<Group>)
    ensures Refs(groups) == refs && AllSound(groups, limit) && AllApart(groups, limit)
  {
    groups := [];
    for i := 0 to |refs|
      invariant Refs(groups) == refs[..i] && AllSound(groups, limit) && AllApart(groups, limit)
    {
      var r := refs[i];
      assert refs[..i + 1] == refs[..i] + [r];
      if |groups| == 0
         || r.chunk.offset != groups[|groups| - 1].offset + groups[|groups| - 1].length
         || groups[|groups| - 1].plaintextSize + r.chunk.plaintextSize > limit {
        var opening := Group([r], r.chunk.offset, r.chunk.length, r.chunk.plaintextSize);
        GroupOfOne(r, limit);
        GroupAdded(groups, opening, limit);
        ApartAdded(groups, opening, limit);
        groups := groups + [opening];
      } else {
        var earlier, previous := groups[..|groups| - 1], groups[|groups| - 1];
        var extended := Group(previous.refs + [r], previous.offset,
                              previous.length + r.chunk.length, previous.plaintextSize + r.chunk.plaintextSize);
        assert previous in groups;
        GroupExtended(previous, r, limit);
        GroupAdded(earlier, extended, limit);
        ApartExtended(groups, extended, limit);
        groups := earlier + [extended];
      }
    }
    assert refs[..|refs|] == refs;
  }

  // ------------------------------------------------------ decrypting groups

  ghost predicate RefSound(blob: Buffer, c: Crypto, r: Ref) {
    && 0 <= r.chunk.offset < r.chunk.offset + r.chunk.length <= |blob| <= MAX_INT64
    && c.open(ChunkAad(r.file.index, r.chunk.index, r.chunk.plaintextSize),
              blob[r.chunk.offset..r.chunk.offset + r.chunk.length]) == Some(OpenRef(blob, c, r))
    && |OpenRef(blob, c, r)| == r.chunk.plaintextSize <= CHUNK_SIZE
    && r.chunk.length == r.chunk.plaintextSize + RECORD_OVERHEAD
  }

  ghost predicate RefsSound(blob: Buffer, c: Crypto, refs: seq<Ref>, slots: map<int, nat>, count: nat) {
    forall r :: r in refs ==> RefSound(blob, c, r) && r.file.index in slots && slots[r.file.index] == r.slot < count
  }

  /** A fetcher that answers every range of the blob. */
  ghost predicate ServesAll(fetch: RangeFetcher, blob: Buffer) {
    forall start: Int64, end: Int64 :: 0 <= start <= end < |blob| ==> fetch(start, end) == Ok(blob[start..end + 1])
  }

  /** ... or the server, when the limit leaves room for count records within one range. */
  ghost predicate Answers(fetch: RangeFetcher, blob: Buffer, limit: int, count: nat) {
    ServesAll(fetch, blob) || (Serves(fetch, blob) && limit + count * RECORD_OVERHEAD <= MAX_RANGE_BYTES)
  }

  lemma {:induction false} LengthPositive(blob: Buffer, c: Crypto, refs: seq<Ref>)
    requires forall r :: r in refs ==> RefSound(blob, c, r)
    ensures LengthTotal(refs) >= |refs|
  {
    if refs != [] {
      assert refs[|refs| - 1] in refs;
      LengthPositive(blob, c, refs[..|refs| - 1]);
    }
  }

  /** A sound group's bytes lie inside the blob. */
  lemma GroupInside(blob: Buffer, c: Crypto, g: Group, limit: int)
    requires GroupSound(g, limit)
    requires forall r :: r in g.refs ==> RefSound(blob, c, r)
    ensures 0 <= g.offset < g.offset + g.length <= |blob| <= MAX_INT64
  {
    var n := |g.refs| - 1;
    assert g.refs[0] in g.refs && g.refs[n] in g.refs;
    assert g.refs[..0] == [];
    LengthPositive(blob, c, g.refs);
    assert g.refs[n].chunk.offset == g.offset + LengthTotal(g.refs[..n]);
  }

  lemma {:induction false} GroupLength(blob: Buffer, c: Crypto, refs: seq<Ref>)
    requires forall r :: r in refs ==> RefSound(blob, c, r)
    ensures LengthTotal(refs) == PlainTotal(refs) + |refs| * RECORD_OVERHEAD
  {
    if refs != [] {
      GroupLength(blob, c, refs[..|refs| - 1]);
      assert refs[|refs| - 1] in refs;
    }
  }

  /** A coalesced group travels as one range, which the server accepts exactly when its records fit. */
  lemma GroupServable(blob: Buffer, c: Crypto, g: Group, limit: int)
    requires GroupSound(g, limit) && forall r :: r in g.refs ==> RefSound(blob, c, r)
    ensures Servable(g.offset, g.offset + g.length - 1, |blob|) <==>
            g.plaintextSize + |g.refs| * RECORD_OVERHEAD <= MAX_RANGE_BYTES
  {
    GroupLength(blob, c, g.refs);
    GroupInside(blob, c, g, limit);
  }

  /** One range request, whose answer must have the group's length. */
  function FetchGroup(fetch: RangeFetcher, g: Group): Result<Buffer, ReadError> {
    if !(-MAX_INT64 <= g.offset <= MAX_INT64 && 0 < g.length && g.offset + g.length - 1 <= MAX_INT64)
    then Err(RangeMismatch)
    else
      match fetch(g.offset, g.offset + g.length - 1)
      case Err(_) => Err(FetchFailed)
      case Ok(encrypted) => if |encrypted| != g.length then Err(RangeMismatch) else Ok(encrypted)
  }

  lemma GroupFetchedExactly(fetch: RangeFetcher, g: Group, b: Buffer)
    requires 0 <= g.offset < g.offset + g.length <= MAX_INT64
    ensures FetchGroup(fetch, g) == Ok(b) <==> fetch(g.offset, g.offset + g.length - 1) == Ok(b) && |b| == g.length
  {
  }

  /** Under the limit, every group of at most count records is answered. */
  lemma GroupAnswered(fetch: RangeFetcher, blob: Buffer, c: Crypto, g: Group, limit: int, count: nat)
    requires Answers(fetch, blob, limit, count) && GroupSound(g, limit) && |g.refs| <= count
    requires forall r :: r in g.refs ==> RefSound(blob, c, r)
    ensures 0 <= g.offset < g.offset + g.length <= |blob| <= MAX_INT64
    ensures FetchGroup(fetch, g) == Ok(blob[g.offset..g.offset + g.length])
  {
    GroupInside(blob, c, g, limit);
    GroupServable(blob, c, g, limit);
    GroupWithin(blob, c, g, limit, count);
  }

  /** A single record always fits one range; more of them do under the limit. */
  lemma GroupWithin(blob: Buffer, c: Crypto, g: Group, limit: int, count: nat)
    requires GroupSound(g, limit) && |g.refs| <= count
    requires forall r :: r in g.refs ==> RefSound(blob, c, r)
    ensures limit + count * RECORD_OVERHEAD <= MAX_RANGE_BYTES ==>
              g.plaintextSize + |g.refs| * RECORD_OVERHEAD <= MAX_RANGE_BYTES
  {
    assert g.refs[0] in g.refs;
    if |g.refs| == 1 {
      assert g.refs == [g.refs[0]] && g.refs[..0] == [];
      assert PlainTotal(g.refs) == g.refs[0].chunk.plaintextSize;
    }
  }

  lemma {:induction false} PrefixWithin(blob: Buffer, c: Crypto, refs: seq<Ref>, i: nat)
    requires i < |refs| && forall r :: r in refs ==> RefSound(blob, c, r)
    ensures 0 <= LengthTotal(refs[..i])
    ensures LengthTotal(refs[..i + 1]) == LengthTotal(refs[..i]) + refs[i].chunk.length <= LengthTotal(refs)
    decreases |refs|
  {
    assert refs[..i + 1][..i] == refs[..i];
    LengthPositive(blob, c, refs[..i]);
    if i + 1 == |refs| {
      assert refs[..i + 1] == refs;
    } else {
      var shorter := refs[..|refs| - 1];
      PrefixWithin(blob, c, shorter, i);
      assert shorter[..i] == refs[..i] && shorter[..i + 1] == refs[..i + 1];
      assert refs[|refs| - 1] in refs;
    }
  }

  lemma GroupBounds(blob: Buffer, c: Crypto, g: Group, limit: int, i: nat)
    requires GroupSound(g, limit) && i < |g.refs|
    requires forall r :: r in g.refs ==> RefSound(blob, c, r)
    ensures var r, cursor := g.refs[i], LengthTotal(g.refs[..i]);
            && 0 <= g.offset <= g.offset + g.length <= |blob|
            && 0 <= cursor <= cursor + r.chunk.length <= g.length
            && LengthTotal(g.refs[..i + 1]) == cursor + r.chunk.length
            && r.chunk.offset == g.offset + cursor && r.chunk.length > 0
  {
    GroupInside(blob, c, g, limit);
    PrefixWithin(blob, c, g.refs, i);
    assert g.refs[i] in g.refs;
  }

  /** Where ref i lies in the fetched group. */
  lemma GroupSlice(blob: Buffer, c: Crypto, g: Group, limit: int, i: nat)
    requires GroupSound(g, limit) && i < |g.refs|
    requires forall r :: r in g.refs ==> RefSound(blob, c, r)
    ensures var r, cursor := g.refs[i], LengthTotal(g.refs[..i]);
            && 0 <= g.offset <= g.offset + g.length <= |blob|
            && 0 <= cursor <= cursor + r.chunk.length <= g.length
            && LengthTotal(g.refs[..i + 1]) == cursor + r.chunk.length
            && blob[g.offset..g.offset + g.length][cursor..cursor + r.chunk.length]
               == blob[r.chunk.offset..r.chunk.offset + r.chunk.length]
  {
    GroupBounds(blob, c, g, limit, i);
    RefSlice(blob, g, g.refs[i].chunk, LengthTotal(g.refs[..i]));
  }

  lemma RefSlice(blob: Buffer, g: Group, chunk: Chunk, cursor: int)
    requires 0 <= g.offset <= g.offset + g.length <= |blob| && 0 <= cursor <= cursor + chunk.length <= g.length
    requires chunk.offset == g.offset + cursor && chunk.length >= 0
    ensures blob[g.offset..g.offset + g.length][cursor..cursor + chunk.length]
            == blob[chunk.offset..chunk.offset + chunk.length]
  {
    SliceAt(blob, g.offset, g.length, cursor, chunk.length);
  }

  ghost predicate Collected(parts: seq<Buffer>, blob: Buffer, c: Crypto, refs: seq<Ref>) {
    forall slot :: 0 <= slot < |parts| ==> parts[slot] == Collect(blob, c, refs, slot)
  }

  lemma CollectedNext(parts: seq<Buffer>, blob: Buffer, c: Crypto, refs: seq<Ref>, i: nat)
    requires i < |refs| && refs[i].slot < |parts| && Collected(parts, blob, c, refs[..i])
    ensures Collected(parts[refs[i].slot := parts[refs[i].slot] + OpenRef(blob, c, refs[i])], blob, c, refs[..i + 1])
  {
    assert refs[..i + 1][..i] == refs[..i];
  }

  /** One record out of the fetched group. */
  function DecryptRef(encrypted: Buffer, c: Crypto, r: Ref, cursor: int): Result<Buffer, ReadError> {
    if !(0 <= cursor <= cursor + r.chunk.length <= |encrypted|) then Err(RangeMismatch)
    else
      match c.open(ChunkAad(r.file.index, r.chunk.index, r.chunk.plaintextSize),
                   encrypted[cursor..cursor + r.chunk.length])
      case None => Err(DecryptFailed)
      case Some(plaintext) => if |plaintext| != r.chunk.plaintextSize then Err(InvalidManifest) else Ok(plaintext)
  }

  /** The group is sound and encrypted holds its bytes. */
  ghost predicate Fetched(encrypted: Buffer, blob: Buffer, c: Crypto, g: Group, slots: map<int, nat>, count: nat,
                          limit: int) {
    && GroupSound(g, limit) && RefsSound(blob, c, g.refs, slots, count)
    && 0 <= g.offset <= g.offset + g.length <= |blob| && encrypted == blob[g.offset..g.offset + g.length]
  }

  lemma FetchedRef(encrypted: Buffer, blob: Buffer, c: Crypto, g: Group, slots: map<int, nat>, count: nat, limit: int,
                   i: nat)
    requires Fetched(encrypted, blob, c, g, slots, count, limit) && i < |g.refs|
    ensures var r, cursor := g.refs[i], LengthTotal(g.refs[..i]);
            && LengthTotal(g.refs[..i + 1]) == cursor + r.chunk.length
            && DecryptRef(encrypted, c, r, cursor) == Ok(OpenRef(blob, c, r))
            && r.file.index in slots && slots[r.file.index] == r.slot < count
  {
    assert g.refs[i] in g.refs;
    GroupSlice(blob, c, g, limit, i);
  }

  /** The first i records of the group are opened into the parts. */
  ghost predicate Distributed(parts: seq<Buffer>, cursor: int, blob: Buffer, c: Crypto, g: Group, i: nat) {
    i <= |g.refs| && cursor == LengthTotal(g.refs[..i]) && Collected(parts, blob, c, g.refs[..i])
  }

  lemma RefDistributed(parts: seq<Buffer>, cursor: int, encrypted: Buffer, blob: Buffer, c: Crypto, g: Group,
                       slots: map<int, nat>, limit: int, i: nat)
    requires Fetched(encrypted, blob, c, g, slots, |parts|, limit) && i < |g.refs|
             && Distributed(parts, cursor, blob, c, g, i)
    ensures var r := g.refs[i];
            var plaintext := DecryptRef(encrypted, c, r, cursor);
            && plaintext.Ok? && r.file.index in slots && slots[r.file.index] < |parts|
            && Distributed(parts[slots[r.file.index] := parts[slots[r.file.index]] + plaintext.value],
                           cursor + r.chunk.length, blob, c, g, i + 1)
  {
    FetchedRef(encrypted, blob, c, g, slots, |parts|, limit, i);
    CollectedNext(parts, blob, c, g.refs, i);
  }

  /** No part of b opens as one of these refs to anything but what it opens to in the bundle. */
  ghost predicate RefGenuine(b: Buffer, blob: Buffer, c: Crypto, r: Ref) {
    forall from: nat, to: nat | from <= to <= |b| ::
      var plain := c.open(ChunkAad(r.file.index, r.chunk.index, r.chunk.plaintextSize), b[from..to]);
      plain.Some? ==> plain.value == OpenRef(blob, c, r)
  }

  /** The refs are of the selection, and b holds no forgeries of them. */
  ghost predicate RefsGenuine(b: Buffer, blob: Buffer, c: Crypto, refs: seq<Ref>, slots: map<int, nat>) {
    forall r {:trigger RefGenuine(b, blob, c, r)} | r in refs ::
      RefGenuine(b, blob, c, r) && r.file.index in slots && slots[r.file.index] == r.slot
  }

  lemma RefDistributedGenuine(parts: seq<Buffer>, cursor: int, encrypted: Buffer, blob: Buffer, c: Crypto,
                              refs: seq<Ref>, slots: map<int, nat>, i: nat)
    requires i < |refs| && RefsGenuine(encrypted, blob, c, refs, slots) && Collected(parts, blob, c, refs[..i])
    requires DecryptRef(encrypted, c, refs[i], cursor).Ok? && refs[i].file.index in slots
    requires slots[refs[i].file.index] < |parts|
    ensures var slot := slots[refs[i].file.index];
            Collected(parts[slot := parts[slot] + DecryptRef(encrypted, c, refs[i], cursor).value], blob, c,
                      refs[..i + 1])
  {
    assert RefGenuine(encrypted, blob, c, refs[i]);
    CollectedNext(parts, blob, c, refs, i);
  }

  /** The loop over one fetched group, distributing plaintext to the selected files. */
  method DecryptRefs(encrypted: Buffer, c: Crypto, g: Group, slots: map<int, nat>, count: nat,
                     ghost blob: Buffer, ghost limit: int)
    returns (r: Result<seq<Buffer>, ReadError>)
    ensures r.Ok? ==> |r.value| == count
    ensures Fetched(encrypted, blob, c, g, slots, count, limit) ==> r.Ok? && Collected(r.value, blob, c, g.refs)
    ensures RefsGenuine(encrypted, blob, c, g.refs, slots) && r.Ok? ==> Collected(r.value, blob, c, g.refs)
  {
    ghost var sound := Fetched(encrypted, blob, c, g, slots, count, limit);
    ghost var genuine := RefsGenuine(encrypted, blob, c, g.refs, slots);
    var parts: seq<Buffer> := seq(count, i => []);
    var cursor := 0;
    for i := 0 to |g.refs|
      invariant |parts| == count
      invariant sound ==> Distributed(parts, cursor, blob, c, g, i)
      invariant genuine ==> Collected(parts, blob, c, g.refs[..i])
    {
      var ref := g.refs[i];
      if sound {
        RefDistributed(parts, cursor, encrypted, blob, c, g, slots, limit, i);
      }
      var plaintext := DecryptRef(encrypted, c, ref, cursor);
      if plaintext.Err? {
        return Err(plaintext.error);
      }
      if ref.file.index !in slots || slots[ref.file.index] >= count {
        return Err(InvalidManifest);
      }
      if genuine {
        RefDistributedGenuine(parts, cursor, encrypted, blob, c, g.refs, slots, i);
      }
      var slot := slots[ref.file.index];
      parts := parts[slot := parts[slot] + plaintext.value];
      cursor := cursor + ref.chunk.length;
    }
    assert g.refs[..|g.refs|] == g.refs;
    r := Ok(parts);
  }

  lemma CollectedJoin(blobs: seq<Buffer>, parts: seq<Buffer>, blob: Buffer, c: Crypto, a: seq<Ref>, b: seq<Ref>)
    requires |blobs| == |parts| && Collected(blobs, blob, c, a) && Collected(parts, blob, c, b)
    ensures Collected(Join(blobs, parts), blob, c, a + b)
  {
    forall slot | 0 <= slot < |blobs| ensures Join(blobs, parts)[slot] == Collect(blob, c, a + b, slot) {
      CollectAppend(blob, c, a, b, slot);
    }
  }

  function Join(blobs: seq<Buffer>, parts: seq<Buffer>): seq<Buffer>
    requires |blobs| == |parts|
  {
    seq(|blobs|, i requires 0 <= i < |blobs| => blobs[i] + parts[i])
  }

  /** The groups are sound, their refs belong to the selection, and the fetcher answers them. */
  ghost predicate Decryptable(groups: seq<Group>, fetch: RangeFetcher, blob: Buffer, c: Crypto, slots: map<int, nat>,
                              count: nat, limit: int) {
    && Answers(fetch, blob, limit, |Refs(groups)|) && AllSound(groups, limit)
    && RefsSound(blob, c, Refs(groups), slots, count)
  }

  lemma GroupRefsSound(groups: seq<Group>, blob: Buffer, c: Crypto, slots: map<int, nat>, count: nat, k: nat)
    requires k < |groups| && RefsSound(blob, c, Refs(groups), slots, count)
    ensures RefsSound(blob, c, groups[k].refs, slots, count) && |groups[k].refs| <= |Refs(groups)|
  {
    RefsOfGroup(groups, k);
  }

  lemma GroupReady(groups: seq<Group>, fetch: RangeFetcher, blob: Buffer, c: Crypto, slots: map<int, nat>,
                   count: nat, limit: int, k: nat)
    requires k < |groups| && Decryptable(groups, fetch, blob, c, slots, count, limit)
    ensures var encrypted := FetchGroup(fetch, groups[k]);
            encrypted.Ok? && Fetched(encrypted.value, blob, c, groups[k], slots, count, limit)
  {
    GroupRefsSound(groups, blob, c, slots, count, k);
    assert groups[k] in groups;
    GroupAnswered(fetch, blob, c, groups[k], limit, |Refs(groups)|);
  }

  /** Whatever is fetched, no ref in it is forged. */
  ghost predicate FetchesGenuine(fetch: RangeFetcher, blob: Buffer, c: Crypto, refs: seq<Ref>, slots: map<int, nat>) {
    forall start, end :: fetch(start, end).Ok? ==> RefsGenuine(fetch(start, end).value, blob, c, refs, slots)
  }

  lemma GroupGenuine(groups: seq<Group>, fetch: RangeFetcher, blob: Buffer, c: Crypto, slots: map<int, nat>, k: nat)
    requires k < |groups| && FetchesGenuine(fetch, blob, c, Refs(groups), slots)
    requires FetchGroup(fetch, groups[k]).Ok?
    ensures RefsGenuine(FetchGroup(fetch, groups[k]).value, blob, c, groups[k].refs, slots)
  {
    RefsOfGroup(groups, k);
    FetchedGenuine(fetch, blob, c, Refs(groups), slots, groups[k]);
    FewerGenuine(FetchGroup(fetch, groups[k]).value, blob, c, Refs(groups), groups[k].refs, slots);
  }

  lemma FetchedGenuine(fetch: RangeFetcher, blob: Buffer, c: Crypto, refs: seq<Ref>, slots: map<int, nat>, g: Group)
    requires FetchesGenuine(fetch, blob, c, refs, slots) && FetchGroup(fetch, g).Ok?
    ensures RefsGenuine(FetchGroup(fetch, g).value, blob, c, refs, slots)
  {
  }

  lemma FewerGenuine(b: Buffer, blob: Buffer, c: Crypto, refs: seq<Ref>, some: seq<Ref>, slots: map<int, nat>)
    requires RefsGenuine(b, blob, c, refs, slots) && forall r :: r in some ==> r in refs
    ensures RefsGenuine(b, blob, c, some, slots)
  {
  }

  lemma RefsNext(groups: seq<Group>, k: nat)
    requires k < |groups|
    ensures Refs(groups[..k + 1]) == Refs(groups[..k]) + groups[k].refs
  {
    assert groups[..k + 1][..k] == groups[..k];
  }

  method DecryptGroups(groups: seq<Group>, fetch: RangeFetcher, c: Crypto, slots: map<int, nat>, count: nat,
                       ghost blob: Buffer, ghost limit: int)
    returns (r: Result<seq<Buffer>, ReadError>)
    ensures Decryptable(groups, fetch, blob, c, slots, count, limit) ==>
              r.Ok? && |r.value| == count && Collected(r.value, blob, c, Refs(groups))
    ensures r.Ok? ==> |r.value| == count
    ensures FetchesGenuine(fetch, blob, c, Refs(groups), slots) && r.Ok? ==> Collected(r.value, blob, c, Refs(groups))
  {
    ghost var sound := Decryptable(groups, fetch, blob, c, slots, count, limit);
    ghost var genuine := FetchesGenuine(fetch, blob, c, Refs(groups), slots);
    var blobs: seq<Buffer> := seq(count, i => []);
    for k := 0 to |groups|
      invariant |blobs| == count
      invariant sound || genuine ==> Collected(blobs, blob, c, Refs(groups[..k]))
    {
      if sound {
        GroupReady(groups, fetch, blob, c, slots, count, limit, k);
      }
      var encrypted := FetchGroup(fetch, groups[k]);
      if encrypted.Err? {
        return Err(encrypted.error);
      }
      var parts := DecryptRefs(encrypted.value, c, groups[k], slots, count, blob, limit);
      if parts.Err? {
        return Err(parts.error);
      }
      if genuine {
        GroupGenuine(groups, fetch, blob, c, slots, k);
      }
      if sound || genuine {
        RefsNext(groups, k);
        CollectedJoin(blobs, parts.value, blob, c, Refs(groups[..k]), groups[k].refs);
      }
      blobs := Join(blobs, parts.value);
    }
    assert groups[..|groups|] == groups;
    r := Ok(blobs);
  }

  lemma {:induction false} RefsOfGroup(groups: seq<Group>, k: nat)
    requires k < |groups|
    ensures forall r :: r in groups[k].refs ==> r in Refs(groups)
    ensures |groups[k].refs| <= |Refs(groups)|
  {
    if k < |groups| - 1 {
      RefsOfGroup(groups[..|groups| - 1], k);
    }
  }

  // ------------------------------------------------------ any selection of files

  ghost predicate Selected(blob: Buffer, c: Crypto, files: seq<File>, data: seq<Buffer>, i: nat)
    requires i < |files| == |data|
  {
    Readable(blob, c, files[i], data[i])
  }

  ghost predicate AllSelected(blob: Buffer, c: Crypto, files: seq<File>, data: seq<Buffer>) {
    && |files| == |data|
    && forall i {:trigger Selected(blob, c, files, data, i)} :: 0 <= i < |files| ==> Selected(blob, c, files, data, i)
  }

  /** Distinct files of one readable bundle, in any order, with the bytes they stand for. */
  ghost predicate Selection(blob: Buffer, c: Crypto, files: seq<File>, data: seq<Buffer>) {
    && (forall i, j :: 0 <= i < j < |files| ==> files[i].index != files[j].index)
    && AllSelected(blob, c, files, data)
  }

  lemma {:induction false} FileCollects(blob: Buffer, c: Crypto, slot: nat, file: File, data: Buffer, n: nat)
    requires Readable(blob, c, file, data) && n <= |file.chunks|
    ensures Collect(blob, c, FileRefs(slot, file, n), slot) == PlainRange(file.chunks, data, 0, n)
  {
    if n > 0 {
      FileCollects(blob, c, slot, file, data, n - 1);
      CollectNextRef(blob, c, slot, file, n - 1);
      RefOpens(blob, c, slot, file, data, n - 1);
      PlainRangeNext(blob, c, file, data, 0, n - 1);
    }
  }

  lemma CollectNextRef(blob: Buffer, c: Crypto, slot: nat, file: File, i: nat)
    requires i < |file.chunks|
    ensures Collect(blob, c, FileRefs(slot, file, i + 1), slot) ==
            Collect(blob, c, FileRefs(slot, file, i), slot) + OpenRef(blob, c, Ref(slot, file, file.chunks[i]))
  {
    assert FileRefs(slot, file, i + 1)[..i] == FileRefs(slot, file, i);
  }

  lemma RefOpens(blob: Buffer, c: Crypto, slot: nat, file: File, data: Buffer, i: nat)
    requires Readable(blob, c, file, data) && i < |file.chunks|
    ensures OpenRef(blob, c, Ref(slot, file, file.chunks[i])) == PlainRange(file.chunks, data, i, i + 1)
  {
    assert ReadableChunk(blob, c, file, data, i);
    PlaintextNext(file.chunks, i);
  }

  lemma {:induction false} OtherSlot(blob: Buffer, c: Crypto, refs: seq<Ref>, slot: nat)
    requires forall r :: r in refs ==> r.slot != slot
    ensures Collect(blob, c, refs, slot) == []
  {
    if refs != [] {
      OtherSlot(blob, c, refs[..|refs| - 1], slot);
      assert refs[|refs| - 1] in refs;
    }
  }

  /** A file's refs give its bytes to its own slot and nothing to the others. */
  ghost predicate CollectsOwn(blob: Buffer, c: Crypto, own: nat, file: File, data: Buffer, slot: nat) {
    Collect(blob, c, FileRefs(own, file, |file.chunks|), slot) == if slot == own then data else []
  }

  lemma WholeFileCollects(blob: Buffer, c: Crypto, own: nat, file: File, data: Buffer, slot: nat)
    requires Readable(blob, c, file, data)
    ensures CollectsOwn(blob, c, own, file, data, slot)
  {
    if slot == own {
      FileCollects(blob, c, slot, file, data, |file.chunks|);
      assert file.chunks[..|file.chunks|] == file.chunks;
    } else {
      OtherSlot(blob, c, FileRefs(own, file, |file.chunks|), slot);
    }
  }

  function OwnOrNone(data: seq<Buffer>, n: nat, slot: nat): Buffer
    requires slot < |data|
  {
    if slot < n then data[slot] else []
  }

  /** The first n files' refs give a slot its file's bytes, if it is one of theirs. */
  ghost predicate FirstCollect(blob: Buffer, c: Crypto, files: seq<File>, data: seq<Buffer>, n: nat, slot: nat)
    requires n <= |files| == |data| && slot < |data|
  {
    Collect(blob, c, AllRefs(files, n), slot) == OwnOrNone(data, n, slot)
  }

  lemma CollectJoins(blob: Buffer, c: Crypto, a: seq<Ref>, b: seq<Ref>, slot: nat, x: Buffer, y: Buffer)
    requires Collect(blob, c, a, slot) == x && Collect(blob, c, b, slot) == y
    ensures Collect(blob, c, a + b, slot) == x + y
  {
    CollectAppend(blob, c, a, b, slot);
  }

  lemma CollectNextFile(blob: Buffer, c: Crypto, files: seq<File>, data: seq<Buffer>, n: nat, slot: nat)
    requires n < |files| == |data| && slot < |data|
    requires FirstCollect(blob, c, files, data, n, slot) && Selected(blob, c, files, data, n)
    ensures FirstCollect(blob, c, files, data, n + 1, slot)
  {
    WholeFileCollects(blob, c, n, files[n], data[n], slot);
    var own := if slot == n then data[n] else [];
    CollectJoins(blob, c, AllRefs(files, n), FileRefs(n, files[n], |files[n].chunks|), slot, OwnOrNone(data, n, slot),
                 own);
    assert OwnOrNone(data, n, slot) + own == OwnOrNone(data, n + 1, slot);
  }

  lemma {:induction false} Climbs(p: nat -> bool, n: nat)
    requires p(0) && forall k: nat :: k < n && p(k) ==> p(k + 1)
    ensures p(n)
  {
    if n > 0 {
      Climbs(p, n - 1);
      assert p(n - 1);
    }
  }

  lemma SelectionCollects(blob: Buffer, c: Crypto, files: seq<File>, data: seq<Buffer>, slot: nat)
    requires Selection(blob, c, files, data) && slot < |files|
    ensures Collect(blob, c, AllRefs(files, |files|), slot) == data[slot]
  {
    var p := (n: nat) => n <= |files| ==> FirstCollect(blob, c, files, data, n, slot);
    forall k: nat | k < |files| && p(k) ensures p(k + 1) {
      assert Selected(blob, c, files, data, k);
      CollectNextFile(blob, c, files, data, k, slot);
    }
    Climbs(p, |files|);
  }

  lemma {:induction false} AllRefsShape(files: seq<File>, n: nat, r: Ref)
    requires n <= |files| && r in AllRefs(files, n)
    ensures r.slot < n && r.file == files[r.slot] && r.chunk in r.file.chunks
  {
    var last := FileRefs(n - 1, files[n - 1], |files[n - 1].chunks|);
    if r in last {
    } else {
      AllRefsShape(files, n - 1, r);
    }
  }

  lemma ChunkSound(blob: Buffer, c: Crypto, r: Ref, data: Buffer)
    requires Readable(blob, c, r.file, data) && r.chunk in r.file.chunks
    ensures RefSound(blob, c, r)
  {
    var j :| 0 <= j < |r.file.chunks| && r.file.chunks[j] == r.chunk;
    assert ReadableChunk(blob, c, r.file, data, j);
  }

  lemma SelectionSound(blob: Buffer, c: Crypto, files: seq<File>, data: seq<Buffer>, slots: map<int, nat>)
    requires Selection(blob, c, files, data)
    requires forall i :: 0 <= i < |files| ==> files[i].index in slots && slots[files[i].index] == i
    ensures RefsSound(blob, c, AllRefs(files, |files|), slots, |files|)
  {
    forall r | r in AllRefs(files, |files|)
      ensures RefSound(blob, c, r) && r.file.index in slots && slots[r.file.index] == r.slot < |files|
    {
      AllRefsShape(files, |files|, r);
      assert Selected(blob, c, files, data, r.slot);
      ChunkSound(blob, c, r, data[r.slot]);
    }
  }

  lemma {:induction false} SelectionOrdered(blob: Buffer, c: Crypto, files: seq<File>, data: seq<Buffer>, n: nat)
    requires Selection(blob, c, files, data) && n <= |files|
    ensures SlotOrdered(AllRefs(files, n))
  {
    if n > 0 {
      SelectionOrdered(blob, c, files, data, n - 1);
      var before, file := AllRefs(files, n - 1), files[n - 1];
      var refs := AllRefs(files, n);
      assert Selected(blob, c, files, data, n - 1);
      forall i, j | 0 <= i < j < |refs| && refs[i].slot == refs[j].slot
        ensures refs[i].chunk.offset <= refs[j].chunk.offset
      {
        if i < |before| {
          AllRefsShape(files, n - 1, before[i]);
        }
        if i >= |before| {
          ChunksAdjacent(blob, c, file, data[n - 1], i - |before|, j - |before|);
        }
      }
    }
  }

  /** Sorted by offset, the selection's refs are still sound and still collect to the files' bytes. */
  lemma SelectionSorted(blob: Buffer, c: Crypto, files: seq<File>, data: seq<Buffer>, slots: map<int, nat>)
    requires Selection(blob, c, files, data)
    requires forall i :: 0 <= i < |files| ==> files[i].index in slots && slots[files[i].index] == i
    ensures RefsSound(blob, c, Sort(OffsetOf, AllRefs(files, |files|)), slots, |files|)
    ensures Collected(data, blob, c, Sort(OffsetOf, AllRefs(files, |files|)))
  {
    var refs := AllRefs(files, |files|);
    SortMembers(OffsetOf, refs);
    SelectionSound(blob, c, files, data, slots);
    SelectionOrdered(blob, c, files, data, |files|);
    forall slot | 0 <= slot < |data| ensures data[slot] == Collect(blob, c, Sort(OffsetOf, refs), slot) {
      SortCollects(blob, c, refs, slot);
      SelectionCollects(blob, c, files, data, slot);
    }
  }

  /** The map from file index to place in the selection; a repeated index keeps its last place. */
  method FileIndexes(files: seq<File>) returns (slots: map<int, nat>)
    ensures forall k :: k in slots ==> slots[k] < |files| && files[slots[k]].index == k
    ensures forall i :: 0 <= i < |files| ==> files[i].index in slots && i <= slots[files[i].index]
  {
    slots := map[];
    for i := 0 to |files|
      invariant forall k :: k in slots ==> slots[k] < i && files[slots[k]].index == k
      invariant forall k :: 0 <= k < i ==> files[k].index in slots && k <= slots[files[k].index]
    {
      slots := slots[files[i].index := i];
    }
  }

  ghost predicate AllGenuine(fetch: RangeFetcher, c: Crypto, files: seq<File>, data: seq<Buffer>) {
    |files| == |data| && forall i :: 0 <= i < |files| ==> AnswersGenuine(fetch, c, files[i], data[i])
  }

  /** No file of the selection can be given other bytes without forging. */
  lemma SelectionGenuine(fetch: RangeFetcher, blob: Buffer, c: Crypto, files: seq<File>, data: seq<Buffer>,
                         slots: map<int, nat>, refs: seq<Ref>)
    requires Selection(blob, c, files, data)
    requires forall i :: 0 <= i < |files| ==> files[i].index in slots && slots[files[i].index] == i
    requires AllGenuine(fetch, c, files, data)
    requires forall r :: r in refs ==> r in AllRefs(files, |files|)
    ensures FetchesGenuine(fetch, blob, c, refs, slots)
  {
    forall start, end, r | fetch(start, end).Ok? && r in refs
      ensures RefGenuine(fetch(start, end).value, blob, c, r)
      ensures r.file.index in slots && slots[r.file.index] == r.slot
    {
      AllRefsShape(files, |files|, r);
      assert Selected(blob, c, files, data, r.slot);
      ChunkGenuine(fetch(start, end).value, blob, c, r, data[r.slot]);
    }
  }

  lemma ChunkGenuine(b: Buffer, blob: Buffer, c: Crypto, r: Ref, data: Buffer)
    requires Readable(blob, c, r.file, data) && r.chunk in r.file.chunks && Genuine(b, c, r.file, data)
    ensures RefGenuine(b, blob, c, r)
  {
    var j: nat :| j < |r.file.chunks| && r.file.chunks[j] == r.chunk;
    assert OpensOnlyTo(b, c, r.file, data, j);
    RefOpens(blob, c, r.slot, r.file, data, j);
  }

  /**
   * decryptBundleFiles: whatever the limit and the selection, each file comes back as its bytes. A
   * server that answers anything else can make it fail, but only a forgery could make it return
   * other bytes.
   */
  method DecryptBundleFiles(files: seq<File>, fetch: RangeFetcher, c: Crypto, limit: int, ghost blob: Buffer,
                            ghost data: seq<Buffer>)
    returns (r: Result<seq<Buffer>, ReadError>)
    ensures Selection(blob, c, files, data) && Answers(fetch, blob, limit, |AllRefs(files, |files|)|) ==> r == Ok(data)
    ensures Selection(blob, c, files, data) && AllGenuine(fetch, c, files, data) && r.Ok? ==> r.value == data
  {
    var slots := FileIndexes(files);
    var sorted := Sort(OffsetOf, AllRefs(files, |files|));
    ghost var sound := Selection(blob, c, files, data) && Answers(fetch, blob, limit, |AllRefs(files, |files|)|);
    ghost var genuine := Selection(blob, c, files, data) && AllGenuine(fetch, c, files, data);
    if Selection(blob, c, files, data) {
      SelectionSorted(blob, c, files, data, slots);
    }
    if genuine {
      SortMembers(OffsetOf, AllRefs(files, |files|));
      SelectionGenuine(fetch, blob, c, files, data, slots, sorted);
    }
    var groups := CoalesceChunks(sorted, limit);
    r := DecryptGroups(groups, fetch, c, slots, |files|, blob, limit);
    if sound || (genuine && r.Ok?) {
      assert r.value == data;
    }
  }

  /** Any files of a planned bundle, in any order and each once, are a selection. */
  lemma PlannedSelection(blob: Buffer, c: Crypto, sources: seq<Source>, plan: Plan, json: Json, picks: seq<nat>)
    requires IsBundle(blob, c, sources, plan, json)
    requires forall i :: 0 <= i < |picks| ==> picks[i] < |sources|
    requires forall i, j :: 0 <= i < j < |picks| ==> picks[i] != picks[j]
    ensures |plan.manifest.files| == |sources|
    ensures Selection(blob, c, seq(|picks|, i requires 0 <= i < |picks| => plan.manifest.files[picks[i]]),
                      seq(|picks|, i requires 0 <= i < |picks| => sources[picks[i]].data))
  {
    assert |plan.manifest.files| == |sources|;
    var files := seq(|picks|, i requires 0 <= i < |picks| => plan.manifest.files[picks[i]]);
    var data := seq(|picks|, i requires 0 <= i < |picks| => sources[picks[i]].data);
    forall i | 0 <= i < |picks|
      ensures Selected(blob, c, files, data, i)
      ensures plan.manifest.files[picks[i]].index == picks[i]
    {
      PlannedFileReadable(blob, c, sources, plan, json, picks[i]);
    }
  }

  /** From a server that forges nothing, they get no other bytes than their own. */
  lemma PlannedGenuine(fetch: RangeFetcher, c: Crypto, sources: seq<Source>, plan: Plan, json: Json, picks: seq<nat>)
    requires PlanFor(plan, sources, json) && ForgesNothing(fetch, c, sources, plan)
    requires forall i :: 0 <= i < |picks| ==> picks[i] < |sources|
    ensures |plan.manifest.files| == |sources|
    ensures AllGenuine(fetch, c, seq(|picks|, i requires 0 <= i < |picks| => plan.manifest.files[picks[i]]),
                       seq(|picks|, i requires 0 <= i < |picks| => sources[picks[i]].data))
  {
    assert |plan.manifest.files| == |sources|;
    forall i | 0 <= i < |picks|
      ensures AnswersGenuine(fetch, c, plan.manifest.files[picks[i]], sources[picks[i]].data)
    {
      PlannedFileGenuine(fetch, c, sources, plan, json, picks[i]);
    }
  }
}
