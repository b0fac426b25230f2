/**
 * The server's two checks of an upload's parts (internal/adapter/httpserver/upload_handler.go): the
 * early one on each part as it arrives, and the final one on the recorded list.
 */
module PartLayout {
  import opened Bytes
  import opened Sorting

  const S3_MINIMUM_PART_SIZE := 5 * 1024 * 1024
  const MAX_UPLOAD_PART := 33 * 1024 * 1024
  const MAX_PART_NUMBER := 10000

  datatype UploadPart = UploadPart(number: int, offset: Int64, size: Int64, etag: string)
  datatype CompletedPart = CompletedPart(number: int, etag: string)

  datatype LayoutError = NoParts | MissingPart(number: int) | InvalidOffset(number: int)
    | BelowMinimum(number: int) | ExceedsSize | Incomplete

  datatype PlacementError = TooManyParts | OffsetTooLow | PartExceedsBlob | NonFinalTooSmall

  function NumberOf(p: UploadPart): int {
    p.number
  }

  function SizeBefore(parts: seq<UploadPart>, i: nat): int
    requires i <= |parts|
  {
    if i == 0 then 0 else SizeBefore(parts, i - 1) + parts[i - 1].size
  }

  /** Parts 1, 2, 3, ... back to back from byte 0 to blobSize, all but the last of S3's minimum size. */
  predicate IsLayout(parts: seq<UploadPart>, blobSize: int) {
    && parts != []
    && (forall i :: 0 <= i < |parts| ==> Fits(parts, i))
    && SizeBefore(parts, |parts|) == blobSize
  }

  /** Part i has its number, its offset and, unless it is the last one, S3's minimum size. */
  predicate FitsAt(parts: seq<UploadPart>, i: nat, expectedOffset: int)
    requires i < |parts|
  {
    && parts[i].number == i + 1
    && parts[i].offset == expectedOffset
    && (i < |parts| - 1 ==> parts[i].size >= S3_MINIMUM_PART_SIZE)
  }

  predicate Fits(parts: seq<UploadPart>, i: nat)
    requires i < |parts|
  {
    FitsAt(parts, i, SizeBefore(parts, i))
  }

  /** What UploadPart has checked of every recorded part. */
  predicate Recorded(parts: seq<UploadPart>) {
    forall i :: 0 <= i < |parts| ==> parts[i].size > 0 && parts[i].offset >= 0
  }

  function Completed(parts: seq<UploadPart>): seq<CompletedPart> {
    seq(|parts|, i requires 0 <= i < |parts| => CompletedPart(parts[i].number, parts[i].etag))
  }

  lemma {:induction false} SizesIncrease(parts: seq<UploadPart>, i: nat, j: nat)
    requires Recorded(parts) && i <= j <= |parts|
    ensures SizeBefore(parts, j) >= SizeBefore(parts, i) + (j - i)
  {
    if i < j {
      SizesIncrease(parts, i, j - 1);
    }
  }

  /** validateUploadParts: sort by number, then one pass with an accumulating 64-bit offset. */
  method ValidateUploadParts(blobSize: Int64, recorded: seq<UploadPart>)
    returns (r: Result<seq<CompletedPart>, LayoutError>)
    requires Recorded(recorded)
    ensures r.Ok? <==> IsLayout(Sort(NumberOf, recorded), blobSize)
    ensures r.Ok? ==> r.value == Completed(Sort(NumberOf, recorded))
  {
    if |recorded| == 0 {
      return Err(NoParts);
    }
    var parts := Sort(NumberOf, recorded);
    SortMembers(NumberOf, recorded);
    assert Recorded(parts) by {
      forall i | 0 <= i < |parts| ensures parts[i].size > 0 && parts[i].offset >= 0 {
        assert parts[i] in recorded;
      }
    }
    r := ValidateSorted(blobSize, parts);
  }

  method ValidateSorted(blobSize: Int64, parts: seq<UploadPart>)
    returns (r: Result<seq<CompletedPart>, LayoutError>)
    requires Recorded(parts) && parts != []
    ensures r.Ok? <==> IsLayout(parts, blobSize)
    ensures r.Ok? ==> r.value == Completed(parts)
  {
    PassDecidesLayout(parts, 0, blobSize);
    assert SizeBefore(parts, 0) == 0;
    var completed: seq<CompletedPart> := [];
    var expectedOffset: Int64 := 0;
    for i := 0 to |parts|
      invariant completed == Completed(parts[..i])
      invariant Passes(parts, 0, 0, blobSize) <==> Passes(parts, i, expectedOffset, blobSize)
    {
      var part := parts[i];
      if part.number != i + 1 {
        return Err(MissingPart(i + 1));
      }
      if part.offset != expectedOffset {
        return Err(InvalidOffset(part.number));
      }
      if i < |parts| - 1 && part.size < S3_MINIMUM_PART_SIZE {
        return Err(BelowMinimum(part.number));
      }
      expectedOffset := Wrap64(expectedOffset + part.size);
      if expectedOffset > blobSize {
        return Err(ExceedsSize);
      }
      completed := completed + [CompletedPart(part.number, part.etag)];
    }
    if expectedOffset != blobSize {
      return Err(Incomplete);
    }
    assert parts[..|parts|] == parts;
    r := Ok(completed);
  }

  /** The pass from part i on, with the offset as the 64-bit sum it is. */
  predicate Passes(parts: seq<UploadPart>, i: nat, expectedOffset: Int64, blobSize: int)
    requires i <= |parts|
    decreases |parts| - i
  {
    if i == |parts| then expectedOffset == blobSize
    else
      var next := Wrap64(expectedOffset + parts[i].size);
      FitsAt(parts, i, expectedOffset) && next <= blobSize && Passes(parts, i + 1, next, blobSize)
  }

  /** Parts i and later complete a layout whose first i parts are sound. */
  predicate Remainder(parts: seq<UploadPart>, i: nat, blobSize: int) {
    && (forall k :: i <= k < |parts| ==> Fits(parts, k))
    && SizeBefore(parts, |parts|) == blobSize
  }

  lemma WrappedOffsetFails(parts: seq<UploadPart>, i: nat, expectedOffset: Int64, blobSize: int)
    requires Recorded(parts) && i <= |parts|
    requires expectedOffset < 0 <= blobSize
    ensures !Passes(parts, i, expectedOffset, blobSize)
  {
  }

  lemma PassStep(parts: seq<UploadPart>, i: nat, blobSize: Int64)
    requires Recorded(parts) && i < |parts| && 0 <= SizeBefore(parts, i) <= MAX_INT64
    requires i > 0 ==> blobSize >= 0
    ensures Passes(parts, i, SizeBefore(parts, i), blobSize) <==>
            && Fits(parts, i)
            && SizeBefore(parts, i + 1) <= blobSize
            && Passes(parts, i + 1, SizeBefore(parts, i + 1), blobSize)
  {
    var exact := SizeBefore(parts, i + 1);
    if exact > MAX_INT64 && Wrap64(exact) <= blobSize {
      WrappedOffsetFails(parts, i + 1, Wrap64(exact), blobSize);
    }
  }

  /** From a point where the offset is still exact, the pass succeeds exactly on a layout's remainder. */
  lemma {:induction false} PassDecidesLayout(parts: seq<UploadPart>, i: nat, blobSize: Int64)
    requires Recorded(parts) && i <= |parts| && SizeBefore(parts, i) <= MAX_INT64
    requires i > 0 ==> blobSize >= 0
    ensures SizeBefore(parts, i) >= 0
    ensures Passes(parts, i, SizeBefore(parts, i), blobSize) <==> Remainder(parts, i, blobSize)
    decreases |parts| - i
  {
    SizesIncrease(parts, 0, i);
    if i < |parts| {
      PassStep(parts, i, blobSize);
      SizesIncrease(parts, i + 1, |parts|);
      if SizeBefore(parts, i + 1) <= blobSize {
        PassDecidesLayout(parts, i + 1, blobSize);
        assert Remainder(parts, i, blobSize) <==> Fits(parts, i) && Remainder(parts, i + 1, blobSize);
      }
    }
  }

  /** validatePartPlacement, with its 64-bit sums. (A wrapped dividend is negative and counts as one part.) */
  function ValidatePartPlacement(blobSize: Int64, number: int, offset: Int64, size: Int64): Result<(), PlacementError> {
    var ceiling := Wrap64(blobSize + S3_MINIMUM_PART_SIZE - 1) / S3_MINIMUM_PART_SIZE;
    var maxParts := if ceiling < 1 then 1 else ceiling;
    var end := Wrap64(offset + size);
    if number > maxParts then Err(TooManyParts)
    else if offset < Wrap64((number - 1) * S3_MINIMUM_PART_SIZE) then Err(OffsetTooLow)
    else if end > blobSize then Err(PartExceedsBlob)
    else if end < blobSize && size < S3_MINIMUM_PART_SIZE then Err(NonFinalTooSmall)
    else Ok(())
  }

  /** Rounding this size up to whole parts leaves 64 bits. */
  predicate CeilingWraps(blobSize: Int64) {
    blobSize + S3_MINIMUM_PART_SIZE - 1 > MAX_INT64
  }

  /** What the sums of the early check say while they fit 64 bits. */
  predicate PlacesExactly(blobSize: int, number: int, offset: int, size: int) {
    && offset >= (number - 1) * S3_MINIMUM_PART_SIZE
    && offset + size <= blobSize
    && (offset + size < blobSize ==> size >= S3_MINIMUM_PART_SIZE)
  }

  lemma PartCountFits(blobSize: int, number: int, offset: int)
    requires (number - 1) * S3_MINIMUM_PART_SIZE <= offset < blobSize
    ensures number <= (blobSize + S3_MINIMUM_PART_SIZE - 1) / S3_MINIMUM_PART_SIZE
  {
  }

  /** Without overflow the early check is exact about numbers and bytes. */
  lemma PlacementDecided(blobSize: Int64, number: int, offset: Int64, size: Int64)
    requires blobSize >= 0 && number >= 1 && offset >= 0 && size > 0 && offset + size <= MAX_INT64
    ensures ValidatePartPlacement(blobSize, number, offset, size).Ok? <==>
            PlacesExactly(blobSize, number, offset, size) && (number == 1 || !CeilingWraps(blobSize))
  {
    if PlacesExactly(blobSize, number, offset, size) {
      PartCountFits(blobSize, number, offset);
    }
  }

  ghost predicate Placed(blobSize: Int64, number: int, offset: Int64, size: Int64, parts: seq<UploadPart>) {
    && Recorded(parts) && IsLayout(parts, blobSize)
    && exists p :: p in parts && p.number == number && p.offset == offset && p.size == size
  }

  lemma {:induction false} OffsetLowerBound(parts: seq<UploadPart>, i: nat)
    requires i < |parts|
    requires forall k :: 0 <= k < |parts| ==> Fits(parts, k)
    ensures SizeBefore(parts, i) >= i * S3_MINIMUM_PART_SIZE
  {
    if i > 0 {
      OffsetLowerBound(parts, i - 1);
      assert Fits(parts, i - 1);
    }
  }

  /** No part of a layout the final check accepts is turned away by the early one. */
  lemma LayoutPartsPlace(blobSize: Int64, parts: seq<UploadPart>, i: nat)
    requires Recorded(parts) && IsLayout(parts, blobSize) && i < |parts|
    ensures ValidatePartPlacement(blobSize, parts[i].number, parts[i].offset, parts[i].size).Ok? <==>
            i == 0 || !CeilingWraps(blobSize)
  {
    OffsetLowerBound(parts, i);
    SizesIncrease(parts, 0, i);
    SizesIncrease(parts, i + 1, |parts|);
    assert Fits(parts, i);
    assert SizeBefore(parts, i + 1) == parts[i].offset + parts[i].size;
    if i == |parts| - 1 {
      assert parts[i].offset + parts[i].size == blobSize;
    }
    PlacementDecided(blobSize, i + 1, parts[i].offset, parts[i].size);
  }

  /** number - 1 parts of the minimum size, the last of them stretched to end at offset. */
  function Lead(number: nat, offset: Int64): (parts: seq<UploadPart>)
    requires number >= 1 && offset >= (number - 1) * S3_MINIMUM_PART_SIZE
    requires number == 1 ==> offset == 0
    ensures |parts| == number - 1
  {
    seq(number - 1, i requires 0 <= i < number - 1 =>
      UploadPart(i + 1, i * S3_MINIMUM_PART_SIZE,
                 if i == number - 2 then offset - i * S3_MINIMUM_PART_SIZE else S3_MINIMUM_PART_SIZE, ""))
  }

  function Around(blobSize: Int64, number: nat, offset: Int64, size: Int64): seq<UploadPart>
    requires number >= 1 && offset >= (number - 1) * S3_MINIMUM_PART_SIZE
    requires number == 1 ==> offset == 0
    requires size > 0 && offset + size <= blobSize
  {
    Lead(number, offset) + [UploadPart(number, offset, size, "")]
    + if offset + size == blobSize then []
      else [UploadPart(number + 1, offset + size, blobSize - offset - size, "")]
  }

  lemma {:induction false} AroundFits(blobSize: Int64, number: nat, offset: Int64, size: Int64, i: nat)
    requires number >= 1 && offset >= (number - 1) * S3_MINIMUM_PART_SIZE
    requires number == 1 ==> offset == 0
    requires size > 0 && offset + size <= blobSize
    requires offset + size < blobSize ==> size >= S3_MINIMUM_PART_SIZE
    requires i < |Around(blobSize, number, offset, size)|
    ensures var parts := Around(blobSize, number, offset, size);
            Fits(parts, i) && parts[i].size > 0 && parts[i].offset >= 0
  {
    AroundFollows(blobSize, number, offset, size, i);
    if i > 0 {
      AroundFits(blobSize, number, offset, size, i - 1);
    }
  }

  /** Part i has its number and size, and begins where the one before it ends. */
  predicate Follows(parts: seq<UploadPart>, i: nat)
    requires i < |parts|
  {
    && parts[i].number == i + 1 && parts[i].size > 0 && parts[i].offset >= 0
    && (i < |parts| - 1 ==> parts[i].size >= S3_MINIMUM_PART_SIZE)
    && parts[i].offset == if i == 0 then 0 else parts[i - 1].offset + parts[i - 1].size
  }

  lemma AroundFollows(blobSize: Int64, number: nat, offset: Int64, size: Int64, i: nat)
    requires number >= 1 && offset >= (number - 1) * S3_MINIMUM_PART_SIZE
    requires number == 1 ==> offset == 0
    requires size > 0 && offset + size <= blobSize
    requires offset + size < blobSize ==> size >= S3_MINIMUM_PART_SIZE
    requires i < |Around(blobSize, number, offset, size)|
    ensures Follows(Around(blobSize, number, offset, size), i)
  {
  }

  /** A placement the early check admits is part of some layout the final check accepts. */
  lemma PlacementOccurs(blobSize: Int64, number: nat, offset: Int64, size: Int64)
    requires blobSize >= 0 && size > 0 && number >= 1 && offset >= 0
    requires ValidatePartPlacement(blobSize, number, offset, size).Ok?
    requires offset + size <= MAX_INT64 && !(number == 1 && offset != 0)
    ensures Placed(blobSize, number, offset, size, Around(blobSize, number, offset, size))
  {
    PlacementDecided(blobSize, number, offset, size);
    var parts := Around(blobSize, number, offset, size);
    forall i | 0 <= i < |parts| ensures Fits(parts, i) && parts[i].size > 0 && parts[i].offset >= 0 {
      AroundFits(blobSize, number, offset, size, i);
    }
    assert parts[number - 1] == UploadPart(number, offset, size, "");
    var last := |parts| - 1;
    assert Fits(parts, last) && parts[last].offset + parts[last].size == blobSize;
  }

  /**
   * The early check admits exactly the placements that occur in an acceptable layout, and besides them
   * part 1 at a nonzero offset and placements whose end leaves 64 bits. It misses parts after the first
   * of blobs whose size cannot be rounded up in 64 bits.
   */
  lemma PlacementExact(blobSize: Int64, number: nat, offset: Int64, size: Int64)
    requires blobSize >= 0 && size > 0 && number >= 1 && offset >= 0
    ensures && ValidatePartPlacement(blobSize, number, offset, size).Ok?
            && offset + size <= MAX_INT64 && !(number == 1 && offset != 0)
            <==>
            && (exists parts :: Placed(blobSize, number, offset, size, parts))
            && (number == 1 || !CeilingWraps(blobSize))
  {
    if && ValidatePartPlacement(blobSize, number, offset, size).Ok?
       && offset + size <= MAX_INT64 && !(number == 1 && offset != 0) {
      PlacementOccurs(blobSize, number, offset, size);
      PlacementDecided(blobSize, number, offset, size);
    }
    if parts: seq<UploadPart> :| Placed(blobSize, number, offset, size, parts) {
      PlacedInside(blobSize, number, offset, size, parts);
    }
  }

  lemma PlacedInside(blobSize: Int64, number: nat, offset: Int64, size: Int64, parts: seq<UploadPart>)
    requires Placed(blobSize, number, offset, size, parts)
    ensures 0 <= offset && 0 < size && offset + size <= blobSize && 1 <= number && (number == 1 ==> offset == 0)
    ensures ValidatePartPlacement(blobSize, number, offset, size).Ok? <==> number == 1 || !CeilingWraps(blobSize)
  {
    var i :| 0 <= i < |parts| && parts[i].number == number && parts[i].offset == offset && parts[i].size == size;
    assert Fits(parts, i);
    SizesIncrease(parts, i + 1, |parts|);
    LayoutPartsPlace(blobSize, parts, i);
  }

  /** A placement whose end wraps is admitted, though no layout has it. */
  lemma OverflowAdmitted()
    ensures ValidatePartPlacement(4 * S3_MINIMUM_PART_SIZE, 2, MAX_INT64, S3_MINIMUM_PART_SIZE).Ok?
    ensures forall parts :: !Placed(4 * S3_MINIMUM_PART_SIZE, 2, MAX_INT64, S3_MINIMUM_PART_SIZE, parts)
  {
    forall parts | Placed(4 * S3_MINIMUM_PART_SIZE, 2, MAX_INT64, S3_MINIMUM_PART_SIZE, parts) ensures false {
      PlacedInside(4 * S3_MINIMUM_PART_SIZE, 2, MAX_INT64, S3_MINIMUM_PART_SIZE, parts);
    }
  }

  /** So is part 1 at a nonzero offset. */
  lemma MisplacedFirstAdmitted()
    ensures ValidatePartPlacement(4 * S3_MINIMUM_PART_SIZE, 1, S3_MINIMUM_PART_SIZE, S3_MINIMUM_PART_SIZE).Ok?
    ensures forall parts :: !Placed(4 * S3_MINIMUM_PART_SIZE, 1, S3_MINIMUM_PART_SIZE, S3_MINIMUM_PART_SIZE, parts)
  {
    forall parts | Placed(4 * S3_MINIMUM_PART_SIZE, 1, S3_MINIMUM_PART_SIZE, S3_MINIMUM_PART_SIZE, parts)
      ensures false
    {
      PlacedInside(4 * S3_MINIMUM_PART_SIZE, 1, S3_MINIMUM_PART_SIZE, S3_MINIMUM_PART_SIZE, parts);
    }
  }
}
