/** Bytes, optional values and 64-bit wrap-around, shared by the other modules. */
module Bytes {

  type Byte = b: int | 0 <= b < 256
  type Buffer = seq<Byte>

  datatype Option<+T> = None | Some(value: T)

  /** Go's error returns: a value, or the error that replaces it. */
  datatype Result<+T, +E> = Ok(value: T) | Err(error: E)

  const MAX_INT64: int := 0x7FFF_FFFF_FFFF_FFFF
  const TWO_POW_64: int := 0x1_0000_0000_0000_0000

  type Int64 = x: int | -MAX_INT64 - 1 <= x <= MAX_INT64

  /** The value a 64-bit signed register holds after an exact result of x. */
  function Wrap64(x: int): (r: Int64)
    ensures -MAX_INT64 - 1 <= x <= MAX_INT64 ==> r == x
    ensures (x - r) % TWO_POW_64 == 0
  {
    (x + MAX_INT64 + 1) % TWO_POW_64 - MAX_INT64 - 1
  }

  /** A buffer of n zero bytes. */
  function Zeros(n: nat): (z: Buffer)
    ensures |z| == n
  {
    seq(n, i => 0)
  }

  /** The pieces one after the other. */
  function Flatten(pieces: seq<Buffer>): Buffer {
    if pieces == [] then [] else pieces[0] + Flatten(pieces[1..])
  }

  lemma {:induction false} FlattenAppend(a: seq<Buffer>, b: seq<Buffer>)
    ensures Flatten(a + b) == Flatten(a) + Flatten(b)
  {
    if a == [] {
      assert a + b == b;
    } else {
      assert (a + b)[1..] == a[1..] + b;
      FlattenAppend(a[1..], b);
    }
  }

  lemma FlattenSnoc(a: seq<Buffer>, x: Buffer)
    ensures Flatten(a + [x]) == Flatten(a) + x
  {
    FlattenAppend(a, [x]);
    assert Flatten([x]) == x + Flatten([]) == x;
  }

  lemma FlattenPrefix(pieces: seq<Buffer>, i: nat)
    requires i <= |pieces|
    ensures |Flatten(pieces[..i])| <= |Flatten(pieces)|
    ensures i < |pieces| ==>
              && Flatten(pieces[..i + 1]) == Flatten(pieces[..i]) + pieces[i]
              && |Flatten(pieces[..i])| + |pieces[i]| <= |Flatten(pieces)|
  {
    assert pieces == pieces[..i] + pieces[i..];
    FlattenAppend(pieces[..i], pieces[i..]);
    if i < |pieces| {
      assert pieces[..i + 1] == pieces[..i] + [pieces[i]];
      FlattenSnoc(pieces[..i], pieces[i]);
      assert |Flatten(pieces[i..])| >= |pieces[i]|;
    }
  }

  lemma FlattenTwo(a: Buffer, b: Buffer)
    ensures Flatten([a, b]) == a + b
  {
    assert [a, b] == [a] + [b];
    FlattenSnoc([a], b);
    FlattenSnoc([], a);
    assert [] + [a] == [a];
  }

  lemma FlattenThree(a: Buffer, b: Buffer, c: Buffer)
    ensures Flatten([a, b, c]) == a + b + c
  {
    assert [a, b, c] == [a, b] + [c];
    FlattenSnoc([a, b], c);
    FlattenTwo(a, b);
  }
}
