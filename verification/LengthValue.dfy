/**
 * The length-value encoding of the short-code key exchange (web/frontend/src/lib/cpace.ts,
 * after draft-irtf-cfrg-cpace-21): every field is written behind its LEB128 length.
 */
module LengthValue {
  import opened Bytes

  const TWO_POW_32: int := 0x1_0000_0000
  const SHA512_BLOCK_BYTES := 128

  /** "CPaceRistretto255" in ASCII. */
  const DSI: Buffer :=
    [67, 80, 97, 99, 101, 82, 105, 115, 116, 114, 101, 116, 116, 111, 50, 53, 53]

  /** LEB128 as the draft defines it, for a length of any size. */
  function Leb128(n: nat): (p: Buffer)
    ensures |p| >= 1
  {
    if n < 128 then [n] else [n % 128 + 128] + Leb128(n / 128)
  }

  /** The same loop with JavaScript's shift, which keeps only the low 32 bits of n. */
  function LengthPrefix(n: nat): (p: Buffer)
    ensures |p| >= 1
  {
    if n < 128 then [n]
    else
      var shifted := n % TWO_POW_32 / 128;
      [n % 128 + 128] + (if shifted > 0 then LengthPrefix(shifted) else [])
  }

  function Field(data: Buffer): Buffer {
    LengthPrefix(|data|) + data
  }

  function Fields(parts: seq<Buffer>): seq<Buffer> {
    seq(|parts|, i requires 0 <= i < |parts| => Field(parts[i]))
  }

  function LvCat(parts: seq<Buffer>): Buffer {
    Flatten(Fields(parts))
  }

  function TotalLength(parts: seq<Buffer>): nat {
    if parts == [] then 0 else |parts[0]| + TotalLength(parts[1..])
  }

  lemma {:induction false} FlattenLength(parts: seq<Buffer>)
    ensures |Flatten(parts)| == TotalLength(parts)
  {
    if parts != [] {
      FlattenLength(parts[1..]);
    }
  }

  /** concat: one buffer of the total size, filled part by part. */
  method Concat(parts: seq<Buffer>) returns (out: Buffer)
    ensures out == Flatten(parts)
  {
    FlattenLength(parts);
    var buffer := new Byte[TotalLength(parts)];
    var offset := 0;
    for i := 0 to |parts|
      invariant offset == |Flatten(parts[..i])| <= buffer.Length
      invariant buffer[..offset] == Flatten(parts[..i])
    {
      FlattenPrefix(parts, i);
      SetAt(buffer, offset, parts[i]);
      offset := offset + |parts[i]|;
    }
    assert parts[..|parts|] == parts;
    out := buffer[..];
  }

  /** buffer.set(part, offset) */
  method SetAt(buffer: array<Byte>, offset: nat, part: Buffer)
    requires offset + |part| <= buffer.Length
    modifies buffer
    ensures buffer[..offset + |part|] == old(buffer[..offset]) + part
  {
    forall k | 0 <= k < |part| {
      buffer[offset + k] := part[k];
    }
  }

  lemma PrefixStep(n: nat)
    ensures var shifted := n % TWO_POW_32 / 128;
            && (n >= 128 ==> shifted < n) && (n < 128 ==> shifted == 0)
            && LengthPrefix(n) == [if n < 128 then n else n % 128 + 128]
                + (if shifted > 0 then LengthPrefix(shifted) else [])
  {
  }

  lemma PrefixNext(size: nat, length: Buffer, n: nat)
    requires LengthPrefix(size) == length + LengthPrefix(n)
    ensures var next := n % TWO_POW_32 / 128;
            && (next > 0 ==> next < n)
            && LengthPrefix(size) == length + [if n < 128 then n else n % 128 + 128]
                                     + (if next > 0 then LengthPrefix(next) else [])
  {
    PrefixStep(n);
  }

  method PrependLen(data: Buffer) returns (out: Buffer)
    ensures out == Field(data)
  {
    var length := EncodeLength(|data|);
    out := Concat([length, data]);
    FlattenTwo(length, data);
  }

  /** Its loop: seven bits at a time, lowest first. */
  method EncodeLength(size: nat) returns (length: Buffer)
    ensures length == LengthPrefix(size)
  {
    length := [];
    var n, more := size, true;
    while more
      invariant n >= 0
      invariant LengthPrefix(size) == length + (if more then LengthPrefix(n) else [])
      decreases more, n
    {
      PrefixNext(size, length, n);
      length := length + [if n < 128 then n else n % 128 + 128];
      n := n % TWO_POW_32 / 128;
      more := n > 0;
    }
  }

  method LvCatMethod(parts: seq<Buffer>) returns (out: Buffer)
    ensures out == LvCat(parts)
  {
    var fields: seq<Buffer> := [];
    for i := 0 to |parts|
      invariant fields == Fields(parts[..i])
    {
      var field := PrependLen(parts[i]);
      fields := fields + [field];
      assert fields == Fields(parts[..i + 1]);
    }
    assert parts[..|parts|] == parts;
    out := Concat(fields);
  }

  // ---------------------------------------------------------------- decoding

  function ReadLength(b: Buffer): (r: Option<(nat, Buffer)>)
    ensures r.Some? ==> |r.value.1| < |b|
  {
    if b == [] then None
    else if b[0] < 128 then Some((b[0], b[1..]))
    else
      match ReadLength(b[1..])
      case None => None
      case Some((high, rest)) => Some((b[0] - 128 + 128 * high, rest))
  }

  function ReadField(b: Buffer): (r: Option<(Buffer, Buffer)>)
    ensures r.Some? ==> |r.value.1| < |b|
  {
    match ReadLength(b)
    case None => None
    case Some((n, rest)) => if n <= |rest| then Some((rest[..n], rest[n..])) else None
  }

  function ReadAll(b: Buffer): Option<seq<Buffer>>
    decreases |b|
  {
    if b == [] then Some([])
    else
      match ReadField(b)
      case None => None
      case Some((field, rest)) =>
        match ReadAll(rest)
        case None => None
        case Some(fields) => Some([field] + fields)
  }

  lemma {:induction false} ReadLengthInvertsLeb128(n: nat, rest: Buffer)
    ensures ReadLength(Leb128(n) + rest) == Some((n, rest))
  {
    var b := Leb128(n) + rest;
    if n < 128 {
      assert b[1..] == rest;
    } else {
      ReadLengthInvertsLeb128(n / 128, rest);
      assert b[1..] == Leb128(n / 128) + rest;
    }
  }

  lemma {:induction false} PrefixIsLeb128(n: nat)
    requires n < TWO_POW_32
    ensures LengthPrefix(n) == Leb128(n)
  {
    PrefixStep(n);
    assert n % TWO_POW_32 == n;
    if n >= 128 {
      PrefixIsLeb128(n / 128);
    }
  }

  lemma Leb128Differs(a: nat, b: nat)
    requires a != b
    ensures Leb128(a) != Leb128(b)
  {
    ReadLengthInvertsLeb128(a, []);
    ReadLengthInvertsLeb128(b, []);
    assert Leb128(a) + [] == Leb128(a) && Leb128(b) + [] == Leb128(b);
  }

  /** The 32-bit shift writes the length the draft asks for exactly below 4 GiB. */
  lemma PrefixExact(n: nat)
    ensures LengthPrefix(n) == Leb128(n) <==> n < TWO_POW_32
  {
    if n < TWO_POW_32 {
      PrefixIsLeb128(n);
    } else {
      var shifted := n % TWO_POW_32 / 128;
      assert LengthPrefix(n)[1..] == if shifted > 0 then LengthPrefix(shifted) else [];
      assert Leb128(n)[1..] == Leb128(n / 128);
      if shifted > 0 {
        PrefixIsLeb128(shifted);
        Leb128Differs(shifted, n / 128);
      }
    }
  }

  ghost predicate Sized(parts: seq<Buffer>) {
    forall i :: 0 <= i < |parts| ==> |parts[i]| < TWO_POW_32
  }

  lemma ReadFieldInverts(head: Buffer, rest: Buffer)
    requires |head| < TWO_POW_32
    ensures ReadField(Field(head) + rest) == Some((head, rest))
  {
    PrefixIsLeb128(|head|);
    ReadLengthInvertsLeb128(|head|, head + rest);
    assert Field(head) + rest == Leb128(|head|) + (head + rest);
    assert (head + rest)[..|head|] == head && (head + rest)[|head|..] == rest;
  }

  /** A list of fields of any length is recovered from its encoding. */
  lemma {:induction false} ReadAllInvertsLvCat(parts: seq<Buffer>)
    requires Sized(parts)
    ensures ReadAll(LvCat(parts)) == Some(parts)
  {
    if parts == [] {
      assert Fields(parts) == [];
    } else {
      var head, tail := parts[0], parts[1..];
      ReadAllInvertsLvCat(tail);
      assert Fields(parts)[1..] == Fields(tail);
      ReadFieldInverts(head, LvCat(tail));
      assert LvCat(parts) == Field(head) + LvCat(tail);
      assert [head] + tail == parts;
    }
  }

  /** Equal encodings come from equal lists. */
  lemma LvCatInjective(a: seq<Buffer>, b: seq<Buffer>)
    requires Sized(a) && Sized(b)
    ensures LvCat(a) == LvCat(b) <==> a == b
  {
    ReadAllInvertsLvCat(a);
    ReadAllInvertsLvCat(b);
  }

  // ------------------------------------------------------ generator string, transcript

  function ZeroPadding(prs: Buffer): nat {
    var room := SHA512_BLOCK_BYTES - 1 - |Field(prs)| - |Field(DSI)|;
    if room > 0 then room else 0
  }

  function GeneratorString(prs: Buffer, ci: Buffer, sid: Buffer): Buffer {
    LvCat([DSI, prs, Zeros(ZeroPadding(prs)), ci, sid])
  }

  function TranscriptIr(ya: Buffer, ada: Buffer, yb: Buffer, adb: Buffer): Buffer {
    LvCat([ya, ada]) + LvCat([yb, adb])
  }

  /** generatorString and transcriptIr as the program builds them. */
  method GeneratorStringMethod(prs: Buffer, ci: Buffer, sid: Buffer) returns (out: Buffer)
    ensures out == GeneratorString(prs, ci, sid)
  {
    var prefixed := PrependLen(prs);
    var separator := PrependLen(DSI);
    var room := SHA512_BLOCK_BYTES - 1 - |prefixed| - |separator|;
    out := LvCatMethod([DSI, prs, Zeros(if room > 0 then room else 0), ci, sid]);
  }

  method TranscriptIrMethod(ya: Buffer, ada: Buffer, yb: Buffer, adb: Buffer) returns (out: Buffer)
    ensures out == TranscriptIr(ya, ada, yb, adb)
  {
    var first := LvCatMethod([ya, ada]);
    var second := LvCatMethod([yb, adb]);
    out := Concat([first, second]);
    FlattenTwo(first, second);
  }

  lemma LvCatAppend(a: seq<Buffer>, b: seq<Buffer>)
    ensures LvCat(a + b) == LvCat(a) + LvCat(b)
  {
    assert Fields(a + b) == Fields(a) + Fields(b);
    FlattenAppend(Fields(a), Fields(b));
  }

  lemma TranscriptIrIsOneList(ya: Buffer, ada: Buffer, yb: Buffer, adb: Buffer)
    ensures TranscriptIr(ya, ada, yb, adb) == LvCat([ya, ada, yb, adb])
  {
    LvCatAppend([ya, ada], [yb, adb]);
    assert [ya, ada] + [yb, adb] == [ya, ada, yb, adb];
  }

  /** Two transcripts agree only when every message and every associated datum agrees. */
  lemma TranscriptIrInjective(x: seq<Buffer>, y: seq<Buffer>)
    requires |x| == |y| == 4 && Sized(x) && Sized(y)
    ensures TranscriptIr(x[0], x[1], x[2], x[3]) == TranscriptIr(y[0], y[1], y[2], y[3]) <==> x == y
  {
    TranscriptIrIsOneList(x[0], x[1], x[2], x[3]);
    TranscriptIrIsOneList(y[0], y[1], y[2], y[3]);
    assert [x[0], x[1], x[2], x[3]] == x && [y[0], y[1], y[2], y[3]] == y;
    LvCatInjective(x, y);
  }

  /**
   * The separator, the password and the padding fill one SHA-512 block exactly when the first two
   * leave room for a padding field, and what follows starts on the next block.
   */
  lemma GeneratorStringFillsBlock(prs: Buffer, ci: Buffer, sid: Buffer)
    ensures var head := LvCat([DSI, prs, Zeros(ZeroPadding(prs))]);
            && GeneratorString(prs, ci, sid) == head + LvCat([ci, sid])
            && (|head| == SHA512_BLOCK_BYTES <==>
                |Field(prs)| + |Field(DSI)| <= SHA512_BLOCK_BYTES - 1)
  {
    var pad := Zeros(ZeroPadding(prs));
    LvCatAppend([DSI, prs, pad], [ci, sid]);
    assert [DSI, prs, pad] + [ci, sid] == [DSI, prs, pad, ci, sid];
    var fields := Fields([DSI, prs, pad]);
    assert fields == [Field(DSI), Field(prs), Field(pad)];
    FlattenThree(Field(DSI), Field(prs), Field(pad));
    assert |Field(pad)| == |pad| + 1;
  }

  /** The generator depends on the whole password, channel identifier and session identifier. */
  lemma GeneratorStringInjective(x: seq<Buffer>, y: seq<Buffer>)
    requires |x| == |y| == 3 && Sized(x) && Sized(y)
    ensures GeneratorString(x[0], x[1], x[2]) == GeneratorString(y[0], y[1], y[2]) <==> x == y
  {
    var fx := [DSI, x[0], Zeros(ZeroPadding(x[0])), x[1], x[2]];
    var fy := [DSI, y[0], Zeros(ZeroPadding(y[0])), y[1], y[2]];
    LvCatInjective(fx, fy);
    if fx == fy {
      assert fx[1] == fy[1] && fx[3] == fy[3] && fx[4] == fy[4];
    }
  }
}
