/**
 * The 64-byte trailer of a bundle: magic, version, footer length, manifest length, the manifest's
 * SHA-256 and padding (internal/share/bundle/bundle.go, web/frontend/src/lib/bundle.ts).
 */
module Footer {
  import opened Bytes
  import opened Format

  const MAGIC: Buffer := [0x53, 0x4c, 0x42, 0x4e, 0x44, 0x4c, 0x32, 0x00]
  const TWO_POW_53: int := 0x20_0000_0000_0000

  type Digest = b: Buffer | |b| == 32 witness seq(32, i => 0)

  datatype Footer = Footer(manifestLength: Int64, manifestSha256: Digest)
  datatype FooterError = InvalidFooter

  // ------------------------------------------------------ big-endian integers

  function Pow256(width: nat): (p: nat)
    ensures p > 0
  {
    if width == 0 then 1 else 256 * Pow256(width - 1)
  }

  function BigEndian(n: nat, width: nat): (b: Buffer)
    ensures |b| == width
  {
    if width == 0 then [] else BigEndian(n / 256, width - 1) + [n % 256]
  }

  function FromBigEndian(b: Buffer): nat {
    if b == [] then 0 else 256 * FromBigEndian(b[..|b| - 1]) + b[|b| - 1]
  }

  lemma {:induction false} BigEndianDecodes(n: nat, width: nat)
    requires n < Pow256(width)
    ensures FromBigEndian(BigEndian(n, width)) == n
  {
    if width > 0 {
      BigEndianDecodes(n / 256, width - 1);
      assert BigEndian(n, width)[..width - 1] == BigEndian(n / 256, width - 1);
    }
  }

  lemma {:induction false} BigEndianEncodes(b: Buffer)
    ensures BigEndian(FromBigEndian(b), |b|) == b
  {
    if b != [] {
      BigEndianEncodes(b[..|b| - 1]);
      BigEndianStep(b);
    }
  }

  lemma BigEndianStep(b: Buffer)
    requires b != []
    ensures BigEndian(FromBigEndian(b), |b|) == BigEndian(FromBigEndian(b[..|b| - 1]), |b| - 1) + [b[|b| - 1]]
  {
    assert FromBigEndian(b) / 256 == FromBigEndian(b[..|b| - 1]) && FromBigEndian(b) % 256 == b[|b| - 1];
  }

  lemma Widths()
    ensures Pow256(4) == 0x1_0000_0000
    ensures Pow256(8) == TWO_POW_64
  {
    assert Pow256(4) == 256 * (256 * Pow256(2)) && Pow256(2) == 256 * (256 * Pow256(0));
    assert Pow256(8) == 256 * (256 * Pow256(6)) && Pow256(6) == 256 * (256 * Pow256(4));
  }

  // ------------------------------------------------------ codec

  function EncodeFooter(f: Footer): Result<Buffer, FooterError> {
    if f.manifestLength <= RECORD_OVERHEAD then Err(InvalidFooter)
    else Ok(Layout(f.manifestLength, f.manifestSha256))
  }

  function Layout(length: nat, digest: Digest): (b: Buffer)
    ensures |b| == FOOTER_LENGTH
  {
    MAGIC + BigEndian(VERSION, 4) + BigEndian(FOOTER_LENGTH, 4) + BigEndian(length, 8) + digest
    + Zeros(8)
  }

  /** copy(out[at:], bytes) into a buffer filled up to at. */
  method CopyInto(out: array<Byte>, at: nat, bytes: Buffer, ghost filled: Buffer)
    requires at + |bytes| <= out.Length
    requires |filled| == at && out[..] == filled + Zeros(out.Length - at)
    modifies out
    ensures out[..] == filled + bytes + Zeros(out.Length - at - |bytes|)
  {
    forall k | 0 <= k < |bytes| {
      out[at + k] := bytes[k];
    }
    assert forall k :: at + |bytes| <= k < out.Length ==> old(out[..])[k] == 0;
  }

  /** The encoder as written: a zeroed buffer whose fields are filled in place. */
  method FillFooter(f: Footer) returns (r: Result<Buffer, FooterError>)
    ensures r == EncodeFooter(f)
  {
    if f.manifestLength <= RECORD_OVERHEAD {
      return Err(InvalidFooter);
    }
    var out := new Byte[FOOTER_LENGTH](i => 0);
    assert out[..] == [] + Zeros(FOOTER_LENGTH);
    CopyInto(out, 0, MAGIC, []);
    ghost var filled := [] + MAGIC;
    assert filled == MAGIC;
    CopyInto(out, 8, BigEndian(VERSION, 4), filled);
    filled := filled + BigEndian(VERSION, 4);
    CopyInto(out, 12, BigEndian(FOOTER_LENGTH, 4), filled);
    filled := filled + BigEndian(FOOTER_LENGTH, 4);
    CopyInto(out, 16, BigEndian(f.manifestLength, 8), filled);
    filled := filled + BigEndian(f.manifestLength, 8);
    CopyInto(out, 24, f.manifestSha256, filled);
    r := Ok(out[..]);
  }

  predicate HasHeader(b: Buffer) {
    && |b| == FOOTER_LENGTH
    && b[..8] == MAGIC
    && FromBigEndian(b[8..12]) == VERSION
    && FromBigEndian(b[12..16]) == FOOTER_LENGTH
  }

  function ParseFooter(b: Buffer): Result<Footer, FooterError> {
    if !HasHeader(b) then Err(InvalidFooter)
    else
      var length := FromBigEndian(b[16..24]);
      if length > TWO_POW_53 || length <= RECORD_OVERHEAD then Err(InvalidFooter)
      else Ok(Footer(length, b[24..56]))
  }

  /** The TypeScript parser: lengths must be safe integers, so 2^53 itself is refused. */
  function ParseBundleFooter(b: Buffer): Result<Footer, FooterError> {
    if !HasHeader(b) then Err(InvalidFooter)
    else
      var length := FromBigEndian(b[16..24]);
      if length > TWO_POW_53 - 1 then Err(InvalidFooter)
      else if length <= RECORD_OVERHEAD then Err(InvalidFooter)
      else Ok(Footer(length, b[24..56]))
  }

  lemma LayoutFields(length: nat, digest: Digest)
    ensures var b := Layout(length, digest);
            && b[..8] == MAGIC
            && b[8..12] == BigEndian(VERSION, 4)
            && b[12..16] == BigEndian(FOOTER_LENGTH, 4)
            && b[16..24] == BigEndian(length, 8)
            && b[24..56] == digest
  {
  }

  /** Reading back what was written, exactly for the lengths the parser admits. */
  lemma ParseInvertsEncode(f: Footer)
    requires EncodeFooter(f).Ok?
    ensures ParseFooter(EncodeFooter(f).value) == Ok(f) <==> f.manifestLength <= TWO_POW_53
  {
    LayoutFields(f.manifestLength, f.manifestSha256);
    Widths();
    BigEndianDecodes(VERSION, 4);
    BigEndianDecodes(FOOTER_LENGTH, 4);
    BigEndianDecodes(f.manifestLength, 8);
  }

  /** Every accepted trailer is reproduced up to its padding. */
  lemma EncodeInvertsParse(b: Buffer)
    requires ParseFooter(b).Ok?
    ensures EncodeFooter(ParseFooter(b).value).Ok?
    ensures EncodeFooter(ParseFooter(b).value).value[..56] == b[..56]
  {
    var f := ParseFooter(b).value;
    LayoutFields(f.manifestLength, f.manifestSha256);
    HeaderReproduced(b);
    SplitFields(b);
    SplitFields(Layout(f.manifestLength, f.manifestSha256));
  }

  lemma HeaderReproduced(b: Buffer)
    requires HasHeader(b)
    ensures b[8..12] == BigEndian(VERSION, 4) && b[12..16] == BigEndian(FOOTER_LENGTH, 4)
    ensures b[16..24] == BigEndian(FromBigEndian(b[16..24]), 8)
  {
    BigEndianEncodes(b[8..12]);
    BigEndianEncodes(b[12..16]);
    BigEndianEncodes(b[16..24]);
  }

  lemma SplitFields(b: Buffer)
    requires |b| == FOOTER_LENGTH
    ensures b[..56] == b[..8] + b[8..12] + b[12..16] + b[16..24] + b[24..56]
  {
  }

  /** The Go and the TypeScript parser differ on the trailers whose length field holds 2^53, and on no others. */
  lemma ParsersAgree(b: Buffer)
    ensures ParseFooter(b) == ParseBundleFooter(b) <==> !(HasHeader(b) && b[16..24] == BigEndian(TWO_POW_53, 8))
  {
    Widths();
    BigEndianDecodes(TWO_POW_53, 8);
    if HasHeader(b) {
      BigEndianEncodes(b[16..24]);
    }
  }

  /** ... and that length is one a well-formed trailer can carry. */
  lemma ParsersDiffer(digest: Digest)
    ensures var b := Layout(TWO_POW_53, digest);
            ParseFooter(b) == Ok(Footer(TWO_POW_53, digest)) && ParseBundleFooter(b) == Err(InvalidFooter)
  {
    ParseInvertsEncode(Footer(TWO_POW_53, digest));
  }
}
