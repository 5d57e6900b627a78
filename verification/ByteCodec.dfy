/** Fixed-width machine integers and their little-endian byte images: what
    `reinterpret_cast<char *>(&value)` exposes on the 64-bit targets of the service. */
module ByteCodec {
  const INT64_MAX: int := 0x7FFF_FFFF_FFFF_FFFF
  const INT64_MIN: int := -0x8000_0000_0000_0000

  type Byte = x: int | 0 <= x < 256
  type Int32 = x: int | -0x8000_0000 <= x < 0x8000_0000
  type Int64 = x: int | -0x8000_0000_0000_0000 <= x < 0x8000_0000_0000_0000

  function Pow256(n: nat): (p: nat)
    ensures p > 0
  {
    if n == 0 then 1 else 256 * Pow256(n - 1)
  }

  /** The image of an unsigned value, least significant byte first. */
  function Encode(v: nat, width: nat): (s: seq<Byte>)
    ensures |s| == width
  {
    if width == 0 then [] else [v % 256] + Encode(v / 256, width - 1)
  }

  function Decode(s: seq<Byte>): (v: nat)
    ensures v < Pow256(|s|)
  {
    if s == [] then 0 else s[0] + 256 * Decode(s[1..])
  }

  lemma {:induction false} DecodeEncode(v: nat, width: nat)
    requires v < Pow256(width)
    ensures Decode(Encode(v, width)) == v
  {
    if width > 0 {
      DecodeEncode(v / 256, width - 1);
      assert Encode(v, width)[1..] == Encode(v / 256, width - 1);
    }
  }

  lemma {:induction false} EncodeDecode(s: seq<Byte>)
    ensures Encode(Decode(s), |s|) == s
  {
    if s != [] {
      var rest := s[1..];
      EncodeDecode(rest);
      var v := Decode(rest);
      LowDigit(s[0], v);
      hide Decode;
      assert s == [s[0]] + rest;
    }
  }

  lemma LowDigit(b: Byte, v: nat)
    ensures (b + 256 * v) % 256 == b && (b + 256 * v) / 256 == v
  {
  }

  /** Bytes come least significant first: one more byte is worth 256 to the number before it. */
  lemma {:induction false} DecodeSnoc(s: seq<Byte>, b: Byte)
    ensures Decode(s + [b]) == Decode(s) + Pow256(|s|) * b
  {
    if s == [] {
      assert [] + [b] == [b] && Decode([b]) == b;
    } else {
      var rest := s[1..];
      assert (s + [b])[1..] == rest + [b];
      DecodeSnoc(rest, b);
      ShiftPower(Decode(rest), Pow256(|rest|), b, s[0]);
    }
  }

  lemma ShiftPower(v: int, p: int, b: int, low: int)
    ensures low + 256 * (v + p * b) == low + 256 * v + (256 * p) * b
  {
  }

  /** Two's complement: the signed values a field of `width` bytes can hold. */
  ghost predicate Representable(v: int, width: nat) {
    0 <= 2 * v + Pow256(width) && 2 * v < Pow256(width)
  }

  function EncodeSigned(v: int, width: nat): (s: seq<Byte>)
    requires Representable(v, width)
    ensures |s| == width
  {
    Encode(if v < 0 then v + Pow256(width) else v, width)
  }

  function DecodeSigned(s: seq<Byte>): (v: int)
    ensures Representable(v, |s|)
  {
    var u := Decode(s);
    if 2 * u < Pow256(|s|) then u else u - Pow256(|s|)
  }

  lemma SignedRoundTrip(v: int, width: nat)
    requires Representable(v, width)
    ensures DecodeSigned(EncodeSigned(v, width)) == v
  {
    DecodeEncode(if v < 0 then v + Pow256(width) else v, width);
  }

  /** The other way round: any field is the image of the number it decodes to. */
  lemma SignedEncodeDecode(s: seq<Byte>)
    ensures EncodeSigned(DecodeSigned(s), |s|) == s
  {
    EncodeDecode(s);
  }

  lemma MachineWidths()
    ensures Pow256(4) == 0x1_0000_0000
    ensures Pow256(8) == 0x1_0000_0000_0000_0000
  {
    assert Pow256(2) == 0x1_0000;
    assert Pow256(4) == 0x1_0000_0000;
    assert Pow256(6) == 0x1_0000_0000_0000;
  }

  /** The images of int32_t, int64_t and size_t. */
  function EncodeInt32(v: Int32): (s: seq<Byte>)
    ensures |s| == 4
  {
    MachineWidths();
    EncodeSigned(v, 4)
  }

  function EncodeInt64(v: Int64): (s: seq<Byte>)
    ensures |s| == 8
  {
    MachineWidths();
    EncodeSigned(v, 8)
  }

  function EncodeSize(v: nat): (s: seq<Byte>)
    ensures |s| == 8
  {
    Encode(v, 8)
  }

  function DecodeInt32(s: seq<Byte>): (v: Int32)
    requires |s| == 4
  {
    MachineWidths();
    DecodeSigned(s)
  }

  function DecodeInt64(s: seq<Byte>): (v: Int64)
    requires |s| == 8
  {
    MachineWidths();
    DecodeSigned(s)
  }

  lemma Int32RoundTrip(v: Int32)
    ensures DecodeInt32(EncodeInt32(v)) == v
  {
    MachineWidths();
    SignedRoundTrip(v, 4);
  }

  lemma Int64RoundTrip(v: Int64)
    ensures DecodeInt64(EncodeInt64(v)) == v
  {
    MachineWidths();
    SignedRoundTrip(v, 8);
  }

  lemma SizeRoundTrip(v: nat)
    requires v < 0x1_0000_0000_0000_0000
    ensures Decode(EncodeSize(v)) == v
  {
    MachineWidths();
    DecodeEncode(v, 8);
  }
}
