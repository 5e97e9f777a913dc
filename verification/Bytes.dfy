/** Byte strings, big-endian integers and hexadecimal text. */
module Bytes {

  datatype Option<+T> = None | Some(value: T)
  datatype Result<+T, +E> = Ok(value: T) | Err(error: E)

  type byte = x: int | 0 <= x < 256
  type Text = seq<byte>

  /** A UUID is a 128-bit number; PostgreSQL orders UUIDs by their big-endian bytes. */
  type Uuid = x: int | 0 <= x < 0x1_0000_0000_0000_0000_0000_0000_0000_0000

  const U32: int := 0x1_0000_0000
  const U64: int := 0x1_0000_0000_0000_0000
  const I64_MAX: int := 0x7fff_ffff_ffff_ffff
  const I64_MIN: int := -0x8000_0000_0000_0000

  function Min(a: int, b: int): int {
    if a <= b then a else b
  }

  /** The bytes of an ASCII literal. */
  function Ascii(s: string): (b: Text)
    ensures |b| == |s|
    ensures forall i | 0 <= i < |s| :: b[i] == s[i] as int % 256
  {
    seq(|s|, i requires 0 <= i < |s| => s[i] as int % 256)
  }

  // ---------------------------------------------------------------- big-endian integers

  function Pow256(width: nat): (r: nat)
    ensures r > 0
  {
    if width == 0 then 1 else 256 * Pow256(width - 1)
  }

  /** The low `width` bytes of n, most significant first: what to_be_bytes yields. */
  function BigEndian(n: nat, width: nat): (b: seq<byte>)
    ensures |b| == width
  {
    if width == 0 then [] else BigEndian(n / 256, width - 1) + [n % 256]
  }

  function FromBigEndian(b: seq<byte>): (n: nat)
    ensures n < Pow256(|b|)
  {
    if b == [] then 0 else 256 * FromBigEndian(b[..|b| - 1]) + b[|b| - 1]
  }

  lemma {:induction false} FromBigEndianInverts(n: nat, width: nat)
    requires n < Pow256(width)
    ensures FromBigEndian(BigEndian(n, width)) == n
  {
    if width > 0 {
      var b, high := BigEndian(n, width), BigEndian(n / 256, width - 1);
      assert b == high + [n % 256] && b[..width - 1] == high;
      assert n / 256 < Pow256(width - 1);
      hide BigEndian;
      FromBigEndianInverts(n / 256, width - 1);
    }
  }

  lemma {:induction false} BigEndianInverts(b: seq<byte>)
    ensures BigEndian(FromBigEndian(b), |b|) == b
  {
    if b != [] {
      BigEndianInverts(b[..|b| - 1]);
      assert FromBigEndian(b) / 256 == FromBigEndian(b[..|b| - 1]);
    }
  }

  lemma BigEndianInjective(m: nat, n: nat, width: nat)
    requires m < Pow256(width) && n < Pow256(width)
    requires BigEndian(m, width) == BigEndian(n, width)
    ensures m == n
  {
    FromBigEndianInverts(m, width);
    FromBigEndianInverts(n, width);
  }

  lemma Widths()
    ensures Pow256(4) == U32
    ensures Pow256(8) == U64
    ensures Pow256(16) == 0x1_0000_0000_0000_0000_0000_0000_0000_0000
  {
    assert Pow256(4) == 256 * (256 * (256 * (256 * Pow256(0))));
    assert Pow256(8) == 256 * (256 * (256 * (256 * Pow256(4))));
    assert Pow256(12) == 256 * (256 * (256 * (256 * Pow256(8))));
    assert Pow256(16) == 256 * (256 * (256 * (256 * Pow256(12))));
  }

  // ---------------------------------------------------------------- hexadecimal digests

  function Digit(n: int): (c: byte)
    requires 0 <= n < 16
  {
    if n < 10 then 48 + n else 87 + n
  }

  /** The lower-case hexadecimal digits, and only those. */
  predicate IsDigit(c: byte) {
    48 <= c <= 57 || 97 <= c <= 102
  }

  function Nibble(c: byte): (n: int)
    requires IsDigit(c)
    ensures 0 <= n < 16
  {
    if c <= 57 then c - 48 else c - 97 + 10
  }

  /** Byte i of the input is spelled by characters 2i and 2i+1 of the text. */
  ghost predicate Spells(text: Text, bytes: seq<byte>) {
    && |text| == 2 * |bytes|
    && forall i | 0 <= i < |bytes| ::
         && text[2 * i] == Digit(bytes[i] / 16)
         && text[2 * i + 1] == Digit(bytes[i] % 16)
  }

  method Hex(bytes: seq<byte>) returns (out: Text)
    ensures Spells(out, bytes)
  {
    out := [];
    for k := 0 to |bytes|
      invariant Spells(out, bytes[..k])
    {
      out := out + [Digit(bytes[k] / 16), Digit(bytes[k] % 16)];
    }
    assert bytes[..|bytes|] == bytes;
  }

  predicate DigestText(value: Text) {
    |value| == 64 && forall i | 0 <= i < 64 :: IsDigit(value[i])
  }

  /** Accepts exactly 64 lower-case digits, and then the 32 bytes they spell. */
  method DigestBytes(value: Text) returns (r: Option<seq<byte>>)
    ensures r.Some? <==> DigestText(value)
    ensures r.Some? ==> |r.value| == 32 && Spells(value, r.value)
  {
    if |value| != 64 || !(forall i | 0 <= i < |value| :: IsDigit(value[i])) {
      return None;
    }
    var out: seq<byte> := [];
    for k := 0 to 32
      invariant |out| == k
      invariant forall i | 0 <= i < k :: out[i] == Nibble(value[2 * i]) * 16 + Nibble(value[2 * i + 1])
    {
      out := out + [Nibble(value[2 * k]) * 16 + Nibble(value[2 * k + 1])];
    }
    forall i | 0 <= i < 32
      ensures value[2 * i] == Digit(out[i] / 16) && value[2 * i + 1] == Digit(out[i] % 16)
    {
      assert out[i] / 16 == Nibble(value[2 * i]) && out[i] % 16 == Nibble(value[2 * i + 1]);
    }
    r := Some(out);
  }

  lemma Position(i: nat)
    ensures i == 2 * (i / 2) || i == 2 * (i / 2) + 1
  {
  }

  /** A digest has exactly one spelling and a spelling exactly one digest, so Hex and
      DigestBytes undo each other. */
  lemma SpellingIsOneToOne(text: Text, other: Text, bytes: seq<byte>, more: seq<byte>)
    requires Spells(text, bytes) && Spells(other, more)
    ensures text == other <==> bytes == more
    ensures |bytes| == 32 ==> DigestText(text)
  {
    forall i | 0 <= i < |text| ensures IsDigit(text[i]) {
      Position(i);
      assert text[2 * (i / 2)] == Digit(bytes[i / 2] / 16);
      assert 2 * (i / 2) + 1 < |text| && text[2 * (i / 2) + 1] == Digit(bytes[i / 2] % 16);
    }
    if bytes == more {
      forall i | 0 <= i < |text| ensures text[i] == other[i] {
        Position(i);
        assert text[2 * (i / 2)] == other[2 * (i / 2)] && text[2 * (i / 2) + 1] == other[2 * (i / 2) + 1];
      }
    }
    if text == other {
      forall i | 0 <= i < |bytes| ensures bytes[i] == more[i] {
        assert text[2 * i] == other[2 * i] && text[2 * i + 1] == other[2 * i + 1];
        assert bytes[i] / 16 == more[i] / 16 && bytes[i] % 16 == more[i] % 16;
      }
    }
  }
}
