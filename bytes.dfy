/** Bytes, public keys and little-endian integers, as Node's Buffer and
    Borsh lay them out. */
module Bytes {

  type byte = x: int | 0 <= x < 256

  /** A 32-byte public key. */
  type Pubkey = s: seq<byte> | |s| == 32 witness seq(32, _ => 0)

  function Pow256(width: nat): (p: nat)
    ensures p >= 1
  {
    if width == 0 then 1 else 256 * Pow256(width - 1)
  }

  const U16_LIMIT: nat := 0x1_0000
  const U32_LIMIT: nat := 0x1_0000_0000
  const U64_LIMIT: nat := 0x1_0000_0000_0000_0000

  type u8 = x: int | 0 <= x < 256
  type u16 = x: int | 0 <= x < U16_LIMIT
  type u64 = x: int | 0 <= x < U64_LIMIT
  type i64 = x: int | -0x8000_0000_0000_0000 <= x < 0x8000_0000_0000_0000

  /** `n` written as `width` little-endian bytes (Buffer.writeUIntLE,
      BN.toArrayLike(Buffer, 'le', width), Borsh integers). */
  function LittleEndian(n: nat, width: nat): (bs: seq<byte>)
    requires n < Pow256(width)
    ensures |bs| == width
  {
    if width == 0 then [] else [n % 256] + LittleEndian(n / 256, width - 1)
  }

  /** The unsigned value of little-endian bytes (`new BN(bytes, 'le')`). */
  function FromLittleEndian(bs: seq<byte>): (n: nat)
    ensures n < Pow256(|bs|)
  {
    if bs == [] then 0 else bs[0] + 256 * FromLittleEndian(bs[1..])
  }

  lemma {:induction false} FromLittleEndianInverse(n: nat, width: nat)
    requires n < Pow256(width)
    ensures FromLittleEndian(LittleEndian(n, width)) == n
  {
    if width > 0 {
      var bs := LittleEndian(n, width);
      assert bs[1..] == LittleEndian(n / 256, width - 1);
      FromLittleEndianInverse(n / 256, width - 1);
    }
  }

  lemma Pow256Values()
    ensures Pow256(2) == U16_LIMIT && Pow256(4) == U32_LIMIT && Pow256(8) == U64_LIMIT
  {
    assert Pow256(2) == 0x1_0000;
    assert Pow256(4) == 0x1_0000_0000;
  }

  /** Two's-complement little-endian i64 (Borsh `i64`). */
  function I64LittleEndian(v: i64): (bs: seq<byte>)
    ensures |bs| == 8
  {
    Pow256Values();
    LittleEndian(if v >= 0 then v else v + U64_LIMIT, 8)
  }

  /** `buf.slice(start, end)` on a Node Buffer: both ends are clamped to
      the buffer, so a short buffer yields a short (possibly empty) slice. */
  function Slice(data: seq<byte>, start: nat, end: nat): (s: seq<byte>)
    ensures |s| <= end - start || start > end
    ensures end <= |data| && start <= end ==> s == data[start..end]
  {
    var e := if end <= |data| then end else |data|;
    if start <= e then data[start..e] else []
  }

  /** ASCII text as bytes (Buffer.from of a plain ASCII string). */
  function Ascii(s: string): (bs: seq<byte>)
    requires forall i :: 0 <= i < |s| ==> s[i] as int < 128
    ensures |bs| == |s|
    ensures forall i :: 0 <= i < |s| ==> bs[i] == s[i] as int
  {
    if s == [] then [] else [s[0] as int] + Ascii(s[1..])
  }
}
