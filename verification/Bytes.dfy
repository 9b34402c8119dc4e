/** Fixed-width integers as they appear in the Go code, and their byte encodings.
    Go's wrap-around is written out with Wrap16 and Wrap32. */
module Bytes {
  type byte = x: int | 0 <= x < 0x100
  type u16 = x: int | 0 <= x < 0x1_0000
  type u32 = x: int | 0 <= x < 0x1_0000_0000
  type u64 = x: int | 0 <= x < 0x1_0000_0000_0000_0000

  const W16 := 0x1_0000
  const W32 := 0x1_0000_0000
  const W64 := 0x1_0000_0000_0000_0000

  function Wrap16(x: int): u16 { x % W16 }
  function Wrap32(x: int): u32 { x % W32 }
  function Wrap64(x: int): u64 { x % W64 }

  datatype Option<+T> = None | Some(value: T)

  datatype Result<+T> = Ok(value: T) | Error

  function Pow256(n: nat): (p: nat)
    ensures p > 0
  {
    if n == 0 then 1 else 256 * Pow256(n - 1)
  }

  lemma Pow256Widths()
    ensures Pow256(2) == W16 && Pow256(4) == W32 && Pow256(8) == W64
  {
    assert Pow256(4) == 256 * (256 * Pow256(2));
    assert Pow256(8) == 256 * (256 * (256 * (256 * Pow256(4))));
  }

  /** The n low bytes of v, least significant first. */
  function LittleEndian(n: nat, v: nat): (b: seq<byte>)
    ensures |b| == n
  {
    if n == 0 then [] else [v % 256] + LittleEndian(n - 1, v / 256)
  }

  function FromLittleEndian(b: seq<byte>): (v: nat)
    ensures v < Pow256(|b|)
  {
    if b == [] then 0 else b[0] + 256 * FromLittleEndian(b[1..])
  }

  /** Decoding inverts encoding up to truncation to n bytes... */
  lemma {:induction false} LittleEndianValue(n: nat, v: nat)
    requires v < Pow256(n)
    ensures FromLittleEndian(LittleEndian(n, v)) == v
  {
    if n > 0 {
      LittleEndianValue(n - 1, v / 256);
      assert LittleEndian(n, v)[1..] == LittleEndian(n - 1, v / 256);
    }
  }

  /** ... and encoding inverts decoding exactly. */
  lemma {:induction false} LittleEndianBytes(b: seq<byte>)
    ensures LittleEndian(|b|, FromLittleEndian(b)) == b
  {
    if b != [] {
      var rest := FromLittleEndian(b[1..]);
      LittleEndianBytes(b[1..]);
      assert (b[0] + 256 * rest) % 256 == b[0] && (b[0] + 256 * rest) / 256 == rest;
    }
  }

  function BigEndian16(v: u16): (b: seq<byte>)
    ensures |b| == 2
  {
    [v / 0x100, v % 0x100]
  }

  function BigEndian32(v: u32): (b: seq<byte>)
    ensures |b| == 4
  {
    [v / 0x100_0000, v / 0x1_0000 % 0x100, v / 0x100 % 0x100, v % 0x100]
  }

  function FromBigEndian16(b: seq<byte>): u16
    requires |b| == 2
  {
    (b[0] as int) * 0x100 + b[1] as int
  }

  function FromBigEndian32(b: seq<byte>): u32
    requires |b| == 4
  {
    (b[0] as int) * 0x100_0000 + (b[1] as int) * 0x1_0000 + (b[2] as int) * 0x100 + b[3] as int
  }

  lemma BigEndian32Value(v: u32)
    ensures FromBigEndian32(BigEndian32(v)) == v
  {
    assert v / 0x1_0000 % 0x100 == v / 0x1_0000 - 0x100 * (v / 0x100_0000);
    assert v / 0x100 % 0x100 == v / 0x100 - 0x100 * (v / 0x1_0000);
  }
}
