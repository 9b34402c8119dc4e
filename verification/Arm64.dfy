/** The AArch64 instructions that the repository assembles by hand (Arm ARM DDI 0487, section
    C6.2): MOVZ, ADR, SVC and B, with their decoder. */
module Arm64 {
  import opened Bytes
  import opened Bits

  /** Two's complement: the int64 with the bits of x. */
  function Signed64(x: u64): int {
    if x < W64 / 2 then x else x - W64
  }

  // ----------------------------------------------------------------------- encoders

  /** a | b of two uint32 */
  function Or32(a: u32, b: u32): (r: u32)
    ensures r == Or(a, b)
  {
    Pow2Values();
    OrBound(a, b, 32);
    Or(a, b)
  }

  function Movz(reg: u32, imm: u16): u32 {
    Or32(Or32(0xd280_0000, imm * 0x20), reg)
  }

  /** delta is an int64; its conversion to uint32 keeps the low bits of its two's complement. */
  function Adr(reg: u32, delta: int): u32 {
    var imm := Wrap32(delta) % 0x20_0000;
    Or32(Or32(Or32(0x1000_0000, imm % 4 * 0x2000_0000), imm / 4 % 0x8_0000 * 0x20), reg)
  }

  const SVC_0: u32 := 0xd400_0001

  /** branchInstruction: a B from one address to another. The difference of the addresses is
      that of Go's int64, and so is the shift, which rounds down. */
  function BranchInstruction(from: u64, to: u64): Result<u32> {
    if from % 4 != 0 || to % 4 != 0 then Error
    else
      var delta := Signed64(Wrap64(Signed64(to) - Signed64(from)));
      if delta < -0x800_0000 || delta >= 0x800_0000 then Error
      else Ok(Or32(0x1400_0000, Wrap32(delta / 4) % 0x400_0000))
  }

  // ------------------------------------------------------------------------ decoder

  datatype Instruction =
    | MOVZ(rd: nat, imm: u16)
    | ADR(rd: nat, offset: int)
    | SVC(call: u16)
    | B(offset: int)
    | Other

  /** The 64-bit MOVZ without shift, ADR, SVC and B by their fixed fields; anything else is
      Other. */
  function Decode(w: u32): Instruction {
    var rd, imm16 := w % 0x20, w / 0x20 % 0x1_0000;
    if w / 0x20_0000 == 0x694 then MOVZ(rd, imm16)
    else if w / 0x8000_0000 == 0 && w / 0x100_0000 % 0x20 == 0x10 then ADR(rd, Signed21(AdrField(w)))
    else if w / 0x20_0000 == 0x6a0 && rd == 1 then SVC(imm16)
    else if w / 0x400_0000 == 5 then B(Signed26(w % 0x400_0000) * 4)
    else Other
  }

  /** immhi:immlo */
  function AdrField(w: u32): nat { w / 0x20 % 0x8_0000 * 4 + w / 0x2000_0000 % 4 }

  function Signed21(x: nat): int { if x < 0x10_0000 then x else x - 0x20_0000 }

  function Signed26(x: nat): int { if x < 0x200_0000 then x else x - 0x400_0000 }

  // ------------------------------------------- the fields do not overlap

  lemma OrMovz(x: nat)
    requires x < 0x20_0000
    ensures Or(0xd280_0000, x) == 0xd280_0000 + x
  {
    Pow2Values();
    OrDisjoint(0x694, 21, x);
    hide Or, Pow2;
  }

  lemma OrRegister(h: nat, reg: nat)
    requires reg < 0x20
    ensures Or(h * 0x20, reg) == h * 0x20 + reg
  {
    Pow2Values();
    OrDisjoint(h, 5, reg);
    hide Or, Pow2;
  }

  lemma OrAdrLow(low: nat)
    ensures Or(0x1000_0000, low * 0x2000_0000) == 0x1000_0000 + low * 0x2000_0000
  {
    Pow2Values();
    OrDisjoint(low, 29, 0x1000_0000);
    OrCommutes(low * 0x2000_0000, 0x1000_0000);
    hide Or, Pow2;
  }

  lemma OrAdrHigh(low: nat, high: nat)
    requires high < 0x8_0000
    ensures Or(0x1000_0000 + low * 0x2000_0000, high * 0x20) == 0x1000_0000 + low * 0x2000_0000 + high * 0x20
  {
    Pow2Values();
    OrDisjoint(low * 2 + 1, 28, high * 0x20);
    hide Or, Pow2;
  }

  lemma MovzSum(reg: u32, imm: u16)
    requires reg < 0x20
    ensures Movz(reg, imm) == 0xd280_0000 + imm * 0x20 + reg
  {
    hide Or;
    OrMovz(imm * 0x20);
    OrRegister(0x694_0000 + imm, reg);
  }

  lemma AdrSum(reg: u32, delta: int)
    requires reg < 0x20
    ensures
      var imm := delta % 0x20_0000;
      Adr(reg, delta) == 0x1000_0000 + imm % 4 * 0x2000_0000 + imm / 4 * 0x20 + reg
  {
    hide Or;
    var imm := delta % 0x20_0000;
    LowBits(delta);
    var low, high := imm % 4, imm / 4;
    OrAdrLow(low);
    OrAdrHigh(low, high);
    OrRegister(0x80_0000 + low * 0x100_0000 + high, reg);
    hide Wrap32;
  }

  lemma LowBits(delta: int)
    ensures
      var imm := delta % 0x20_0000;
      Wrap32(delta) % 0x20_0000 == imm && imm / 4 % 0x8_0000 == imm / 4
  {
    var q, w := delta / W32, delta % W32;
    assert delta == (q * 0x800 + w / 0x20_0000) * 0x20_0000 + w % 0x20_0000;
  }

  lemma LowWord(x: int)
    ensures Wrap32(x) % 0x400_0000 == x % 0x400_0000
  {
    var q, w := x / W32, x % W32;
    assert x == (q * 0x40 + w / 0x400_0000) * 0x400_0000 + w % 0x400_0000;
  }

  lemma BranchSum(imm: nat)
    requires imm < 0x400_0000
    ensures Or(0x1400_0000, imm) == 0x1400_0000 + imm
  {
    Pow2Values();
    OrDisjoint(5, 26, imm);
    hide Or, Pow2;
  }

  // --------------------------------------------------- encoders and decoder agree

  /** movz assembles an instruction for every register and every immediate, and that
      instruction loads the immediate. */
  lemma MovzDecodes(reg: u32, imm: u16)
    requires reg < 0x20
    ensures Decode(Movz(reg, imm)) == MOVZ(reg, imm)
  {
    MovzSum(reg, imm);
    MovzFields(reg, imm);
    hide Movz, Decode;
  }

  lemma MovzFields(reg: u32, imm: u16)
    requires reg < 0x20
    ensures Decode(0xd280_0000 + imm * 0x20 + reg) == MOVZ(reg, imm)
  {
    var w := 0xd280_0000 + imm * 0x20 + reg;
    assert w / 0x20 == 0x694_0000 + imm;
    assert w / 0x20_0000 == 0x694;
    assert w % 0x20 == reg;
  }

  lemma AdrFields(reg: u32, imm: nat)
    requires reg < 0x20 && imm < 0x20_0000
    ensures
      var w := 0x1000_0000 + imm % 4 * 0x2000_0000 + imm / 4 * 0x20 + reg;
      w < W32 && Decode(w) == ADR(reg, Signed21(imm))
  {
    var w := 0x1000_0000 + imm % 4 * 0x2000_0000 + imm / 4 * 0x20 + reg;
    assert w % 0x20 == reg;
    assert w / 0x20 == 0x80_0000 + imm % 4 * 0x100_0000 + imm / 4;
    assert w / 0x20 % 0x8_0000 == imm / 4;
    assert w / 0x2000_0000 == imm % 4;
    assert w / 0x100_0000 == 0x10 + imm % 4 * 0x20;
  }

  lemma Signed21Exact(delta: int)
    ensures Signed21(delta % 0x20_0000) == delta <==> -0x10_0000 <= delta < 0x10_0000
  {
  }

  /** ADR decodes back to its delta exactly in its range, -2^20 up to 2^20 - 1; outside, the
      field loses the upper bits. */
  lemma AdrDecodes(reg: u32, delta: int)
    requires reg < 0x20
    ensures Decode(Adr(reg, delta)) == ADR(reg, delta) <==> -0x10_0000 <= delta < 0x10_0000
  {
    hide Adr, Decode, Signed21;
    AdrSum(reg, delta);
    AdrFields(reg, delta % 0x20_0000);
    Signed21Exact(delta);
  }

  /** Which branches are accepted: both addresses aligned, and the distance, forwards or
      backwards and modulo 2^64, one that a B can express. */
  lemma BranchAccepted(from: u64, to: u64)
    ensures BranchInstruction(from, to).Ok? <==>
            from % 4 == 0 && to % 4 == 0 && (Wrap64(to - from) < 0x800_0000 || Wrap64(from - to) <= 0x800_0000)
  {
    hide Or, Wrap64;
    WrapSigned(to, from);
    WrapOnce(to - from);
    WrapOnce(from - to);
    LiftMod4(to - from, Signed64(Wrap64(to - from)));
  }

  /** An accepted branch, decoded at its own address, lands on its target modulo 2^64, for
      negative offsets too. */
  lemma BranchLands(from: u64, to: u64)
    requires BranchInstruction(from, to).Ok?
    ensures
      var w := BranchInstruction(from, to).value;
      Decode(w).B? && Wrap64(from + Decode(w).offset) == to
  {
    var delta := Signed64(Wrap64(Signed64(to) - Signed64(from)));
    DeltaLands(from, to, delta);
    var imm := Wrap32(delta / 4) % 0x400_0000;
    BranchSum(imm);
    BranchOffset(delta);
    hide Or, Signed64, Wrap64;
  }

  /** The word of a branch is a B with the distance in its low 26 bits. */
  lemma BranchWord(from: u64, to: u64)
    requires BranchInstruction(from, to).Ok?
    ensures BranchInstruction(from, to).value / 0x400_0000 == 5
  {
    BranchSum(Wrap32(Signed64(Wrap64(Signed64(to) - Signed64(from))) / 4) % 0x400_0000);
    hide Or, Signed64, Wrap64;
  }

  lemma WrapOnce(x: int)
    requires -W64 < x < W64
    ensures Wrap64(x) == if x < 0 then x + W64 else x
  {
  }

  lemma WrapTwice(x: int)
    requires -2 * W64 < x < 2 * W64
    ensures Wrap64(x) == if x < -W64 then x + 2 * W64 else if x < 0 then x + W64 else if x < W64 then x else x - W64
  {
  }

  lemma WrapSigned(a: u64, b: u64)
    ensures Wrap64(Signed64(a) - Signed64(b)) == Wrap64(a - b)
  {
    WrapTwice(Signed64(a) - Signed64(b));
    WrapOnce(a - b);
    hide Wrap64;
  }

  lemma DeltaLands(from: u64, to: u64, delta: int)
    requires delta == Signed64(Wrap64(Signed64(to) - Signed64(from)))
    ensures Wrap64(from + delta) == to
    ensures from % 4 == 0 && to % 4 == 0 ==> delta % 4 == 0
  {
    hide Wrap64;
    WrapSigned(to, from);
    WrapOnce(to - from);
    WrapTwice(from + delta);
    LiftMod4(to - from, delta);
  }

  lemma LiftMod4(x: int, delta: int)
    requires delta == x || delta == x + W64 || delta == x - W64
    ensures x % 4 == 0 ==> delta % 4 == 0
  {
  }

  lemma BranchOffset(delta: int)
    requires -0x800_0000 <= delta < 0x800_0000 && delta % 4 == 0
    ensures
      var w := 0x1400_0000 + Wrap32(delta / 4) % 0x400_0000;
      w < W32 && Decode(w) == B(delta)
  {
    var imm := delta / 4 % 0x400_0000;
    LowWord(delta / 4);
    hide Wrap32;
    assert (0x1400_0000 + imm) / 0x400_0000 == 5;
    assert Signed26(imm) * 4 == delta;
  }
}
