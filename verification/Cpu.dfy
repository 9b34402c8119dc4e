/** The part of an AArch64 processor that the context switch uses, as the instructions of
    kernel/gvisorplatform/registers_arm64.s change it. */
module Cpus {
  import opened Bytes
  import opened Bits

  /** switchState is 54 words of physical memory. */
  const WORDS := 54
  const STATE_SIZE := 8 * WORDS

  const HALF := 0x1_0000_0000_0000
  const HIGH := 0xffff_0000_0000_0000

  type Memory = map<nat, u64>

  /** The word at a physical address. */
  function ReadWord(mem: Memory, a: nat): u64 {
    if a in mem then mem[a] else 0
  }

  /** The words of the switchState at base. */
  function Block(mem: Memory, base: nat): (b: seq<u64>)
    ensures |b| == WORDS
  {
    seq(WORDS, i requires 0 <= i < WORDS => ReadWord(mem, base + 8 * i))
  }

  /** s with two of its elements replaced. */
  function With(s: seq<u64>, i: nat, v: u64, j: nat, w: u64): (t: seq<u64>)
    requires i < |s| && j < |s|
    ensures |t| == |s|
  {
    s[i := v][j := w]
  }

  predicate Inside(a: nat, base: nat) {
    base <= a < base + STATE_SIZE
  }

  /** Memory without the switchState at base. */
  function Outside(mem: Memory, base: nat): Memory {
    map a | a in mem && !Inside(a, base) :: mem[a]
  }

  lemma StoreInside(mem: Memory, base: nat, i: nat, v: u64)
    requires i < WORDS
    ensures Block(mem[base + 8 * i := v], base) == Block(mem, base)[i := v]
    ensures Outside(mem[base + 8 * i := v], base) == Outside(mem, base)
  {
  }

  lemma StoreOutside(mem: Memory, base: nat, a: nat, v: u64)
    requires !Inside(a, base)
    ensures Block(mem[a := v], base) == Block(mem, base)
    ensures Outside(mem[a := v], base) == Outside(mem, base)[a := v]
  {
  }

  lemma ReadOutside(mem: Memory, base: nat, a: nat)
    requires !Inside(a, base)
    ensures ReadWord(mem, a) == ReadWord(Outside(mem, base), a)
  {
  }

  /** Both halves of the address space map the same RAM: the lower one identically, while the
      kernel's tables are installed, and the upper one always. */
  function Physical(va: nat): nat { va % HALF }

  lemma HighAddress(a: nat)
    requires a < HALF
    ensures Physical(HIGH + a) == a
  {
  }

  /** ORR of the upper half's bits into a lower-half address */
  lemma HighPointer(a: nat)
    requires a < HALF
    ensures Or(HIGH, a) == 0xffff_0000_0000_0000 + a
  {
    assert Pow2(48) == HALF by { Pow2Add(16, 32); Pow2Values(); assert Pow2(16) == 0x1_0000; }
    OrDisjoint(0xffff, 48, a);
    hide Or, Pow2;
  }

  datatype Access = Access(va: u64, ttbr0: u64)

  class Cpu {
    /** x0 to x30 */
    var x: seq<u64>
    /** The stack pointer of EL1. */
    var sp: u64
    var spEl0: u64
    var elr: u64
    var spsr: u64
    var tpidrEl0: u64
    var tpidrEl1: u64
    var ttbr0: u64
    var esr: u64
    var far: u64
    var mem: Memory
    /** TTBR0 of the kernel's own address space. */
    const kernelTtbr: u64
    /** Every word that EL1 has read or written, with the tables then installed. */
    ghost var accesses: seq<Access>

    constructor (kernelTtbr: u64, x: seq<u64>, sp: u64, mem: Memory)
      requires |x| == 31
      ensures this.kernelTtbr == kernelTtbr == ttbr0 && this.x == x && this.sp == sp && this.mem == mem
      ensures accesses == []
    {
      this.kernelTtbr := kernelTtbr;
      this.x, this.sp, this.mem := x, sp, mem;
      ttbr0 := kernelTtbr;
      spEl0, elr, spsr, tpidrEl0, tpidrEl1, esr, far := 0, 0, 0, 0, 0, 0, 0;
      accesses := [];
    }

    /** While the tables of an application are installed, EL1 uses only the upper half. */
    ghost predicate Safe()
      reads this
    {
      forall a :: a in accesses ==> a.ttbr0 == kernelTtbr || a.va >= HIGH
    }

    /** R18 holds the upper-half address of the switchState at base. */
    predicate Points(base: nat)
      reads this
    {
      |x| == 31 && base % 8 == 0 && base + STATE_SIZE <= HALF && x[18] == HIGH + base
    }

    // STP (r1, r2), offset(R18)
    method Stp(r1: nat, r2: nat, offset: nat, ghost base: nat)
      requires Points(base) && r1 < 31 && r2 < 31 && offset % 8 == 0 && offset + 16 <= STATE_SIZE
      modifies `mem, `accesses
      ensures Block(mem, base) == With(old(Block(mem, base)), offset / 8, x[r1], offset / 8 + 1, x[r2])
      ensures Outside(mem, base) == old(Outside(mem, base))
      ensures accesses == old(accesses) + [Access(x[18] + offset, ttbr0), Access(x[18] + offset + 8, ttbr0)]
      ensures old(Safe()) ==> Safe()
    {
      Str(r1, offset, base);
      Str(r2, offset + 8, base);
    }

    // MOVD r, offset(R18)
    method Str(r: nat, offset: nat, ghost base: nat)
      requires Points(base) && r < 31 && offset % 8 == 0 && offset + 8 <= STATE_SIZE
      modifies `mem, `accesses
      ensures Block(mem, base) == old(Block(mem, base))[offset / 8 := x[r]]
      ensures Outside(mem, base) == old(Outside(mem, base))
      ensures accesses == old(accesses) + [Access(x[18] + offset, ttbr0)]
      ensures old(Safe()) ==> Safe()
    {
      HighAddress(base + offset);
      StoreInside(mem, base, offset / 8, x[r]);
      mem := mem[Physical(x[18] + offset) := x[r]];
      accesses := accesses + [Access(x[18] + offset, ttbr0)];
    }

    // MOVD offset(R18), r
    method Ldr(r: nat, offset: nat, ghost base: nat)
      requires Points(base) && r < 31 && offset % 8 == 0 && offset + 8 <= STATE_SIZE
      modifies `x, `accesses
      ensures x == old(x)[r := Block(mem, base)[offset / 8]]
      ensures accesses == old(accesses) + [Access(old(x)[18] + offset, ttbr0)]
      ensures old(Safe()) ==> Safe()
    {
      HighAddress(base + offset);
      hide Physical;
      accesses := accesses + [Access(x[18] + offset, ttbr0)];
      x := x[r := ReadWord(mem, Physical(x[18] + offset))];
    }

    // LDP offset(R18), (r1, r2)
    method Ldp(r1: nat, r2: nat, offset: nat, ghost base: nat)
      requires Points(base) && r1 < 31 && r2 < 31 && offset % 8 == 0 && offset + 16 <= STATE_SIZE
      modifies `x, `accesses
      ensures x == With(old(x), r1, Block(mem, base)[offset / 8], r2, Block(mem, base)[offset / 8 + 1])
      ensures r1 != 18 && r2 != 18 ==> Points(base)
      ensures accesses == old(accesses) + [Access(old(x)[18] + offset, ttbr0), Access(old(x)[18] + offset + 8, ttbr0)]
      ensures old(Safe()) ==> Safe()
    {
      HighAddress(base + offset);
      HighAddress(base + offset + 8);
      var first, second := ReadWord(mem, Physical(x[18] + offset)), ReadWord(mem, Physical(x[18] + offset + 8));
      accesses := accesses + [Access(x[18] + offset, ttbr0), Access(x[18] + offset + 8, ttbr0)];
      x := x[r1 := first][r2 := second];
    }

    /** Go code stores a field of the switchState through its lower-half address. */
    method Store(base: nat, i: nat, v: u64)
      requires base + STATE_SIZE <= HALF && i < WORDS && ttbr0 == kernelTtbr
      modifies `mem, `accesses
      ensures Block(mem, base) == old(Block(mem, base))[i := v]
      ensures Outside(mem, base) == old(Outside(mem, base))
      ensures accesses == old(accesses) + [Access(base + 8 * i, ttbr0)]
      ensures old(Safe()) ==> Safe()
    {
      StoreInside(mem, base, i, v);
      mem := mem[Physical(base + 8 * i) := v];
      accesses := accesses + [Access(base + 8 * i, ttbr0)];
    }

    // STP (r1, r2), 0(RSP)
    method Push(r1: nat, r2: nat, ghost base: nat)
      requires |x| == 31 && r1 < 31 && r2 < 31 && HIGH <= sp && sp + 16 <= W64
      requires !Inside(sp - HIGH, base) && !Inside(sp - HIGH + 8, base)
      modifies `mem, `accesses
      ensures Block(mem, base) == old(Block(mem, base))
      ensures Outside(mem, base) == old(Outside(mem, base))[sp - HIGH := x[r1]][sp - HIGH + 8 := x[r2]]
      ensures accesses == old(accesses) + [Access(sp, ttbr0), Access(sp + 8, ttbr0)]
      ensures old(Safe()) ==> Safe()
    {
      HighAddress(sp - HIGH);
      HighAddress(sp - HIGH + 8);
      StoreOutside(mem, base, sp - HIGH, x[r1]);
      mem := mem[Physical(sp) := x[r1]];
      StoreOutside(mem, base, sp - HIGH + 8, x[r2]);
      mem := mem[Physical(sp + 8) := x[r2]];
      accesses := accesses + [Access(sp, ttbr0), Access(sp + 8, ttbr0)];
    }

    // LDP 0(RSP), (r1, r2)
    method Pop(r1: nat, r2: nat, ghost base: nat)
      requires |x| == 31 && r1 < 31 && r2 < 31 && HIGH <= sp && sp + 16 <= W64
      requires !Inside(sp - HIGH, base) && !Inside(sp - HIGH + 8, base)
      modifies `x, `accesses
      ensures
        var m := Outside(mem, base);
        x == old(x)[r1 := ReadWord(m, sp - HIGH)][r2 := ReadWord(m, sp - HIGH + 8)]
      ensures accesses == old(accesses) + [Access(sp, ttbr0), Access(sp + 8, ttbr0)]
      ensures old(Safe()) ==> Safe()
    {
      HighAddress(sp - HIGH);
      HighAddress(sp - HIGH + 8);
      ReadOutside(mem, base, sp - HIGH);
      ReadOutside(mem, base, sp - HIGH + 8);
      x := x[r1 := ReadWord(mem, Physical(sp))][r2 := ReadWord(mem, Physical(sp + 8))];
      accesses := accesses + [Access(sp, ttbr0), Access(sp + 8, ttbr0)];
    }
  }
}
