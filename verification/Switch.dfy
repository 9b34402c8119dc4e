/** kernel/gvisorplatform: the switch from EL1 to EL0 and back, in registers_arm64.s and in
    switchToUser of platform.go. */
module Switch {
  import opened Bytes
  import opened Bits
  import opened Cpus

  // The offsets of registers_arm64.s.
  const U_R0 := 0
  const U_SP := 248
  const U_PC := 256
  const U_PSTATE := 264
  const K_TTBR := 272
  const A_TTBR := 280
  const K_SP := 288
  const EX_SP := 296
  const K_R19 := 304
  const S_ESR := 400
  const S_FAR := 408
  const S_VECTOR := 416
  const U_TLS := 424

  /** switchState, field by field as platform.go declares it. */
  datatype SwitchState = SwitchState(
    userRegs: seq<u64>,
    userSp: u64,
    userPc: u64,
    userPstate: u64,
    kernelTtbr: u64,
    appTtbr: u64,
    kernelSp: u64,
    exceptionSp: u64,
    kernelRegs: seq<u64>,
    esr: u64,
    far: u64,
    vector: u64,
    userTls: u64)
  {
    predicate Valid() { |userRegs| == 31 && |kernelRegs| == 12 }

    /** Its words in memory. */
    function Words(): (w: seq<u64>)
      requires Valid()
      ensures |w| == WORDS
    {
      userRegs + [userSp, userPc, userPstate, kernelTtbr, appTtbr, kernelSp, exceptionSp] + kernelRegs
      + [esr, far, vector, userTls]
    }
  }

  /** The fields that a block of 54 words holds. */
  function FromWords(w: seq<u64>): (s: SwitchState)
    requires |w| == WORDS
    ensures s.Valid()
  {
    SwitchState(w[..31], w[31], w[32], w[33], w[34], w[35], w[36], w[37], w[38..50], w[50], w[51], w[52], w[53])
  }

  /** The offsets of the assembly are those of the fields of the struct. */
  lemma OffsetsAgree(s: SwitchState)
    requires s.Valid()
    ensures
      var w := s.Words();
      && (forall i :: 0 <= i < 31 ==> w[U_R0 / 8 + i] == s.userRegs[i])
      && (forall i :: 0 <= i < 12 ==> w[K_R19 / 8 + i] == s.kernelRegs[i])
      && w[U_SP / 8] == s.userSp && w[U_PC / 8] == s.userPc && w[U_PSTATE / 8] == s.userPstate
      && w[K_TTBR / 8] == s.kernelTtbr && w[A_TTBR / 8] == s.appTtbr
      && w[K_SP / 8] == s.kernelSp && w[EX_SP / 8] == s.exceptionSp
      && w[S_ESR / 8] == s.esr && w[S_FAR / 8] == s.far && w[S_VECTOR / 8] == s.vector && w[U_TLS / 8] == s.userTls
      && FromWords(w) == s
  {
    var w := s.Words();
    assert w[..31] == s.userRegs;
    assert w[38..50] == s.kernelRegs;
  }

  /** The addresses that runUser may rely on: an aligned switchState in the lower half, and room
      for one push on an exception stack in the upper half that does not overlap it and is aligned
      as the processor demands of a stack pointer. */
  predicate Laid(base: nat, exceptionSp: u64) {
    && base % 8 == 0 && base + STATE_SIZE <= HALF
    && HIGH + 16 <= exceptionSp && exceptionSp % 16 == 0
    && !Inside(exceptionSp - 16 - HIGH, base) && !Inside(exceptionSp - 8 - HIGH, base)
  }

  // ------------------------------------------------------------------- runUser

  /** A block after the kernel's stack pointer and x19 to x30 are stored in it. */
  function WithKernel(b: seq<u64>, sp: u64, x: seq<u64>): (c: seq<u64>)
    requires |b| == WORDS && |x| == 31
    ensures |c| == WORDS
  {
    b[..36] + [sp] + b[37..38] + x[19..] + b[50..]
  }

  lemma KernelStores(b: seq<u64>, x: seq<u64>)
    requires |b| == WORDS && |x| == 31
    ensures
      var c0 := With(b, 38, x[19], 39, x[20]);
      var c1 := With(c0, 40, x[21], 41, x[22]);
      var c2 := With(c1, 42, x[23], 43, x[24]);
      var c3 := With(c2, 44, x[25], 45, x[26]);
      var c4 := With(c3, 46, x[27], 47, x[28]);
      var c5 := With(c4, 48, x[29], 49, x[30]);
      c5 == b[..38] + x[19..] + b[50..]
  {
  }

  method StoreKernel(cpu: Cpu, ghost base: nat)
    requires cpu.Points(base) && cpu.Safe()
    modifies cpu`mem, cpu`accesses
    ensures cpu.Safe()
    ensures Outside(cpu.mem, base) == old(Outside(cpu.mem, base))
    ensures
      var b := old(Block(cpu.mem, base));
      Block(cpu.mem, base) == b[..38] + cpu.x[19..] + b[50..]
  {
    hide With, Block, Outside;
    KernelStores(Block(cpu.mem, base), cpu.x);
    cpu.Stp(19, 20, K_R19, base);
    cpu.Stp(21, 22, K_R19 + 16, base);
    cpu.Stp(23, 24, K_R19 + 32, base);
    cpu.Stp(25, 26, K_R19 + 48, base);
    cpu.Stp(27, 28, K_R19 + 64, base);
    cpu.Stp(29, 30, K_R19 + 80, base);
  }

  lemma WithKernelIs(b: seq<u64>, sp: u64, x: seq<u64>)
    requires |b| == WORDS && |x| == 31
    ensures
      var c, y := b[36 := sp], x[16 := sp];
      c[..38] + y[19..] + c[50..] == WithKernel(b, sp, x)
  {
  }

  /** The kernel's stack pointer and callee-saved registers go into the switchState. */
  method SaveKernel(cpu: Cpu, ghost base: nat)
    requires cpu.Points(base) && cpu.Safe()
    modifies cpu`mem, cpu`x, cpu`accesses
    ensures cpu.Points(base) && cpu.Safe()
    ensures Outside(cpu.mem, base) == old(Outside(cpu.mem, base))
    ensures Block(cpu.mem, base) == WithKernel(old(Block(cpu.mem, base)), cpu.sp, old(cpu.x))
  {
    hide Block, Outside, WithKernel;
    WithKernelIs(Block(cpu.mem, base), cpu.sp, cpu.x);
    cpu.x := cpu.x[16 := cpu.sp];
    cpu.Str(16, K_SP, base);
    StoreKernel(cpu, base);
  }

  /** The system registers of EL0 come from the switchState, then the application's tables. */
  method LoadSystem(cpu: Cpu, ghost base: nat)
    requires cpu.Points(base) && cpu.Safe()
    modifies cpu`x, cpu`spEl0, cpu`elr, cpu`spsr, cpu`tpidrEl0, cpu`sp, cpu`ttbr0, cpu`accesses
    ensures cpu.Points(base) && cpu.Safe()
    ensures
      var b := Block(cpu.mem, base);
      cpu.spEl0 == b[31] && cpu.elr == b[32] && cpu.spsr == b[33] && cpu.tpidrEl0 == b[53] && cpu.sp == b[37]
          && cpu.ttbr0 == b[35]
  {
    hide Block;
    cpu.Ldr(16, U_SP, base);
    cpu.spEl0 := cpu.x[16];
    cpu.Ldr(16, U_PC, base);
    cpu.elr := cpu.x[16];
    cpu.Ldr(16, U_PSTATE, base);
    cpu.spsr := cpu.x[16];
    cpu.Ldr(16, U_TLS, base);
    cpu.tpidrEl0 := cpu.x[16];
    cpu.Ldr(16, EX_SP, base);
    cpu.sp := cpu.x[16];
    cpu.Ldr(16, A_TTBR, base);
    cpu.ttbr0 := cpu.x[16];
  }

  lemma LowRegisters(x: seq<u64>, b: seq<u64>)
    requires |x| == 31 && |b| == WORDS
    ensures
      var c0 := With(x, 0, b[0], 1, b[1]);
      var c1 := With(c0, 2, b[2], 3, b[3]);
      var c2 := With(c1, 4, b[4], 5, b[5]);
      var c3 := With(c2, 6, b[6], 7, b[7]);
      c3 == b[..8] + x[8..]
  {
  }

  lemma MiddleRegisters(x: seq<u64>, b: seq<u64>)
    requires |x| == 31 && |b| == WORDS
    ensures
      var c0 := With(x, 8, b[8], 9, b[9]);
      var c1 := With(c0, 10, b[10], 11, b[11]);
      var c2 := With(c1, 12, b[12], 13, b[13]);
      var c3 := With(c2, 14, b[14], 15, b[15]);
      var c4 := With(c3, 16, b[16], 17, b[17]);
      c4 == x[..8] + b[8..18] + x[18..]
  {
  }

  lemma HighRegisters(x: seq<u64>, b: seq<u64>)
    requires |x| == 31 && |b| == WORDS
    ensures
      var c0 := With(x, 20, b[20], 21, b[21]);
      var c1 := With(c0, 22, b[22], 23, b[23]);
      var c2 := With(c1, 24, b[24], 25, b[25]);
      var c3 := With(c2, 26, b[26], 27, b[27]);
      var c4 := With(c3, 28, b[28], 29, b[29]);
      c4[30 := b[30]] == x[..20] + b[20..31]
  {
  }

  method LoadLow(cpu: Cpu, ghost base: nat)
    requires cpu.Points(base) && cpu.Safe()
    modifies cpu`x, cpu`accesses
    ensures cpu.Points(base) && cpu.Safe()
    ensures cpu.x == Block(cpu.mem, base)[..8] + old(cpu.x)[8..]
  {
    hide With, Block;
    LowRegisters(cpu.x, Block(cpu.mem, base));
    cpu.Ldp(0, 1, U_R0, base);
    cpu.Ldp(2, 3, U_R0 + 16, base);
    cpu.Ldp(4, 5, U_R0 + 32, base);
    cpu.Ldp(6, 7, U_R0 + 48, base);
  }

  method LoadMiddle(cpu: Cpu, ghost base: nat)
    requires cpu.Points(base) && cpu.Safe()
    modifies cpu`x, cpu`accesses
    ensures cpu.Points(base) && cpu.Safe()
    ensures cpu.x == old(cpu.x)[..8] + Block(cpu.mem, base)[8..18] + old(cpu.x)[18..]
  {
    hide With, Block;
    MiddleRegisters(cpu.x, Block(cpu.mem, base));
    cpu.Ldp(8, 9, U_R0 + 64, base);
    cpu.Ldp(10, 11, U_R0 + 80, base);
    cpu.Ldp(12, 13, U_R0 + 96, base);
    cpu.Ldp(14, 15, U_R0 + 112, base);
    cpu.Ldp(16, 17, U_R0 + 128, base);
  }

  method LoadHigh(cpu: Cpu, ghost base: nat)
    requires cpu.Points(base) && cpu.Safe()
    modifies cpu`x, cpu`accesses
    ensures cpu.Points(base) && cpu.Safe()
    ensures cpu.x == old(cpu.x)[..20] + Block(cpu.mem, base)[20..31]
  {
    hide With, Block;
    HighRegisters(cpu.x, Block(cpu.mem, base));
    cpu.Ldp(20, 21, U_R0 + 160, base);
    cpu.Ldp(22, 23, U_R0 + 176, base);
    cpu.Ldp(24, 25, U_R0 + 192, base);
    cpu.Ldp(26, 27, U_R0 + 208, base);
    cpu.Ldp(28, 29, U_R0 + 224, base);
    cpu.Ldr(30, U_R0 + 240, base);
  }

  lemma AllRegisters(x: seq<u64>, b: seq<u64>)
    requires |x| == 31 && |b| == WORDS
    ensures
      var low := b[..8] + x[8..];
      var middle := low[..8] + b[8..18] + low[18..];
      With(middle[..20] + b[20..31], 18, b[18], 19, b[19]) == b[..31]
  {
  }

  /** All registers of EL0. R18 is the base until the last instruction, which replaces it. */
  method LoadUser(cpu: Cpu, ghost base: nat)
    requires cpu.Points(base) && cpu.Safe()
    modifies cpu`x, cpu`accesses
    ensures cpu.Safe()
    ensures cpu.x == Block(cpu.mem, base)[..31]
  {
    hide Block;
    AllRegisters(cpu.x, Block(cpu.mem, base));
    LoadLow(cpu, base);
    LoadMiddle(cpu, base);
    LoadHigh(cpu, base);
    cpu.Ldp(18, 19, U_R0 + 144, base);
  }

  lemma KernelFields(b: seq<u64>, sp: u64, x: seq<u64>)
    requires |b| == WORDS && |x| == 31
    ensures FromWords(WithKernel(b, sp, x)) == FromWords(b).(kernelSp := sp, kernelRegs := x[19..])
    ensures WithKernel(b, sp, x)[..31] == b[..31]
    ensures forall i :: i in {31, 32, 33, 35, 37, 53} ==> WithKernel(b, sp, x)[i] == b[i]
  {
    var c := WithKernel(b, sp, x);
    assert c[..31] == b[..31];
    assert c[38..50] == x[19..];
  }

  /** runUser, up to its eret: EL0 starts with exactly the registers, stack pointer, program
      counter, flags and thread pointer of the switchState, under the application's tables. */
  method RunUser(cpu: Cpu, state: u64)
    requires |cpu.x| == 31 && state % 8 == 0 && state + STATE_SIZE <= HALF
    requires cpu.ttbr0 == cpu.kernelTtbr && cpu.Safe()
    modifies cpu`x, cpu`mem, cpu`spEl0, cpu`elr, cpu`spsr, cpu`tpidrEl0, cpu`tpidrEl1, cpu`sp, cpu`ttbr0, cpu`accesses
    ensures cpu.Safe()
    ensures Outside(cpu.mem, state) == old(Outside(cpu.mem, state))
    ensures
      var s := old(FromWords(Block(cpu.mem, state)));
      && FromWords(Block(cpu.mem, state)) == s.(kernelSp := old(cpu.sp), kernelRegs := old(cpu.x)[19..])
      && cpu.x == s.userRegs
      && cpu.spEl0 == s.userSp
      && cpu.elr == s.userPc
      && cpu.spsr == s.userPstate
      && cpu.tpidrEl0 == s.userTls
      && cpu.ttbr0 == s.appTtbr
      && cpu.sp == s.exceptionSp
      && cpu.tpidrEl1 == HIGH + state
  {
    hide Block, Outside, WithKernel, Or;
    HighPointer(state);
    ghost var b, sp, x := Block(cpu.mem, state), cpu.sp, cpu.x;
    cpu.x := cpu.x[18 := state];
    cpu.x := cpu.x[18 := Or(HIGH, cpu.x[18])];
    ghost var y := cpu.x;
    SaveKernel(cpu, state);
    cpu.tpidrEl1 := cpu.x[18];
    LoadSystem(cpu, state);
    LoadUser(cpu, state);
    KernelFields(b, sp, y);
    assert y[19..] == x[19..];
  }

  // ------------------------------------------------------------------ lowerSync

  lemma UserStoresLow(b: seq<u64>, x: seq<u64>)
    requires |b| == WORDS && |x| == 31
    ensures
      var c0 := With(b, 0, x[0], 1, x[1]);
      var c1 := With(c0, 2, x[2], 3, x[3]);
      var c2 := With(c1, 4, x[4], 5, x[5]);
      var c3 := With(c2, 6, x[6], 7, x[7]);
      var c4 := With(c3, 8, x[8], 9, x[9]);
      var c5 := With(c4, 10, x[10], 11, x[11]);
      var c6 := With(c5, 12, x[12], 13, x[13]);
      var c7 := With(c6, 14, x[14], 15, x[15]);
      var c8 := With(c7, 16, x[16], 17, x[17]);
      c8 == x[..18] + b[18..]
  {
  }

  lemma UserStoresBase(b: seq<u64>, x: seq<u64>)
    requires |b| == WORDS && |x| == 31
    ensures (x[..18] + b[18..])[18 := x[18]][19 := x[19]] == x[..20] + b[20..]
  {
  }

  lemma UserStoresHigh(b: seq<u64>, x: seq<u64>)
    requires |b| == WORDS && |x| == 31
    ensures
      var c0 := With(b, 20, x[20], 21, x[21]);
      var c1 := With(c0, 22, x[22], 23, x[23]);
      var c2 := With(c1, 24, x[24], 25, x[25]);
      var c3 := With(c2, 26, x[26], 27, x[27]);
      var c4 := With(c3, 28, x[28], 29, x[29]);
      c4[30 := x[30]] == b[..20] + x[20..] + b[31..]
  {
  }

  method StoreLow(cpu: Cpu, ghost base: nat)
    requires cpu.Points(base) && cpu.Safe()
    modifies cpu`mem, cpu`accesses
    ensures cpu.Safe()
    ensures Outside(cpu.mem, base) == old(Outside(cpu.mem, base))
    ensures Block(cpu.mem, base) == cpu.x[..18] + old(Block(cpu.mem, base))[18..]
  {
    hide With, Block, Outside;
    UserStoresLow(Block(cpu.mem, base), cpu.x);
    cpu.Stp(0, 1, U_R0, base);
    cpu.Stp(2, 3, U_R0 + 16, base);
    cpu.Stp(4, 5, U_R0 + 32, base);
    cpu.Stp(6, 7, U_R0 + 48, base);
    cpu.Stp(8, 9, U_R0 + 64, base);
    cpu.Stp(10, 11, U_R0 + 80, base);
    cpu.Stp(12, 13, U_R0 + 96, base);
    cpu.Stp(14, 15, U_R0 + 112, base);
    cpu.Stp(16, 17, U_R0 + 128, base);
  }

  /** R18 and R19 wait on the exception stack while R18 becomes the base. */
  method StoreToBase(cpu: Cpu, ghost base: nat)
    requires |cpu.x| == 31 && cpu.tpidrEl1 == HIGH + base && Laid(base, cpu.sp) && cpu.Safe()
    modifies cpu`x, cpu`sp, cpu`mem, cpu`accesses
    ensures cpu.Points(base) && cpu.Safe() && cpu.x[20..] == old(cpu.x)[20..]
    ensures
      var at := old(cpu.sp) - 16 - HIGH;
      Outside(cpu.mem, base) == old(Outside(cpu.mem, base))[at := old(cpu.x)[18]][at + 8 := old(cpu.x)[19]]
    ensures Block(cpu.mem, base) == old(cpu.x)[..20] + old(Block(cpu.mem, base))[20..]
  {
    hide Block, Outside;
    ghost var x, b := cpu.x, Block(cpu.mem, base);
    UserStoresBase(b, x);
    cpu.sp := cpu.sp - 16;
    cpu.Push(18, 19, base);
    cpu.x := cpu.x[18 := cpu.tpidrEl1];
    assert cpu.x[..18] == x[..18];
    StoreLow(cpu, base);
    cpu.Pop(16, 17, base);
    assert cpu.x[16] == x[18] && cpu.x[17] == x[19];
    cpu.Stp(16, 17, U_R0 + 144, base);
    cpu.sp := cpu.sp + 16;
  }

  method StoreHigh(cpu: Cpu, ghost base: nat)
    requires cpu.Points(base) && cpu.Safe()
    modifies cpu`mem, cpu`accesses
    ensures cpu.Safe()
    ensures Outside(cpu.mem, base) == old(Outside(cpu.mem, base))
    ensures
      var b := old(Block(cpu.mem, base));
      Block(cpu.mem, base) == b[..20] + cpu.x[20..] + b[31..]
  {
    hide With, Block, Outside;
    UserStoresHigh(Block(cpu.mem, base), cpu.x);
    cpu.Stp(20, 21, U_R0 + 160, base);
    cpu.Stp(22, 23, U_R0 + 176, base);
    cpu.Stp(24, 25, U_R0 + 192, base);
    cpu.Stp(26, 27, U_R0 + 208, base);
    cpu.Stp(28, 29, U_R0 + 224, base);
    cpu.Str(30, U_R0 + 240, base);
  }

  lemma UserStores(b: seq<u64>, x: seq<u64>)
    requires |b| == WORDS && |x| == 31
    ensures
      var c := x[..20] + b[20..];
      c[..20] + x[20..] + c[31..] == x + b[31..]
  {
  }

  /** All registers of EL0 go into the switchState. */
  method StoreUser(cpu: Cpu, ghost base: nat)
    requires |cpu.x| == 31 && cpu.tpidrEl1 == HIGH + base && Laid(base, cpu.sp) && cpu.Safe()
    modifies cpu`x, cpu`sp, cpu`mem, cpu`accesses
    ensures cpu.Points(base) && cpu.Safe()
    ensures
      var at := old(cpu.sp) - 16 - HIGH;
      Outside(cpu.mem, base) == old(Outside(cpu.mem, base))[at := old(cpu.x)[18]][at + 8 := old(cpu.x)[19]]
    ensures Block(cpu.mem, base) == old(cpu.x) + old(Block(cpu.mem, base))[31..]
  {
    hide Block, Outside, Laid;
    UserStores(Block(cpu.mem, base), cpu.x);
    StoreToBase(cpu, base);
    StoreHigh(cpu, base);
  }

  lemma SystemStores(b: seq<u64>, sp: u64, pc: u64, pstate: u64, tls: u64, esr: u64, far: u64)
    requires |b| == WORDS
    ensures
      b[31 := sp][32 := pc][33 := pstate][53 := tls][50 := esr][51 := far][52 := 8]
      == b[..31] + [sp, pc, pstate] + b[34..50] + [esr, far, 8, tls]
  {
  }

  /** The state of EL0 and the cause of the exception go into the switchState. */
  method StoreSystem(cpu: Cpu, ghost base: nat)
    requires cpu.Points(base) && cpu.Safe()
    modifies cpu`x, cpu`mem, cpu`accesses
    ensures cpu.Points(base) && cpu.Safe()
    ensures Outside(cpu.mem, base) == old(Outside(cpu.mem, base))
    ensures
      var b := old(Block(cpu.mem, base));
      Block(cpu.mem, base) == b[..31] + [cpu.spEl0, cpu.elr, cpu.spsr] + b[34..50] + [cpu.esr, cpu.far, 8, cpu.tpidrEl0]
  {
    hide Block, Outside;
    SystemStores(Block(cpu.mem, base), cpu.spEl0, cpu.elr, cpu.spsr, cpu.tpidrEl0, cpu.esr, cpu.far);
    cpu.x := cpu.x[16 := cpu.spEl0];
    cpu.Str(16, U_SP, base);
    cpu.x := cpu.x[16 := cpu.elr];
    cpu.Str(16, U_PC, base);
    cpu.x := cpu.x[16 := cpu.spsr];
    cpu.Str(16, U_PSTATE, base);
    cpu.x := cpu.x[16 := cpu.tpidrEl0];
    cpu.Str(16, U_TLS, base);
    cpu.x := cpu.x[16 := cpu.esr];
    cpu.Str(16, S_ESR, base);
    cpu.x := cpu.x[16 := cpu.far];
    cpu.Str(16, S_FAR, base);
    cpu.x := cpu.x[16 := 8];
    cpu.Str(16, S_VECTOR, base);
  }

  lemma KernelLoads(x: seq<u64>, b: seq<u64>)
    requires |x| == 31 && |b| == WORDS
    ensures
      var c0 := With(x, 19, b[38], 20, b[39]);
      var c1 := With(c0, 21, b[40], 22, b[41]);
      var c2 := With(c1, 23, b[42], 24, b[43]);
      var c3 := With(c2, 25, b[44], 26, b[45]);
      var c4 := With(c3, 27, b[46], 28, b[47]);
      var c5 := With(c4, 29, b[48], 30, b[49]);
      c5 == x[..19] + b[38..50]
  {
  }

  method LoadKernel(cpu: Cpu, ghost base: nat)
    requires cpu.Points(base) && cpu.Safe()
    modifies cpu`x, cpu`accesses
    ensures cpu.Safe() && cpu.x == old(cpu.x)[..19] + Block(cpu.mem, base)[38..50]
  {
    hide With, Block;
    KernelLoads(cpu.x, Block(cpu.mem, base));
    cpu.Ldp(19, 20, K_R19, base);
    cpu.Ldp(21, 22, K_R19 + 16, base);
    cpu.Ldp(23, 24, K_R19 + 32, base);
    cpu.Ldp(25, 26, K_R19 + 48, base);
    cpu.Ldp(27, 28, K_R19 + 64, base);
    cpu.Ldp(29, 30, K_R19 + 80, base);
  }

  /** Back to the kernel's tables, stack and callee-saved registers. */
  method RestoreKernel(cpu: Cpu, ghost base: nat)
    requires cpu.Points(base) && cpu.Safe()
    modifies cpu`x, cpu`sp, cpu`ttbr0, cpu`accesses
    ensures cpu.Safe()
    ensures
      var b := Block(cpu.mem, base);
      |cpu.x| == 31 && cpu.x[19..] == b[38..50] && cpu.sp == b[36] && cpu.ttbr0 == b[34]
  {
    hide Block;
    cpu.Ldr(16, K_TTBR, base);
    cpu.ttbr0 := cpu.x[16];
    cpu.Ldr(16, K_SP, base);
    cpu.sp := cpu.x[16];
    LoadKernel(cpu, base);
  }

  lemma UserFields(b: seq<u64>, x: seq<u64>, sp: u64, pc: u64, pstate: u64, tls: u64, esr: u64, far: u64)
    requires |b| == WORDS && |x| == 31
    ensures
      var c := x + b[31..];
      var d := c[..31] + [sp, pc, pstate] + c[34..50] + [esr, far, 8, tls];
      && FromWords(d) == FromWords(b).(userRegs := x, userSp := sp, userPc := pc, userPstate := pstate, esr := esr,
                                       far := far, vector := 8, userTls := tls)
      && d[38..50] == b[38..50] && d[36] == b[36] && d[34] == b[34]
  {
    var c := x + b[31..];
    var d := c[..31] + [sp, pc, pstate] + c[34..50] + [esr, far, 8, tls];
    assert d[..31] == x;
    assert forall i :: 34 <= i < 50 ==> d[i] == b[i];
    assert d[38..50] == b[38..50];
  }

  /** lowerSync: the switchState receives exactly the state of EL0 at the exception and its
      cause; the kernel gets back its tables, its stack and x19 to x30. Of the remaining memory
      only the two words below the exception stack pointer change. */
  method LowerSync(cpu: Cpu, ghost base: nat)
    requires |cpu.x| == 31 && cpu.tpidrEl1 == HIGH + base && Laid(base, cpu.sp) && cpu.Safe()
    modifies cpu`x, cpu`sp, cpu`ttbr0, cpu`mem, cpu`accesses
    ensures |cpu.x| == 31 && cpu.Safe()
    ensures
      var at := old(cpu.sp) - 16 - HIGH;
      Outside(cpu.mem, base) == old(Outside(cpu.mem, base))[at := old(cpu.x)[18]][at + 8 := old(cpu.x)[19]]
    ensures
      var s := old(FromWords(Block(cpu.mem, base)));
      && FromWords(Block(cpu.mem, base)) ==
         s.(userRegs := old(cpu.x), userSp := cpu.spEl0, userPc := cpu.elr, userPstate := cpu.spsr, esr := cpu.esr,
            far := cpu.far, vector := 8, userTls := cpu.tpidrEl0)
      && cpu.x[19..] == s.kernelRegs
      && cpu.sp == s.kernelSp
      && cpu.ttbr0 == s.kernelTtbr
  {
    hide Block, Outside, Laid;
    UserFields(Block(cpu.mem, base), cpu.x, cpu.spEl0, cpu.elr, cpu.spsr, cpu.tpidrEl0, cpu.esr, cpu.far);
    StoreUser(cpu, base);
    StoreSystem(cpu, base);
    RestoreKernel(cpu, base);
  }

  // --------------------------------------------------------------- switchToUser

  type Registers = x: seq<u64> | |x| == 31 witness seq(31, i => 0)

  /** What a user program can see of itself. */
  datatype UserState = UserState(regs: Registers, sp: u64, pc: u64, pstate: u64, tls: u64)

  /** A synchronous exception from EL0: the user state at that point, its syndrome, its fault
      address, and the memory that the program leaves. */
  datatype Exit = Exit(state: UserState, esr: u64, far: u64, memory: Memory)

  /** A user program: what happens from a state, under the given tables and memory, until the
      next exception. */
  type Program = (UserState, u64, Memory) -> Exit

  /** Memory after a program ran: it does not reach the switchState. */
  function Merge(mem: Memory, user: Memory, base: nat): Memory {
    Outside(user, base) + (map a | a in mem && Inside(a, base) :: mem[a])
  }

  lemma MergeKeeps(mem: Memory, user: Memory, base: nat)
    ensures Block(Merge(mem, user, base), base) == Block(mem, base)
    ensures Outside(Merge(mem, user, base), base) == Outside(user, base)
  {
  }

  /** The user registers of a task, arch.Context64. */
  class Context {
    var state: UserState

    constructor (state: UserState)
      ensures this.state == state
    {
      this.state := state;
    }
  }

  datatype Vector = Syscall | PageFault | El0SyncInv

  /** The exception class of a syndrome register. */
  function Classify(esr: u64): Vector {
    var code := esr / 0x400_0000 % 0x40;
    if code == 0x15 then Syscall
    else if code == 0x20 || code == 0x24 then PageFault
    else El0SyncInv
  }

  /** The fields of a syndrome register (Arm ARM DDI 0487, ESR_EL1): ec is the exception class. */
  datatype Syndrome = Syndrome(iss2: nat, ec: nat, il: nat, iss: nat) {
    predicate Valid() { iss2 < 0x1_0000_0000 && ec < 0x40 && il < 2 && iss < 0x200_0000 }

    function Word(): nat { iss2 * 0x1_0000_0000 + ec * 0x400_0000 + il * 0x200_0000 + iss }
  }

  /** Class 0x15 is a system call, 0x20 and 0x24 are instruction and data aborts of EL0, and
      every other class is unexpected; the other fields play no role. */
  ghost predicate Names(vector: Vector, s: Syndrome) {
    && (vector == Syscall <==> s.ec == 0x15)
    && (vector == PageFault <==> s.ec == 0x20 || s.ec == 0x24)
    && (vector == El0SyncInv <==> s.ec != 0x15 && s.ec != 0x20 && s.ec != 0x24)
  }

  lemma ClassifyNames(esr: u64)
    ensures forall s: Syndrome :: s.Valid() && s.Word() == esr ==> Names(Classify(esr), s)
  {
    forall s: Syndrome | s.Valid() && s.Word() == esr ensures Names(Classify(esr), s) {
      assert esr / 0x400_0000 == s.iss2 * 0x40 + s.ec;
      assert (s.iss2 * 0x40 + s.ec) % 0x40 == s.ec;
    }
  }

  /** Every value of the register has such fields. */
  lemma SyndromeOf(esr: u64) returns (s: Syndrome)
    ensures s.Valid() && s.Word() == esr
  {
    var low := esr % 0x1_0000_0000;
    var rest := low % 0x400_0000;
    s := Syndrome(esr / 0x1_0000_0000, low / 0x400_0000, rest / 0x200_0000, rest % 0x200_0000);
  }

  /** EL0 runs until a synchronous exception, which the processor takes on the stack of EL1. */
  method RunProgram(cpu: Cpu, program: Program, base: nat) returns (exit: Exit)
    requires |cpu.x| == 31 && cpu.Safe()
    modifies cpu`x, cpu`spEl0, cpu`elr, cpu`spsr, cpu`tpidrEl0, cpu`esr, cpu`far, cpu`mem
    ensures
      var s := old(UserState(cpu.x, cpu.spEl0, cpu.elr, cpu.spsr, cpu.tpidrEl0));
      exit == program(s, cpu.ttbr0, old(Outside(cpu.mem, base)))
    ensures cpu.x == exit.state.regs && cpu.spEl0 == exit.state.sp && cpu.elr == exit.state.pc
    ensures cpu.spsr == exit.state.pstate && cpu.tpidrEl0 == exit.state.tls
    ensures cpu.esr == exit.esr && cpu.far == exit.far && cpu.Safe()
    ensures Block(cpu.mem, base) == old(Block(cpu.mem, base))
    ensures Outside(cpu.mem, base) == Outside(exit.memory, base)
  {
    hide Block, Outside, Merge;
    exit := program(UserState(cpu.x, cpu.spEl0, cpu.elr, cpu.spsr, cpu.tpidrEl0), cpu.ttbr0, Outside(cpu.mem, base));
    cpu.x, cpu.spEl0, cpu.elr := exit.state.regs, exit.state.sp, exit.state.pc;
    cpu.spsr, cpu.tpidrEl0 := exit.state.pstate, exit.state.tls;
    cpu.esr, cpu.far := exit.esr, exit.far;
    MergeKeeps(cpu.mem, exit.memory, base);
    cpu.mem := Merge(cpu.mem, exit.memory, base);
  }

  /** The switchState for one run of a user program. */
  function Prepared(b: seq<u64>, u: UserState, kernelTtbr: u64, appTtbr: u64, exceptionSp: u64): (c: seq<u64>)
    requires |b| == WORDS
    ensures |c| == WORDS
  {
    u.regs + [u.sp, u.pc, u.pstate, kernelTtbr, appTtbr, b[36], exceptionSp] + b[38..50] + [0, 0, 0, u.tls]
  }

  lemma PreparedStores(b: seq<u64>, u: UserState, kernelTtbr: u64, appTtbr: u64, exceptionSp: u64)
    requires |b| == WORDS
    ensures
      (u.regs + b[31..])[31 := u.sp][32 := u.pc][33 := u.pstate][53 := u.tls][34 := kernelTtbr][35 := appTtbr]
      [37 := exceptionSp][52 := 0][50 := 0][51 := 0] == Prepared(b, u, kernelTtbr, appTtbr, exceptionSp)
  {
  }

  lemma PreparedFields(b: seq<u64>, u: UserState, kernelTtbr: u64, appTtbr: u64, exceptionSp: u64)
    requires |b| == WORDS
    ensures
      var s := FromWords(Prepared(b, u, kernelTtbr, appTtbr, exceptionSp));
      && UserState(s.userRegs, s.userSp, s.userPc, s.userPstate, s.userTls) == u
      && s.kernelTtbr == kernelTtbr && s.appTtbr == appTtbr && s.exceptionSp == exceptionSp
  {
    assert Prepared(b, u, kernelTtbr, appTtbr, exceptionSp)[..31] == u.regs;
  }

  /** The task's registers go into the first 31 words of the switch state. */
  method CopyRegisters(cpu: Cpu, base: nat, regs: Registers)
    requires base + STATE_SIZE <= HALF && cpu.ttbr0 == cpu.kernelTtbr && cpu.Safe()
    modifies cpu`mem, cpu`accesses
    ensures cpu.Safe() && Outside(cpu.mem, base) == old(Outside(cpu.mem, base))
    ensures Block(cpu.mem, base) == regs + old(Block(cpu.mem, base))[31..]
  {
    hide Block, Outside;
    ghost var b := Block(cpu.mem, base);
    for i := 0 to 31
      invariant cpu.Safe() && Outside(cpu.mem, base) == old(Outside(cpu.mem, base))
      invariant Block(cpu.mem, base) == regs[..i] + b[i..]
    {
      cpu.Store(base, i, regs[i]);
    }
    assert regs[..31] == regs;
  }

  /** The fields that switchToUser sets before runUser. */
  method Prepare(cpu: Cpu, base: nat, u: UserState, kernelTtbr: u64, appTtbr: u64, exceptionSp: u64)
    requires base + STATE_SIZE <= HALF && cpu.ttbr0 == cpu.kernelTtbr && cpu.Safe()
    modifies cpu`mem, cpu`accesses
    ensures cpu.Safe() && Outside(cpu.mem, base) == old(Outside(cpu.mem, base))
    ensures Block(cpu.mem, base) == Prepared(old(Block(cpu.mem, base)), u, kernelTtbr, appTtbr, exceptionSp)
  {
    hide Block, Outside, Prepared;
    PreparedStores(Block(cpu.mem, base), u, kernelTtbr, appTtbr, exceptionSp);
    CopyRegisters(cpu, base, u.regs);
    cpu.Store(base, 31, u.sp);
    cpu.Store(base, 32, u.pc);
    cpu.Store(base, 33, u.pstate);
    cpu.Store(base, 53, u.tls);
    cpu.Store(base, 34, kernelTtbr);
    cpu.Store(base, 35, appTtbr);
    cpu.Store(base, 37, exceptionSp);
    cpu.Store(base, 52, 0);
    cpu.Store(base, 50, 0);
    cpu.Store(base, 51, 0);
  }

  /** switchToUser is transparent: the task's registers become what the program makes of them
      from exactly those registers, under the application's tables, until its next exception;
      the kernel continues with its own tables, stack and callee-saved registers; and no access
      of EL1 goes through the lower half while the application's tables are installed. */
  method SwitchToUser(cpu: Cpu, ac: Context, base: nat, stackTop: nat, appTtbr: u64, program: Program)
    returns (vector: Vector, exit: Exit)
    requires |cpu.x| == 31 && cpu.ttbr0 == cpu.kernelTtbr && cpu.Safe()
    requires stackTop < HALF && Laid(base, HIGH + stackTop)
    modifies cpu, ac
    ensures exit == program(old(ac.state), appTtbr, old(Outside(cpu.mem, base)))
    ensures ac.state == exit.state
    ensures forall s: Syndrome :: s.Valid() && s.Word() == exit.esr ==> Names(vector, s)
    ensures |cpu.x| == 31 && cpu.x[19..] == old(cpu.x)[19..] && cpu.sp == old(cpu.sp) && cpu.ttbr0 == cpu.kernelTtbr
    ensures cpu.Safe()
    ensures
      var s := FromWords(Block(cpu.mem, base));
      s.esr == exit.esr && s.far == exit.far && s.vector == 8
    ensures
      var r := exit.state.regs;
      Outside(cpu.mem, base) == Outside(exit.memory, base)[stackTop - 16 := r[18]][stackTop - 8 := r[19]]
  {
    hide Block, Outside, Prepared, FromWords, Or;
    HighPointer(stackTop);
    PreparedFields(Block(cpu.mem, base), ac.state, cpu.kernelTtbr, appTtbr, HIGH + stackTop);
    Prepare(cpu, base, ac.state, cpu.kernelTtbr, appTtbr, Or(HIGH, stackTop));
    RunUser(cpu, base);
    exit := RunProgram(cpu, program, base);
    LowerSync(cpu, base);
    var s := FromWords(Block(cpu.mem, base));
    ac.state := UserState(s.userRegs, s.userSp, s.userPc, s.userPstate, s.userTls);
    vector := Classify(s.esr);
    ClassifyNames(exit.esr);
  }
}
