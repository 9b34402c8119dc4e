/** The file that linuxHelloELF makes is a program that writes its message and exits. */
module HelloProgram {
  import opened Bytes
  import opened Buffers
  import opened Patches
  import opened Arm64
  import opened HelloElf
  import opened Process

  // ------------------------------------------------------------- reading the file

  lemma FieldRead(message: seq<byte>, k: nat)
    requires k < |Fields(message)|
    ensures
      var p := Fields(message)[k];
      p.End() <= |Image(message)| && Image(message)[p.at..p.End()] == p.bytes
  {
    hide Fields, Apply, Rising, Fits;
    FieldsRise(message);
    PatchRead(Zeros(MESSAGE_OFF + |message|), Fields(message), k);
  }

  lemma FieldNumber(message: seq<byte>, k: nat, at: nat, n: nat, v: nat)
    requires k < |Fields(message)| && Fields(message)[k] == Patch(at, LittleEndian(n, v)) && v < Pow256(n)
    ensures at + n <= |Image(message)| && Number(Image(message), at, n) == v
  {
    hide Fields, Image, LittleEndian, FromLittleEndian, Pow256;
    FieldRead(message, k);
    LittleEndianValue(n, v);
  }

  lemma FileField(message: seq<byte>, k: nat)
    requires k < 9
    ensures |Fields(message)| == 26
    ensures Fields(message)[k] == FileHeader()[k]
  {
    FieldsRise(message);
    hide FileHeader, ProgramHeader, CodePatches, Code;
    assert |FileHeader()| == 9 by { HeaderLengths(0); }
  }

  lemma ProgramField(message: seq<byte>, k: nat)
    requires k < 8
    ensures |Fields(message)| == 26
    ensures Fields(message)[9 + k] == ProgramHeader(MESSAGE_OFF + |message|)[k]
  {
    FieldsRise(message);
    hide FileHeader, ProgramHeader, CodePatches, Code;
    HeaderLengths(MESSAGE_OFF + |message|);
  }

  lemma CodeField(message: seq<byte>, i: nat)
    requires i < 8
    ensures |Fields(message)| == 26
    ensures Fields(message)[17 + i] == Patch(ENTRY_OFF + 4 * i, LittleEndian(4, Code(|message|)[i]))
  {
    FieldsRise(message);
    hide FileHeader, ProgramHeader, Code, LittleEndian;
    HeaderLengths(MESSAGE_OFF + |message|);
  }

  lemma MessageField(message: seq<byte>)
    ensures |Fields(message)| == 26
    ensures Fields(message)[25] == Patch(MESSAGE_OFF, message)
  {
    FieldsRise(message);
    hide FileHeader, ProgramHeader, Code, CodePatches, LittleEndian;
    HeaderLengths(MESSAGE_OFF + |message|);
  }

  lemma HeaderLengths(size: nat)
    ensures |FileHeader()| == 9 && |ProgramHeader(size)| == 8
  {
    hide LittleEndian;
  }

  lemma FileNumber(message: seq<byte>, k: nat, at: nat, n: nat, v: nat)
    requires k < 9 && FileHeader()[k] == Patch(at, LittleEndian(n, v)) && v < Pow256(n)
    ensures at + n <= |Image(message)| && Number(Image(message), at, n) == v
  {
    hide Fields, FileHeader, ProgramHeader, LittleEndian, Pow256, Image, Number;
    FileField(message, k);
    FieldNumber(message, k, at, n, v);
  }

  lemma ProgramNumber(message: seq<byte>, k: nat, at: nat, n: nat, v: nat)
    requires k < 8 && ProgramHeader(MESSAGE_OFF + |message|)[k] == Patch(at, LittleEndian(n, v)) && v < Pow256(n)
    ensures at + n <= |Image(message)| && Number(Image(message), at, n) == v
  {
    hide Fields, FileHeader, ProgramHeader, LittleEndian, Pow256, Image, Number;
    ProgramField(message, k);
    FieldNumber(message, 9 + k, at, n, v);
  }

  lemma FileNumbers(message: seq<byte>)
    ensures IsExecutable(Image(message))
    ensures Number(Image(message), 24, 8) == LOAD_ADDR + ENTRY_OFF && Number(Image(message), 32, 8) == 64
  {
    hide LittleEndian, Pow256, Image, Number, Fields;
    Pow256Widths();
    ImageLength(message);
    Ident(message);
    FileNumber(message, 1, 16, 2, 2);
    FileNumber(message, 2, 18, 2, 183);
    FileNumber(message, 3, 20, 4, 1);
    FileNumber(message, 4, 24, 8, LOAD_ADDR + ENTRY_OFF);
    FileNumber(message, 5, 32, 8, 64);
    FileNumber(message, 6, 52, 2, 64);
    FileNumber(message, 7, 54, 2, 56);
    FileNumber(message, 8, 56, 2, 1);
  }

  lemma ImageLength(message: seq<byte>)
    ensures |Image(message)| == MESSAGE_OFF + |message|
  {
  }

  lemma Ident(message: seq<byte>)
    ensures Image(message)[..4] == [0x7f, 0x45, 0x4c, 0x46]
    ensures Image(message)[4] == 2 && Image(message)[5] == 1 && Image(message)[6] == 1
  {
    hide LittleEndian, Image, Fields, ProgramHeader;
    FileField(message, 0);
    FieldRead(message, 0);
    ImageLength(message);
    var elf := Image(message);
    assert elf[0..7] == [0x7f, 0x45, 0x4c, 0x46, 2, 1, 1];
    assert elf[..4] == elf[0..7][..4];
    assert elf[4] == elf[0..7][4] && elf[5] == elf[0..7][5] && elf[6] == elf[0..7][6];
  }

  lemma ProgramNumbers(message: seq<byte>)
    requires |message| <= MAX_INT - MESSAGE_OFF
    ensures |Image(message)| == MESSAGE_OFF + |message| && IsLoadable(Image(message), 64)
    ensures Number(Image(message), 72, 8) == 0 && Number(Image(message), 80, 8) == LOAD_ADDR
    ensures Number(Image(message), 96, 8) == Number(Image(message), 104, 8) == MESSAGE_OFF + |message|
  {
    hide LittleEndian, Pow256, Image, Number, Fields;
    Pow256Widths();
    ImageLength(message);
    var size := MESSAGE_OFF + |message|;
    ProgramNumber(message, 0, 64, 4, 1);
    ProgramNumber(message, 1, 68, 4, 5);
    ProgramNumber(message, 2, 72, 8, 0);
    ProgramNumber(message, 3, 80, 8, LOAD_ADDR);
    ProgramNumber(message, 5, 96, 8, size);
    ProgramNumber(message, 6, 104, 8, size);
  }

  /** The loader accepts the file, maps all of it at LOAD_ADDR and starts at the code. */
  lemma Loads(message: seq<byte>)
    requires |message| <= MAX_INT - MESSAGE_OFF
    ensures Load(Image(message)) == Ok(Loaded(Segment(LOAD_ADDR, Image(message)), LOAD_ADDR + ENTRY_OFF))
  {
    hide Image, Number, IsExecutable, IsLoadable;
    FileNumbers(message);
    ProgramNumbers(message);
    var elf := Image(message);
    assert elf[0..0 + |elf|] + Zeros(0) == elf;
  }

  // ------------------------------------------------------------ running the program

  function Memory(message: seq<byte>): Segment {
    Segment(LOAD_ADDR, Image(message))
  }

  lemma CodeFetch(message: seq<byte>, i: nat)
    requires i < 8
    ensures Fetch(Memory(message), LOAD_ADDR + ENTRY_OFF + 4 * i) == Decode(Code(|message|)[i])
  {
    hide Fields, Image, LittleEndian, FromLittleEndian, Code, Pow256, Decode;
    Pow256Widths();
    ImageLength(message);
    CodeField(message, i);
    FieldRead(message, 17 + i);
    LittleEndianValue(4, Code(|message|)[i]);
  }

  lemma MessageInMemory(message: seq<byte>, n: nat)
    requires n <= |message|
    ensures Memory(message).Contains(LOAD_ADDR + MESSAGE_OFF, n)
    ensures Memory(message).At(LOAD_ADDR + MESSAGE_OFF, n) == message[..n]
  {
    hide Fields, Image;
    ImageLength(message);
    MessageField(message);
    FieldRead(message, 25);
    var elf := Image(message);
    assert elf[MESSAGE_OFF..MESSAGE_OFF + |message|] == message;
    assert elf[MESSAGE_OFF..MESSAGE_OFF + n] == elf[MESSAGE_OFF..MESSAGE_OFF + |message|][..n];
  }

  /** What the eight words mean. */
  lemma Meaning(n: nat)
    ensures Decode(Code(n)[0]) == MOVZ(0, 1)
    ensures Decode(Code(n)[1]) == ADR(1, 0x1c)
    ensures Decode(Code(n)[2]) == MOVZ(2, Wrap16(n))
    ensures Decode(Code(n)[3]) == MOVZ(8, 64)
    ensures Decode(Code(n)[4]) == SVC(0)
    ensures Decode(Code(n)[5]) == MOVZ(0, 0)
    ensures Decode(Code(n)[6]) == MOVZ(8, 93)
    ensures Decode(Code(n)[7]) == SVC(0)
  {
    hide Movz, Adr;
    assert Decode(SVC_0) == SVC(0);
    MovzDecodes(0, 1);
    AdrDecodes(1, 0x1c);
    MovzDecodes(2, Wrap16(n));
    MovzDecodes(8, 64);
    MovzDecodes(0, 0);
    MovzDecodes(8, 93);
    hide Decode;
  }

  /** Instruction i of the program, when it does not call the kernel. */
  lemma RunPlain(message: seq<byte>, i: nat, x: seq<u64>, reply: Event -> u64, steps: nat)
    requires i < 8 && |x| == 31 && steps > 0
    requires Decode(Code(|message|)[i]).MOVZ? || Decode(Code(|message|)[i]).ADR?
    requires Decode(Code(|message|)[i]).rd < 31
    ensures
      var pc := LOAD_ADDR + ENTRY_OFF + 4 * i;
      var ins := Decode(Code(|message|)[i]);
      var v := if ins.MOVZ? then ins.imm else Wrap64(pc + ins.offset);
      Run(Memory(message), State(x, pc), reply, steps)
          == Run(Memory(message), State(x[ins.rd := v], pc + 4), reply, steps - 1)
  {
    hide Decode, Code, Memory, Fetch;
    CodeFetch(message, i);
  }

  /** The registers at the first system call. */
  function AtWrite(x: seq<u64>, n: nat): (y: seq<u64>)
    requires |x| == 31
    ensures |y| == 31 && y[0] == 1 && y[1] == LOAD_ADDR + MESSAGE_OFF && y[2] == Wrap16(n) && y[8] == 64
  {
    x[0 := 1][1 := LOAD_ADDR + MESSAGE_OFF][2 := Wrap16(n)][8 := 64]
  }

  /** What of a message the 16-bit length covers. */
  function Covered(message: seq<byte>): (r: seq<byte>)
    ensures |r| == Wrap16(|message|) && r <= message
  {
    message[..Wrap16(|message|)]
  }

  /** The program up to its first system call. */
  lemma RunToWrite(message: seq<byte>, x: seq<u64>, reply: Event -> u64, steps: nat)
    requires |x| == 31 && steps >= 4
    ensures
      Run(Memory(message), State(x, LOAD_ADDR + ENTRY_OFF), reply, steps)
      == Run(Memory(message), State(AtWrite(x, |message|), LOAD_ADDR + ENTRY_OFF + 16), reply, steps - 4)
  {
    hide Decode, Code, Memory, Run;
    Meaning(|message|);
    RunPlain(message, 0, x, reply, steps);
    RunPlain(message, 1, x[0 := 1], reply, steps - 1);
    RunPlain(message, 2, x[0 := 1][1 := LOAD_ADDR + MESSAGE_OFF], reply, steps - 2);
    RunPlain(message, 3, x[0 := 1][1 := LOAD_ADDR + MESSAGE_OFF][2 := Wrap16(|message|)], reply, steps - 3);
  }

  lemma RunWrite(message: seq<byte>, x: seq<u64>, reply: Event -> u64, steps: nat)
    requires |x| == 31 && steps > 0
    requires x[8] == 64 && x[1] == LOAD_ADDR + MESSAGE_OFF && x[2] <= |message|
    ensures
      var e := Write(x[0], message[..x[2]]);
      Run(Memory(message), State(x, LOAD_ADDR + ENTRY_OFF + 16), reply, steps)
      == Run(Memory(message), State(x[0 := reply(e)], LOAD_ADDR + ENTRY_OFF + 20), reply, steps - 1).After(e)
  {
    hide Decode, Code, Memory, Fetch;
    Meaning(|message|);
    CodeFetch(message, 4);
    MessageInMemory(message, x[2]);
  }

  lemma RunExit(message: seq<byte>, x: seq<u64>, reply: Event -> u64, steps: nat)
    requires |x| == 31 && steps >= 3
    ensures Run(Memory(message), State(x, LOAD_ADDR + ENTRY_OFF + 20), reply, steps) == Finished([Exit(0)])
  {
    hide Decode, Code, Memory, Fetch;
    Meaning(|message|);
    RunPlain(message, 5, x, reply, steps);
    RunPlain(message, 6, x[0 := 0], reply, steps - 1);
    CodeFetch(message, 7);
  }

  lemma RunAll(message: seq<byte>, x: seq<u64>, reply: Event -> u64, steps: nat)
    requires |x| == 31 && steps >= 8
    ensures Run(Memory(message), State(x, LOAD_ADDR + ENTRY_OFF), reply, steps)
            == Finished([Write(1, Covered(message)), Exit(0)])
  {
    hide Memory, Run, AtWrite;
    RunToWrite(message, x, reply, steps);
    var y := AtWrite(x, |message|);
    RunWrite(message, y, reply, steps - 4);
    var e := Write(1, Covered(message));
    RunExit(message, y[0 := reply(e)], reply, steps - 5);
    assert [e] + [Exit(0)] == [e, Exit(0)];
  }

  /** Loaded by its program header and started at its entry, with any registers and whatever the
      kernel answers, the file writes its message to descriptor 1, exits with 0 and does nothing
      else. The length register has 16 bits, so of a longer message only a part is written. */
  lemma HelloRuns(message: seq<byte>, x: seq<u64>, reply: Event -> u64, steps: nat)
    requires |message| <= MAX_INT - MESSAGE_OFF
    requires |x| == 31 && steps >= 8
    ensures Load(Image(message)).Ok?
    ensures
      var p := Load(Image(message)).value;
      Run(p.memory, State(x, p.entry), reply, steps) == Finished([Write(1, Covered(message)), Exit(0)])
  {
    hide Image, Load, Run;
    Loads(message);
    RunAll(message, x, reply, steps);
  }

  /** The whole message is written exactly when its length fits 16 bits. */
  lemma WholeMessage(message: seq<byte>, x: seq<u64>, reply: Event -> u64, steps: nat)
    requires |message| <= MAX_INT - MESSAGE_OFF
    requires |x| == 31 && steps >= 8
    ensures Load(Image(message)).Ok?
    ensures
      var p := Load(Image(message)).value;
      Run(p.memory, State(x, p.entry), reply, steps) == Finished([Write(1, message), Exit(0)]) <==> |message| < 0x1_0000
  {
    hide Image, Load, Run;
    HelloRuns(message, x, reply, steps);
    if |message| < 0x1_0000 {
      assert Covered(message) == message;
    } else {
      assert |Covered(message)| < |message|;
      assert [Write(1, Covered(message)), Exit(0)][0] != [Write(1, message), Exit(0)][0];
    }
  }

  // --------------------------------------------------------------- the file, byte by byte

  /** The ELF header: a 64-bit little-endian executable for AArch64 that starts at 0x400080, with
      one program header of 56 bytes at 64. */
  lemma FileHeaderExactly(message: seq<byte>)
    ensures
      var f := Image(message);
      && |f| == 160 + |message| && f[..7] == [0x7f, 0x45, 0x4c, 0x46, 2, 1, 1]
      && Number(f, 16, 2) == 2 && Number(f, 18, 2) == 183 && Number(f, 20, 4) == 1
      && Number(f, 24, 8) == 0x40_0080 && Number(f, 32, 8) == 64
      && Number(f, 52, 2) == 64 && Number(f, 54, 2) == 56 && Number(f, 56, 2) == 1
  {
    hide LittleEndian, Pow256, Image, Number, Fields;
    Pow256Widths();
    ImageLength(message);
    Ident(message);
    assert Image(message)[..7] == Image(message)[..4] + [2, 1, 1];
    FileNumber(message, 1, 16, 2, 2);
    FileNumber(message, 2, 18, 2, 183);
    FileNumber(message, 3, 20, 4, 1);
    FileNumber(message, 4, 24, 8, LOAD_ADDR + ENTRY_OFF);
    FileNumber(message, 5, 32, 8, 64);
    FileNumber(message, 6, 52, 2, 64);
    FileNumber(message, 7, 54, 2, 56);
    FileNumber(message, 8, 56, 2, 1);
  }

  /** The program header: one readable and executable segment, which is the whole file, at
      0x400000, aligned to a page. */
  lemma ProgramHeaderExactly(message: seq<byte>)
    requires |message| <= MAX_INT - 160
    ensures
      var f := Image(message);
      && |f| == 160 + |message|
      && Number(f, 64, 4) == 1 && Number(f, 68, 4) == 5 && Number(f, 72, 8) == 0
      && Number(f, 80, 8) == 0x40_0000 && Number(f, 88, 8) == 0x40_0000
      && Number(f, 96, 8) == |f| && Number(f, 104, 8) == |f| && Number(f, 112, 8) == 4096
  {
    hide LittleEndian, Pow256, Image, Number, Fields;
    Pow256Widths();
    ImageLength(message);
    var size := MESSAGE_OFF + |message|;
    ProgramNumber(message, 0, 64, 4, 1);
    ProgramNumber(message, 1, 68, 4, 5);
    ProgramNumber(message, 2, 72, 8, 0);
    ProgramNumber(message, 3, 80, 8, LOAD_ADDR);
    ProgramNumber(message, 4, 88, 8, LOAD_ADDR);
    ProgramNumber(message, 5, 96, 8, size);
    ProgramNumber(message, 6, 104, 8, size);
    ProgramNumber(message, 7, 112, 8, PAGE_SIZE);
  }

  lemma CodeNumber(message: seq<byte>, i: nat)
    requires i < 8
    ensures |Image(message)| >= 160 && Number(Image(message), 128 + 4 * i, 4) == Code(|message|)[i]
  {
    hide Fields, Image, LittleEndian, FromLittleEndian, Code, Pow256;
    Pow256Widths();
    ImageLength(message);
    CodeField(message, i);
    FieldRead(message, 17 + i);
    LittleEndianValue(4, Code(|message|)[i]);
  }

  /** The eight words of code, and the message behind them. */
  lemma CodeExactly(message: seq<byte>)
    ensures
      var f := Image(message);
      && |f| == 160 + |message| && f[160..] == message
      && Number(f, 128, 4) == 0xd280_0020 && Number(f, 132, 4) == 0x1000_00e1
      && Number(f, 136, 4) == 0xd280_0002 + |message| % 0x1_0000 * 0x20 && Number(f, 140, 4) == 0xd280_0808
      && Number(f, 144, 4) == 0xd400_0001 && Number(f, 148, 4) == 0xd280_0000
      && Number(f, 152, 4) == 0xd280_0ba8 && Number(f, 156, 4) == 0xd400_0001
  {
    hide Image, Number, Fields, Movz, Adr;
    ImageLength(message);
    MessageField(message);
    FieldRead(message, 25);
    CodeNumber(message, 0);
    CodeNumber(message, 1);
    CodeNumber(message, 2);
    CodeNumber(message, 3);
    CodeNumber(message, 4);
    CodeNumber(message, 5);
    CodeNumber(message, 6);
    CodeNumber(message, 7);
    MovzSum(0, 1);
    AdrSum(1, 0x1c);
    MovzSum(2, Wrap16(|message|));
    MovzSum(8, 64);
    MovzSum(0, 0);
    MovzSum(8, 93);
  }

  /** All other bytes are zero. */
  lemma GapsAreZero(message: seq<byte>, i: nat)
    requires 7 <= i < 16 || 40 <= i < 52 || 58 <= i < 64 || 120 <= i < 128
    ensures i < |Image(message)| && Image(message)[i] == 0
  {
    ImageLength(message);
    FieldsRise(message);
    NotCovered(message, i);
    Untouched(Zeros(MESSAGE_OFF + |message|), Fields(message), i);
    hide Fields, Apply;
  }

  lemma NotCovered(message: seq<byte>, i: nat)
    requires 7 <= i < 16 || 40 <= i < 52 || 58 <= i < 64 || 120 <= i < 128
    ensures forall k :: 0 <= k < |Fields(message)| ==> !(Fields(message)[k].at <= i < Fields(message)[k].End())
  {
    hide LittleEndian, Code;
    forall k | 0 <= k < |Fields(message)|
        ensures !(Fields(message)[k].at <= i < Fields(message)[k].End()) {
      FieldsRise(message);
      if k < 9 { FileField(message, k); }
      else if k < 17 { ProgramField(message, k - 9); }
      else if k < 25 { CodeField(message, k - 17); }
      else { MessageField(message); }
      hide Fields;
    }
  }
}
