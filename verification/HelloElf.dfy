/** linuxHelloELF (kernel/gvisor_sentry.go): a static executable that writes a message and
    exits. */
module HelloElf {
  import opened Bytes
  import opened Seqs
  import opened Buffers
  import opened Patches
  import opened Arm64

  const LOAD_ADDR := 0x40_0000
  const ENTRY_OFF := 0x80
  const MESSAGE_OFF := 0xa0
  const PAGE_SIZE := 0x1000

  /** The largest slice that Go can make. */
  const MAX_INT := 0x7fff_ffff_ffff_ffff

  // --------------------------------------------------------------- specification

  /** The fields of the ELF header. */
  function FileHeader(): seq<Patch> {
    [Patch(0, [0x7f, 0x45, 0x4c, 0x46, 2, 1, 1]),
     Patch(16, LittleEndian(2, 2)),
     Patch(18, LittleEndian(2, 183)),
     Patch(20, LittleEndian(4, 1)),
     Patch(24, LittleEndian(8, LOAD_ADDR + ENTRY_OFF)),
     Patch(32, LittleEndian(8, 64)),
     Patch(52, LittleEndian(2, 64)),
     Patch(54, LittleEndian(2, 56)),
     Patch(56, LittleEndian(2, 1))]
  }

  /** The fields of the one program header, for a file of size bytes. */
  function ProgramHeader(size: nat): seq<Patch> {
    [Patch(64, LittleEndian(4, 1)),
     Patch(68, LittleEndian(4, 5)),
     Patch(72, LittleEndian(8, 0)),
     Patch(80, LittleEndian(8, LOAD_ADDR)),
     Patch(88, LittleEndian(8, LOAD_ADDR)),
     Patch(96, LittleEndian(8, size)),
     Patch(104, LittleEndian(8, size)),
     Patch(112, LittleEndian(8, PAGE_SIZE))]
  }

  function Header(size: nat): seq<Patch> {
    FileHeader() + ProgramHeader(size)
  }

  /** The program, for a message of n bytes. */
  function Code(n: nat): (words: seq<u32>)
    ensures |words| == 8
  {
    [Movz(0, 1), Adr(1, MESSAGE_OFF - (ENTRY_OFF + 4)), Movz(2, Wrap16(n)), Movz(8, 64), SVC_0,
     Movz(0, 0), Movz(8, 93), SVC_0]
  }

  function CodePatches(words: seq<u32>): (ps: seq<Patch>)
    ensures |ps| == |words|
  {
    seq(|words|, i requires 0 <= i < |words| => Patch(ENTRY_OFF + 4 * i, LittleEndian(4, words[i])))
  }

  function Fields(message: seq<byte>): seq<Patch> {
    Header(MESSAGE_OFF + |message|) + CodePatches(Code(|message|)) + [Patch(MESSAGE_OFF, message)]
  }

  lemma HeaderRises(size: nat)
    ensures |Header(size)| == 17
    ensures Rising(Header(size)) && Header(size)[16].End() == 120
    ensures Fits(Header(size), 120)
  {
    hide LittleEndian;
  }

  lemma CodeRises(words: seq<u32>)
    ensures Rising(CodePatches(words)) && Fits(CodePatches(words), ENTRY_OFF + 4 * |words|)
  {
    hide LittleEndian;
  }

  lemma FieldsRise(message: seq<byte>)
    ensures |Fields(message)| == 26 && Rising(Fields(message)) && Fits(Fields(message), MESSAGE_OFF + |message|)
  {
    hide Header, LittleEndian, Code, Rising, Fits;
    var size, words := MESSAGE_OFF + |message|, Code(|message|);
    var head, body, tail := Header(size), CodePatches(words), [Patch(MESSAGE_OFF, message)];
    HeaderRises(size);
    CodeRises(words);
    assert body[0].at == ENTRY_OFF && body[7].End() == MESSAGE_OFF;
    FitsMore(head, 120, size);
    FitsMore(body, MESSAGE_OFF, size);
    One(tail[0], size);
    RisingJoin(head, body);
    FitsJoin(head, body, size);
    assert (head + body)[24] == body[7];
    RisingJoin(head + body, tail);
    FitsJoin(head + body, tail, size);
  }

  function Image(message: seq<byte>): seq<byte> {
    FieldsRise(message);
    Apply(Zeros(MESSAGE_OFF + |message|), Fields(message))
  }

  // ------------------------------------------------------------------ the method

  /** One PutUint or copy, remembered in the list of patches. */
  method Put(elf: array<byte>, at: nat, bytes: seq<byte>, ghost written: seq<Patch>) returns (ghost more: seq<Patch>)
    requires at + |bytes| <= elf.Length
    requires Fits(written, elf.Length) && elf[..] == Apply(Zeros(elf.Length), written)
    modifies elf
    ensures more == written + [Patch(at, bytes)]
    ensures Fits(more, elf.Length) && elf[..] == Apply(Zeros(elf.Length), more)
  {
    Copy(elf, at, bytes);
    more := written + [Patch(at, bytes)];
    ApplyNext(Zeros(elf.Length), written, Patch(at, bytes));
  }

  method WriteFileHeader(elf: array<byte>) returns (ghost w: seq<Patch>)
    requires elf.Length >= MESSAGE_OFF && elf[..] == Zeros(elf.Length)
    modifies elf
    ensures w == FileHeader()
    ensures Fits(w, elf.Length) && elf[..] == Apply(Zeros(elf.Length), w)
  {
    assert Fits([], elf.Length) && Apply(Zeros(elf.Length), []) == elf[..];
    hide LittleEndian, Apply, Fits;
    w := Put(elf, 0, [0x7f, 0x45, 0x4c, 0x46, 2, 1, 1], []);
    w := Put(elf, 16, LittleEndian(2, 2), w);
    w := Put(elf, 18, LittleEndian(2, 183), w);
    w := Put(elf, 20, LittleEndian(4, 1), w);
    w := Put(elf, 24, LittleEndian(8, LOAD_ADDR + ENTRY_OFF), w);
    w := Put(elf, 32, LittleEndian(8, 64), w);
    w := Put(elf, 52, LittleEndian(2, 64), w);
    w := Put(elf, 54, LittleEndian(2, 56), w);
    w := Put(elf, 56, LittleEndian(2, 1), w);
  }

  method WriteProgramHeader(elf: array<byte>, fileSize: nat, ghost written: seq<Patch>) returns (ghost w: seq<Patch>)
    requires elf.Length >= MESSAGE_OFF
    requires Fits(written, elf.Length) && elf[..] == Apply(Zeros(elf.Length), written)
    modifies elf
    ensures w == written + ProgramHeader(fileSize)
    ensures Fits(w, elf.Length) && elf[..] == Apply(Zeros(elf.Length), w)
  {
    hide LittleEndian, Apply, Fits;
    w := Put(elf, 64, LittleEndian(4, 1), written);
    w := Put(elf, 68, LittleEndian(4, 5), w);
    w := Put(elf, 72, LittleEndian(8, 0), w);
    w := Put(elf, 80, LittleEndian(8, LOAD_ADDR), w);
    w := Put(elf, 88, LittleEndian(8, LOAD_ADDR), w);
    w := Put(elf, 96, LittleEndian(8, fileSize), w);
    w := Put(elf, 104, LittleEndian(8, fileSize), w);
    w := Put(elf, 112, LittleEndian(8, PAGE_SIZE), w);
  }

  method WriteCode(elf: array<byte>, codeWords: seq<u32>, ghost written: seq<Patch>) returns (ghost w: seq<Patch>)
    requires ENTRY_OFF + 4 * |codeWords| <= elf.Length
    requires Fits(written, elf.Length) && elf[..] == Apply(Zeros(elf.Length), written)
    modifies elf
    ensures w == written + CodePatches(codeWords)
    ensures Fits(w, elf.Length) && elf[..] == Apply(Zeros(elf.Length), w)
  {
    hide LittleEndian, Apply, Fits;
    w := written;
    ghost var ps := CodePatches(codeWords);
    Empty(written);
    for i := 0 to |codeWords|
      invariant w == written + ps[..i]
      invariant Fits(w, elf.Length) && elf[..] == Apply(Zeros(elf.Length), w)
    {
      w := Put(elf, ENTRY_OFF + 4 * i, LittleEndian(4, codeWords[i]), w);
      assert ps[..i + 1] == ps[..i] + [ps[i]];
      Assoc(written, ps[..i], [ps[i]]);
    }
    assert ps[..|codeWords|] == ps;
  }

  method LinuxHelloElf(message: seq<byte>) returns (elf: array<byte>)
    requires |message| <= MAX_INT - MESSAGE_OFF
    ensures fresh(elf) && elf[..] == Image(message)
  {
    hide Movz, Adr, Apply, Fits, FileHeader, ProgramHeader, CodePatches;
    var codeWords := [Movz(0, 1), 0, Movz(2, Wrap16(|message|)), Movz(8, 64), SVC_0, Movz(0, 0), Movz(8, 93), SVC_0];
    var messageOff := ENTRY_OFF + 4 * |codeWords|;
    codeWords := codeWords[1 := Adr(1, messageOff - (ENTRY_OFF + 4))];
    var fileSize := messageOff + |message|;
    elf := new byte[fileSize](i => 0);
    assert codeWords == Code(|message|);
    assert elf[..] == Zeros(elf.Length);
    ghost var w := WriteFileHeader(elf);
    w := WriteProgramHeader(elf, fileSize, w);
    w := WriteCode(elf, codeWords, w);
    w := Put(elf, messageOff, message, w);
  }
}
