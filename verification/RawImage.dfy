/** tools/elf2raw.go: the load segments of an ELF file laid out in one image that starts with a
    branch to the entry point. */
module RawImage {
  import opened Bytes
  import opened Buffers
  import opened Arm64

  const MAX_IMAGE_SIZE := 128 * 0x10_0000
  const ELFCLASS64 := 2
  const EM_AARCH64 := 183
  const ELFDATA2LSB := 1
  const PT_LOAD := 1

  /** A program header. contents is what reading the segment yields, at most filesz bytes: fewer
      when the file is cut short. */
  datatype Prog = Prog(kind: u32, paddr: u64, vaddr: u64, filesz: u64, contents: seq<byte>) {
    predicate Loads() { kind == PT_LOAD && filesz != 0 }

    /** programAddress */
    function Address(): u64 { if paddr != 0 then paddr else vaddr }

    function End(): nat { Address() + filesz }

    predicate Covers(a: nat) { Loads() && Address() <= a < End() }
  }

  datatype File = File(elfClass: nat, machine: nat, encoding: nat, entry: u64, progs: seq<Prog>) {
    predicate Supported() {
      elfClass == ELFCLASS64 && machine == EM_AARCH64 && encoding == ELFDATA2LSB
    }
  }

  /** Panicked: the image has no room for the branch. */
  datatype Status = Done | Failed | Panicked

  // --------------------------------------------------------------- specification

  /** Every load segment starts at or after base and ends below 2^64. */
  predicate Placed(progs: seq<Prog>, base: u64) {
    forall p :: p in progs && p.Loads() ==> base <= p.Address() && p.End() < W64
  }

  predicate Complete(progs: seq<Prog>) {
    forall p :: p in progs && p.Loads() ==> |p.contents| == p.filesz
  }

  /** The larger of end and the last address that a load segment occupies, plus one. */
  function Extent(progs: seq<Prog>, end: nat): (e: nat)
    ensures e >= end
    ensures forall p :: p in progs && p.Loads() ==> p.End() <= e
    ensures e == end || exists p :: p in progs && p.Loads() && p.End() == e
  {
    if progs == [] then end
    else
      var rest, last := Extent(progs[..|progs| - 1], end), progs[|progs| - 1];
      if last.Loads() && last.End() > rest then last.End() else rest
  }

  /** end - base of uint64, where end starts at base + 4 */
  function Size(progs: seq<Prog>, base: u64): u64 {
    Wrap64(Extent(progs, Wrap64(base + 4)) - base)
  }

  /** What belongs at address a: the byte of the last load segment that covers it, or 0. */
  function ByteAt(progs: seq<Prog>, a: nat): byte
    requires Complete(progs)
  {
    if progs == [] then 0
    else
      var last := progs[|progs| - 1];
      if last.Covers(a) then last.contents[a - last.Address()]
      else ByteAt(progs[..|progs| - 1], a)
  }

  predicate Accepts(file: File, base: u64) {
    && file.Supported()
    && Placed(file.progs, base)
    && Size(file.progs, base) <= MAX_IMAGE_SIZE
    && Complete(file.progs)
    && BranchInstruction(base, file.entry).Ok?
  }

  /** Every load segment lies in the image, also where base + 4 wraps around. */
  lemma SizeFits(progs: seq<Prog>, base: u64, p: Prog)
    requires Placed(progs, base) && p in progs && p.Loads()
    ensures Extent(progs, Wrap64(base + 4)) < W64
    ensures p.End() - base <= Size(progs, base)
  {
    hide Wrap64;
    WrapTwice(base + 4);
    ExtentBelow(progs, base, Wrap64(base + 4));
    WrapOnce(Extent(progs, Wrap64(base + 4)) - base);
  }

  /** Four bytes that, run at base, branch to entry modulo 2^64. */
  predicate Enters(b: seq<byte>, base: u64, entry: u64)
    requires |b| == 4
  {
    var w := FromLittleEndian(b);
    w < W32 && Decode(w).B? && Wrap64(base + Decode(w).offset) == entry
  }

  lemma BranchEnters(base: u64, entry: u64)
    requires BranchInstruction(base, entry).Ok?
    ensures Enters(LittleEndian(4, BranchInstruction(base, entry).value), base, entry)
  {
    hide BranchInstruction, LittleEndian, FromLittleEndian, Decode, Pow256;
    Pow256Widths();
    LittleEndianValue(4, BranchInstruction(base, entry).value);
    BranchLands(base, entry);
  }

  // ------------------------------------------------------------------ the method

  lemma LayoutNext(progs: seq<Prog>, base: u64, end: nat, i: nat)
    requires i < |progs|
    ensures Placed(progs[..i + 1], base) <==>
            Placed(progs[..i], base) && (progs[i].Loads() ==> base <= progs[i].Address() && progs[i].End() < W64)
    ensures Placed(progs, base) ==> Placed(progs[..i + 1], base)
    ensures Extent(progs[..i + 1], end) ==
            if progs[i].Loads() && progs[i].End() > Extent(progs[..i], end) then progs[i].End()
                else Extent(progs[..i], end)
  {
    assert progs[..i + 1][..i] == progs[..i];
    assert progs[..i + 1] == progs[..i] + [progs[i]];
  }

  method Layout(progs: seq<Prog>, base: u64) returns (ok: bool, end: nat)
    ensures ok <==> Placed(progs, base)
    ensures ok ==> end == Extent(progs, Wrap64(base + 4)) < W64
  {
    hide Placed, Extent;
    end := Wrap64(base + 4);
    ghost var first := end;
    assert Placed(progs[..0], base) && Extent(progs[..0], first) == first by { Nothing(base, first); }
    for i := 0 to |progs|
      invariant Placed(progs[..i], base)
      invariant end == Extent(progs[..i], first) < W64
    {
      var prog := progs[i];
      LayoutNext(progs, base, first, i);
      if !prog.Loads() { continue; }
      var addr := prog.Address();
      var next := Wrap64(addr + prog.filesz);
      if addr < base || next < addr { return false, end; }
      assert next == prog.End();
      if next > end { end := next; }
    }
    assert progs[..|progs|] == progs;
    ok := true;
  }

  lemma Nothing(base: u64, end: nat)
    ensures Placed([], base) && Extent([], end) == end
  {
  }

  method Fill(image: array<byte>, progs: seq<Prog>, base: u64) returns (ok: bool)
    requires Placed(progs, base)
    requires forall p :: p in progs && p.Loads() ==> p.End() - base <= image.Length
    requires forall i :: 0 <= i < image.Length ==> image[i] == 0
    modifies image
    ensures ok <==> Complete(progs)
    ensures ok ==> forall i :: 0 <= i < image.Length ==> image[i] == ByteAt(progs, base + i)
  {
    for k := 0 to |progs|
      invariant Complete(progs[..k])
      invariant forall i :: 0 <= i < image.Length ==> image[i] == ByteAt(progs[..k], base + i)
    {
      var prog := progs[k];
      assert progs[..k + 1][..k] == progs[..k];
      if !prog.Loads() { continue; }
      if |prog.contents| != prog.filesz {
        assert prog in progs;
        return false;
      }
      Copy(image, prog.Address() - base, prog.contents);
    }
    assert progs[..|progs|] == progs;
    ok := true;
  }

  method Convert(file: File, base: u64) returns (status: Status, image: array<byte>)
    ensures fresh(image)
    ensures status.Failed? <==> !Accepts(file, base)
    ensures status.Panicked? <==> Accepts(file, base) && Size(file.progs, base) < 4
    ensures status.Done? ==> image.Length == Size(file.progs, base) >= 4
    ensures status.Done? ==> Enters(image[..4], base, file.entry)
    ensures status.Done? ==> forall i :: 4 <= i < image.Length ==> image[i] == ByteAt(file.progs, base + i)
  {
    hide BranchInstruction, LittleEndian, Enters, Wrap64, Extent;
    image := new byte[0];
    if !file.Supported() { return Failed, image; }
    var ok, end := Layout(file.progs, base);
    if !ok { return Failed, image; }
    var size := Wrap64(end - base);
    if size > MAX_IMAGE_SIZE { return Failed, image; }
    image := new byte[size](i => 0);
    forall p | p in file.progs && p.Loads() ensures p.End() - base <= image.Length {
      SizeFits(file.progs, base, p);
    }
    ok := Fill(image, file.progs, base);
    if !ok { return Failed, image; }
    var branch := BranchInstruction(base, file.entry);
    if branch.Error? { return Failed, image; }
    if size < 4 { return Panicked, image; }
    Copy(image, 0, LittleEndian(4, branch.value));
    assert image[..4] == LittleEndian(4, branch.value);
    BranchEnters(base, file.entry);
    status := Done;
  }

  // ------------------------------------------------------- what the image means

  /** The last load segment over an address decides its byte, whatever comes before it. */
  lemma {:induction false} LastCovering(progs: seq<Prog>, a: nat, k: nat)
    requires Complete(progs) && k < |progs| && progs[k].Covers(a)
    requires forall j :: k < j < |progs| ==> !progs[j].Covers(a)
    ensures |progs[k].contents| == progs[k].filesz && ByteAt(progs, a) == progs[k].contents[a - progs[k].Address()]
  {
    assert progs[k] in progs;
    if k < |progs| - 1 {
      LastCovering(progs[..|progs| - 1], a, k);
    }
  }

  /** Gaps are zero. */
  lemma {:induction false} NothingCovers(progs: seq<Prog>, a: nat)
    requires Complete(progs) && forall j :: 0 <= j < |progs| ==> !progs[j].Covers(a)
    ensures ByteAt(progs, a) == 0
  {
    if progs != [] {
      NothingCovers(progs[..|progs| - 1], a);
    }
  }

  /** When base + 4 does not wrap around, the image reaches from base to the end of the last
      load segment, and has room for the branch. */
  lemma SizeExact(progs: seq<Prog>, base: u64)
    requires Placed(progs, base) && base + 4 < W64
    ensures Size(progs, base) == Extent(progs, base + 4) - base >= 4
  {
    hide Wrap64, Placed;
    WrapOnce(base + 4);
    ExtentBelow(progs, base, base + 4);
    WrapOnce(Extent(progs, base + 4) - base);
  }

  lemma ExtentBelow(progs: seq<Prog>, base: u64, end: u64)
    requires Placed(progs, base)
    ensures Extent(progs, end) < W64
  {
  }

  lemma SizeAtTop(progs: seq<Prog>, base: u64, p: Prog)
    requires Placed(progs, base) && base == W64 - 4 && p in progs && p.Loads()
    ensures Size(progs, base) < 4
  {
    hide Wrap64;
    WrapTwice(base + 4);
    ExtentBelow(progs, base, 0);
    WrapOnce(Extent(progs, 0) - base);
  }

  lemma SizeEmpty(progs: seq<Prog>, base: u64)
    requires forall p :: p in progs ==> !p.Loads()
    ensures Size(progs, base) == 4
  {
  }

  lemma AcceptedBase(file: File, base: u64)
    requires Accepts(file, base)
    ensures Placed(file.progs, base) && base % 4 == 0
  {
    hide Placed, Complete, Size, Or32;
  }

  lemma BelowTop(base: u64)
    requires base % 4 == 0 && base != W64 - 4
    ensures base + 4 < W64
  {
  }

  /** An accepted file makes the conversion panic in exactly one place of the address space. */
  lemma PanicsExactly(file: File, base: u64)
    requires Accepts(file, base)
    ensures Size(file.progs, base) < 4 <==> base == W64 - 4 && exists p :: p in file.progs && p.Loads()
  {
    hide BranchInstruction, Size, Placed, Accepts, Complete, Extent;
    var progs := file.progs;
    AcceptedBase(file, base);
    if base != W64 - 4 {
      BelowTop(base);
      SizeExact(progs, base);
    } else if exists p :: p in progs && p.Loads() {
      var p :| p in progs && p.Loads();
      SizeAtTop(progs, base, p);
    } else {
      SizeEmpty(progs, base);
    }
  }

  /** Such a file: one byte at the last word of the address space, entered at 0. */
  lemma PanicsOnce()
    ensures
      var file := File(ELFCLASS64, EM_AARCH64, ELFDATA2LSB, 0, [Prog(PT_LOAD, W64 - 4, 0, 1, [7])]);
      Accepts(file, W64 - 4) && Size(file.progs, W64 - 4) < 4
  {
    hide Wrap64, BranchInstruction, Extent, Placed;
    var p, base := Prog(PT_LOAD, W64 - 4, 0, 1, [7]), W64 - 4;
    BranchAccepted(base, 0);
    WrapOnce(0 - base);
    OnePlaced(p, base);
    SizeAtTop([p], base, p);
  }

  lemma OnePlaced(p: Prog, base: u64)
    requires base <= p.Address() && p.End() < W64
    ensures Placed([p], base)
  {
  }

  // ------------------------------------------------------------------ in plain numbers

  /** Where the segment of p starts: at its physical address, or its virtual one if that is 0. */
  function Start(p: Prog): nat { if p.paddr == 0 then p.vaddr else p.paddr }

  /** Segments of type 1 that have bytes in the file take part, and no others. */
  lemma Segments(p: Prog, a: nat)
    ensures p.Loads() <==> p.kind == 1 && p.filesz > 0
    ensures p.Address() == Start(p) && p.End() == Start(p) + p.filesz
    ensures p.Covers(a) <==> p.kind == 1 && Start(p) <= a < Start(p) + p.filesz
  {
  }

  /** Which files are converted: 64-bit little-endian AArch64, with every loaded segment between
      base and the top of the address space and complete, an image of at most 128 MiB, and an
      entry that a branch at base can reach. */
  lemma AcceptsExactly(file: File, base: u64)
    ensures
      Accepts(file, base) <==>
      && file.elfClass == 2 && file.machine == 183 && file.encoding == 1
      && (forall p :: p in file.progs && p.kind == 1 && p.filesz > 0 ==>
            base <= Start(p) && Start(p) + p.filesz < 0x1_0000_0000_0000_0000 && |p.contents| == p.filesz)
      && Size(file.progs, base) <= 134_217_728
      && base % 4 == 0 && file.entry % 4 == 0
      && (Wrap64(file.entry - base) < 134_217_728 || Wrap64(base - file.entry) <= 134_217_728)
  {
    BranchAccepted(base, file.entry);
    hide BranchInstruction, Size;
  }

  /** The image reaches to the end of its last segment, and has at least four bytes, where base + 4
      does not wrap around. */
  lemma SizeMeans(progs: seq<Prog>, base: u64)
    requires Placed(progs, base) && base + 4 < W64
    ensures Size(progs, base) >= 4
    ensures forall p :: p in progs && p.kind == 1 && p.filesz > 0 ==> Start(p) + p.filesz - base <= Size(progs, base)
    ensures Size(progs, base) == 4
            || exists p :: p in progs && p.kind == 1 && p.filesz > 0 && Start(p) + p.filesz - base == Size(progs, base)
  {
    SizeExact(progs, base);
    hide Size, Placed;
    var e := Extent(progs, base + 4);
    if e != base + 4 {
      var p :| p in progs && p.Loads() && p.End() == e;
      assert p.kind == 1 && p.filesz > 0 && Start(p) + p.filesz - base == Size(progs, base);
    }
  }

  /** Every byte of the image is that of the last segment over it, or zero. */
  lemma ByteMeans(progs: seq<Prog>, a: nat, k: nat)
    requires Complete(progs)
    ensures
      k < |progs| && progs[k].kind == 1 && Start(progs[k]) <= a < Start(progs[k]) + progs[k].filesz
      && (forall j :: k < j < |progs| ==>
            !(progs[j].kind == 1 && Start(progs[j]) <= a < Start(progs[j]) + progs[j].filesz)) ==>
        |progs[k].contents| == progs[k].filesz && ByteAt(progs, a) == progs[k].contents[a - Start(progs[k])]
    ensures
      (forall j :: 0 <= j < |progs| ==>
         !(progs[j].kind == 1 && Start(progs[j]) <= a < Start(progs[j]) + progs[j].filesz)) ==>
        ByteAt(progs, a) == 0
  {
    hide ByteAt, Complete;
    if k < |progs| && progs[k].Covers(a) && forall j :: k < j < |progs| ==> !progs[j].Covers(a) {
      LastCovering(progs, a, k);
    }
    if forall j :: 0 <= j < |progs| ==> !progs[j].Covers(a) {
      NothingCovers(progs, a);
    }
  }
}
