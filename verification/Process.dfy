/** A loader for one-segment ELF executables and an interpreter for the instructions of module
    Arm64, with the two Linux system calls that the generated program makes. */
module Process {
  import opened Bytes
  import opened Buffers
  import opened Arm64

  /** Memory that the process can read and execute. */
  datatype Segment = Segment(vaddr: nat, bytes: seq<byte>) {
    predicate Contains(a: nat, n: nat) {
      vaddr <= a && a + n <= vaddr + |bytes|
    }

    function At(a: nat, n: nat): (b: seq<byte>)
      requires Contains(a, n)
    {
      bytes[a - vaddr..a - vaddr + n]
    }
  }

  datatype Loaded = Loaded(memory: Segment, entry: nat)

  function Number(b: seq<byte>, at: nat, n: nat): nat
    requires at + n <= |b|
  {
    FromLittleEndian(b[at..at + n])
  }

  predicate IsExecutable(elf: seq<byte>) {
    && |elf| >= 64
    && elf[..4] == [0x7f, 0x45, 0x4c, 0x46]
    && elf[4] == 2 && elf[5] == 1 && elf[6] == 1
    && Number(elf, 16, 2) == 2
    && Number(elf, 18, 2) == 183
    && Number(elf, 20, 4) == 1
    && Number(elf, 52, 2) == 64
    && Number(elf, 54, 2) == 56
    && Number(elf, 56, 2) == 1
    && Number(elf, 32, 8) + 56 <= |elf|
  }

  /** The program header at ph is a readable, executable segment that lies in the file and is
      aligned with it in memory. */
  predicate IsLoadable(elf: seq<byte>, ph: nat)
    requires ph + 56 <= |elf|
  {
    && Number(elf, ph, 4) == 1
    && Number(elf, ph + 4, 4) % 2 == 1
    && Number(elf, ph + 4, 4) / 4 % 2 == 1
    && Number(elf, ph + 8, 8) + Number(elf, ph + 32, 8) <= |elf|
    && Number(elf, ph + 32, 8) <= Number(elf, ph + 40, 8)
    && Number(elf, ph + 16, 8) % 0x1000 == Number(elf, ph + 8, 8) % 0x1000
    && Number(elf, ph + 16, 8) + Number(elf, ph + 40, 8) <= W64
  }

  function Load(elf: seq<byte>): Result<Loaded> {
    if !IsExecutable(elf) then Error
    else
      var ph := Number(elf, 32, 8);
      if !IsLoadable(elf, ph) then Error
      else
        var offset, fileSize := Number(elf, ph + 8, 8), Number(elf, ph + 32, 8);
        var bytes := elf[offset..offset + fileSize] + Zeros(Number(elf, ph + 40, 8) - fileSize);
        Ok(Loaded(Segment(Number(elf, ph + 16, 8), bytes), Number(elf, 24, 8)))
  }

  // ---------------------------------------------------------------- interpreter

  datatype State = State(x: seq<u64>, pc: nat) {
    predicate Valid() { |x| == 31 }

    /** Register 31 of these instructions is the zero register. */
    function Set(rd: nat, v: u64): (s: State)
      requires Valid()
      ensures s.Valid()
    {
      State(if rd < 31 then x[rd := v] else x, pc + 4)
    }
  }

  datatype Event = Write(fd: u64, data: seq<byte>) | Exit(code: u64)

  datatype Effect = Next(state: State) | Call(event: Event, state: State) | Halt(event: Event) | Fault

  datatype Outcome = Finished(events: seq<Event>) | Faulted(events: seq<Event>) | Unfinished(events: seq<Event>) {
    function After(e: Event): Outcome {
      this.(events := [e] + events)
    }
  }

  function Fetch(m: Segment, pc: nat): Instruction {
    if pc % 4 == 0 && m.Contains(pc, 4) then
      var w := FromLittleEndian(m.At(pc, 4));
      if w < W32 then Decode(w) else Other
    else Other
  }

  /** One instruction; reply is what the kernel answers to a write. */
  function Step(m: Segment, s: State, reply: Event -> u64): (e: Effect)
    requires s.Valid()
    ensures e.Next? || e.Call? ==> e.state.Valid()
  {
    match Fetch(m, s.pc)
    case MOVZ(rd, imm) => Next(s.Set(rd, imm))
    case ADR(rd, offset) => Next(s.Set(rd, Wrap64(s.pc + offset)))
    case SVC(_) => SystemCall(m, s, reply)
    case B(offset) => Next(State(s.x, Wrap64(s.pc + offset)))
    case Other => Fault
  }

  function SystemCall(m: Segment, s: State, reply: Event -> u64): (e: Effect)
    requires s.Valid()
    ensures e.Next? || e.Call? ==> e.state.Valid()
  {
    if s.x[8] == 64 && m.Contains(s.x[1], s.x[2]) then
      var e := Write(s.x[0], m.At(s.x[1], s.x[2]));
      Call(e, s.Set(0, reply(e)))
    else if s.x[8] == 93 then Halt(Exit(s.x[0]))
    else Fault
  }

  function Run(m: Segment, s: State, reply: Event -> u64, steps: nat): Outcome
    requires s.Valid()
    decreases steps
  {
    if steps == 0 then Unfinished([])
    else
      match Step(m, s, reply)
      case Next(t) => Run(m, t, reply, steps - 1)
      case Call(e, t) => Run(m, t, reply, steps - 1).After(e)
      case Halt(e) => Finished([e])
      case Fault => Faulted([])
  }
}
