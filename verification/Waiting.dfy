/** The surroundings of the DHCP client, any clock and any device, and its wait for a message of
    the server. */
module Waiting {
  import opened Bytes
  import opened Seqs
  import opened Frames
  import opened ServerFrames

  datatype Receipt = Nothing | Got(frame: seq<byte>) | Fault

  datatype Event = Sent(frame: seq<byte>) | Received(frame: seq<byte>)

  /** Unfinished: the run goes on beyond the clock readings that are given. */
  datatype Outcome<+T> = Done(value: T) | Failed | Unfinished

  function Rest<T>(s: seq<T>): seq<T> { if s == [] then [] else s[1..] }

  /** The clock readings and the device's results still to come. A device has nothing more to
      give at the end of receipts, and transmits at the end of transmits. */
  datatype Surroundings = Surroundings(clock: seq<int>, receipts: seq<Receipt>, transmits: seq<bool>)
  {
    function Receipt(): Receipt { if receipts == [] then Nothing else receipts[0] }

    function Transmits(): bool { transmits == [] || transmits[0] }
  }

  class Link {
    var clock: seq<int>
    var receipts: seq<Receipt>
    var transmits: seq<bool>
    /** What has passed over the wire. */
    var log: seq<Event>

    function Around(): Surroundings
      reads this
    {
      Surroundings(clock, receipts, transmits)
    }

    method Now() returns (t: Option<int>)
      modifies this`clock
      ensures old(clock) == [] ==> t == None && clock == []
      ensures old(clock) != [] ==> t == Some(old(clock)[0]) && clock == old(clock)[1..]
    {
      if clock == [] {
        return None;
      }
      t := Some(clock[0]);
      clock := clock[1..];
    }

    method Receive() returns (r: Receipt)
      modifies this`receipts, this`log
      ensures r == old(Around()).Receipt() && receipts == Rest(old(receipts))
      ensures log == old(log) + if r.Got? && r.frame != [] then [Received(r.frame)] else []
    {
      if receipts == [] {
        return Nothing;
      }
      r := receipts[0];
      receipts := receipts[1..];
      if r.Got? && r.frame != [] {
        log := log + [Received(r.frame)];
      }
    }

    method Transmit(frame: seq<byte>) returns (ok: bool)
      modifies this`transmits, this`log
      ensures ok == old(Around()).Transmits() && transmits == Rest(old(transmits))
      ensures log == old(log) + if ok then [Sent(frame)] else []
    {
      ok := transmits == [] || transmits[0];
      transmits := if transmits == [] then [] else transmits[1..];
      if ok {
        log := log + [Sent(frame)];
      }
    }
  }

  // ----------------------------------------------------------------- what frames say

  /** What one frame says to the client: a message of the wanted type, a rejection, or nothing,
      when it does not parse or belongs to another exchange or client. */
  function Verdict(frame: seq<byte>, xid: u32, mac: seq<byte>, want: byte): Option<Result<Message>> {
    match ServerFrame(frame)
    case Error => None
    case Ok(reply) =>
      if reply.xid != xid || reply.mac != mac then None
      else if reply.message.messageType == NAK then Some(Error)
      else if reply.message.messageType == want then Some(Ok(reply.message))
      else None
  }

  /** What the first decisive frame says. */
  function Judge(frames: seq<seq<byte>>, xid: u32, mac: seq<byte>, want: byte): Option<Result<Message>> {
    if frames == [] then None
    else
      var first := Verdict(frames[0], xid, mac, want);
      if first.Some? then first else Judge(frames[1..], xid, mac, want)
  }

  /** A message that was judged acceptable came in one of the frames, for this client. */
  lemma {:induction false} JudgedFrame(frames: seq<seq<byte>>, xid: u32, mac: seq<byte>, want: byte)
    requires Judge(frames, xid, mac, want).Some? && Judge(frames, xid, mac, want).value.Ok?
    ensures
      var message := Judge(frames, xid, mac, want).value.value;
      && message.messageType == want
      && exists i :: 0 <= i < |frames| && ServerFrame(frames[i]) == Ok(Reply(message, xid, mac))
  {
    hide ServerFrame;
    if Verdict(frames[0], xid, mac, want).Some? {
      assert ServerFrame(frames[0]) == Ok(Reply(Judge(frames, xid, mac, want).value.value, xid, mac));
    } else {
      JudgedFrame(frames[1..], xid, mac, want);
      var message := Judge(frames[1..], xid, mac, want).value.value;
      var i :| 0 <= i < |frames| - 1 && ServerFrame(frames[1..][i]) == Ok(Reply(message, xid, mac));
      assert frames[i + 1] == frames[1..][i];
    }
  }

  // ------------------------------------------------------------------------ waiting

  /** The end of a wait: its outcome, the frames heard, and what remains of clock and receipts. */
  datatype Waited = Waited(outcome: Outcome<Message>, frames: seq<seq<byte>>, clock: seq<int>, receipts: seq<Receipt>)
  {
    function Before(heard: seq<seq<byte>>): Waited { this.(frames := heard + frames) }
  }

  /** waitFor on values: every pass reads the clock and asks the device once. */
  function Wait(clock: seq<int>, receipts: seq<Receipt>, xid: u32, mac: seq<byte>, want: byte, deadline: int): Waited
    decreases |clock|
  {
    if clock == [] then Waited(Unfinished, [], [], receipts)
    else if clock[0] >= deadline then Waited(Failed, [], clock[1..], receipts)
    else
      var receipt := if receipts == [] then Nothing else receipts[0];
      var left := Rest(receipts);
      if receipt.Fault? then Waited(Failed, [], clock[1..], left)
      else if receipt.Nothing? || receipt.frame == [] then Wait(clock[1..], left, xid, mac, want, deadline)
      else
        match Verdict(receipt.frame, xid, mac, want)
        case Some(Ok(message)) => Waited(Done(message), [receipt.frame], clock[1..], left)
        case Some(Error) => Waited(Failed, [receipt.frame], clock[1..], left)
        case None => Wait(clock[1..], left, xid, mac, want, deadline).Before([receipt.frame])
  }

  /** A wait ends with the verdict of the first decisive frame that was heard, and with no
      message when there was none. */
  lemma {:induction false} WaitJudges(clock: seq<int>, receipts: seq<Receipt>, xid: u32, mac: seq<byte>, want: byte,
      deadline: int)
    ensures
      var w := Wait(clock, receipts, xid, mac, want, deadline);
      match Judge(w.frames, xid, mac, want)
      case Some(Ok(message)) => w.outcome == Done(message)
      case Some(Error) => w.outcome == Failed
      case None => !w.outcome.Done?
    decreases |clock|
  {
    hide Verdict, Judge;
    JudgeNone(xid, mac, want);
    if clock != [] && clock[0] < deadline {
      var left := Rest(receipts);
      WaitJudges(clock[1..], left, xid, mac, want, deadline);
      if receipts != [] && receipts[0].Got? {
        JudgeMore(receipts[0].frame, [], xid, mac, want);
        JudgeMore(receipts[0].frame, Wait(clock[1..], left, xid, mac, want, deadline).frames, xid, mac, want);
        Empty([receipts[0].frame]);
      }
    }
  }

  lemma JudgeNone(xid: u32, mac: seq<byte>, want: byte)
    ensures Judge([], xid, mac, want) == None
  {
  }

  lemma JudgeMore(frame: seq<byte>, rest: seq<seq<byte>>, xid: u32, mac: seq<byte>, want: byte)
    ensures
      var first := Verdict(frame, xid, mac, want);
      Judge([frame] + rest, xid, mac, want) == if first.Some? then first else Judge(rest, xid, mac, want)
  {
    hide Verdict;
    Tail([frame], rest);
    Empty(rest);
  }

  /** A frame that the client passes over: it does not parse, belongs to another exchange or to
      another client, or is neither a rejection (type 6) nor of the wanted type. */
  predicate PassedOver(frame: seq<byte>, xid: u32, mac: seq<byte>, want: byte) {
    match ServerFrame(frame)
    case Error => true
    case Ok(reply) =>
      || reply.xid != xid || reply.mac != mac
      || (reply.message.messageType != 6 && reply.message.messageType != want)
  }

  /** Nothing to do for the client: no frame, or one that it passes over. */
  predicate Idle(r: Receipt, xid: u32, mac: seq<byte>, want: byte) {
    r.Nothing? || (r.Got? && (r.frame == [] || PassedOver(r.frame, xid, mac, want)))
  }

  /** What the device gives at the k-th look. */
  function Look(receipts: seq<Receipt>, k: nat): Receipt {
    if k < |receipts| then receipts[k] else Nothing
  }

  /** What is left after k readings or looks. */
  function After<T>(s: seq<T>, k: nat): seq<T> {
    if k <= |s| then s[k..] else []
  }

  /** The frames heard at the first k looks. */
  function Heard(receipts: seq<Receipt>, k: nat): seq<seq<byte>>
    decreases k
  {
    if k == 0 then []
    else
      var r := Look(receipts, 0);
      (if r.Got? && r.frame != [] then [r.frame] else []) + Heard(Rest(receipts), k - 1)
  }

  /** r is a message of the type t from a server, for this client and this exchange. */
  ghost predicate Carries(r: Receipt, xid: u32, mac: seq<byte>, t: byte, message: Message) {
    && r.Got? && r.frame != []
    && ServerFrame(r.frame) == Ok(Reply(message, xid, mac)) && message.messageType == t
  }

  ghost predicate EndsAt(w: Waited, outcome: Outcome<Message>, frames: seq<seq<byte>>, clock: seq<int>,
      receipts: seq<Receipt>, ticks: nat, looks: nat) {
    w == Waited(outcome, frames, After(clock, ticks), After(receipts, looks))
  }

  lemma WaitsOn(clock: seq<int>, receipts: seq<Receipt>, xid: u32, mac: seq<byte>, want: byte, deadline: int)
    requires clock != [] && clock[0] < deadline && Idle(Look(receipts, 0), xid, mac, want)
    ensures Wait(clock, receipts, xid, mac, want, deadline)
            == Wait(clock[1..], Rest(receipts), xid, mac, want, deadline).Before(Heard(receipts, 1))
  {
    hide ServerFrame;
    var later := Wait(clock[1..], Rest(receipts), xid, mac, want, deadline);
    Empty(later.frames);
    assert Heard(Rest(receipts), 0) == [];
    if receipts != [] && receipts[0].Got? { Empty([receipts[0].frame]); }
  }

  lemma EndsNow(clock: seq<int>, receipts: seq<Receipt>, xid: u32, mac: seq<byte>, want: byte, deadline: int,
      message: Message)
    requires want != 6
    ensures
      var w, r := Wait(clock, receipts, xid, mac, want, deadline), Look(receipts, 0);
      && (clock == [] ==> EndsAt(w, Unfinished, [], clock, receipts, 0, 0))
      && (clock != [] && clock[0] >= deadline ==> EndsAt(w, Failed, [], clock, receipts, 1, 0))
      && (clock != [] && clock[0] < deadline ==>
            && (r == Fault ==> EndsAt(w, Failed, [], clock, receipts, 1, 1))
            && (Carries(r, xid, mac, 6, message) ==> EndsAt(w, Failed, [r.frame], clock, receipts, 1, 1))
            && (Carries(r, xid, mac, want, message) ==> EndsAt(w, Done(message), [r.frame], clock, receipts, 1, 1)))
  {
    hide ServerFrame;
  }

  /** How a wait ends: with nothing decisive at the first k looks, the next reading or look ends it
      at the deadline, by a fault, by a rejection from the server, or with the wanted message. */
  lemma {:induction false} WaitEnds(clock: seq<int>, receipts: seq<Receipt>, xid: u32, mac: seq<byte>, want: byte,
      deadline: int, k: nat, message: Message)
    requires want != 6 && k <= |clock|
    requires forall i :: 0 <= i < k ==> clock[i] < deadline && Idle(Look(receipts, i), xid, mac, want)
    ensures
      var w, r, heard := Wait(clock, receipts, xid, mac, want, deadline), Look(receipts, k), Heard(receipts, k);
      && (k == |clock| ==> EndsAt(w, Unfinished, heard, clock, receipts, k, k))
      && (k < |clock| && clock[k] >= deadline ==> EndsAt(w, Failed, heard, clock, receipts, k + 1, k))
      && (k < |clock| && clock[k] < deadline ==>
            && (r == Fault ==> EndsAt(w, Failed, heard, clock, receipts, k + 1, k + 1))
            && (Carries(r, xid, mac, 6, message) ==>
                  EndsAt(w, Failed, heard + [r.frame], clock, receipts, k + 1, k + 1))
            && (Carries(r, xid, mac, want, message) ==>
                  EndsAt(w, Done(message), heard + [r.frame], clock, receipts, k + 1, k + 1)))
    decreases k
  {
    hide ServerFrame, Wait, Carries, Idle;
    var r := Look(receipts, k);
    if k == 0 {
      EndsNow(clock, receipts, xid, mac, want, deadline, message);
      if r.Got? { Empty([r.frame]); }
    } else {
      assert Idle(Look(receipts, 0), xid, mac, want);
      forall i | 0 <= i < k - 1
          ensures clock[1..][i] < deadline && Idle(Look(Rest(receipts), i), xid, mac, want) {
        assert Look(Rest(receipts), i) == Look(receipts, i + 1);
      }
      WaitsOn(clock, receipts, xid, mac, want, deadline);
      WaitEnds(clock[1..], Rest(receipts), xid, mac, want, deadline, k - 1, message);
      HeardFirst(receipts, k);
      assert Look(Rest(receipts), k - 1) == r;
      AfterRest(clock, k - 1);
      AfterRest(clock, k);
      AfterRest(receipts, k - 1);
      AfterRest(receipts, k);
      if r.Got? { Assoc(Heard(receipts, 1), Heard(Rest(receipts), k - 1), [r.frame]); }
    }
  }

  lemma HeardFirst(receipts: seq<Receipt>, k: nat)
    requires k > 0
    ensures Heard(receipts, k) == Heard(receipts, 1) + Heard(Rest(receipts), k - 1)
  {
    assert Heard(Rest(receipts), 0) == [];
  }

  lemma AfterRest<T>(s: seq<T>, k: nat)
    ensures After(Rest(s), k) == After(s, k + 1)
  {
  }

  /** A message that arrives in time, before any fault or rejection, is what the wait returns. */
  lemma WaitHears(clock: seq<int>, receipts: seq<Receipt>, xid: u32, mac: seq<byte>, want: byte, deadline: int, k: nat,
      message: Message)
    requires want != 6 && k < |clock| && k < |receipts|
    requires forall i :: 0 <= i <= k ==> clock[i] < deadline
    requires forall i :: 0 <= i < k ==> Idle(receipts[i], xid, mac, want)
    requires Carries(receipts[k], xid, mac, want, message)
    ensures
      var w := Wait(clock, receipts, xid, mac, want, deadline);
      w.outcome == Done(message) && w.clock == clock[k + 1..] && w.receipts == receipts[k + 1..]
  {
    hide ServerFrame, Wait, Carries, Idle;
    WaitEnds(clock, receipts, xid, mac, want, deadline, k, message);
  }

  /** A rejection that arrives in time, before any fault or the wanted message, ends the wait
      without one; what comes behind it is left on the device. */
  lemma Rejected(clock: seq<int>, receipts: seq<Receipt>, xid: u32, mac: seq<byte>, want: byte, deadline: int, k: nat,
      nak: Message)
    requires want != 6 && k < |clock| && k < |receipts|
    requires forall i :: 0 <= i <= k ==> clock[i] < deadline
    requires forall i :: 0 <= i < k ==> Idle(receipts[i], xid, mac, want)
    requires Carries(receipts[k], xid, mac, 6, nak)
    ensures
      var w := Wait(clock, receipts, xid, mac, want, deadline);
      w.outcome == Failed && w.clock == clock[k + 1..] && w.receipts == receipts[k + 1..]
  {
    hide ServerFrame, Wait, Carries, Idle;
    WaitEnds(clock, receipts, xid, mac, want, deadline, k, nak);
  }

  function AllReceived(frames: seq<seq<byte>>): (events: seq<Event>)
    ensures |events| == |frames|
  {
    seq(|frames|, i requires 0 <= i < |frames| => Received(frames[i]))
  }

  lemma AllReceivedSnoc(frames: seq<seq<byte>>, frame: seq<byte>)
    ensures AllReceived(frames + [frame]) == AllReceived(frames) + [Received(frame)]
  {
  }

  method WaitFor(link: Link, xid: u32, mac: seq<byte>, want: byte, deadline: int)
    returns (r: Outcome<Message>, ghost frames: seq<seq<byte>>)
    modifies link`clock, link`receipts, link`log
    ensures Waited(r, frames, link.clock, link.receipts)
            == Wait(old(link.clock), old(link.receipts), xid, mac, want, deadline)
    ensures link.log == old(link.log) + AllReceived(frames)
  {
    hide ServerFrame;
    frames := [];
    Empty(link.log);
    ghost var goal := Wait(link.clock, link.receipts, xid, mac, want, deadline);
    while true
      invariant goal == Wait(link.clock, link.receipts, xid, mac, want, deadline).Before(frames)
      invariant link.log == old(link.log) + AllReceived(frames)
      decreases |link.clock|
    {
      Empty(frames);
      ghost var rest := Wait(link.clock, link.receipts, xid, mac, want, deadline);
      var now := link.Now();
      if now.None? { return Unfinished, frames; }
      if now.value >= deadline { return Failed, frames; }
      var receipt := link.Receive();
      Empty(link.log);
      if receipt.Fault? { return Failed, frames; }
      if receipt.Nothing? || receipt.frame == [] { continue; }
      AllReceivedSnoc(frames, receipt.frame);
      Assoc(old(link.log), AllReceived(frames), [Received(receipt.frame)]);
      Assoc(frames, [receipt.frame], Wait(link.clock, link.receipts, xid, mac, want, deadline).frames);
      frames := frames + [receipt.frame];
      var reply := ParseServerFrame(receipt.frame);
      if reply.Error? || reply.value.xid != xid || reply.value.mac != mac { continue; }
      if reply.value.message.messageType == NAK { return Failed, frames; }
      if reply.value.message.messageType == want { return Done(reply.value.message), frames; }
    }
  }
}
