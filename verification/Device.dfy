/** The polling driver of the vsock device: the FIFO of packets that wait for the transmit ring
    and the accounting of the ring with wrapping 16-bit indices. The driver records the steps it
    takes, so that everything proved about runs holds of it. */
module Devices {
  import opened Bytes
  import opened Wire
  import opened Seqs
  import opened History
  import opened Endpoints
  import Protocol
  import Runs

  const QUEUE_DEPTH := 32
  const PACKET_BUFFER_SIZE := HEADER_SIZE + MAX_PACKET_PAYLOAD

  /** The size that initQueue gives a queue, from the maximum the transport reports. */
  function QueueSize(max: int): Option<int> {
    if max <= 0 then None else Some(if max > QUEUE_DEPTH then QUEUE_DEPTH else max)
  }

  /** A queue is as large as the transport allows, but not larger than 32; there is none when the
      transport allows nothing. */
  lemma QueueSizes(max: int)
    ensures QueueSize(max).Some? <==> max >= 1
    ensures max >= 1 ==> var n := QueueSize(max).value; n <= max && n <= 32 && (n == max || n == 32)
  {
  }

  /** The wrapped difference of two wrapped counters is the true difference, as long as that
      fits 16 bits; the counters themselves may have wrapped any number of times. */
  lemma WrappedDifference(sent: nat, used: nat)
    requires used <= sent
    ensures Wrap16(Wrap16(sent) - Wrap16(used)) == sent - used <==> sent - used < W16
  {
    assert (sent % W16 - used % W16) % W16 == (sent - used) % W16 by {
      var a, b := sent / W16, used / W16;
      assert sent % W16 - used % W16 == (sent - used) + (b - a) * W16;
      ModShift(sent - used, b - a);
    }
  }

  lemma {:induction false} ModShift(x: int, k: int)
    ensures (x + k * W16) % W16 == x % W16
    decreases if k < 0 then -k else k
  {
    if k > 0 {
      ModShift(x, k - 1);
      assert x + k * W16 == (x + (k - 1) * W16) + W16;
    } else if k < 0 {
      ModShift(x, k + 1);
      assert x + k * W16 == (x + (k + 1) * W16) - W16;
    }
  }

  lemma RunSnoc(cfg: Protocol.Config, depth: nat, steps: seq<Step>, s: Step)
    ensures Run(cfg, START, steps + [s]) == Next(cfg, Run(cfg, START, steps), s)
    ensures CanRun(cfg, depth, START, steps) && CanStep(cfg, depth, Run(cfg, START, steps), s) ==>
              CanRun(cfg, depth, START, steps + [s])
  {
    hide Next, CanStep;
    Last(steps, s);
  }

  lemma EncodeHead(ps: seq<Packet>)
    requires ps != []
    ensures EncodeAll(ps)[0] == Encode(ps[0]) && EncodeAll(ps)[1..] == EncodeAll(ps[1..])
  {
  }

  lemma ReceiveNext(cfg: Protocol.Config, depth: nat, w: World, packet: seq<byte>, handler: Option<Protocol.Handler>,
      order: seq<Protocol.Key>)
    requires !w.failed
    requires Decode(packet).Ok? ==> Protocol.HandleOrder(cfg, w.conns, Decode(packet).value, handler, order)
    ensures CanStep(cfg, depth, w, Rx(packet, handler, order))
    ensures
      var o := Protocol.Handle(cfg, w.conns, packet, handler, order);
      var v := Next(cfg, w, Rx(packet, handler, order));
      && v.conns == o.conns && v.pushed == w.pushed && v.used == w.used && v.failed == o.failed
      && EncodeAll(v.pending) == EncodeAll(w.pending) + EncodeAll(o.Out())
      && (o.failed ==> v.pending == w.pending)
  {
    hide Decode, EncodeAll, Protocol.HandlePacket, ReceiveWorld, Protocol.HandleOrder;
    var o := Protocol.Handle(cfg, w.conns, packet, handler, order);
    EncodeAllConcat(w.pending, o.Out());
    FailedIsSilent(cfg, w.conns, packet, handler, order);
    Empty(w.pending);
    Empty(EncodeAll(w.pending));
    if Decode(packet).Ok? {
      ReceiveIsHandle(cfg, w, Decode(packet).value, handler, order);
    }
  }

  lemma FlushNext(cfg: Protocol.Config, depth: nat, w: World, order: seq<Protocol.Key>)
    requires !w.failed && Protocol.IsOrder(order, w.conns.Keys)
    ensures CanStep(cfg, depth, w, Flush(order))
    ensures
      var d := Protocol.Drain(cfg, w.conns, order, Protocol.DRAIN_LIMIT);
      var v := Next(cfg, w, Flush(order));
      && v.conns == d.conns && v.pushed == w.pushed && v.used == w.used && !v.failed
      && EncodeAll(v.pending) == EncodeAll(w.pending) + EncodeAll(d.out)
  {
    hide EncodeAll, Protocol.Drain, Protocol.IsOrder;
    var d := Protocol.Drain(cfg, w.conns, order, Protocol.DRAIN_LIMIT);
    PacketsTagged(cfg, w.gens, d.out);
    EncodeAllConcat(w.pending, d.out);
  }

  lemma PushNext(cfg: Protocol.Config, w: World)
    requires w.pending != []
    ensures
      var v := Next(cfg, w, Push);
      && v.conns == w.conns && v.used == w.used && v.failed == w.failed
      && EncodeAll(v.pending) == EncodeAll(w.pending)[1..]
      && EncodeAll(v.pushed) == EncodeAll(w.pushed) + [EncodeAll(w.pending)[0]]
  {
    hide Encode;
    EncodeHead(w.pending);
    EncodeAllConcat(w.pushed, [w.pending[0]]);
  }

  lemma Wrap16Next(n: nat)
    ensures Wrap16(Wrap16(n) + 1) == Wrap16(n + 1)
  {
  }

  class Device {
    const endpoint: Endpoint
    const txDepth: u16
    var txSent: u16
    var pending: seq<seq<byte>>
    /** Everything that was ever pushed to the transmit queue, and how much of it the device has
        used; the driver itself sees only the 16-bit used index. */
    var ring: seq<seq<byte>>
    var used: nat
    ghost var trace: seq<Step>

    ghost function State(): World
      reads this
    {
      Run(endpoint.Config(), START, trace)
    }

    ghost predicate Valid()
      reads this, endpoint, endpoint.connections.Values
    {
      && 0 < txDepth <= QUEUE_DEPTH
      && CanRun(endpoint.Config(), txDepth, START, trace)
      && endpoint.Valid() && endpoint.Conns() == State().conns
      && pending == EncodeAll(State().pending)
      && ring == EncodeAll(State().pushed)
      && used == State().used && used <= |ring| <= used + txDepth
      && txSent == Wrap16(|ring|)
    }

    constructor (cid: u64, port: u32, handler: Option<Protocol.Handler>, maxQueueSize: int)
      requires QueueSize(maxQueueSize).Some?
      ensures Valid() && trace == [] && fresh(endpoint) && fresh(endpoint.connections.Values)
      ensures endpoint.handler == handler && txDepth == if maxQueueSize > 32 then 32 else maxQueueSize
      ensures endpoint.Config() == Protocol.Config(cid, port, 256 * 1024, 64)
    {
      endpoint := new Endpoint(cid, port, handler);
      txDepth := QueueSize(maxQueueSize).value;
      txSent, pending, ring, used, trace := 0, [], [], 0, [];
    }

    /** tx.Used.Index() */
    function UsedIndex(): u16
      reads this
    {
      Wrap16(used)
    }

    /** The wrapping test of the driver is exactly whether the ring has a free slot. */
    method TxAvailable() returns (free: bool)
      requires Valid()
      ensures free <==> |ring| - used < txDepth
    {
      hide Valid, Wrap16;
      Counters();
      WrappedDifference(|ring|, used);
      free := Wrap16(txSent - UsedIndex()) < txDepth;
    }

    /** The receive loop of Serve, on the packets that the receive queue yields. */
    method Receive(packets: seq<seq<byte>>) returns (failed: bool)
      requires Valid() && !State().failed
      modifies this`pending, this`trace, endpoint, endpoint.connections.Values
      ensures Valid() && fresh(endpoint.connections.Values - old(endpoint.connections.Values))
      ensures old(trace) <= trace && failed == State().failed
      ensures ring == old(ring) && |trace| <= |old(trace)| + |packets|
      ensures !failed ==> |trace| == |old(trace)| + |packets|
      ensures forall i :: |old(trace)| <= i < |trace| ==>
                trace[i].Rx? && trace[i].bytes == packets[i - |old(trace)|] && trace[i].handler == endpoint.handler
    {
      hide Run, Next, CanRun, CanStep, Encode, EncodeAll, Protocol.Handle, Decode;
      failed := false;
      for n := 0 to |packets|
        invariant Valid() && fresh(endpoint.connections.Values - old(endpoint.connections.Values))
        invariant old(trace) <= trace && |trace| == |old(trace)| + n
        invariant !State().failed && ring == old(ring)
        invariant forall i :: |old(trace)| <= i < |trace| ==>
                trace[i].Rx? && trace[i].bytes == packets[i - |old(trace)|] && trace[i].handler == endpoint.handler
      {
        failed := ReceiveOne(packets[n]);
        if failed {
          return;
        }
      }
    }

    method ReceiveOne(packet: seq<byte>) returns (failed: bool)
      requires Valid() && !State().failed
      modifies this`pending, this`trace, endpoint, endpoint.connections.Values
      ensures Valid() && fresh(endpoint.connections.Values - old(endpoint.connections.Values))
      ensures |trace| == |old(trace)| + 1 && old(trace) <= trace && failed == State().failed
      ensures trace[|old(trace)|].Rx? && trace[|old(trace)|].bytes == packet
      ensures trace[|old(trace)|].handler == endpoint.handler
    {
      hide Run, CanRun, EncodeAll, Next, CanStep, Protocol.Handle, Protocol.HandleOrder, Wrap16, Endpoint.Valid,
          Endpoint.Conns;
      ghost var w := State();
      var packets, err, order := endpoint.Handle(packet);
      ghost var step := Rx(packet, endpoint.handler, order);
      RunSnoc(endpoint.Config(), txDepth, trace, step);
      ReceiveNext(endpoint.Config(), txDepth, w, packet, endpoint.handler, order);
      if !err {
        pending := pending + packets;
      }
      trace := trace + [step];
      failed := err;
    }

    /** The event loop of Serve: each transport reset event drops all connections, and no other
        event does anything; packets that already wait for the ring stay. */
    method Events(events: seq<seq<byte>>)
      requires Valid() && !State().failed
      modifies this`trace, endpoint
      ensures Valid() && !State().failed
      ensures endpoint.connections.Values <= old(endpoint.connections.Values)
      ensures trace == old(trace) + Clears(events)
      ensures (exists e :: e in events && |e| >= 4 && e[..4] == [0, 0, 0, 0]) ==> endpoint.connections == map[]
    {
      hide Valid, State, IsReset, Clears;
      Empty(trace);
      NoClears();
      for n := 0 to |events|
        invariant Valid() && !State().failed
        invariant trace == old(trace) + Clears(events[..n])
        invariant endpoint.connections.Values <= old(endpoint.connections.Values)
        invariant Clears(events[..n]) != [] ==> endpoint.connections == map[]
      {
        ClearsNext(events, n);
        if IsReset(events[n]) {
          Assoc(old(trace), Clears(events[..n]), [Clear]);
          ClearOne();
        }
      }
      assert events[..|events|] == events;
      if e :| e in events && |e| >= 4 && e[..4] == [0, 0, 0, 0] {
        ResetEvent(e);
        ClearsSome(events, e);
      }
    }

    method ClearOne()
      requires Valid() && !State().failed
      modifies this`trace, endpoint
      ensures Valid() && !State().failed && trace == old(trace) + [Clear] && endpoint.connections == map[]
    {
      hide Run, CanRun, EncodeAll;
      RunSnoc(endpoint.Config(), txDepth, trace, Clear);
      endpoint.Reset();
      trace := trace + [Clear];
    }

    /** The transmit loop of Serve. Before the i-th look at the ring the device has used
        progress[i] more packets, or as many as there were. */
    method Transmit(progress: seq<nat>)
      requires Valid() && !State().failed
      modifies this`pending, this`ring, this`txSent, this`used, this`trace
      ensures Valid() && !State().failed && old(trace) <= trace
      ensures ring + pending == old(ring) + old(pending) && |old(ring)| <= |ring|
      ensures pending == [] || |ring| - used == txDepth
      ensures OnlyTransmits(trace[|old(trace)|..])
    {
      hide Valid, State, UsedIndex;
      var looks := 0;
      var free := Look(if progress != [] then progress[0] else 0);
      while pending != [] && free
        invariant Valid() && !State().failed && old(trace) <= trace && OnlyTransmits(trace[|old(trace)|..])
        invariant ring + pending == old(ring) + old(pending) && |old(ring)| <= |ring|
        invariant free <==> |ring| - used < txDepth
        invariant |ring| - used <= txDepth
        decreases |pending|
      {
        Moved(ring, pending);
        PushOne();
        looks := looks + 1;
        free := Look(if looks < |progress| then progress[looks] else 0);
      }
    }

    method Look(count: nat) returns (free: bool)
      requires Valid() && !State().failed
      modifies this`used, this`trace
      ensures Valid() && !State().failed && old(trace) <= trace && OnlyTransmits(trace[|old(trace)|..])
      ensures free <==> |ring| - used < txDepth
      ensures |ring| - used <= txDepth
    {
      hide Valid, State, UsedIndex;
      Consume(count);
      free := TxAvailable();
      Counters();
    }

    lemma Counters()
      requires Valid()
      ensures txSent == Wrap16(|ring|) && used <= |ring| <= used + txDepth && 0 < txDepth <= QUEUE_DEPTH
    {
      hide Run, CanRun, EncodeAll, Wrap16;
    }

    /** The device uses at most count of the packets it holds. */
    method Consume(count: nat)
      requires Valid() && !State().failed
      modifies this`used, this`trace
      ensures Valid() && !State().failed && |trace| == |old(trace)| + 1 && old(trace) <= trace
      ensures trace[|old(trace)|].Use?
      ensures used == old(used) + Protocol.Min(count, |ring| - old(used))
    {
      hide Run, CanRun, EncodeAll;
      var n: nat := Protocol.Min(count, |ring| - used);
      RunSnoc(endpoint.Config(), txDepth, trace, Use(n));
      used := used + n;
      trace := trace + [Use(n)];
    }

    method PushOne()
      requires Valid() && !State().failed && pending != [] && |ring| - used < txDepth
      modifies this`pending, this`ring, this`txSent, this`trace
      ensures Valid() && !State().failed && trace == old(trace) + [Push]
      ensures ring == old(ring) + [old(pending)[0]] && pending == old(pending)[1..]
    {
      hide Run, CanRun, EncodeAll, Next, Wrap16;
      PushNext(endpoint.Config(), State());
      Wrap16Next(|ring|);
      RunSnoc(endpoint.Config(), txDepth, trace, Push);
      ring := ring + [pending[0]];
      pending := pending[1..];
      txSent := Wrap16(txSent + 1);
      trace := trace + [Push];
    }

    lemma SameKeys()
      requires Valid()
      ensures State().conns.Keys == endpoint.connections.Keys
    {
      hide Run, CanRun, EncodeAll;
      endpoint.SameKeys();
    }

    method Flush()
      requires Valid() && !State().failed
      modifies this`pending, this`trace, endpoint, endpoint.connections.Values
      ensures Valid() && !State().failed && old(trace) <= trace && |trace| == |old(trace)| + 1
      ensures endpoint.connections.Values <= old(endpoint.connections.Values)
      ensures trace[|old(trace)|].Flush?
    {
      hide Run, CanRun, EncodeAll, Next, CanStep, Protocol.Drain, Protocol.IsOrder, Wrap16, Endpoint.Valid,
          Endpoint.Conns;
      ghost var w := State();
      SameKeys();
      var packets, order := endpoint.Drain(Protocol.DRAIN_LIMIT);
      RunSnoc(endpoint.Config(), txDepth, trace, Step.Flush(order));
      FlushNext(endpoint.Config(), txDepth, w, order);
      pending := pending + packets;
      trace := trace + [Step.Flush(order)];
    }

    /** One iteration of the loop of Serve: every received packet is handled in its order, then
        the events, one drain, and as many pushes as there is room for; an error of Handle ends
        it. Whatever the queues yield, it is a continuation of the run so far, so every result
        about runs holds after any number of iterations. */
    method ServeOnce(packets: seq<seq<byte>>, events: seq<seq<byte>>, progress: seq<nat>)
      returns (failed: bool, ghost rx: seq<Step>, ghost flush: Step, ghost tx: seq<Step>)
      requires Valid() && !State().failed
      modifies this`pending, this`ring, this`txSent, this`used, this`trace, endpoint, endpoint.connections.Values
      ensures Valid() && fresh(endpoint.connections.Values - old(endpoint.connections.Values))
      ensures failed == State().failed && |ring| - used <= txDepth
      ensures |rx| <= |packets| && forall i :: 0 <= i < |rx| ==>
                rx[i].Rx? && rx[i].bytes == packets[i] && rx[i].handler == endpoint.handler
      ensures failed ==> trace == old(trace) + rx
      ensures !failed ==>
                && |rx| == |packets| && flush.Flush? && OnlyTransmits(tx)
                && trace == old(trace) + rx + Clears(events) + [flush] + tx
                && (pending == [] || |ring| - used == txDepth)
    {
      hide Run, CanRun, EncodeAll, OnlyTransmits, Clears;
      flush, tx := Clear, [];
      failed := Receive(packets);
      rx := trace[|old(trace)|..];
      if !failed {
        Events(events);
        Flush();
        ghost var before := trace;
        flush := trace[|trace| - 1];
        Transmit(progress);
        tx := trace[|before|..];
      }
    }

    /** What is in the ring or waits for it is what the endpoint has produced, in order, and
        every packet fits the buffers that the queue was given. */
    lemma WireContents()
      requires Valid()
      ensures ring + pending == EncodeAll(Packets(State().produced))
      ensures forall i :: 0 <= i < |ring| ==> |ring[i]| <= PACKET_BUFFER_SIZE
    {
      RunOk(endpoint.Config(), txDepth, trace);
      Runs.AllPacketsFit(endpoint.Config(), trace);
      hide Run, CanRun, Encode;
      EncodeAllConcat(State().pushed, State().pending);
      forall i | 0 <= i < |ring| ensures |ring[i]| <= PACKET_BUFFER_SIZE {
        assert State().pushed[i] == (State().pushed + State().pending)[i];
      }
    }
  }

  lemma Moved<T>(a: seq<T>, b: seq<T>)
    requires b != []
    ensures (a + [b[0]]) + b[1..] == a + b
  {
  }

  /** An event that Serve takes for a transport reset: at least four bytes, id 0. */
  predicate IsReset(event: seq<byte>) {
    |event| >= 4 && FromLittleEndian(event[..4]) == 0
  }

  /** The steps that the events stand for. */
  function Clears(events: seq<seq<byte>>): seq<Step> {
    if events == [] then []
    else Clears(events[..|events| - 1]) + if IsReset(events[|events| - 1]) then [Clear] else []
  }

  /** The number that is zero is that of four zero bytes. */
  lemma ResetEvent(e: seq<byte>)
    ensures IsReset(e) <==> |e| >= 4 && e[..4] == [0, 0, 0, 0]
  {
    if |e| >= 4 {
      ZeroNumber(e[..4]);
      if e[..4] == [0, 0, 0, 0] { assert forall i :: 0 <= i < 4 ==> e[..4][i] == 0; }
      if forall i :: 0 <= i < 4 ==> e[..4][i] == 0 { assert e[..4] == [0, 0, 0, 0]; }
    }
  }

  lemma {:induction false} ZeroNumber(b: seq<byte>)
    ensures FromLittleEndian(b) == 0 <==> forall i :: 0 <= i < |b| ==> b[i] == 0
  {
    if b != [] {
      ZeroNumber(b[1..]);
      assert forall i :: 0 < i < |b| ==> b[i] == b[1..][i - 1];
    }
  }

  /** Each event of four zero bytes, whatever follows them, is one clear, and no other event does
      anything. */
  lemma ClearsMean(events: seq<seq<byte>>, e: seq<byte>)
    ensures Clears([]) == []
    ensures Clears(events + [e]) == Clears(events) + if |e| >= 4 && e[..4] == [0, 0, 0, 0] then [Clear] else []
  {
    ResetEvent(e);
    Last(events, e);
  }

  lemma NoClears()
    ensures forall events: seq<seq<byte>> :: Clears(events[..0]) == []
  {
  }

  lemma {:induction false} ClearsSome(events: seq<seq<byte>>, e: seq<byte>)
    requires e in events && IsReset(e)
    ensures Clears(events) != []
    decreases |events|
  {
    var n := |events| - 1;
    if events[n] != e { ClearsSome(events[..n], e); }
  }

  lemma ClearsNext(events: seq<seq<byte>>, n: nat)
    requires n < |events|
    ensures Clears(events[..n + 1]) == if IsReset(events[n]) then Clears(events[..n]) + [Clear] else Clears(events[..n])
  {
    assert events[..n + 1][..n] == events[..n];
  }

  ghost predicate OnlyTransmits(steps: seq<Step>) {
    forall i :: 0 <= i < |steps| ==> steps[i].Push? || steps[i].Use?
  }

  /** When Handle reports an error it has produced no packets. */
  lemma FailedIsSilent(cfg: Protocol.Config, conns: Protocol.Conns, packet: seq<byte>,
      handler: Option<Protocol.Handler>, order: seq<Protocol.Key>)
    ensures
      var o := Protocol.Handle(cfg, conns, packet, handler, order);
      o.failed ==> o.Out() == [] && EncodeAll(o.Out()) == []
  {
    hide Protocol.Drain, Decode, Protocol.React;
  }
}
