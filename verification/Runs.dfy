/** The main results about the endpoint: what every run of the polling loop guarantees, for
    every sequence of received packets, handlers, drain orders, reset events and ring steps. */
module Runs {
  import opened Bytes
  import opened Wire
  import opened Protocol
  import opened Connections
  import opened Generations
  import opened History

  /** Stream integrity. What a generation has sent is a prefix of its response; while its
      connection lives, it is exactly the first c.sent bytes. Packets enter the ring in the
      order in which they were produced, and none is lost or repeated. */
  lemma StreamIntegrity(cfg: Config, depth: nat, steps: seq<Step>, g: nat)
    requires CanRun(cfg, depth, START, steps)
    requires g < |Run(cfg, START, steps).lives|
    ensures
      var w := Run(cfg, START, steps);
      var stream := Stream(SentBy(w.produced, g));
      && w.pushed + w.pending == Packets(w.produced)
      && stream <= BodyOf(w.lives[g].calls)
      && (forall k :: k in w.conns && k in w.gens && w.gens[k] == g ==>
            && w.conns[k].response == Answer(w.lives[g].calls)
            && w.conns[k].sent <= |w.conns[k].Body()|
            && stream == w.conns[k].Body()[..w.conns[k].sent])
  {
    RunOk(cfg, depth, steps);
    var w := Run(cfg, START, steps);
    hide Run, CanRun, SentBy, Stream, ClosesInOrder;
    assert PastOk(w, g);
    forall k | k in w.conns && k in w.gens && w.gens[k] == g
      ensures
        && w.conns[k].response == Answer(w.lives[g].calls)
        && w.conns[k].sent <= |w.conns[k].Body()|
        && Stream(SentBy(w.produced, g)) == w.conns[k].Body()[..w.conns[k].sent]
    {
      assert AliveOk(w, k);
      PrefixIsSlice(Stream(SentBy(w.produced, g)), w.conns[k].Body());
    }
  }

  lemma PrefixIsSlice(a: seq<byte>, b: seq<byte>)
    requires a <= b
    ensures a == b[..|a|]
  {
  }

  /** Closing order. In the packets of a generation, a shutdown comes after the whole response,
      there is at most one, and no data follows it; a reset comes last, after no data at all. */
  lemma ClosingOrder(cfg: Config, depth: nat, steps: seq<Step>, g: nat, i: nat)
    requires CanRun(cfg, depth, START, steps)
    requires g < |Run(cfg, START, steps).lives|
    requires i < |SentBy(Run(cfg, START, steps).produced, g)|
    ensures
      var w := Run(cfg, START, steps);
      var outs := SentBy(w.produced, g);
      && (outs[i].header.op == OP_SHUTDOWN ==>
            && Stream(outs[..i]) == BodyOf(w.lives[g].calls)
            && (forall j :: 0 <= j < |outs| && j != i ==> outs[j].header.op != OP_SHUTDOWN)
            && (forall j :: i < j < |outs| ==> outs[j].header.op != OP_READ_WRITE))
      && (outs[i].header.op == OP_RESET ==> i == |outs| - 1 && Stream(outs) == [])
  {
    RunOk(cfg, depth, steps);
    hide Run, CanRun, Stream, CallsOk;
    assert PastOk(Run(cfg, START, steps), g);
  }

  // ---------------------------------------------------------------------- reassembly

  ghost predicate NeverNil(handler: Handler) {
    forall request :: handler(request).Some?
  }

  /** Every handler of the run is present and never returns nil. */
  ghost predicate AlwaysAnswers(steps: seq<Step>) {
    forall i :: 0 <= i < |steps| && steps[i].Rx? ==> steps[i].handler.Some? && NeverNil(steps[i].handler.value)
  }

  ghost predicate AllAnswered(calls: seq<Call>) {
    forall i :: 0 <= i < |calls| ==> calls[i].response.Some?
  }

  lemma {:induction false} CallsAnswered(cfg: Config, steps: seq<Step>, g: nat)
    requires AlwaysAnswers(steps) && g < |Run(cfg, START, steps).lives|
    ensures AllAnswered(Run(cfg, START, steps).lives[g].calls)
    decreases |steps|
  {
    if steps != [] {
      var before := steps[..|steps| - 1];
      var w := Run(cfg, START, before);
      if g < |w.lives| { CallsAnswered(cfg, before, g); }
      StepAnswered(cfg, w, steps[|steps| - 1], g);
    }
  }

  lemma StepAnswered(cfg: Config, w: World, s: Step, g: nat)
    requires g < |w.lives| ==> AllAnswered(w.lives[g].calls)
    requires s.Rx? ==> s.handler.Some? && NeverNil(s.handler.value)
    requires g < |Next(cfg, w, s).lives|
    ensures AllAnswered(Next(cfg, w, s).lives[g].calls)
  {
    LivesOfNext(cfg, w, s);
    hide Next, Decode, React, NewLives, Addressed;
    if s.Rx? && Decode(s.bytes).Ok? && Addressed(cfg, Decode(s.bytes).value.header) {
      var p := Decode(s.bytes).value;
      LivesAnswered(w, p, Reacted(cfg, w.conns, p, s.handler), s.handler.value, g);
    }
  }

  lemma LivesOfNext(cfg: Config, w: World, s: Step)
    ensures Next(cfg, w, s).lives ==
      if s.Rx? && Decode(s.bytes).Ok? && Addressed(cfg, Decode(s.bytes).value.header) then
        NewLives(w, Decode(s.bytes).value, Reacted(cfg, w.conns, Decode(s.bytes).value, s.handler), s.handler)
      else w.lives
  {
    hide Decode, Drain, React, TagAll, Packets, NewLives, Addressed;
  }

  lemma LivesAnswered(w: World, p: Packet, r: Reaction, handler: Handler, g: nat)
    requires g < |w.lives| ==> AllAnswered(w.lives[g].calls)
    requires NeverNil(handler) && g < |NewLives(w, p, r, Some(handler))|
    ensures AllAnswered(NewLives(w, p, r, Some(handler))[g].calls)
  {
    hide Concat, Complete;
  }

  /** Reassembly. However the peer cuts its request into packets, a handler that always answers
      is called at most once per generation: never while no concatenation of whole payloads
      contains the terminator, and otherwise once, on the shortest one that does. */
  lemma Reassembly(cfg: Config, depth: nat, steps: seq<Step>, g: nat)
    requires CanRun(cfg, depth, START, steps) && AlwaysAnswers(steps)
    requires !Run(cfg, START, steps).failed && g < |Run(cfg, START, steps).lives|
    ensures
      var life := Run(cfg, START, steps).lives[g];
      if exists n :: 0 <= n <= |life.payloads| && Complete(Concat(life.payloads[..n])) then
        exists n :: 0 <= n <= |life.payloads| && Complete(Concat(life.payloads[..n])) &&
          (forall m :: 0 <= m < n ==> !Complete(Concat(life.payloads[..m]))) &&
          |life.calls| == 1 && life.calls[0].request == Concat(life.payloads[..n])
      else life.calls == []
  {
    var w := Run(cfg, START, steps);
    var life := w.lives[g];
    RunOk(cfg, depth, steps);
    CallsAnswered(cfg, steps, g);
    hide Run, CanRun, LifeOk, Complete, Concat, CompleteAfter;
    assert PastOk(w, g);
    forall n | 0 <= n <= |life.payloads|
      ensures Complete(Concat(life.payloads[..n])) <==> CompleteAfter(life.payloads) <= n
    {
      CompleteAfterLeast(life.payloads, n);
    }
    var first := CompleteAfter(life.payloads);
    if first <= |life.payloads| {
      assert Complete(Concat(life.payloads[..first]));
      assert life.calls[0].response.Some?;
    }
  }

  // ------------------------------------------------------------------ packet sizes

  ghost predicate Fit(ps: seq<Packet>) {
    forall i :: 0 <= i < |ps| ==> |ps[i].payload| <= MAX_PACKET_PAYLOAD
  }

  lemma {:induction false} ChunksFit(cfg: Config, c: Conn, room: nat)
    ensures Fit(SendChunks(cfg, c, room).out)
    decreases room
  {
    if room == 0 || !CanSend(cfg, c) {
    } else {
      ChunksFit(cfg, AfterChunk(cfg, c), room - 1);
    }
  }

  lemma {:induction false} DrainFits(cfg: Config, conns: Conns, order: seq<Key>, limit: int)
    ensures Fit(Drain(cfg, conns, order, limit).out)
    decreases |order|
  {
    if limit <= 0 || order == [] {
    } else {
      var n := |order| - 1;
      var before := Drain(cfg, conns, order[..n], limit);
      DrainFits(cfg, conns, order[..n], limit);
      if order[n] in before.conns {
        ChunksFit(cfg, before.conns[order[n]], limit - |before.out|);
      }
    }
  }

  lemma ReactFits(cfg: Config, full: bool, c: Option<Conn>, p: Packet, handler: Option<Handler>)
    ensures
      var r := React(cfg, full, c, p, handler);
      r.Proceed? ==> Fit(r.replies)
  {
    hide Complete;
  }

  lemma EmitFits(w: World, ts: seq<Tagged>)
    requires Fit(Packets(w.produced)) && Fit(Packets(ts))
    ensures Fit(Packets(Emit(w, ts).produced))
  {
    PacketsConcat(w.produced, ts);
  }

  lemma DrainWorldFits(cfg: Config, w: World, order: seq<Key>)
    requires Fit(Packets(w.produced))
    ensures Fit(Packets(DrainWorld(cfg, w, order).produced))
  {
    var d := Drain(cfg, w.conns, order, DRAIN_LIMIT);
    DrainFits(cfg, w.conns, order, DRAIN_LIMIT);
    PacketsTagged(cfg, w.gens, d.out);
    EmitFits(w.(conns := d.conns), TagAll(cfg, w.gens, d.out));
  }

  lemma ReactWorldFits(cfg: Config, w: World, p: Packet, handler: Option<Handler>)
    requires Fit(Packets(w.produced))
    ensures Fit(Packets(ReactWorld(cfg, w, p, handler).produced))
  {
    var r := Reacted(cfg, w.conns, p, handler);
    ReactFits(cfg, |w.conns| >= cfg.maxConns, Lookup(w.conns, Sender(p.header)), p, handler);
    var gens := NewGens(w, p, r);
    if r.Proceed? {
      PacketsTagged(cfg, gens, r.replies);
      EmitFits(w, TagAll(cfg, gens, r.replies));
    }
    EmitFits(w, [Tagged(None, Refusal(p.header))]);
  }

  /** Every packet that is ever produced fits the transmit buffers of the ring. */
  lemma {:induction false} AllPacketsFit(cfg: Config, steps: seq<Step>)
    ensures Fit(Packets(Run(cfg, START, steps).produced))
    decreases |steps|
  {
    if steps != [] {
      var w := Run(cfg, START, steps[..|steps| - 1]);
      AllPacketsFit(cfg, steps[..|steps| - 1]);
      hide Run;
      match steps[|steps| - 1]
      case Rx(bytes, handler, order) =>
        match Decode(bytes) {
          case Error =>
          case Ok(p) =>
            if Addressed(cfg, p.header) {
              ReactWorldFits(cfg, w, p, handler);
              DrainWorldFits(cfg, ReactWorld(cfg, w, p, handler), order);
            } else {
              EmitFits(w, [Tagged(None, Refusal(p.header))]);
            }
        }
      case Flush(order) => DrainWorldFits(cfg, w, order);
      case _ =>
    }
  }
}
