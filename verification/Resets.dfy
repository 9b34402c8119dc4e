/** Which resets on the wire end a generation: all but those that answer a packet which the
    endpoint turns away while the connection lives on. */
module Resets {
  import opened Bytes
  import opened Wire
  import opened Protocol
  import opened Connections
  import opened History
  import opened Channels
  import opened Credit
  import opened Silence

  /** A reset from the endpoint to k. */
  predicate ResetTo(cfg: Config, p: Packet, k: Key) {
    p.header.op == OP_RESET && Sender(p.header) == Key(cfg.cid, cfg.port) && Receiver(p.header) == k
  }

  /** A step that takes a packet of k which draws a reset without touching its connection: a
      further request, or a packet that is not of a stream. */
  predicate Spares(cfg: Config, s: Step, k: Key) {
    && s.Rx? && Decode(s.bytes).Ok?
    && var h := Decode(s.bytes).value.header;
       Sender(h) == k && Receiver(h) == Key(cfg.cid, cfg.port) && (h.typ != TYPE_STREAM || h.op == OP_REQUEST)
  }

  lemma {:induction false} ToMember(cfg: Config, ps: seq<Packet>, k: Key, i: nat)
    requires i < |ps| && Sender(ps[i].header) == Key(cfg.cid, cfg.port) && Receiver(ps[i].header) == k
    ensures ps[i] in To(cfg, ps, k)
  {
    if i > 0 { ToMember(cfg, ps[1..], k, i - 1); }
  }

  lemma {:induction false} CountMember(ps: seq<Packet>, p: Packet)
    requires p in ps
    ensures Count(ps, p.header.op) > 0
  {
    if ps[0] != p { CountMember(ps[1..], p); }
  }

  /** A drain that resets k ends its connection, and sends k nothing else. */
  lemma DrainResets(cfg: Config, conns: Conns, order: seq<Key>, k: Key, i: nat)
    requires EndpointOk(cfg, conns) && Distinct(order) && k in conns
    requires i < |Drain(cfg, conns, order, DRAIN_LIMIT).out|
    requires ResetTo(cfg, Drain(cfg, conns, order, DRAIN_LIMIT).out[i], k)
    ensures k !in Drain(cfg, conns, order, DRAIN_LIMIT).conns
    ensures exists p :: To(cfg, Drain(cfg, conns, order, DRAIN_LIMIT).out, k) == [p] && p.header.op == OP_RESET
  {
    hide Drain, Serve, To, ConnOk;
    var d := Drain(cfg, conns, order, DRAIN_LIMIT);
    var room := RoomAt(cfg, conns, order, DRAIN_LIMIT, k);
    Member(cfg, conns, k);
    assert conns[k].Remote() == k by { Remotes(cfg, k, conns[k]); }
    DrainAt(cfg, conns, order, DRAIN_LIMIT, k);
    ToMember(cfg, d.out, k, i);
    CountMember(To(cfg, d.out, k), d.out[i]);
    ServeAdds(cfg, conns[k], room);
    assert Lookup(d.conns, k) == None;
  }

  lemma Remotes(cfg: Config, k: Key, c: Conn)
    requires ConnOk(cfg, k, c)
    ensures c.Remote() == k
  {
  }

  /** A drain that resets k at all ends a connection: without one it sends k nothing. */
  lemma DrainResetsSome(cfg: Config, conns: Conns, order: seq<Key>, k: Key, i: nat)
    requires EndpointOk(cfg, conns) && Distinct(order)
    requires i < |Drain(cfg, conns, order, DRAIN_LIMIT).out|
    requires ResetTo(cfg, Drain(cfg, conns, order, DRAIN_LIMIT).out[i], k)
    ensures k in conns
  {
    hide Drain, Serve, To;
    DrainAt(cfg, conns, order, DRAIN_LIMIT, k);
    ToMember(cfg, Drain(cfg, conns, order, DRAIN_LIMIT).out, k, i);
  }

  lemma NoResetReply(cfg: Config, full: bool, c: Option<Conn>, p: Packet, handler: Option<Handler>)
    ensures
      var r := React(cfg, full, c, p, handler);
      r.Proceed? ==> forall i :: 0 <= i < |r.replies| ==> r.replies[i].header.op != OP_RESET
    ensures
      var r := React(cfg, full, c, p, handler);
      r.Refuse? ==> r.conn == if p.header.op == OP_REQUEST then c else None
  {
    hide Complete;
  }

  lemma NoNote(w: World, p: Packet, r: Reaction, handler: Option<Handler>)
    requires r.Refuse?
    ensures NewLives(w, p, r, handler) == w.lives
  {
  }

  lemma {:induction false} SentByMember(ts: seq<Tagged>, g: nat, j: nat)
    requires j < |ts| && ts[j].gen == Some(g)
    ensures SentBy(ts, g) != []
  {
    if j > 0 { SentByMember(ts[1..], g, j - 1); }
  }

  /** What a drain that resets k adds for k's generation is that reset. */
  lemma DrainAdds(cfg: Config, w: World, order: seq<Key>, k: Key, i: nat, j: nat)
    requires EndpointOk(cfg, w.conns) && GensOk(w) && Distinct(order) && k in w.conns
    requires
      var out := Drain(cfg, w.conns, order, DRAIN_LIMIT).out;
      && i < |out| && ResetTo(cfg, out[i], k) && j < |out| && TagAll(cfg, w.gens, out)[j].gen == Some(w.gens[k])
    ensures Drain(cfg, w.conns, order, DRAIN_LIMIT).out[j].header.op == OP_RESET
  {
    hide Drain, To;
    var out := Drain(cfg, w.conns, order, DRAIN_LIMIT).out;
    DrainResets(cfg, w.conns, order, k, i);
    assert TagAll(cfg, w.gens, out)[j] == Tag(cfg, w.gens, out[j]);
    assert Receiver(out[j].header) == k;
    ToMember(cfg, out, k, j);
  }

  /** A reset of k in what a drain adds ends its connection, and is all that it adds for it. */
  lemma DrainWorldResets(cfg: Config, w: World, order: seq<Key>, k: Key, i: nat)
    requires EndpointOk(cfg, w.conns) && GensOk(w) && Distinct(order)
    requires
      var after := DrainWorld(cfg, w, order);
      |w.produced| <= i < |after.produced| && ResetTo(cfg, after.produced[i].packet, k)
    ensures k in w.conns && k !in DrainWorld(cfg, w, order).conns
    ensures OnlyResets(DrainWorld(cfg, w, order), w.gens[k], i)
  {
    hide Drain, EndpointOk, TagAll;
    var after, out := DrainWorld(cfg, w, order), Drain(cfg, w.conns, order, DRAIN_LIMIT).out;
    var n := |w.produced|;
    TagsAre(cfg, w.gens, out, i - n);
    DrainResetsSome(cfg, w.conns, order, k, i - n);
    DrainResets(cfg, w.conns, order, k, i - n);
    forall j | i <= j < |after.produced| && after.produced[j].gen == Some(w.gens[k])
        ensures after.produced[j].packet.header.op == OP_RESET {
      TagsAre(cfg, w.gens, out, j - n);
      DrainAdds(cfg, w, order, k, i - n, j - n);
    }
  }

  lemma DrainAppends(cfg: Config, w: World, order: seq<Key>)
    ensures w.produced <= DrainWorld(cfg, w, order).produced
  {
    hide Drain;
  }

  /** The replies to a packet are no resets, so that one comes from the drain behind them. */
  lemma ProceedResets(cfg: Config, w: World, p: Packet, handler: Option<Handler>, order: seq<Key>, k: Key, i: nat)
    requires WorldOk(cfg, w) && !w.failed && HandleOrder(cfg, w.conns, p, handler, order) && Addressed(cfg, p.header)
    requires k in w.conns && Reacted(cfg, w.conns, p, handler).Proceed?
    requires
      var after := DrainWorld(cfg, ReactWorld(cfg, w, p, handler), order);
      |w.produced| <= i < |after.produced| && ResetTo(cfg, after.produced[i].packet, k)
    ensures !(Sender(p.header) == k && p.header.op == OP_REQUEST)
    ensures
      var after := DrainWorld(cfg, ReactWorld(cfg, w, p, handler), order);
      k !in after.conns && k in w.gens && OnlyResets(after, w.gens[k], i)
  {
    hide React, WorldOk, DrainWorld, EndpointOk, NewLives, TagAll, OnlyResets;
    var r := Reacted(cfg, w.conns, p, handler);
    var next, full, c := ReactWorld(cfg, w, p, handler), |w.conns| >= cfg.maxConns, Lookup(w.conns, Sender(p.header));
    OkEndpoint(cfg, w);
    NoResetReply(cfg, full, c, p, handler);
    ReactKind(cfg, full, c, p, handler);
    DrainAppends(cfg, next, order);
    if i < |next.produced| { TagsAre(cfg, next.gens, r.replies, i - |w.produced|); }
    ReactWorldOk(cfg, w, p, handler);
    OkEndpoint(cfg, next);
    DrainWorldResets(cfg, next, order, k, i);
  }

  /** A reset of k in what a packet adds ends its connection, unless the packet spares it. */
  lemma ReceiveResets(cfg: Config, w: World, p: Packet, handler: Option<Handler>, order: seq<Key>, k: Key, i: nat)
    requires WorldOk(cfg, w) && !w.failed && HandleOrder(cfg, w.conns, p, handler, order) && Addressed(cfg, p.header)
    requires k in w.conns
    requires
      var after := ReceiveWorld(cfg, w, p, handler, order);
      |w.produced| <= i < |after.produced| && ResetTo(cfg, after.produced[i].packet, k)
    ensures
      var after := ReceiveWorld(cfg, w, p, handler, order);
      if Sender(p.header) == k && p.header.op == OP_REQUEST then after == Emit(w, [Tagged(None, Refusal(p.header))])
      else k !in after.conns && k in w.gens && OnlyResets(after, w.gens[k], i)
  {
    hide React, WorldOk, DrainWorld, NewLives, TagAll;
    var r, j := Reacted(cfg, w.conns, p, handler), Sender(p.header);
    OkEndpoint(cfg, w);
    NoResetReply(cfg, |w.conns| >= cfg.maxConns, Lookup(w.conns, j), p, handler);
    if r.Proceed? {
      ProceedResets(cfg, w, p, handler, order, k, i);
    } else if r.Refuse? {
      NoNote(w, p, r, handler);
      assert w.conns[j := w.conns[j]] == w.conns || j !in w.conns;
    }
  }

  /** From packet i on, generation g gets nothing but resets. */
  predicate OnlyResets(w: World, g: nat, i: nat) {
    forall j :: i <= j < |w.produced| && w.produced[j].gen == Some(g) ==> w.produced[j].packet.header.op == OP_RESET
  }

  /** One step that resets k. */
  lemma StepResets(cfg: Config, depth: nat, w: World, s: Step, k: Key, i: nat)
    requires WorldOk(cfg, w) && CanStep(cfg, depth, w, s) && k in w.conns
    requires |w.produced| <= i < |Next(cfg, w, s).produced| && ResetTo(cfg, Next(cfg, w, s).produced[i].packet, k)
    ensures
      var v := Next(cfg, w, s);
      if Spares(cfg, s, k) then v.conns == w.conns && v.gens == w.gens && v.lives == w.lives
      else k !in v.conns && k in w.gens && OnlyResets(v, w.gens[k], i)
  {
    hide WorldOk, React, DrainWorld, ReactWorld, Decode, OnlyResets;
    OkEndpoint(cfg, w);
    match s
    case Rx(bytes, handler, order) =>
      if Decode(bytes).Ok? && Addressed(cfg, Decode(bytes).value.header) {
        ReceiveResets(cfg, w, Decode(bytes).value, handler, order, k, i);
      }
    case Flush(order) => DrainWorldResets(cfg, w, order, k, i);
    case _ =>
  }

  lemma TagsAre(cfg: Config, gens: map<Key, nat>, ps: seq<Packet>, i: nat)
    requires i < |ps|
    ensures TagAll(cfg, gens, ps)[i].packet == ps[i]
  {
  }

  /** Behind packet i there is no data of generation g. */
  predicate NoDataAfter(w: World, g: nat, i: nat) {
    forall j :: i < j < |w.produced| && w.produced[j].gen == Some(g) ==> w.produced[j].packet.header.op != OP_READ_WRITE
  }

  /** Every reset to k on the wire ends k's generation, so that no data of it follows, exactly
      unless it answers a further request of k or a packet of k that is not of a stream. */
  lemma ResetsEnd(cfg: Config, depth: nat, steps: seq<Step>, s: Step, more: seq<Step>, k: Key, i: nat)
    requires CanRun(cfg, depth, START, steps + [s] + more) && k in Run(cfg, START, steps).conns
    requires
      var w, v := Run(cfg, START, steps), Run(cfg, START, steps + [s]);
      |w.produced| <= i < |v.produced| && ResetTo(cfg, v.produced[i].packet, k)
    ensures
      var w, v, u := Run(cfg, START, steps), Run(cfg, START, steps + [s]), Run(cfg, START, steps + [s] + more);
      && k in w.gens && (Alive(v, w.gens[k]) <==> Spares(cfg, s, k))
      && (Alive(v, w.gens[k]) ==> v.conns == w.conns)
      && (!Spares(cfg, s, k) ==> NoDataAfter(u, w.gens[k], i))
  {
    hide Run, CanRun, CanStep, SentBy, Spares, Next;
    var w, v, u := Run(cfg, START, steps), Run(cfg, START, steps + [s]), Run(cfg, START, steps + [s] + more);
    PrefixRuns(cfg, depth, steps + [s], more);
    RunConcat(cfg, depth, steps, s);
    RunOk(cfg, depth, steps);
    OkEndpoint(cfg, w);
    RunOk(cfg, depth, steps + [s]);
    OkEndpoint(cfg, v);
    hide WorldOk;
    StepResets(cfg, depth, w, s, k, i);
    var g := w.gens[k];
    LivesGrow(cfg, w, s, g);
    if !Spares(cfg, s, k) {
      EndedIsSilent(cfg, depth, steps + [s], more, g);
      forall j | i < j < |u.produced| && u.produced[j].gen == Some(g)
          ensures u.produced[j].packet.header.op == OP_RESET {
        if j >= |v.produced| { SentByMember(u.produced[|v.produced|..], g, j - |v.produced|); }
        assert u.produced[j] == v.produced[j];
      }
    }
  }

  lemma LivesGrow(cfg: Config, w: World, s: Step, g: nat)
    requires g < |w.lives|
    ensures g < |Next(cfg, w, s).lives| && Next(cfg, w, s).lives[g].key == w.lives[g].key
  {
    hide NewLives, React, Drain, Decode, TagAll, Put, HandlePacket;
    match s
    case Rx(bytes, handler, order) =>
      if Decode(bytes).Ok? {
        var p := Decode(bytes).value;
        KeysStay(w, p, Reacted(cfg, w.conns, p, handler), handler, g);
      }
    case _ =>
  }

  lemma KeysStay(w: World, p: Packet, r: Reaction, handler: Option<Handler>, g: nat)
    requires g < |w.lives|
    ensures g < |NewLives(w, p, r, handler)| && NewLives(w, p, r, handler)[g].key == w.lives[g].key
  {
  }
}
