/** From the application to the peer: the bytes that an established peer has received are a
    prefix of the response of its generation, in every run of the driver with waiting peers. */
module Delivery {
  import opened Bytes
  import opened Wire
  import opened Seqs
  import opened Protocol
  import opened Connections
  import opened Generations
  import opened History
  import opened Channels
  import opened Credit
  import opened Network
  import opened Composition

  /** The peer hears the present generation of its key: it is established, or will be by what is
      under way to it, and its request has been taken. */
  predicate Paired(h: Peer, up: seq<Packet>, down: seq<Packet>) {
    Heard(h, up) && Count(down, OP_REQUEST) == 0
  }

  /** What the application has answered in the latest generation of k. */
  function Response(w: World, k: Key): seq<byte> {
    if k in w.gens && w.gens[k] < |w.lives| then BodyOf(w.lives[w.gens[k]].calls) else []
  }

  // ------------------------------------------------ what a departing connection leaves behind

  /** The turn of a connection that goes adds nothing that the peer takes for data. */
  lemma TurnAway(cfg: Config, c: Conn, room: nat, h: Peer, up: seq<Packet>)
    requires ConnOk(cfg, c.Remote(), c) && Serve(cfg, c, room).conn.None?
    ensures
      var after := up + Serve(cfg, c, room).out;
      Heard(h, after) == Heard(h, up) && Whole(h, after) == Whole(h, up)
  {
    ServeAdds(cfg, c, room);
    hide Serve, Whole;
    var p :| Serve(cfg, c, room).out == [p] && p.header.op == OP_RESET;
    SendReset(h, up, p);
  }

  lemma DrainAway(cfg: Config, conns: Conns, up: seq<Packet>, order: seq<Key>, k: Key, h: Peer)
    requires EndpointOk(cfg, conns) && Distinct(order)
    requires k !in Drain(cfg, conns, order, DRAIN_LIMIT).conns
    ensures
      var after := To(cfg, up + Drain(cfg, conns, order, DRAIN_LIMIT).out, k);
      Heard(h, after) == Heard(h, To(cfg, up, k)) && Whole(h, after) == Whole(h, To(cfg, up, k))
  {
    hide To, Serve, Drain, ConnOk, Whole;
    var d := Drain(cfg, conns, order, DRAIN_LIMIT);
    var room := RoomAt(cfg, conns, order, DRAIN_LIMIT, k);
    DrainAt(cfg, conns, order, DRAIN_LIMIT, k);
    ToConcat(cfg, up, d.out, k);
    SentBounded(cfg, conns, k);
    if k in conns {
      TurnAway(cfg, conns[k], room, h, To(cfg, up, k));
    } else {
      Empty(To(cfg, up, k));
    }
  }

  /** Nor do the answers to a packet, unless it opens a connection. */
  lemma ReactAway(cfg: Config, alloc: u32, full: bool, c: Option<Conn>, h: Peer, up: seq<Packet>, p: Packet,
      down: seq<Packet>, handler: Option<Handler>)
    requires KeyOk(cfg, alloc, true, c, h, up, [p] + down) && ShortAnswers(handler)
    requires c.Some? ==> ConnOk(cfg, c.value.Remote(), c.value)
    requires p.header.op == OP_REQUEST ==> !React(cfg, full, c, p, handler).Proceed?
    requires Paired(h, up + Answers(React(cfg, full, c, p, handler), p.header), down)
    ensures Paired(h, up, [p] + down)
    ensures Whole(h, up + Answers(React(cfg, full, c, p, handler), p.header)) == Whole(h, up)
  {
    hide React, Answers, Whole, Stream, PeerOk, Count, Live, Rising, InStep, Abandoned, Undisturbed;
    Head(p, down);
    var r := React(cfg, full, c, p, handler);
    var answer := Answers(r, p.header);
    if p.header.op == OP_REQUEST {
      RequestReaction(cfg, full, c, p, handler);
      assert answer == [answer[0]];
      SendReset(h, up, answer[0]);
      LiveLacks(up);
    } else {
      UpdateReaction(cfg, full, c, p, handler);
      if r.conn.Some? {
        SendMore(h, up, answer);
        Empty(Whole(h, up));
      } else if r.Quiet? {
        Empty(up);
      } else {
        assert answer == [answer[0]];
        SendReset(h, up, answer[0]);
      }
    }
  }

  lemma LiveLacks(up: seq<Packet>)
    ensures Count(Live(up), OP_RESPONSE) <= Count(up, OP_RESPONSE)
  {
    Hazards.LiveCount(up, OP_RESPONSE);
  }

  /** The same for the endpoint as a whole. */
  lemma ReactedAway(cfg: Config, alloc: Offers, n: Net, handler: Option<Handler>, k: Key)
    requires NetOk(cfg, alloc, true, n) && n.down != [] && ShortAnswers(handler)
    requires
      var r := Reacted(cfg, n.conns, n.down[0], handler);
      && (Sender(n.down[0].header) == k && n.down[0].header.op == OP_REQUEST ==> !r.Proceed?)
      && Paired(PeerAt(n, k), To(cfg, n.up, k) + To(cfg, Answers(r, n.down[0].header), k), From(n.down[1..], k))
    ensures
      var r := Reacted(cfg, n.conns, n.down[0], handler);
      && Paired(PeerAt(n, k), To(cfg, n.up, k), From(n.down, k))
      && Whole(PeerAt(n, k), To(cfg, n.up, k) + To(cfg, Answers(r, n.down[0].header), k))
         == Whole(PeerAt(n, k), To(cfg, n.up, k))
  {
    var p := n.down[0];
    var j := Sender(p.header);
    var full := |n.conns| >= cfg.maxConns;
    var r := Reacted(cfg, n.conns, p, handler);
    AnswersTo(cfg, full, j, Lookup(n.conns, j), p, handler);
    ToAll(cfg, Answers(r, p.header), j, k);
    assert RemoteOk(cfg, alloc, true, n, k);
    hide KeyOk, React, To, ConnOk, Whole, Paired;
    if k == j {
      SentBounded(cfg, n.conns, k);
      ReactAway(cfg, alloc(k), full, Lookup(n.conns, k), PeerAt(n, k), To(cfg, n.up, k), p, From(n.down[1..], k),
          handler);
    } else {
      Empty(To(cfg, n.up, k));
    }
  }

  /** A connection that has just been opened outlives the drain behind it. */
  lemma NewStays(cfg: Config, conns: Conns, p: Packet, handler: Option<Handler>, order: seq<Key>)
    requires EndpointOk(cfg, conns) && p.header.op == OP_REQUEST && Reacted(cfg, conns, p, handler).Proceed?
    requires
      var middle := Put(conns, Sender(p.header), Reacted(cfg, conns, p, handler).conn);
      IsOrder(order, middle.Keys)
    ensures
      var middle := Put(conns, Sender(p.header), Reacted(cfg, conns, p, handler).conn);
      Sender(p.header) in Drain(cfg, middle, order, DRAIN_LIMIT).conns
  {
    var k := Sender(p.header);
    var middle := Put(conns, k, Reacted(cfg, conns, p, handler).conn);
    ReactOk(cfg, conns, p, handler);
    DrainAt(cfg, middle, order, DRAIN_LIMIT, k);
    var room := RoomAt(cfg, middle, order, DRAIN_LIMIT, k);
    ServeFacts(cfg, NewConn(p.header), room);
    hide Drain, RoomAt, EndpointOk;
  }

  /** When a packet leaves k without a connection, k hears nothing new. */
  lemma ReceiveAway(cfg: Config, alloc: Offers, n: Net, handler: Option<Handler>, order: seq<Key>, k: Key)
    requires NetOk(cfg, alloc, true, n) && Honest(cfg, n, EndpointReceives(handler, order))
    requires
      var after := Apply(cfg, alloc, n, EndpointReceives(handler, order));
      k !in after.conns && Paired(PeerAt(n, k), To(cfg, after.up, k), From(after.down, k))
    ensures Paired(PeerAt(n, k), To(cfg, n.up, k), From(n.down, k))
    ensures
      var after := Apply(cfg, alloc, n, EndpointReceives(handler, order));
      Whole(PeerAt(n, k), To(cfg, after.up, k)) == Whole(PeerAt(n, k), To(cfg, n.up, k))
    ensures
      var r := Reacted(cfg, n.conns, n.down[0], handler);
      !(Sender(n.down[0].header) == k && n.down[0].header.op == OP_REQUEST && r.Proceed?)
  {
    hide KeyOk, React, To, Drain, Put, From, EndpointOk, HandlePacket, Answers, Whole, Heard, Count;
    var p := n.down[0];
    var r := Reacted(cfg, n.conns, p, handler);
    var middle, answers := Put(n.conns, Sender(p.header), r.conn), Answers(r, p.header);
    ReactOk(cfg, n.conns, p, handler);
    HandleParts(cfg, n.conns, p, handler, order);
    ToConcat(cfg, n.up, answers, k);
    if r.Proceed? {
      if Sender(p.header) == k && p.header.op == OP_REQUEST { NewStays(cfg, n.conns, p, handler, order); }
      DrainAway(cfg, middle, n.up + answers, order, k, PeerAt(n, k));
      Assoc(n.up, answers, Drain(cfg, middle, order, DRAIN_LIMIT).out);
    }
    ReactedAway(cfg, alloc, n, handler, k);
  }

  // ------------------------------------------------------------- what a generation answers

  lemma BodyGrows(life: Life, payload: seq<byte>, handler: Option<Handler>)
    ensures BodyOf(life.calls) <= BodyOf(Note(life, payload, handler).calls)
  {
    hide Complete, Concat;
  }

  /** The latest generation of k, and what it has answered, stay or grow, unless k opens anew. */
  lemma ReactResponse(cfg: Config, w: World, p: Packet, handler: Option<Handler>, k: Key)
    requires GensOk(w)
    requires !(Sender(p.header) == k && p.header.op == OP_REQUEST && Reacted(cfg, w.conns, p, handler).Proceed?)
    ensures Response(w, k) <= Response(ReactWorld(cfg, w, p, handler), k)
  {
    hide React, Put, TagAll, Note, BodyOf;
    var r := Reacted(cfg, w.conns, p, handler);
    if k in w.gens { BodyGrows(w.lives[w.gens[k]], p.payload, handler); }
    hide Packets;
  }

  lemma StepResponse(cfg: Config, w: World, s: Step, k: Key)
    requires GensOk(w)
    requires s.Rx? && Decode(s.bytes).Ok? ==>
               var p := Decode(s.bytes).value;
               Addressed(cfg, p.header) ==>
               !(Sender(p.header) == k && p.header.op == OP_REQUEST && Reacted(cfg, w.conns, p, s.handler).Proceed?)
    ensures Response(w, k) <= Response(Next(cfg, w, s), k)
  {
    hide ReactWorld, Drain, TagAll, React, Decode, BodyOf;
    match s
    case Rx(bytes, handler, order) =>
      if Decode(bytes).Ok? && Addressed(cfg, Decode(bytes).value.header) {
        ReactResponse(cfg, w, Decode(bytes).value, handler, k);
      }
    case _ =>
  }

  // ------------------------------------------------------------------------ joint runs

  /** What the peer of k has received, and will receive, is a prefix of what the latest
      generation of k has answered. */
  ghost predicate DeliveredOk(cfg: Config, j: Joint, k: Key) {
    var n := AsNet(cfg, j);
    Paired(PeerAt(n, k), To(cfg, n.up, k), From(n.down, k)) ==>
      Whole(PeerAt(n, k), To(cfg, n.up, k)) <= Response(WorldOf(cfg, j), k)
  }

  lemma JointNet(cfg: Config, alloc: Offers, depth: nat, moves: seq<JointMove>)
    requires JointPlay(cfg, alloc, depth, moves)
    ensures
      var j := JointRun(cfg, alloc, moves);
      && JointOk(cfg, depth, j) && WorldOk(cfg, WorldOf(cfg, j)) && NetOk(cfg, alloc, true, AsNet(cfg, j))
  {
    var play := JointIsPlay(cfg, alloc, depth, moves);
    PlayOk(cfg, alloc, play);
    hide JointPlay, JointRun, Play, HonestPlay, NetOk, AsNet, CanRun, Run;
    RunOk(cfg, depth, JointRun(cfg, alloc, moves).trace);
  }

  /** While the connection lives, this follows from what it has sent. */
  lemma AliveDelivered(cfg: Config, alloc: Offers, j: Joint, k: Key)
    requires WorldOk(cfg, WorldOf(cfg, j)) && NetOk(cfg, alloc, true, AsNet(cfg, j))
    requires k in WorldOf(cfg, j).conns
    ensures DeliveredOk(cfg, j, k)
  {
    hide Run, SentBy, Packets, Count, Live, Whole, Rising, LifeOk, ClosesInOrder, Front, Undisturbed, PeerOk, Abandoned;
    var n, w := AsNet(cfg, j), WorldOf(cfg, j);
    assert RemoteOk(cfg, alloc, true, n, k);
    assert AliveOk(w, k);
  }

  /** A driver step that leaves k without a connection. */
  lemma DriverDelivers(cfg: Config, alloc: Offers, depth: nat, j: Joint, s: Step, k: Key)
    requires JointOk(cfg, depth, j) && CanJoint(cfg, depth, j, Driver(s))
    requires WorldOk(cfg, WorldOf(cfg, j)) && NetOk(cfg, alloc, true, AsNet(cfg, j)) && DeliveredOk(cfg, j, k)
    requires k !in WorldOf(cfg, ApplyJoint(cfg, alloc, j, Driver(s))).conns
    ensures DeliveredOk(cfg, ApplyJoint(cfg, alloc, j, Driver(s)), k)
  {
    hide Run, CanRun, To, From, Paired, Whole, Response, Drain, HandlePacket, NetOk, WorldOk, HandleOrder, Packets;
    var n, w := AsNet(cfg, j), WorldOf(cfg, j);
    var after := ApplyJoint(cfg, alloc, j, Driver(s));
    DriverMoves(cfg, alloc, depth, j, s);
    RunAlong(cfg, depth, j.trace, s);
    if Paired(PeerAt(n, k), To(cfg, AsNet(cfg, after).up, k), From(AsNet(cfg, after).down, k)) {
      if s.Rx? {
        ReceiveAway(cfg, alloc, n, s.handler, s.order, k);
        RxResponse(cfg, w, j.down[0], s, k);
      } else {
        if s.Flush? { FlushAway(cfg, alloc, n, s.order, k); }
        assert GensOk(w) by { OkEndpoint(cfg, w); }
        StepResponse(cfg, w, s, k);
      }
    }
  }

  lemma FlushAway(cfg: Config, alloc: Offers, n: Net, order: seq<Key>, k: Key)
    requires NetOk(cfg, alloc, true, n) && IsOrder(order, n.conns.Keys)
    requires k !in Apply(cfg, alloc, n, EndpointDrains(order)).conns
    ensures
      var after := Apply(cfg, alloc, n, EndpointDrains(order));
      && (Paired(PeerAt(n, k), To(cfg, after.up, k), From(after.down, k)) <==>
            Paired(PeerAt(n, k), To(cfg, n.up, k), From(n.down, k)))
      && Whole(PeerAt(n, k), To(cfg, after.up, k)) == Whole(PeerAt(n, k), To(cfg, n.up, k))
  {
    hide To, From, Whole, Heard, Drain, EndpointOk, Count;
    DrainAway(cfg, n.conns, n.up, order, k, PeerAt(n, k));
  }

  /** The driver decodes the packet that the peer has sent, but for its length field. */
  lemma RxResponse(cfg: Config, w: World, p: Packet, s: Step, k: Key)
    requires WorldOk(cfg, w) && |p.payload| < W32 && s.Rx? && s.bytes == Encode(p)
    requires !(Sender(p.header) == k && p.header.op == OP_REQUEST && Reacted(cfg, w.conns, p, s.handler).Proceed?)
    ensures Response(w, k) <= Response(Next(cfg, w, s), k)
  {
    hide WorldOk, Response, Next, React, Encode, Decode;
    OkEndpoint(cfg, w);
    DecodeEncode(p);
    SameReaction(cfg, |w.conns| >= cfg.maxConns, Lookup(w.conns, Sender(p.header)), p, |p.payload|, s.handler);
    StepResponse(cfg, w, s, k);
  }

  /** A peer that takes a packet has and gets the same bytes as before. */
  lemma DeliverDelivers(cfg: Config, alloc: Offers, depth: nat, j: Joint, k: Key)
    requires JointOk(cfg, depth, j) && CanJoint(cfg, depth, j, Deliver) && DeliveredOk(cfg, j, k)
    ensures DeliveredOk(cfg, ApplyJoint(cfg, alloc, j, Deliver), k)
  {
    hide Run, CanRun, Whole, Response, Heard, From, Count, Packets;
    var n := AsNet(cfg, j);
    Delivers(cfg, alloc, depth, j);
    Assoc([n.up[0]], To(cfg, n.up[1..], k), []);
    AcceptTotal(PeerAt(n, k), n.up[0], To(cfg, n.up[1..], k));
    NotHeard(To(cfg, n.up[1..], k));
  }

  lemma NotHeard(up: seq<Packet>)
    ensures !Heard(Closed, up)
  {
  }

  /** What a peer does itself does not change what it has received, and an opening unpairs it. */
  lemma PeerDelivers(cfg: Config, alloc: Offers, depth: nat, j: Joint, m: Move, k: Key)
    requires JointOk(cfg, depth, j) && CanJoint(cfg, depth, j, PeerMove(m)) && DeliveredOk(cfg, j, k)
    ensures DeliveredOk(cfg, ApplyJoint(cfg, alloc, j, PeerMove(m)), k)
  {
    hide Run, CanRun, Response, Packets, To, Count, Stream, Live, AfterResponse;
    var n := AsNet(cfg, j);
    var after := AsNet(cfg, ApplyJoint(cfg, alloc, j, PeerMove(m)));
    PeerMoves(cfg, alloc, depth, j, m);
    if |after.down| > |n.down| {
      var p := after.down[|n.down|];
      assert after.down == n.down + [p];
      FromConcat(n.down, [p], k);
      assert From([p], k) == if Sender(p.header) == k then [p] else [];
      Empty(From(n.down, k));
      CountConcat(From(n.down, k), [p], OP_REQUEST);
      CountOne(p, OP_REQUEST);
      hide From;
    }
  }

  lemma {:induction false} RunDelivers(cfg: Config, alloc: Offers, depth: nat, moves: seq<JointMove>, k: Key)
    requires JointPlay(cfg, alloc, depth, moves)
    ensures DeliveredOk(cfg, JointRun(cfg, alloc, moves), k)
    decreases |moves|
  {
    if moves == [] {
      assert PeerAt(AsNet(cfg, IDLE), k) == Closed;
    } else {
      var before, m := moves[..|moves| - 1], moves[|moves| - 1];
      RunDelivers(cfg, alloc, depth, before, k);
      JointNet(cfg, alloc, depth, before);
      JointNet(cfg, alloc, depth, moves);
      var j := JointRun(cfg, alloc, before);
      hide JointOk, NetOk, WorldOk, DeliveredOk, AsNet, CanJoint, ApplyJoint, WorldOf;
      var after := ApplyJoint(cfg, alloc, j, m);
      if k in WorldOf(cfg, after).conns {
        AliveDelivered(cfg, alloc, after, k);
      } else {
        match m
        case Driver(s) => DriverDelivers(cfg, alloc, depth, j, s, k);
        case Deliver => DeliverDelivers(cfg, alloc, depth, j, k);
        case PeerMove(move) => PeerDelivers(cfg, alloc, depth, j, move, k);
      }
    }
  }

  /** From end to end: in every run of the driver with waiting peers, whose channels may be
      arbitrarily slow and whose keys may be used again and again, the bytes that an established
      peer holds are a prefix of what the application has answered in the latest generation of
      its key, also when that has ended; the peer's request belongs to that generation, since no
      request of the key is under way; and while the connection lives, it has sent at least
      these bytes of the same response. */
  lemma EndToEnd(cfg: Config, alloc: Offers, depth: nat, moves: seq<JointMove>, k: Key)
    requires JointPlay(cfg, alloc, depth, moves) && PeerAt(AsNet(cfg, JointRun(cfg, alloc, moves)), k).Established?
    ensures
      var j := JointRun(cfg, alloc, moves);
      var n, w := AsNet(cfg, j), WorldOf(cfg, j);
      && Count(From(n.down, k), OP_REQUEST) == 0
      && PeerAt(n, k).received <= Response(w, k)
      && (k in w.conns ==> |PeerAt(n, k).received| <= w.conns[k].sent && Response(w, k) == w.conns[k].Body())
  {
    var j := JointRun(cfg, alloc, moves);
    JointNet(cfg, alloc, depth, moves);
    RunDelivers(cfg, alloc, depth, moves, k);
    DriverCreditSafety(cfg, alloc, depth, moves, k);
    hide JointPlay, JointRun, Run, CanRun, JointOk, SentBy, LifeOk, From, To, Count, Live, Stream, PastOk;
    var n, w := AsNet(cfg, j), WorldOf(cfg, j);
    assert RemoteOk(cfg, alloc, true, n, k);
    if k in w.conns { assert AliveOk(w, k); }
  }
}
