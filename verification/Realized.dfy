/** The other way round: whatever the network can do, the driver can do with its pending list and
    its ring. So what is reachable for one is reachable for the other, and the exact condition for
    credit safety is exact for the driver. */
module Realized {
  import opened Bytes
  import opened Wire
  import opened Seqs
  import opened Protocol
  import opened History
  import opened Channels
  import opened Credit
  import opened Network
  import opened Reopening
  import opened Composition
  import Delivery
  import Limits

  // ------------------------------------------------------------ joint runs under a rule

  /** As CanJoint, but by a rule of the game. */
  ghost predicate CanRuled(cfg: Config, depth: nat, rule: Rule, j: Joint, m: JointMove) {
    match m
    case Driver(s) =>
      && CanStep(cfg, depth, WorldOf(cfg, j), s)
      && (s.Rx? ==> j.down != [] && s.bytes == Encode(j.down[0]) && AnswersWithin(s.handler, rule.longest))
    case Deliver => j.delivered < |WorldOf(cfg, j).pushed|
    case PeerMove(move) => OfPeer(move) && Ruled(cfg, rule, AsNet(cfg, j), move) && Plain(move)
  }

  ghost predicate RuledJoint(cfg: Config, alloc: Offers, depth: nat, rule: Rule, moves: seq<JointMove>) {
    moves != [] ==>
      && RuledJoint(cfg, alloc, depth, rule, moves[..|moves| - 1])
      && CanRuled(cfg, depth, rule, JointRun(cfg, alloc, moves[..|moves| - 1]), moves[|moves| - 1])
  }

  lemma JointNext(cfg: Config, alloc: Offers, depth: nat, rule: Rule, moves: seq<JointMove>, m: JointMove)
    requires RuledJoint(cfg, alloc, depth, rule, moves)
    requires CanRuled(cfg, depth, rule, JointRun(cfg, alloc, moves), m)
    ensures RuledJoint(cfg, alloc, depth, rule, moves + [m])
    ensures JointRun(cfg, alloc, moves + [m]) == ApplyJoint(cfg, alloc, JointRun(cfg, alloc, moves), m)
  {
    hide CanRuled, ApplyJoint;
    Last(moves, m);
  }

  /** A joint run of the driver under the rule that has not failed and has come to n. */
  ghost predicate Realizes(cfg: Config, alloc: Offers, depth: nat, rule: Rule, moves: seq<JointMove>, n: Net) {
    var j := JointRun(cfg, alloc, moves);
    && RuledJoint(cfg, alloc, depth, rule, moves) && JointOk(cfg, depth, j)
    && !WorldOf(cfg, j).failed && AsNet(cfg, j) == n
  }

  // ------------------------------------------------------------------- single moves

  lemma NoFailure(cfg: Config, w: World, p: Packet, handler: Handler, order: seq<Key>)
    requires !w.failed && |p.payload| < W32
    ensures !Next(cfg, w, Rx(Encode(p), Some(handler), order)).failed
  {
    DecodeEncode(p);
    var q := p.(header := p.header.(len := |p.payload|));
    ReceiveIsHandle(cfg, w, q, Some(handler), order);
    Succeeds(cfg, w.conns, q, handler, order);
    hide Decode, Encode, HandlePacket, ReceiveWorld;
  }

  lemma Succeeds(cfg: Config, conns: Conns, p: Packet, handler: Handler, order: seq<Key>)
    ensures !HandlePacket(cfg, conns, p, Some(handler), order).failed
  {
    hide Drain, Complete, Put;
  }

  lemma CanReceive(cfg: Config, depth: nat, w: World, p: Packet, handler: Option<Handler>, order: seq<Key>)
    requires !w.failed && |p.payload| < W32 && HandleOrder(cfg, w.conns, p, handler, order)
    ensures CanStep(cfg, depth, w, Rx(Encode(p), handler, order))
  {
    DecodeEncode(p);
    LengthIgnored(cfg, w.conns, p, |p.payload|, handler, order);
    hide Decode, Encode, HandleOrder, HandlePacket;
  }

  /** A step of the driver that takes the next packet, drains, or clears. */
  lemma RealizeEndpoint(cfg: Config, alloc: Offers, depth: nat, rule: Rule, moves: seq<JointMove>, n: Net, m: Move)
      returns (more: seq<JointMove>)
    requires Realizes(cfg, alloc, depth, rule, moves, n) && Ruled(cfg, rule, n, m) && Plain(m)
    requires m.EndpointReceives? || m.EndpointDrains? || m.EndpointClears?
    ensures moves <= more
    ensures Realizes(cfg, alloc, depth, rule, more, Apply(cfg, alloc, n, m))
  {
    hide Run, CanRun, HandlePacket, Drain, Encode, HandleOrder, JointRun, RuledJoint, IsOrder, Packets, AnswersWithin;
    var j := JointRun(cfg, alloc, moves);
    var s := match m
      case EndpointReceives(handler, order) => Rx(Encode(n.down[0]), handler, order)
      case EndpointDrains(order) => Flush(order)
      case _ => Clear;
    if m.EndpointReceives? {
      CanReceive(cfg, depth, WorldOf(cfg, j), n.down[0], m.handler, m.order);
      NoFailure(cfg, WorldOf(cfg, j), n.down[0], m.handler.value, m.order);
    }
    DriverStep(cfg, alloc, depth, j, s);
    JointNext(cfg, alloc, depth, rule, moves, Driver(s));
    more := moves + [Driver(s)];
  }

  /** The device uses what is in the ring, and the next packet enters it. */
  lemma RealizePush(cfg: Config, alloc: Offers, depth: nat, rule: Rule, moves: seq<JointMove>, n: Net)
      returns (more: seq<JointMove>)
    requires depth > 0 && Realizes(cfg, alloc, depth, rule, moves, n) && n.up != []
    ensures moves <= more
    ensures Realizes(cfg, alloc, depth, rule, more, n)
    ensures
      var j := JointRun(cfg, alloc, more);
      j.delivered < |WorldOf(cfg, j).pushed|
  {
    hide Run, CanRun, JointRun, RuledJoint, Packets, WorldOk;
    var j := JointRun(cfg, alloc, moves);
    var w := WorldOf(cfg, j);
    more := moves;
    RunOk(cfg, depth, j.trace);
    Silence.OnTheWire(cfg, depth, j.trace);
    if j.delivered == |w.pushed| {
      var use := Driver(Use(|w.pushed| - w.used));
      DriverStep(cfg, alloc, depth, j, use.step);
      JointNext(cfg, alloc, depth, rule, moves, use);
      var next := ApplyJoint(cfg, alloc, j, use);
      DriverStep(cfg, alloc, depth, next, Push);
      JointNext(cfg, alloc, depth, rule, moves + [use], Driver(Push));
      more := moves + [use] + [Driver(Push)];
    }
  }

  lemma RealizeDelivery(cfg: Config, alloc: Offers, depth: nat, rule: Rule, moves: seq<JointMove>, n: Net)
      returns (more: seq<JointMove>)
    requires depth > 0 && Realizes(cfg, alloc, depth, rule, moves, n) && n.up != []
    ensures moves <= more
    ensures Realizes(cfg, alloc, depth, rule, more, Apply(cfg, alloc, n, PeerReceives))
  {
    hide Run, CanRun, JointRun, RuledJoint, Packets, Accept, To, From;
    more := RealizePush(cfg, alloc, depth, rule, moves, n);
    Delivers(cfg, alloc, depth, JointRun(cfg, alloc, more));
    JointNext(cfg, alloc, depth, rule, more, Deliver);
    more := more + [Deliver];
  }

  lemma RealizePeer(cfg: Config, alloc: Offers, depth: nat, rule: Rule, moves: seq<JointMove>, n: Net, m: Move)
      returns (more: seq<JointMove>)
    requires Realizes(cfg, alloc, depth, rule, moves, n) && OfPeer(m) && Ruled(cfg, rule, n, m) && Plain(m)
    ensures moves <= more
    ensures Realizes(cfg, alloc, depth, rule, more, Apply(cfg, alloc, n, m))
  {
    hide Run, CanRun, JointRun, RuledJoint, Packets, To, From, Count;
    var j := JointRun(cfg, alloc, moves);
    JointNext(cfg, alloc, depth, rule, moves, PeerMove(m));
    more := moves + [PeerMove(m)];
  }

  /** Every move of the network is one or more of the driver and its peers. */
  lemma RealizeMove(cfg: Config, alloc: Offers, depth: nat, rule: Rule, moves: seq<JointMove>, n: Net, m: Move)
      returns (more: seq<JointMove>)
    requires depth > 0 && Realizes(cfg, alloc, depth, rule, moves, n) && Ruled(cfg, rule, n, m) && Plain(m)
    ensures moves <= more
    ensures Realizes(cfg, alloc, depth, rule, more, Apply(cfg, alloc, n, m))
  {
    hide Realizes, Apply, Count, To, From, HandleOrder, IsOrder, AnswersWithin;
    if OfPeer(m) {
      more := RealizePeer(cfg, alloc, depth, rule, moves, n, m);
    } else if m == PeerReceives {
      more := RealizeDelivery(cfg, alloc, depth, rule, moves, n);
    } else {
      more := RealizeEndpoint(cfg, alloc, depth, rule, moves, n, m);
    }
  }

  lemma RealizeStart(cfg: Config, alloc: Offers, depth: nat, rule: Rule)
    ensures Realizes(cfg, alloc, depth, rule, [], QUIET)
  {
    assert Packets([]) == [];
  }

  /** Every play of the network is a run of the driver with the same peers, for every depth of
      its ring. */
  lemma {:induction false} PlayIsJoint(cfg: Config, alloc: Offers, depth: nat, rule: Rule, play: seq<Move>)
      returns (moves: seq<JointMove>)
    requires depth > 0 && RuledPlay(cfg, alloc, rule, play) && AllPlain(play)
    ensures Realizes(cfg, alloc, depth, rule, moves, Play(cfg, alloc, play))
    decreases |play|
  {
    hide Realizes, Apply, Ruled, Plain;
    if play == [] {
      moves := [];
      RealizeStart(cfg, alloc, depth, rule);
    } else {
      var before, m := play[..|play| - 1], play[|play| - 1];
      moves := PlayIsJoint(cfg, alloc, depth, rule, before);
      moves := RealizeMove(cfg, alloc, depth, rule, moves, Play(cfg, alloc, before), m);
    }
  }

  // -------------------------------------------------------------------------- exactness

  /** Under a rule that makes peers wait, joint runs are those of honest peers. */
  lemma {:induction false} RuledIsHonest(cfg: Config, alloc: Offers, depth: nat, rule: Rule, moves: seq<JointMove>)
    requires !rule.opens(0, 1) && !rule.opens(1, 0) && rule.longest <= W32
    requires RuledJoint(cfg, alloc, depth, rule, moves)
    ensures JointPlay(cfg, alloc, depth, moves)
    decreases |moves|
  {
    hide ApplyJoint, NetOk, JointOk, WorldOk, CanStep, Count, To, From, HandleOrder, IsOrder;
    if moves != [] {
      var before, m := moves[..|moves| - 1], moves[|moves| - 1];
      RuledIsHonest(cfg, alloc, depth, rule, before);
      Delivery.JointNet(cfg, alloc, depth, before);
      var j := JointRun(cfg, alloc, before);
      hide JointRun, RuledJoint, AsNet, WorldOf;
      if m.PeerMove? && m.move.PeerOpens? {
        Awaiting(cfg, alloc, AsNet(cfg, j), m.move.key);
      }
    }
  }

  /** No buffer ever overflows in any run of the driver under the rule. */
  ghost predicate DriverKeeps(cfg: Config, depth: nat, rule: Rule) {
    forall alloc: Offers, moves, k ::
      RuledJoint(cfg, alloc, depth, rule, moves) ==>
        BufferSafe(alloc(k), PeerAt(AsNet(cfg, JointRun(cfg, alloc, moves)), k))
  }

  lemma DriverBroken(cfg: Config, depth: nat, rule: Rule, moves: seq<JointMove>, k: Key)
    requires RuledJoint(cfg, ONE_EACH, depth, rule, moves)
    requires !BufferSafe(1, PeerAt(AsNet(cfg, JointRun(cfg, ONE_EACH, moves)), k))
    ensures !DriverKeeps(cfg, depth, rule)
  {
    hide RuledJoint, JointRun, AsNet;
    assert ONE_EACH(k) == 1;
  }

  /** The same condition is exact for the driver, with its list and a ring of any depth between
      the endpoint and its peers. */
  lemma DriverExact(cfg: Config, depth: nat, rule: Rule)
    requires depth > 0 && Fair(cfg, rule) && rule.opens(0, 0)
    ensures DriverKeeps(cfg, depth, rule) <==> !rule.opens(0, 1) && !rule.opens(1, 0) && rule.longest <= W32
  {
    hide RuledJoint, JointRun, AsNet, Play, RuledPlay, Fair, BufferSafe;
    var k := Key(0, 0);
    if !rule.opens(0, 1) && !rule.opens(1, 0) && rule.longest <= W32 {
      forall alloc: Offers, moves, k | RuledJoint(cfg, alloc, depth, rule, moves)
          ensures BufferSafe(alloc(k), PeerAt(AsNet(cfg, JointRun(cfg, alloc, moves)), k)) {
        RuledIsHonest(cfg, alloc, depth, rule, moves);
        DriverCreditSafety(cfg, alloc, depth, moves, k);
      }
    } else {
      Limits.SomeOverfill(cfg, rule, k);
      var play :| Limits.Overfilled(cfg, rule, play, k);
      var moves := PlayIsJoint(cfg, ONE_EACH, depth, rule, play);
      DriverBroken(cfg, depth, rule, moves, k);
    }
  }
}
