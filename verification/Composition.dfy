/** The driver with its peers: a run of History whose received packets come from honest peers and
    whose pushed packets go to them. Credit safety holds of every such run. */
module Composition {
  import opened Bytes
  import opened Wire
  import opened Seqs
  import opened Protocol
  import opened History
  import opened Credit
  import opened Network
  import Silence

  /** trace is what the driver has done; the peers have taken the first delivered packets that it
      pushed; down are the packets that they have sent and the driver has not yet received. */
  datatype Joint = Joint(trace: seq<Step>, delivered: nat, down: seq<Packet>, peers: map<Key, Peer>)

  const IDLE := Joint([], 0, [], map[])

  function WorldOf(cfg: Config, j: Joint): World { Run(cfg, START, j.trace) }

  /** The same as a network: what is produced and not delivered is under way. */
  function AsNet(cfg: Config, j: Joint): Net {
    var w := WorldOf(cfg, j);
    var sent := Packets(w.produced);
    Net(w.conns, if j.delivered <= |sent| then sent[j.delivered..] else [], j.down, j.peers)
  }

  datatype JointMove =
    | Driver(step: Step)
    | Deliver
    | PeerMove(move: Move)

  predicate OfPeer(m: Move) { m.PeerOpens? || m.PeerSends? || m.PeerConsumes? || m.PeerCloses? }

  function ApplyJoint(cfg: Config, alloc: Offers, j: Joint, m: JointMove): Joint {
    match m
    case Driver(s) => j.(trace := j.trace + [s], down := if s.Rx? && j.down != [] then j.down[1..] else j.down)
    case Deliver => j.(delivered := j.delivered + 1, peers := Apply(cfg, alloc, AsNet(cfg, j), PeerReceives).peers)
    case PeerMove(move) =>
      var n := Apply(cfg, alloc, AsNet(cfg, j), move);
      j.(down := n.down, peers := n.peers)
  }

  /** The driver takes a step that it can take, and receives the next packet of the peers; a
      packet is delivered once it is pushed; peers are honest, and their packets are short enough
      for the length field. */
  ghost predicate CanJoint(cfg: Config, depth: nat, j: Joint, m: JointMove) {
    match m
    case Driver(s) =>
      && CanStep(cfg, depth, WorldOf(cfg, j), s)
      && (s.Rx? ==> j.down != [] && s.bytes == Encode(j.down[0]) && ShortAnswers(s.handler))
    case Deliver => j.delivered < |WorldOf(cfg, j).pushed|
    case PeerMove(move) =>
      && OfPeer(move) && Honest(cfg, AsNet(cfg, j), move) && (move.PeerSends? ==> |move.payload| < W32)
  }

  function JointRun(cfg: Config, alloc: Offers, moves: seq<JointMove>): Joint {
    if moves == [] then IDLE
    else ApplyJoint(cfg, alloc, JointRun(cfg, alloc, moves[..|moves| - 1]), moves[|moves| - 1])
  }

  ghost predicate JointPlay(cfg: Config, alloc: Offers, depth: nat, moves: seq<JointMove>) {
    moves != [] ==>
      && JointPlay(cfg, alloc, depth, moves[..|moves| - 1])
      && CanJoint(cfg, depth, JointRun(cfg, alloc, moves[..|moves| - 1]), moves[|moves| - 1])
  }

  // ---------------------------------------------------------------- one step on each side

  /** The length field of a header plays no role once the packet is decoded. */
  lemma LengthIgnored(cfg: Config, conns: Conns, p: Packet, n: u32, handler: Option<Handler>, order: seq<Key>)
    ensures
      var q := p.(header := p.header.(len := n));
      && HandlePacket(cfg, conns, q, handler, order) == HandlePacket(cfg, conns, p, handler, order)
      && (HandleOrder(cfg, conns, q, handler, order) <==> HandleOrder(cfg, conns, p, handler, order))
  {
    SameReaction(cfg, |conns| >= cfg.maxConns, Lookup(conns, Sender(p.header)), p, n, handler);
    hide React, Drain, Put;
  }

  lemma SameReaction(cfg: Config, full: bool, c: Option<Conn>, p: Packet, n: u32, handler: Option<Handler>)
    ensures
      var q := p.(header := p.header.(len := n));
      React(cfg, full, c, q, handler) == React(cfg, full, c, p, handler) && Refusal(q.header) == Refusal(p.header)
  {
    hide Complete;
  }

  lemma Received(cfg: Config, w: World, p: Packet, handler: Option<Handler>, order: seq<Key>)
    requires |p.payload| < W32
    ensures
      var s := Rx(Encode(p), handler, order);
      var after, o := Next(cfg, w, s), HandlePacket(cfg, w.conns, p, handler, order);
      && Decode(Encode(p)).Ok?
      && (HandleOrder(cfg, w.conns, Decode(Encode(p)).value, handler, order)
          ==> HandleOrder(cfg, w.conns, p, handler, order))
      && after.conns == o.conns && w.produced <= after.produced
      && Packets(after.produced) == Packets(w.produced) + o.Out()
  {
    DecodeEncode(p);
    LengthIgnored(cfg, w.conns, p, |p.payload|, handler, order);
    var q := p.(header := p.header.(len := |p.payload|));
    ReceiveIsHandle(cfg, w, q, handler, order);
    ReceivePackets(cfg, w, q, handler, order);
    hide Decode, Encode, HandlePacket, ReceiveWorld, HandleOrder, Packets;
  }

  lemma ReceivePackets(cfg: Config, w: World, p: Packet, handler: Option<Handler>, order: seq<Key>)
    ensures
      var after := ReceiveWorld(cfg, w, p, handler, order);
      && w.produced <= after.produced
      && Packets(after.produced) == Packets(w.produced) + HandlePacket(cfg, w.conns, p, handler, order).Out()
  {
    hide React, Drain, Put, NewLives;
    var r := Reacted(cfg, w.conns, p, handler);
    Empty(Packets(w.produced));
    PacketsConcat(w.produced, [Tagged(None, Refusal(p.header))]);
    assert Packets([Tagged(None, Refusal(p.header))]) == [Refusal(p.header)];
    Empty([Refusal(p.header)]);
    if r.Proceed? {
      var next := ReactWorld(cfg, w, p, handler);
      var ts := TagAll(cfg, NewGens(w, p, r), r.replies);
      var d := Drain(cfg, next.conns, order, DRAIN_LIMIT);
      var more := TagAll(cfg, next.gens, d.out);
      PacketsTagged(cfg, NewGens(w, p, r), r.replies);
      PacketsTagged(cfg, next.gens, d.out);
      PacketsConcat(w.produced, ts);
      PacketsConcat(w.produced + ts, more);
      Assoc(Packets(w.produced), r.replies, d.out);
      Empty(r.replies + d.out);
    }
  }

  // ------------------------------------------------------------------------ the mapping

  ghost predicate JointOk(cfg: Config, depth: nat, j: Joint) {
    && CanRun(cfg, depth, START, j.trace)
    && j.delivered <= |WorldOf(cfg, j).pushed| <= |WorldOf(cfg, j).produced|
    && (forall i :: 0 <= i < |j.down| ==> |j.down[i].payload| < W32)
  }

  /** A driver step is a move of the endpoint, or none, whatever the application answers. */
  lemma DriverStep(cfg: Config, alloc: Offers, depth: nat, j: Joint, s: Step)
    requires JointOk(cfg, depth, j) && CanStep(cfg, depth, WorldOf(cfg, j), s)
    requires s.Rx? ==> j.down != [] && s.bytes == Encode(j.down[0])
    ensures
      var n, after := AsNet(cfg, j), ApplyJoint(cfg, alloc, j, Driver(s));
      && JointOk(cfg, depth, after) && WorldOf(cfg, after) == Next(cfg, WorldOf(cfg, j), s)
      && match s
         case Rx(_, handler, order) =>
           && HandleOrder(cfg, n.conns, n.down[0], handler, order)
           && AsNet(cfg, after) == Apply(cfg, alloc, n, EndpointReceives(handler, order))
         case Clear => AsNet(cfg, after) == Apply(cfg, alloc, n, EndpointClears)
         case Flush(order) =>
           && IsOrder(order, n.conns.Keys)
           && AsNet(cfg, after) == Apply(cfg, alloc, n, EndpointDrains(order))
         case _ => AsNet(cfg, after) == n
  {
    hide Run, CanRun, WorldOk, Packets, HandlePacket, Drain, Encode, Decode, HandleOrder, TagAll;
    var w := WorldOf(cfg, j);
    var after := ApplyJoint(cfg, alloc, j, Driver(s));
    RunAlong(cfg, depth, j.trace, s);
    Silence.OnTheWire(cfg, depth, after.trace);
    Silence.StepPushes(cfg, w, s);
    var sent := Packets(w.produced);
    match s
    case Rx(bytes, handler, order) =>
      Received(cfg, w, j.down[0], handler, order);
      var out := HandlePacket(cfg, w.conns, j.down[0], handler, order).Out();
      Dropped(sent, out, j.delivered);
      assert forall i :: 0 <= i < |j.down[1..]| ==> j.down[1..][i] == j.down[i + 1];
    case Flush(order) =>
      var d := Drain(cfg, w.conns, order, DRAIN_LIMIT);
      PacketsConcat(w.produced, TagAll(cfg, w.gens, d.out));
      PacketsTagged(cfg, w.gens, d.out);
      Dropped(sent, d.out, j.delivered);
    case _ =>
  }

  /** With honest peers and short answers it is an honest move. */
  lemma DriverMoves(cfg: Config, alloc: Offers, depth: nat, j: Joint, s: Step)
    requires JointOk(cfg, depth, j) && CanJoint(cfg, depth, j, Driver(s))
    ensures
      var after := ApplyJoint(cfg, alloc, j, Driver(s));
      && JointOk(cfg, depth, after)
      && match s
         case Rx(_, handler, order) =>
           && Honest(cfg, AsNet(cfg, j), EndpointReceives(handler, order))
           && AsNet(cfg, after) == Apply(cfg, alloc, AsNet(cfg, j), EndpointReceives(handler, order))
         case Clear => AsNet(cfg, after) == Apply(cfg, alloc, AsNet(cfg, j), EndpointClears)
         case Flush(order) =>
           && Honest(cfg, AsNet(cfg, j), EndpointDrains(order))
           && AsNet(cfg, after) == Apply(cfg, alloc, AsNet(cfg, j), EndpointDrains(order))
         case _ => AsNet(cfg, after) == AsNet(cfg, j)
  {
    hide Run, CanRun, Packets, HandlePacket, Drain, Encode, HandleOrder, IsOrder, Next;
    DriverStep(cfg, alloc, depth, j, s);
  }

  lemma Dropped(a: seq<Packet>, b: seq<Packet>, n: nat)
    requires n <= |a|
    ensures (a + b)[n..] == a[n..] + b
  {
  }

  lemma RunAlong(cfg: Config, depth: nat, steps: seq<Step>, s: Step)
    requires CanRun(cfg, depth, START, steps) && CanStep(cfg, depth, Run(cfg, START, steps), s)
    ensures CanRun(cfg, depth, START, steps + [s])
    ensures Run(cfg, START, steps + [s]) == Next(cfg, Run(cfg, START, steps), s)
  {
    hide Next, CanStep;
    Last(steps, s);
  }

  /** A delivery is a packet that the peer takes. */
  lemma Delivers(cfg: Config, alloc: Offers, depth: nat, j: Joint)
    requires JointOk(cfg, depth, j) && CanJoint(cfg, depth, j, Deliver)
    ensures
      var after := ApplyJoint(cfg, alloc, j, Deliver);
      && JointOk(cfg, depth, after) && Honest(cfg, AsNet(cfg, j), PeerReceives)
      && AsNet(cfg, after) == Apply(cfg, alloc, AsNet(cfg, j), PeerReceives)
      && AsNet(cfg, j).up[0] == WorldOf(cfg, j).pushed[j.delivered]
  {
    hide Run, CanRun;
    Silence.OnTheWire(cfg, depth, j.trace);
    var w := WorldOf(cfg, j);
    var sent := Packets(w.produced);
    assert sent[j.delivered..][1..] == sent[j.delivered + 1..];
    assert sent[j.delivered] == (w.pushed + w.pending)[j.delivered];
  }

  lemma PeerMoves(cfg: Config, alloc: Offers, depth: nat, j: Joint, m: Move)
    requires JointOk(cfg, depth, j) && CanJoint(cfg, depth, j, PeerMove(m))
    ensures
      var after := ApplyJoint(cfg, alloc, j, PeerMove(m));
      JointOk(cfg, depth, after) && AsNet(cfg, after) == Apply(cfg, alloc, AsNet(cfg, j), m)
  {
    hide Run, CanRun;
  }

  /** Every run of the driver with honest peers is a play of the network. */
  lemma {:induction false} JointIsPlay(cfg: Config, alloc: Offers, depth: nat, moves: seq<JointMove>)
      returns (play: seq<Move>)
    requires JointPlay(cfg, alloc, depth, moves)
    ensures JointOk(cfg, depth, JointRun(cfg, alloc, moves))
    ensures HonestPlay(cfg, alloc, play) && Play(cfg, alloc, play) == AsNet(cfg, JointRun(cfg, alloc, moves))
    decreases |moves|
  {
    if moves == [] {
      play := [];
      assert Packets([]) == [];
    } else {
      var before, m := moves[..|moves| - 1], moves[|moves| - 1];
      play := JointIsPlay(cfg, alloc, depth, before);
      var j := JointRun(cfg, alloc, before);
      var more: Option<Move>;
      hide Play, HonestPlay, JointPlay, Honest, Apply, AsNet, CanJoint, JointOk;
      match m {
        case Driver(s) =>
          DriverMoves(cfg, alloc, depth, j, s);
          match s {
            case Rx(_, handler, order) => more := Some(EndpointReceives(handler, order));
            case Clear => more := Some(EndpointClears); ClearIsHonest(cfg, AsNet(cfg, j));
            case Flush(order) => more := Some(EndpointDrains(order));
            case _ => more := None;
          }
        case Deliver =>
          Delivers(cfg, alloc, depth, j);
          more := Some(PeerReceives);
        case PeerMove(move) =>
          PeerMoves(cfg, alloc, depth, j, move);
          PeerIsHonest(cfg, depth, j, move);
          more := Some(move);
      }
      if more.Some? {
        HonestNext(cfg, alloc, play, more.value);
        PlayNext(cfg, alloc, play, more.value);
        play := play + [more.value];
      }
    }
  }

  lemma ClearIsHonest(cfg: Config, n: Net)
    ensures Honest(cfg, n, EndpointClears)
  {
  }

  lemma PeerIsHonest(cfg: Config, depth: nat, j: Joint, m: Move)
    requires CanJoint(cfg, depth, j, PeerMove(m))
    ensures Honest(cfg, AsNet(cfg, j), m)
  {
  }

  /** Credit safety of the driver: in every run of it with waiting peers, its trace is a run, so
      that all results about runs apply, no peer's buffer overflows, and every connection keeps
      to the credit it was given. */
  lemma DriverCreditSafety(cfg: Config, alloc: Offers, depth: nat, moves: seq<JointMove>, k: Key)
    requires JointPlay(cfg, alloc, depth, moves)
    ensures
      var j := JointRun(cfg, alloc, moves);
      var w := WorldOf(cfg, j);
      var h := PeerAt(AsNet(cfg, j), k);
      && CanRun(cfg, depth, START, j.trace)
      && BufferSafe(alloc(k), h)
      && (k in w.conns ==>
            && WindowSafe(cfg, alloc(k), w.conns[k])
            && Counted(w.conns[k], h) && Acknowledged(w.conns[k], h))
  {
    hide JointPlay, JointRun, Play, HonestPlay, CanRun, Run;
    var play := JointIsPlay(cfg, alloc, depth, moves);
    CreditSafety(cfg, alloc, play, k);
  }
}
