/** The endpoint with all its peers: any number of remotes, connections that are opened again
    under the same key, packets in flight in both directions, any interleaving. */
module Network {
  import opened Bytes
  import opened Wire
  import opened Seqs
  import opened Protocol
  import opened Connections
  import opened Channels
  import opened Hazards
  import opened Credit

  /** up is the channel to the peers (everything produced and not yet received), down the one
      to the endpoint; both are FIFO and arbitrarily slow. */
  datatype Net = Net(conns: Conns, up: seq<Packet>, down: seq<Packet>, peers: map<Key, Peer>)

  const QUIET := Net(map[], [], [], map[])

  /** The size of each peer's receive buffer. */
  type Offers = Key -> u32

  function PeerAt(n: Net, k: Key): Peer { if k in n.peers then n.peers[k] else Closed }

  datatype Move =
    | EndpointReceives(handler: Option<Handler>, order: seq<Key>)
    | EndpointDrains(order: seq<Key>)
    | EndpointClears
    | PeerReceives
    | PeerOpens(key: Key)
    | PeerSends(key: Key, op: u16, payload: seq<byte>)
    | PeerConsumes(key: Key, count: nat)
    | PeerCloses(key: Key)

  function Apply(cfg: Config, alloc: Offers, n: Net, m: Move): Net {
    match m
    case EndpointReceives(handler, order) =>
      if n.down == [] then n
      else
        var o := HandlePacket(cfg, n.conns, n.down[0], handler, order);
        n.(conns := o.conns, up := n.up + o.Out(), down := n.down[1..])
    case EndpointDrains(order) =>
      var d := Drain(cfg, n.conns, order, DRAIN_LIMIT);
      n.(conns := d.conns, up := n.up + d.out)
    case EndpointClears => n.(conns := map[])
    case PeerReceives =>
      if n.up == [] then n
      else
        var p := n.up[0];
        var k := Receiver(p.header);
        if Sender(p.header) == Key(cfg.cid, cfg.port)
        then n.(up := n.up[1..], peers := n.peers[k := Accept(PeerAt(n, k), p)])
        else n.(up := n.up[1..])
    case PeerOpens(k) =>
      n.(peers := n.peers[k := Connecting], down := n.down + [FromPeer(cfg, alloc(k), k, OP_REQUEST, [], 0)])
    case PeerSends(k, op, payload) =>
      n.(down := n.down + [FromPeer(cfg, alloc(k), k, op, payload, Consumed(PeerAt(n, k)))])
    case PeerConsumes(k, count) =>
      (match PeerAt(n, k)
       case Established(received, consumed) => n.(peers := n.peers[k := Established(received, consumed + count)])
       case _ => n)
    case PeerCloses(k) =>
      n.(peers := n.peers[k := Closed],
         down := n.down + [FromPeer(cfg, alloc(k), k, OP_RESET, [], Consumed(PeerAt(n, k)))])
  }

  /** What honest peers do. A key is opened only while its end is closed and no request or
      response of an earlier attempt is under way; data is sent only when established. */
  ghost predicate Honest(cfg: Config, n: Net, m: Move) {
    match m
    case EndpointReceives(handler, order) =>
      n.down != [] && ShortAnswers(handler) && HandleOrder(cfg, n.conns, n.down[0], handler, order)
    case EndpointDrains(order) => IsOrder(order, n.conns.Keys)
    case EndpointClears => true
    case PeerReceives => n.up != []
    case PeerOpens(k) =>
      PeerAt(n, k) == Closed &&
      Count(From(n.down, k), OP_REQUEST) + Count(To(cfg, n.up, k), OP_RESPONSE) == 0
    case PeerSends(k, op, payload) =>
      PeerAt(n, k) != Closed &&
      (op in {OP_CREDIT_UPDATE, OP_CREDIT_REQUEST, OP_SHUTDOWN} ||
       (op == OP_READ_WRITE && PeerAt(n, k).Established?))
    case PeerConsumes(k, count) =>
      PeerAt(n, k).Established? && PeerAt(n, k).consumed + count <= |PeerAt(n, k).received|
    case PeerCloses(k) => true
  }

  function Play(cfg: Config, alloc: Offers, moves: seq<Move>): Net {
    if moves == [] then QUIET
    else Apply(cfg, alloc, Play(cfg, alloc, moves[..|moves| - 1]), moves[|moves| - 1])
  }

  /** What calm peers do: as honest ones, but they open as soon as it can do no harm. */
  ghost predicate CalmMove(cfg: Config, n: Net, m: Move) {
    match m
    case PeerOpens(k) => PeerAt(n, k) == Closed && Calm(cfg, Lookup(n.conns, k), To(cfg, n.up, k), From(n.down, k))
    case _ => Honest(cfg, n, m)
  }

  ghost predicate HonestPlay(cfg: Config, alloc: Offers, moves: seq<Move>) {
    moves != [] ==>
      && HonestPlay(cfg, alloc, moves[..|moves| - 1])
      && Honest(cfg, Play(cfg, alloc, moves[..|moves| - 1]), moves[|moves| - 1])
  }

  ghost predicate CalmPlay(cfg: Config, alloc: Offers, moves: seq<Move>) {
    moves != [] ==>
      && CalmPlay(cfg, alloc, moves[..|moves| - 1])
      && CalmMove(cfg, Play(cfg, alloc, moves[..|moves| - 1]), moves[|moves| - 1])
  }

  /** Waiting is calm. */
  lemma HonestIsCalm(cfg: Config, n: Net, m: Move)
    requires Honest(cfg, n, m)
    ensures CalmMove(cfg, n, m)
  {
    if m.PeerOpens? {
      WaitingIsCalm(cfg, Lookup(n.conns, m.key), To(cfg, n.up, m.key), From(n.down, m.key));
    }
  }

  // ---------------------------------------------------------------------- invariant

  ghost predicate RemoteOk(cfg: Config, alloc: Offers, waits: bool, n: Net, k: Key) {
    KeyOk(cfg, alloc(k), waits, Lookup(n.conns, k), PeerAt(n, k), To(cfg, n.up, k), From(n.down, k))
  }

  ghost predicate NetOk(cfg: Config, alloc: Offers, waits: bool, n: Net) {
    && EndpointOk(cfg, n.conns)
    && (forall i :: 0 <= i < |n.down| ==> Addressed(cfg, n.down[i].header))
    && (forall k :: RemoteOk(cfg, alloc, waits, n, k))
  }

  /** n after packets were handled: k has reacted with answers, but nothing is drained yet. */
  lemma ReactedRemote(cfg: Config, alloc: Offers, waits: bool, n: Net, handler: Option<Handler>, k: Key)
    requires NetOk(cfg, alloc, waits, n) && n.down != [] && ShortAnswers(handler)
    ensures
      var p := n.down[0];
      var r := Reacted(cfg, n.conns, p, handler);
      KeyOk(cfg, alloc(k), waits, Lookup(Put(n.conns, Sender(p.header), r.conn), k), PeerAt(n, k),
            To(cfg, n.up, k) + To(cfg, Answers(r, p.header), k), From(n.down[1..], k))
  {
    var p := n.down[0];
    var j := Sender(p.header);
    var full := |n.conns| >= cfg.maxConns;
    var r := Reacted(cfg, n.conns, p, handler);
    AnswersTo(cfg, full, j, Lookup(n.conns, j), p, handler);
    ToAll(cfg, Answers(r, p.header), j, k);
    assert RemoteOk(cfg, alloc, waits, n, k);
    hide KeyOk, React, To, ConnOk;
    if k == j {
      if p.header.op == OP_REQUEST {
        RequestKeeps(cfg, alloc(k), waits, full, Lookup(n.conns, k), PeerAt(n, k), To(cfg, n.up, k), p,
            From(n.down[1..], k), handler);
      } else {
        SentBounded(cfg, n.conns, k);
        UpdateKeeps(cfg, alloc(k), waits, full, Lookup(n.conns, k), PeerAt(n, k), To(cfg, n.up, k), p,
            From(n.down[1..], k), handler);
      }
    } else {
      Empty(To(cfg, n.up, k));
    }
  }

  lemma SentBounded(cfg: Config, conns: Conns, k: Key)
    requires EndpointOk(cfg, conns)
    ensures k in conns ==>
              && conns[k].sent <= conns[k].ResponseLength() && ConnOk(cfg, k, conns[k])
              && conns[k].Remote() == k && conns[k].sent <= |conns[k].Body()|
  {
  }

  lemma AnswersTo(cfg: Config, full: bool, k: Key, c: Option<Conn>, p: Packet, handler: Option<Handler>)
    requires Addressed(cfg, p.header) && Sender(p.header) == k
    requires c.Some? ==> ConnOk(cfg, k, c.value)
    ensures AllTo(cfg, Answers(React(cfg, full, c, p, handler), p.header), k)
  {
    hide Complete;
  }

  /** Draining moves every remote by one turn. */
  lemma DrainedRemote(cfg: Config, alloc: Offers, waits: bool, conns: Conns, up: seq<Packet>, order: seq<Key>, k: Key,
      h: Peer, down: seq<Packet>)
    requires EndpointOk(cfg, conns) && Distinct(order)
    requires KeyOk(cfg, alloc(k), waits, Lookup(conns, k), h, To(cfg, up, k), down)
    ensures
      var d := Drain(cfg, conns, order, DRAIN_LIMIT);
      KeyOk(cfg, alloc(k), waits, Lookup(d.conns, k), h, To(cfg, up + d.out, k), down)
  {
    hide KeyOk, To, Serve, Drain, ConnOk;
    var d := Drain(cfg, conns, order, DRAIN_LIMIT);
    var room := RoomAt(cfg, conns, order, DRAIN_LIMIT, k);
    DrainAt(cfg, conns, order, DRAIN_LIMIT, k);
    ToConcat(cfg, up, d.out, k);
    SentBounded(cfg, conns, k);
    if k in conns {
      TurnKeeps(cfg, alloc(k), waits, conns[k], h, To(cfg, up, k), down, room);
    } else {
      Empty(To(cfg, up, k));
    }
  }

  /** What a packet leaves at the endpoint and adds to the channel. */
  lemma HandleParts(cfg: Config, conns: Conns, p: Packet, handler: Option<Handler>, order: seq<Key>)
    requires Addressed(cfg, p.header)
    ensures
      var r := Reacted(cfg, conns, p, handler);
      var middle, o := Put(conns, Sender(p.header), r.conn), HandlePacket(cfg, conns, p, handler, order);
      var d := Drain(cfg, middle, order, DRAIN_LIMIT);
      if r.Proceed? then o.conns == d.conns && o.Out() == Answers(r, p.header) + d.out
      else o.conns == middle && o.Out() == Answers(r, p.header)
  {
    hide React, Drain, Put;
    var r := Reacted(cfg, conns, p, handler);
    Empty(Answers(r, p.header));
    Empty(Answers(r, p.header) + Drain(cfg, Put(conns, Sender(p.header), r.conn), order, DRAIN_LIMIT).out);
  }

  lemma EndpointMoveRemote(cfg: Config, alloc: Offers, waits: bool, n: Net, handler: Option<Handler>, order: seq<Key>,
      k: Key)
    requires NetOk(cfg, alloc, waits, n) && Honest(cfg, n, EndpointReceives(handler, order))
    ensures RemoteOk(cfg, alloc, waits, Apply(cfg, alloc, n, EndpointReceives(handler, order)), k)
  {
    var p := n.down[0];
    var r := Reacted(cfg, n.conns, p, handler);
    var middle, answers := Put(n.conns, Sender(p.header), r.conn), Answers(r, p.header);
    ReactOk(cfg, n.conns, p, handler);
    HandleParts(cfg, n.conns, p, handler, order);
    hide KeyOk, React, To, Drain, Put, From, EndpointOk, HandlePacket, Answers;
    ReactedRemote(cfg, alloc, waits, n, handler, k);
    ToConcat(cfg, n.up, answers, k);
    if r.Proceed? {
      DrainedRemote(cfg, alloc, waits, middle, n.up + answers, order, k, PeerAt(n, k), From(n.down[1..], k));
      Assoc(n.up, answers, Drain(cfg, middle, order, DRAIN_LIMIT).out);
    }
  }

  lemma EndpointMove(cfg: Config, alloc: Offers, waits: bool, n: Net, handler: Option<Handler>, order: seq<Key>)
    requires NetOk(cfg, alloc, waits, n) && Honest(cfg, n, EndpointReceives(handler, order))
    ensures NetOk(cfg, alloc, waits, Apply(cfg, alloc, n, EndpointReceives(handler, order)))
  {
    hide RemoteOk, HandlePacket, EndpointOk, HandleOrder;
    HandleOk(cfg, n.conns, n.down[0], handler, order);
    var after := Apply(cfg, alloc, n, EndpointReceives(handler, order));
    forall k ensures RemoteOk(cfg, alloc, waits, after, k) {
      EndpointMoveRemote(cfg, alloc, waits, n, handler, order, k);
    }
  }

  lemma PeerTakes(cfg: Config, alloc: Offers, waits: bool, n: Net)
    requires NetOk(cfg, alloc, waits, n) && n.up != []
    ensures NetOk(cfg, alloc, waits, Apply(cfg, alloc, n, PeerReceives))
  {
    var after := Apply(cfg, alloc, n, PeerReceives);
    hide KeyOk, EndpointOk, From;
    forall k ensures RemoteOk(cfg, alloc, waits, after, k) {
      assert RemoteOk(cfg, alloc, waits, n, k);
      if To(cfg, n.up, k) != To(cfg, n.up[1..], k)
          || (Sender(n.up[0].header) == Key(cfg.cid, cfg.port) && Receiver(n.up[0].header) == k) {
        AcceptKeeps(cfg, alloc(k), waits, Lookup(n.conns, k), PeerAt(n, k), n.up[0], To(cfg, n.up[1..], k),
            From(n.down, k));
      }
    }
  }

  /** A peer adds a packet to its channel, and may change its own state. */
  lemma PeerAdds(cfg: Config, alloc: Offers, waits: bool, n: Net, k: Key, h: Peer, p: Packet)
    requires NetOk(cfg, alloc, waits, n) && Addressed(cfg, p.header) && Sender(p.header) == k
    requires KeyOk(cfg, alloc(k), waits, Lookup(n.conns, k), h, To(cfg, n.up, k), From(n.down, k) + [p])
    ensures
      var after := n.(peers := n.peers[k := h], down := n.down + [p]);
      NetOk(cfg, alloc, waits, after)
    ensures h == PeerAt(n, k) ==> NetOk(cfg, alloc, waits, n.(down := n.down + [p]))
  {
    hide KeyOk, EndpointOk;
    forall j ensures From(n.down + [p], j) == if j == k then From(n.down, j) + [p] else From(n.down, j) {
      FromConcat(n.down, [p], j);
      assert [p][1..] == [];
      Empty(From(n.down, j));
    }
    hide From;
    var after := n.(peers := n.peers[k := h], down := n.down + [p]);
    var same := n.(down := n.down + [p]);
    forall j
      ensures RemoteOk(cfg, alloc, waits, after, j)
      ensures h == PeerAt(n, k) ==> RemoteOk(cfg, alloc, waits, same, j)
    {
      assert RemoteOk(cfg, alloc, waits, n, j);
    }
  }

  lemma ApplyOk(cfg: Config, alloc: Offers, waits: bool, n: Net, m: Move)
    requires NetOk(cfg, alloc, waits, n) && CalmMove(cfg, n, m) && (waits ==> Honest(cfg, n, m))
    ensures NetOk(cfg, alloc, waits, Apply(cfg, alloc, n, m))
  {
    hide KeyOk, HandlePacket, From, To, Drain, HandleOrder, EndpointOk;
    var after := Apply(cfg, alloc, n, m);
    match m
    case EndpointReceives(handler, order) => EndpointMove(cfg, alloc, waits, n, handler, order);
    case EndpointDrains(order) =>
      DrainOk(cfg, n.conns, order, DRAIN_LIMIT);
      forall k ensures RemoteOk(cfg, alloc, waits, after, k) {
        assert RemoteOk(cfg, alloc, waits, n, k);
        DrainedRemote(cfg, alloc, waits, n.conns, n.up, order, k, PeerAt(n, k), From(n.down, k));
      }
    case EndpointClears =>
      NoConns(cfg);
      forall k ensures RemoteOk(cfg, alloc, waits, after, k) {
        assert RemoteOk(cfg, alloc, waits, n, k);
        DropKeeps(cfg, alloc(k), waits, Lookup(n.conns, k), PeerAt(n, k), To(cfg, n.up, k), From(n.down, k));
      }
    case PeerReceives => PeerTakes(cfg, alloc, waits, n);
    case PeerOpens(k) =>
      assert RemoteOk(cfg, alloc, waits, n, k);
      OpenKeeps(cfg, alloc(k), waits, k, Lookup(n.conns, k), To(cfg, n.up, k), From(n.down, k));
      PeerAdds(cfg, alloc, waits, n, k, Connecting, FromPeer(cfg, alloc(k), k, OP_REQUEST, [], 0));
    case PeerSends(k, op, payload) =>
      assert RemoteOk(cfg, alloc, waits, n, k);
      SendKeeps(cfg, alloc(k), waits, k, Lookup(n.conns, k), PeerAt(n, k), To(cfg, n.up, k), From(n.down, k), op,
          payload);
      PeerAdds(cfg, alloc, waits, n, k, PeerAt(n, k), FromPeer(cfg, alloc(k), k, op, payload, Consumed(PeerAt(n, k))));
    case PeerConsumes(k, count) =>
      assert RemoteOk(cfg, alloc, waits, n, k);
      ConsumeKeeps(cfg, alloc(k), waits, Lookup(n.conns, k), PeerAt(n, k), To(cfg, n.up, k), From(n.down, k), count);
      forall j ensures RemoteOk(cfg, alloc, waits, after, j) { assert RemoteOk(cfg, alloc, waits, n, j); }
    case PeerCloses(k) =>
      assert RemoteOk(cfg, alloc, waits, n, k);
      CloseKeeps(cfg, alloc(k), waits, k, Lookup(n.conns, k), PeerAt(n, k), To(cfg, n.up, k), From(n.down, k));
      PeerAdds(cfg, alloc, waits, n, k, Closed, FromPeer(cfg, alloc(k), k, OP_RESET, [], Consumed(PeerAt(n, k))));
  }

  lemma NoConns(cfg: Config)
    ensures EndpointOk(cfg, map[])
  {
  }

  lemma QuietOk(cfg: Config, alloc: Offers, waits: bool)
    ensures NetOk(cfg, alloc, waits, QUIET)
  {
  }

  lemma {:induction false} PlayOk(cfg: Config, alloc: Offers, moves: seq<Move>)
    requires HonestPlay(cfg, alloc, moves)
    ensures NetOk(cfg, alloc, true, Play(cfg, alloc, moves))
    decreases |moves|
  {
    hide NetOk, Honest, Apply, CalmMove;
    if moves == [] {
      QuietOk(cfg, alloc, true);
    } else {
      var n, m := Play(cfg, alloc, moves[..|moves| - 1]), moves[|moves| - 1];
      PlayOk(cfg, alloc, moves[..|moves| - 1]);
      HonestIsCalm(cfg, n, m);
      ApplyOk(cfg, alloc, true, n, m);
    }
  }

  lemma {:induction false} CalmPlayOk(cfg: Config, alloc: Offers, moves: seq<Move>)
    requires CalmPlay(cfg, alloc, moves)
    ensures NetOk(cfg, alloc, false, Play(cfg, alloc, moves))
    decreases |moves|
  {
    hide NetOk, Honest, Apply, CalmMove;
    if moves == [] {
      QuietOk(cfg, alloc, false);
    } else {
      CalmPlayOk(cfg, alloc, moves[..|moves| - 1]);
      ApplyOk(cfg, alloc, false, Play(cfg, alloc, moves[..|moves| - 1]), moves[|moves| - 1]);
    }
  }

  /** A peer that offers alloc bytes of buffer holds no more than alloc bytes that it has not
      consumed. */
  predicate BufferSafe(alloc: u32, h: Peer) {
    h.Established? ==> h.consumed <= |h.received| && |h.received| - h.consumed <= alloc
  }

  /** What the endpoint has sent beyond the last acknowledgement it knows fits both buffers. A
      response is not longer than 2^32 bytes; when all of that is sent, the counters have wrapped. */
  predicate WindowSafe(cfg: Config, alloc: u32, c: Conn) {
    c.sent < W32 ==> c.peerFwd <= c.sent && c.sent - c.peerFwd <= Min(alloc, cfg.bufferLen)
  }

  /** The peer has received a part of what its connection has sent of the response, in order. */
  predicate Counted(c: Conn, h: Peer) {
    h.Established? ==> |h.received| <= c.sent <= |c.Body()| && h.received <= c.Body()
  }

  /** The endpoint knows no acknowledgement newer than the peer's. */
  predicate Acknowledged(c: Conn, h: Peer) {
    h.Established? && c.sent < W32 ==> c.peerFwd <= h.consumed
  }

  /** Credit safety, in every interleaving of waiting peers: no peer is sent more than its buffer
      holds, unacknowledged bytes stay within both buffers on every connection, whatever has
      become of its peer, and an established peer and its connection count the same bytes. */
  lemma CreditSafety(cfg: Config, alloc: Offers, moves: seq<Move>, k: Key)
    requires HonestPlay(cfg, alloc, moves)
    ensures
      var n := Play(cfg, alloc, moves);
      && BufferSafe(alloc(k), PeerAt(n, k))
      && (k in n.conns ==>
            && WindowSafe(cfg, alloc(k), n.conns[k])
            && Counted(n.conns[k], PeerAt(n, k)) && Acknowledged(n.conns[k], PeerAt(n, k)))
  {
    PlayOk(cfg, alloc, moves);
    hide Play, HonestPlay;
    var n := Play(cfg, alloc, moves);
    assert RemoteOk(cfg, alloc, true, n, k);
    SentBounded(cfg, n.conns, k);
    KeySafe(cfg, alloc(k), true, Lookup(n.conns, k), PeerAt(n, k), To(cfg, n.up, k), From(n.down, k));
  }

  /** The same for calm peers; an acknowledgement may belong to an earlier attempt until the
      endpoint has taken the request of the present one. */
  lemma CalmSafety(cfg: Config, alloc: Offers, moves: seq<Move>, k: Key)
    requires CalmPlay(cfg, alloc, moves)
    ensures
      var n := Play(cfg, alloc, moves);
      && BufferSafe(alloc(k), PeerAt(n, k))
      && (k in n.conns ==> WindowSafe(cfg, alloc(k), n.conns[k]) && Counted(n.conns[k], PeerAt(n, k)))
      && (k in n.conns && Count(From(n.down, k), OP_REQUEST) == 0 ==> Acknowledged(n.conns[k], PeerAt(n, k)))
  {
    CalmPlayOk(cfg, alloc, moves);
    hide Play, CalmPlay;
    var n := Play(cfg, alloc, moves);
    assert RemoteOk(cfg, alloc, false, n, k);
    SentBounded(cfg, n.conns, k);
    KeySafe(cfg, alloc(k), false, Lookup(n.conns, k), PeerAt(n, k), To(cfg, n.up, k), From(n.down, k));
  }
  lemma Reopens(cfg: Config, alloc: Offers, n: Net, k: Key)
    requires Count(From(n.down, k), OP_REQUEST) + Count(To(cfg, n.up, k), OP_RESPONSE) == 0
    ensures Honest(cfg, Apply(cfg, alloc, n, PeerCloses(k)), PeerOpens(k))
  {
    hide Count, To;
    var reset := FromPeer(cfg, alloc(k), k, OP_RESET, [], Consumed(PeerAt(n, k)));
    FromConcat(n.down, [reset], k);
    assert From([reset], k) == [reset];
    hide From;
    CountConcat(From(n.down, k), [reset], OP_REQUEST);
    CountOne(reset, OP_REQUEST);
  }

  lemma NoneUnderWay(cfg: Config, alloc: Offers, moves: seq<Move>, k: Key)
    requires HonestPlay(cfg, alloc, moves) && PeerAt(Play(cfg, alloc, moves), k).Established?
    ensures
      var n := Play(cfg, alloc, moves);
      Count(From(n.down, k), OP_REQUEST) + Count(To(cfg, n.up, k), OP_RESPONSE) == 0
  {
    PlayOk(cfg, alloc, moves);
    hide Play, HonestPlay, Count, From, To;
    assert RemoteOk(cfg, alloc, true, Play(cfg, alloc, moves), k);
  }

  /** What a waiting peer can see: once it has heard the response to its request, it may close
      and open again at once. */
  lemma MayReopen(cfg: Config, alloc: Offers, moves: seq<Move>, k: Key)
    requires HonestPlay(cfg, alloc, moves) && PeerAt(Play(cfg, alloc, moves), k).Established?
    ensures HonestPlay(cfg, alloc, moves + [PeerCloses(k)] + [PeerOpens(k)])
  {
    hide Play, HonestPlay, Apply, Honest;
    NoneUnderWay(cfg, alloc, moves, k);
    Reopens(cfg, alloc, Play(cfg, alloc, moves), k);
    PlayNext(cfg, alloc, moves, PeerCloses(k));
    MayClose(cfg, Play(cfg, alloc, moves), k);
    HonestNext(cfg, alloc, moves, PeerCloses(k));
    HonestNext(cfg, alloc, moves + [PeerCloses(k)], PeerOpens(k));
  }

  lemma MayClose(cfg: Config, n: Net, k: Key)
    ensures Honest(cfg, n, PeerCloses(k))
  {
  }

  lemma HonestNext(cfg: Config, alloc: Offers, moves: seq<Move>, m: Move)
    requires HonestPlay(cfg, alloc, moves) && Honest(cfg, Play(cfg, alloc, moves), m)
    ensures HonestPlay(cfg, alloc, moves + [m])
  {
    hide Honest, Apply;
    Last(moves, m);
  }

  lemma PlayNext(cfg: Config, alloc: Offers, moves: seq<Move>, m: Move)
    ensures Play(cfg, alloc, moves + [m]) == Apply(cfg, alloc, Play(cfg, alloc, moves), m)
  {
    hide Apply;
    Last(moves, m);
  }

  lemma KeySafe(cfg: Config, alloc: u32, waits: bool, c: Option<Conn>, h: Peer, up: seq<Packet>, down: seq<Packet>)
    requires KeyOk(cfg, alloc, waits, c, h, up, down) && (c.Some? ==> c.value.sent <= |c.value.Body()|)
    ensures BufferSafe(alloc, h)
    ensures c.Some? ==> WindowSafe(cfg, alloc, c.value) && Counted(c.value, h)
    ensures c.Some? && (waits || Count(down, OP_REQUEST) == 0) ==> Acknowledged(c.value, h)
  {
    FrontSnoc(down, FromPeer(cfg, alloc, Key(0, 0), OP_RESET, [], 0));
    hide Rising, Zeroed, Front, ResetFirst, Earlier, Loud, Stream, Live, AfterResponse;
  }
}
