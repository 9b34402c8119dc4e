/** No response gets stuck: from every state that the driver and waiting peers can reach, there is
    a way on in which a peer receives the whole response of its connection, however small the
    buffers and however short the ring. */
module Completion {
  import opened Bytes
  import opened Wire
  import opened Protocol
  import opened Connections
  import opened History
  import opened Channels
  import opened Hazards
  import opened Credit
  import opened Network
  import opened Composition
  import opened Reopening
  import opened Realized
  import opened Opening

  /** What a peer sends on an open connection. */
  ghost predicate Orderly(ps: seq<Packet>) {
    forall i :: 0 <= i < |ps| ==> ps[i].header.op in {OP_READ_WRITE, OP_CREDIT_UPDATE, OP_CREDIT_REQUEST, OP_SHUTDOWN}
  }

  /** k's peer and its connection belong together, body is the response, and what the peer has
      sent beyond its request still fits the endpoint's buffer. */
  ghost predicate Streaming(cfg: Config, alloc: Offers, n: Net, k: Key, body: seq<byte>) {
    && NetOk(cfg, alloc, true, n) && k in n.conns && n.conns[k].response == Some(body)
    && Attached(PeerAt(n, k), To(cfg, n.up, k), From(n.down, k))
    && Orderly(From(n.down, k))
    && |n.conns[k].request| + |Stream(From(n.down, k))| <= cfg.bufferLen
  }

  // ------------------------------------------------------------------- the peer's part

  lemma HearsOne(cfg: Config, alloc: Offers, n: Net, k: Key, body: seq<byte>)
    requires Streaming(cfg, alloc, n, k, body) && n.up != []
    ensures Streaming(cfg, alloc, Apply(cfg, alloc, n, PeerReceives), k, body)
  {
    hide From, Whole, NetOk, Orderly, Stream, Heard, Live;
    HonestIsCalm(cfg, n, PeerReceives);
    ApplyOk(cfg, alloc, true, n, PeerReceives);
    ToHead(cfg, n, k);
    hide To;
    AcceptTotal(PeerAt(n, k), n.up[0], To(cfg, n.up[1..], k));
    Delivery.NotHeard(To(cfg, n.up, k));
  }

  /** When nothing is under way to it, the peer holds all that has been sent. */
  lemma HeardAll(cfg: Config, alloc: Offers, n: Net, k: Key, body: seq<byte>)
    requires Streaming(cfg, alloc, n, k, body) && n.up == []
    ensures PeerAt(n, k).Established? && n.conns[k].sent <= |body| <= W32
    ensures PeerAt(n, k).received == body[..n.conns[k].sent] && PeerAt(n, k).consumed <= n.conns[k].sent
  {
    hide From, Orderly, Rising, Zeroed, Front, Current, ResetFirst, Loud, Count, Whole, Heard, Live;
    assert To(cfg, [], k) == [];
    assert RemoteOk(cfg, alloc, true, n, k);
    NothingMore(PeerAt(n, k));
  }

  lemma NothingMore(h: Peer)
    ensures Heard(h, []) ==> h.Established? && Whole(h, []) == h.received
  {
  }

  /** What a peer announces when it has consumed n bytes. */
  function News(cfg: Config, alloc: Offers, k: Key, n: nat): Packet {
    FromPeer(cfg, alloc(k), k, OP_CREDIT_UPDATE, [], n)
  }

  lemma ConsumesAll(cfg: Config, alloc: Offers, n: Net, k: Key, body: seq<byte>)
    requires Streaming(cfg, alloc, n, k, body) && PeerAt(n, k).Established?
    requires PeerAt(n, k).consumed <= |PeerAt(n, k).received|
    ensures
      var m := PeerConsumes(k, |PeerAt(n, k).received| - PeerAt(n, k).consumed);
      var after := Apply(cfg, alloc, n, m);
      && Honest(cfg, n, m) && Streaming(cfg, alloc, after, k, body)
      && after.conns == n.conns && after.up == n.up && after.down == n.down
      && PeerAt(after, k) == Established(PeerAt(n, k).received, |PeerAt(n, k).received|)
  {
    hide From, To, Whole, NetOk, Orderly, Stream, Count, Live;
    var m := PeerConsumes(k, |PeerAt(n, k).received| - PeerAt(n, k).consumed);
    HonestIsCalm(cfg, n, m);
    ApplyOk(cfg, alloc, true, n, m);
  }

  lemma Announces(cfg: Config, alloc: Offers, n: Net, k: Key, body: seq<byte>)
    requires Streaming(cfg, alloc, n, k, body) && PeerAt(n, k).Established?
    ensures
      var m := PeerSends(k, OP_CREDIT_UPDATE, []);
      var after := Apply(cfg, alloc, n, m);
      var news := News(cfg, alloc, k, PeerAt(n, k).consumed);
      && Honest(cfg, n, m) && Streaming(cfg, alloc, after, k, body)
      && after.conns == n.conns && after.up == n.up && after.peers == n.peers && after.down == n.down + [news]
      && From(after.down, k) == From(n.down, k) + [news]
  {
    hide To, Whole, NetOk, Live;
    var m, news := PeerSends(k, OP_CREDIT_UPDATE, []), News(cfg, alloc, k, PeerAt(n, k).consumed);
    HonestIsCalm(cfg, n, m);
    ApplyOk(cfg, alloc, true, n, m);
    FromConcat(n.down, [news], k);
    assert From([news], k) == [news];
    CountConcat(From(n.down, k), [news], OP_REQUEST);
    CountOne(news, OP_REQUEST);
    StreamConcat(From(n.down, k), [news]);
    assert Stream([news]) == [];
    hide From, Stream, Count;
  }

  // --------------------------------------------------------------- the endpoint's part

  /** A connection with a response outlives every packet that fits. */
  lemma ReactStays(cfg: Config, full: bool, c: Conn, p: Packet, rest: seq<Packet>)
    requires c.response.Some? && Orderly([p] + rest) && |c.request| + |Stream([p] + rest)| <= cfg.bufferLen
    ensures
      var r := React(cfg, full, Some(c), p, Some(OneByte()));
      && r.Proceed? && r.conn.Some? && Count(Answers(r, p.header), OP_RESET) == 0
      && r.conn.value.response == c.response && r.conn.value.sent == c.sent
      && |r.conn.value.request| + |Stream(rest)| <= cfg.bufferLen
      && (p.header.op == OP_CREDIT_UPDATE ==> r.conn == Some(UpdatePeer(c, p.header)))
  {
    assert ([p] + rest)[0] == p && ([p] + rest)[1..] == rest;
    hide Complete;
  }

  /** So does its turn. */
  lemma ServeStays(cfg: Config, c: Conn, room: nat)
    requires ConnOk(cfg, c.Remote(), c) && c.response.Some?
    ensures
      var s := Serve(cfg, c, room);
      && s.conn.Some? && s.conn.value.response == c.response && s.conn.value.request == c.request
      && c.sent <= s.conn.value.sent && Count(s.out, OP_RESET) == 0
  {
    ServeFacts(cfg, c, room);
    ServeAdds(cfg, c, room);
    hide Serve, Stream, Count;
  }

  /** With credit, a turn sends something. */
  lemma ServeSends(cfg: Config, c: Conn, room: nat)
    requires ConnOk(cfg, c.Remote(), c) && room > 0 && CanSend(cfg, c) && c.response.Some?
    ensures Serve(cfg, c, room).conn.Some? && Serve(cfg, c, room).conn.value.sent > c.sent
  {
    AfterChunkOk(cfg, c);
    SendChunksFacts(cfg, AfterChunk(cfg, c), room - 1);
    ServeStays(cfg, c, room);
    hide Stream, AllTo, AllOp, ConnOk, AfterChunk, Chunk, CanSend;
  }

  lemma OrderlyTail(p: Packet, rest: seq<Packet>)
    requires Orderly([p] + rest)
    ensures Orderly(rest)
  {
    assert forall i :: 0 <= i < |rest| ==> rest[i] == ([p] + rest)[i + 1];
  }

  /** k's connection when the next packet is taken, before the drain. */
  lemma MiddleStays(cfg: Config, alloc: Offers, n: Net, k: Key, body: seq<byte>)
    requires Streaming(cfg, alloc, n, k, body) && n.down != []
    ensures
      var d := Middle(cfg, n, k);
      && d.Some? && d.value.response == Some(body) && d.value.sent == n.conns[k].sent
      && |d.value.request| + |Stream(From(n.down[1..], k))| <= cfg.bufferLen
      && Orderly(From(n.down[1..], k)) && Count(From(n.down[1..], k), OP_REQUEST) == 0
      && Count(Said(cfg, n, k), OP_RESET) == 0
    ensures Sender(n.down[0].header) == k ==>
              && Reacted(cfg, n.conns, n.down[0], Some(OneByte())).Proceed?
              && (n.down[0].header.op == OP_CREDIT_UPDATE ==>
                    Middle(cfg, n, k) == Some(UpdatePeer(n.conns[k], n.down[0].header)))
  {
    hide Stream, Live, To, NetOk, React, Answers, Orderly;
    var p, rest := n.down[0], From(n.down[1..], k);
    FromHead(n, k);
    hide From;
    if Sender(p.header) == k {
      ReactStays(cfg, |n.conns| >= cfg.maxConns, n.conns[k], p, rest);
      OrderlyTail(p, rest);
      Head(p, rest);
    }
  }

  /** The endpoint takes a packet, and k's connection goes on. */
  lemma TakesOne(cfg: Config, alloc: Offers, n: Net, k: Key, body: seq<byte>) returns (after: Net)
    requires Streaming(cfg, alloc, n, k, body) && PeerAt(n, k).Established? && n.down != []
    ensures after == Apply(cfg, alloc, n, TakeMove(cfg, n, k)) && Honest(cfg, n, TakeMove(cfg, n, k))
    ensures Streaming(cfg, alloc, after, k, body) && after.peers == n.peers && after.down == n.down[1..]
    ensures after.conns[k].sent >= n.conns[k].sent
    ensures
      var h := n.down[0].header;
      Sender(h) == k && h.op == OP_CREDIT_UPDATE && CanSend(cfg, UpdatePeer(n.conns[k], h)) ==>
        after.conns[k].sent > n.conns[k].sent
  {
    hide Stream, Live, To, From, React, Answers, Orderly, TakeMove, Middle, Said, Count, KeyOk, CanSend;
    hide EndpointOk, Apply, Honest, ConnOk, Serve, HandlePacket;
    after := Apply(cfg, alloc, n, TakeMove(cfg, n, k));
    var room := Taken(cfg, alloc, n, k);
    MiddleStays(cfg, alloc, n, k, body);
    HonestIsCalm(cfg, n, TakeMove(cfg, n, k));
    ApplyOk(cfg, alloc, true, n, TakeMove(cfg, n, k));
    var d := Middle(cfg, n, k).value;
    ServeStays(cfg, d, room);
    CountConcat(To(cfg, n.up, k), Said(cfg, n, k), OP_RESET);
    CountConcat(To(cfg, n.up, k) + Said(cfg, n, k), Serve(cfg, d, room).out, OP_RESET);
    if Sender(n.down[0].header) == k && n.down[0].header.op == OP_CREDIT_UPDATE && CanSend(cfg, d) {
      ServeSends(cfg, d, room);
    }
  }

  /** With everything acknowledged, there is credit. */
  lemma NewsGivesCredit(cfg: Config, alloc: Offers, c: Conn, k: Key)
    requires alloc(k) > 0 && cfg.bufferLen > 0 && c.sent < c.ResponseLength() && c.sent < W32
    requires c.txCount == Wrap32(c.sent)
    ensures CanSend(cfg, UpdatePeer(c, News(cfg, alloc, k, c.sent).header))
  {
  }

  // --------------------------------------------------------------------- on the driver

  /** Peers that wait, and answers that fit the counters. */
  const WAITING: Rule := Rule((requests, responses) => requests + responses == 0, W32)

  lemma HonestIsRuled(cfg: Config, n: Net, m: Move)
    requires Honest(cfg, n, m)
    ensures Ruled(cfg, WAITING, n, m)
  {
    hide Count, From, To, HandleOrder, IsOrder;
  }

  /** The peers hear everything that is under way to them. */
  lemma {:induction false} HearAll(cfg: Config, alloc: Offers, depth: nat, moves: seq<JointMove>, n: Net, k: Key,
      body: seq<byte>) returns (more: seq<JointMove>, m: Net)
    requires depth > 0 && Realizes(cfg, alloc, depth, WAITING, moves, n) && Streaming(cfg, alloc, n, k, body)
    ensures Realizes(cfg, alloc, depth, WAITING, more, m) && Streaming(cfg, alloc, m, k, body) && moves <= more
    ensures m.up == [] && m.conns == n.conns && m.down == n.down
    decreases |n.up|
  {
    hide Realizes, Streaming, Accept;
    more, m := moves, n;
    if n.up != [] {
      HearsOne(cfg, alloc, n, k, body);
      HonestIsRuled(cfg, n, PeerReceives);
      more := RealizeMove(cfg, alloc, depth, WAITING, moves, n, PeerReceives);
      more, m := HearAll(cfg, alloc, depth, more, Apply(cfg, alloc, n, PeerReceives), k, body);
    }
  }

  /** The endpoint takes everything that is under way to it, the last packet of k's being news
      that everything up to some point is consumed, and sends beyond that point. */
  lemma {:induction false} TakeNews(cfg: Config, alloc: Offers, depth: nat, moves: seq<JointMove>, n: Net, k: Key,
      body: seq<byte>, point: nat) returns (more: seq<JointMove>, m: Net)
    requires depth > 0 && Realizes(cfg, alloc, depth, WAITING, moves, n) && Streaming(cfg, alloc, n, k, body)
    requires alloc(k) > 0 && cfg.bufferLen > 0 && PeerAt(n, k).Established? && point < |body| <= W32
    requires n.conns[k].sent > point || (n.conns[k].sent == point && From(n.down, k) != []
             && From(n.down, k)[|From(n.down, k)| - 1] == News(cfg, alloc, k, point))
    ensures Realizes(cfg, alloc, depth, WAITING, more, m) && Streaming(cfg, alloc, m, k, body) && moves <= more
    ensures m.conns[k].sent > point
    decreases |n.down|
  {
    hide Realizes, TakeMove, Apply, Honest, Ruled, From, To, NetOk, Stream, Orderly, Live, Count;
    more, m := moves, n;
    if n.conns[k].sent == point {
      SomeFrom(n, k);
      var p := n.down[0];
      FromHead(n, k);
      var after := TakesOne(cfg, alloc, n, k, body);
      HonestIsRuled(cfg, n, TakeMove(cfg, n, k));
      TakesPlainly(cfg, n, k);
      more := RealizeMove(cfg, alloc, depth, WAITING, moves, n, TakeMove(cfg, n, k));
      var rest := From(n.down[1..], k);
      if Sender(p.header) == k && rest == [] {
        SentSoFar(cfg, alloc, n, k, body);
        NewsGivesCredit(cfg, alloc, n.conns[k], k);
      } else {
        if Sender(p.header) == k { LastRest(p, rest); }
      }
      more, m := TakeNews(cfg, alloc, depth, more, after, k, body, point);
    }
  }

  lemma SomeFrom(n: Net, k: Key)
    ensures From(n.down, k) != [] ==> n.down != []
  {
  }

  lemma TakesPlainly(cfg: Config, n: Net, k: Key)
    requires n.down != []
    ensures Plain(TakeMove(cfg, n, k))
  {
  }

  lemma SentSoFar(cfg: Config, alloc: Offers, n: Net, k: Key, body: seq<byte>)
    requires Streaming(cfg, alloc, n, k, body)
    ensures n.conns[k].txCount == Wrap32(n.conns[k].sent) && n.conns[k].ResponseLength() == |body|
  {
    SentBounded(cfg, n.conns, k);
    hide RemoteOk, From, To, Stream, Orderly;
  }

  /** Round after round, the peer takes what has been sent, consumes it and says so. */
  lemma {:induction false} FinishRounds(cfg: Config, alloc: Offers, depth: nat, moves: seq<JointMove>, n: Net, k: Key,
      body: seq<byte>) returns (more: seq<JointMove>, m: Net)
    requires depth > 0 && Realizes(cfg, alloc, depth, WAITING, moves, n) && Streaming(cfg, alloc, n, k, body)
    requires alloc(k) > 0 && cfg.bufferLen > 0 && n.conns[k].sent <= |body|
    ensures Realizes(cfg, alloc, depth, WAITING, more, m) && moves <= more
    ensures PeerAt(m, k).Established? && PeerAt(m, k).received == body
    decreases |body| - n.conns[k].sent
  {
    hide Realizes, Apply, Honest, Ruled, From, To, NetOk, Stream, Orderly, Live, Count, Attached;
    more, m := HearAll(cfg, alloc, depth, moves, n, k, body);
    HeardAll(cfg, alloc, m, k, body);
    var sent := m.conns[k].sent;
    if sent < |body| {
      var eat := PeerConsumes(k, |PeerAt(m, k).received| - PeerAt(m, k).consumed);
      ConsumesAll(cfg, alloc, m, k, body);
      HonestIsRuled(cfg, m, eat);
      more := RealizeMove(cfg, alloc, depth, WAITING, more, m, eat);
      m := Apply(cfg, alloc, m, eat);
      var say := PeerSends(k, OP_CREDIT_UPDATE, []);
      Announces(cfg, alloc, m, k, body);
      HonestIsRuled(cfg, m, say);
      more := RealizeMove(cfg, alloc, depth, WAITING, more, m, say);
      m := Apply(cfg, alloc, m, say);
      more, m := TakeNews(cfg, alloc, depth, more, m, k, body, sent);
      SentSoFar(cfg, alloc, m, k, body);
      assert m.conns[k].sent <= |body| by { SentWithin(cfg, alloc, m, k, body); }
      more, m := FinishRounds(cfg, alloc, depth, more, m, k, body);
    }
  }

  lemma SentWithin(cfg: Config, alloc: Offers, n: Net, k: Key, body: seq<byte>)
    requires Streaming(cfg, alloc, n, k, body)
    ensures n.conns[k].sent <= |body|
  {
    SentBounded(cfg, n.conns, k);
    hide RemoteOk, From, To, Stream, Orderly;
  }

  // ------------------------------------------------------------------ reachable states

  const PEER_OPS := {OP_REQUEST, OP_RESET, OP_READ_WRITE, OP_CREDIT_UPDATE, OP_CREDIT_REQUEST, OP_SHUTDOWN}

  /** What honest peers send at all. */
  ghost predicate Known(ps: seq<Packet>) {
    forall i :: 0 <= i < |ps| ==> ps[i].header.op in PEER_OPS
  }

  lemma MoveKnown(cfg: Config, alloc: Offers, depth: nat, j: Joint, m: JointMove)
    requires CanJoint(cfg, depth, j, m) && Known(j.down)
    ensures Known(ApplyJoint(cfg, alloc, j, m).down)
  {
    hide WorldOf, CanStep, HandlePacket, Drain;
  }

  lemma {:induction false} RunKnown(cfg: Config, alloc: Offers, depth: nat, moves: seq<JointMove>)
    requires JointPlay(cfg, alloc, depth, moves)
    ensures Known(JointRun(cfg, alloc, moves).down)
    decreases |moves|
  {
    hide Known, ApplyJoint, CanJoint;
    if moves == [] {
      NoneKnown();
    } else {
      var before := moves[..|moves| - 1];
      RunKnown(cfg, alloc, depth, before);
      MoveKnown(cfg, alloc, depth, JointRun(cfg, alloc, before), moves[|moves| - 1]);
    }
  }

  lemma NoneKnown()
    ensures Known([])
  {
  }

  lemma {:induction false} FromOrderly(ps: seq<Packet>, k: Key)
    requires Known(ps) && Count(From(ps, k), OP_REQUEST) + Count(From(ps, k), OP_RESET) == 0
    ensures Orderly(From(ps, k))
  {
    if ps != [] {
      FromOrderly(ps[1..], k);
    }
  }

  lemma NoReset(cfg: Config, alloc: Offers, n: Net, k: Key)
    requires NetOk(cfg, alloc, true, n) && Attached(PeerAt(n, k), To(cfg, n.up, k), From(n.down, k))
    ensures Count(From(n.down, k), OP_RESET) == 0
  {
    assert RemoteOk(cfg, alloc, true, n, k);
    hide From, To, Live, Rising, Zeroed;
  }

  /** Joint runs of honest peers are joint runs under the rule that makes them wait. */
  lemma {:induction false} HonestIsRuledJoint(cfg: Config, alloc: Offers, depth: nat, moves: seq<JointMove>)
    requires JointPlay(cfg, alloc, depth, moves)
    ensures RuledJoint(cfg, alloc, depth, WAITING, moves)
    decreases |moves|
  {
    if moves != [] {
      var before, m := moves[..|moves| - 1], moves[|moves| - 1];
      HonestIsRuledJoint(cfg, alloc, depth, before);
      var j := JointRun(cfg, alloc, before);
      hide JointRun, RuledJoint, JointPlay, AsNet, WorldOf, CanStep, Honest, Ruled;
      if m.PeerMove? { HonestIsRuled(cfg, AsNet(cfg, j), m.move); }
    }
  }

  /** k's peer belongs to a connection that has its response, and whose request fits the buffer
      with everything that is still under way. */
  ghost predicate Answered(cfg: Config, n: Net, k: Key) {
    && k in n.conns && n.conns[k].response.Some?
    && Attached(PeerAt(n, k), To(cfg, n.up, k), From(n.down, k))
    && |n.conns[k].request| + |Stream(From(n.down, k))| <= cfg.bufferLen
  }

  /** No response gets stuck. After any run of the driver with waiting peers that has not failed,
      for a ring of any depth and buffers of any size, the run can go on so that k's peer holds
      the whole response of its connection. */
  lemma CanFinish(cfg: Config, alloc: Offers, depth: nat, moves: seq<JointMove>, k: Key)
      returns (more: seq<JointMove>)
    requires depth > 0 && alloc(k) > 0 && cfg.bufferLen > 0 && JointPlay(cfg, alloc, depth, moves)
    requires
      var j := JointRun(cfg, alloc, moves);
      !WorldOf(cfg, j).failed && Answered(cfg, AsNet(cfg, j), k)
    ensures moves <= more && JointPlay(cfg, alloc, depth, more)
    ensures
      var body := WorldOf(cfg, JointRun(cfg, alloc, moves)).conns[k].response.value;
      var h := PeerAt(AsNet(cfg, JointRun(cfg, alloc, more)), k);
      h.Established? && h.received == body
  {
    hide JointRun, JointPlay, RuledJoint, From, To, NetOk, Count, Live, Stream, Orderly, Known, Run;
    var j := JointRun(cfg, alloc, moves);
    var n := AsNet(cfg, j);
    var body := n.conns[k].response.value;
    Delivery.JointNet(cfg, alloc, depth, moves);
    RunKnown(cfg, alloc, depth, moves);
    NoReset(cfg, alloc, n, k);
    FromOrderly(n.down, k);
    HonestIsRuledJoint(cfg, alloc, depth, moves);
    SentWithin(cfg, alloc, n, k, body);
    var m: Net;
    more, m := FinishRounds(cfg, alloc, depth, moves, n, k, body);
    RuledIsHonest(cfg, alloc, depth, WAITING, more);
  }
}
