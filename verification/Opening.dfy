/** The exact condition for opening a connection: where it fails, there is a way on, without any
    further opening, in which the peer counts bytes that its connection has not sent. */
module Opening {
  import opened Bytes
  import opened Wire
  import opened Seqs
  import opened Protocol
  import opened Connections
  import opened Channels
  import opened Hazards
  import opened Credit
  import opened Network

  // --------------------------------------------------------------------- ways on

  /** Moves that may follow the moves of base. */
  ghost predicate CalmAfter(cfg: Config, alloc: Offers, base: seq<Move>, more: seq<Move>) {
    more != [] ==>
      && CalmAfter(cfg, alloc, base, more[..|more| - 1])
      && CalmMove(cfg, Play(cfg, alloc, base + more[..|more| - 1]), more[|more| - 1])
  }

  predicate NoOpens(moves: seq<Move>) {
    forall i :: 0 <= i < |moves| ==> !moves[i].PeerOpens?
  }

  /** n can follow base without any further opening. */
  ghost predicate Reached(cfg: Config, alloc: Offers, base: seq<Move>, n: Net) {
    exists more :: NoOpens(more) && CalmAfter(cfg, alloc, base, more) && Play(cfg, alloc, base + more) == n
  }

  lemma ReachedStart(cfg: Config, alloc: Offers, base: seq<Move>)
    ensures Reached(cfg, alloc, base, Play(cfg, alloc, base))
  {
    Empty(base);
    assert NoOpens([]) && CalmAfter(cfg, alloc, base, []);
  }

  lemma ReachedNext(cfg: Config, alloc: Offers, base: seq<Move>, n: Net, m: Move)
    requires Reached(cfg, alloc, base, n) && !m.PeerOpens? && Honest(cfg, n, m)
    ensures Reached(cfg, alloc, base, Apply(cfg, alloc, n, m))
  {
    hide Apply, Honest;
    var more :| NoOpens(more) && CalmAfter(cfg, alloc, base, more) && Play(cfg, alloc, base + more) == n;
    Last(more, m);
    Assoc(base, more, [m]);
    Last(base + more, m);
    assert NoOpens(more + [m]) && CalmAfter(cfg, alloc, base, more + [m]);
  }

  // --------------------------------------------------------------- what a move does to k

  ghost predicate Sane(cfg: Config, n: Net) {
    EndpointOk(cfg, n.conns) && forall i :: 0 <= i < |n.down| ==> Addressed(cfg, n.down[i].header)
  }

  /** The endpoint takes the next packet, its application answers with one byte, and k has the
      first turn in the drain. */
  ghost function Order(cfg: Config, n: Net, k: Key): (order: seq<Key>)
    requires n.down != []
    ensures
      var r := Reacted(cfg, n.conns, n.down[0], Some(OneByte()));
      var keys := Put(n.conns, Sender(n.down[0].header), r.conn).Keys;
      IsOrder(order, keys) && (k in keys ==> order != [] && order[0] == k)
  {
    var r := Reacted(cfg, n.conns, n.down[0], Some(OneByte()));
    OrderExists(k, Put(n.conns, Sender(n.down[0].header), r.conn).Keys);
    var order :| IsOrder(order, Put(n.conns, Sender(n.down[0].header), r.conn).Keys)
                 && (k in Put(n.conns, Sender(n.down[0].header), r.conn).Keys ==> order != [] && order[0] == k);
    order
  }

  lemma OrderExists(k: Key, keys: set<Key>)
    ensures exists order :: IsOrder(order, keys) && (k in keys ==> order != [] && order[0] == k)
  {
    var order := EnumerateFrom(k, keys);
  }

  ghost function TakeMove(cfg: Config, n: Net, k: Key): Move
    requires n.down != []
  {
    EndpointReceives(Some(OneByte()), Order(cfg, n, k))
  }

  /** k's connection between the reaction to a packet and the drain. */
  function Middle(cfg: Config, n: Net, k: Key): Option<Conn>
    requires n.down != []
  {
    if Sender(n.down[0].header) == k then Reacted(cfg, n.conns, n.down[0], Some(OneByte())).conn else Lookup(n.conns, k)
  }

  /** What is sent to k in between. */
  function Said(cfg: Config, n: Net, k: Key): seq<Packet>
    requires n.down != []
  {
    if Sender(n.down[0].header) == k then Answers(Reacted(cfg, n.conns, n.down[0], Some(OneByte())), n.down[0].header)
        else []
  }

  /** A drain that visits k first, after answers have been sent. */
  lemma TurnTaken(cfg: Config, up: seq<Packet>, answers: seq<Packet>, conns: Conns, order: seq<Key>, k: Key)
    requires EndpointOk(cfg, conns) && IsOrder(order, conns.Keys) && (k in conns ==> order != [] && order[0] == k)
    ensures
      var d, room := Drain(cfg, conns, order, DRAIN_LIMIT), RoomAt(cfg, conns, order, DRAIN_LIMIT, k);
      var sent := To(cfg, up + (answers + d.out), k);
      && (k in conns ==>
            && room == DRAIN_LIMIT && Lookup(d.conns, k) == Serve(cfg, conns[k], room).conn
            && sent == To(cfg, up, k) + To(cfg, answers, k) + Serve(cfg, conns[k], room).out)
      && (k !in conns ==> Lookup(d.conns, k) == None && sent == To(cfg, up, k) + To(cfg, answers, k))
  {
    var d := Drain(cfg, conns, order, DRAIN_LIMIT);
    DrainAt(cfg, conns, order, DRAIN_LIMIT, k);
    hide To, Drain, RoomAt, Serve, EndpointOk;
    ToConcat(cfg, up, answers + d.out, k);
    ToConcat(cfg, answers, d.out, k);
    if k in conns {
      FirstRoom(cfg, conns, order, DRAIN_LIMIT);
      Assoc(To(cfg, up, k), To(cfg, answers, k), Serve(cfg, conns[k], DRAIN_LIMIT).out);
    } else {
      Empty(To(cfg, answers, k));
    }
  }

  lemma Taken(cfg: Config, alloc: Offers, n: Net, k: Key) returns (room: nat)
    requires Sane(cfg, n) && n.down != []
    ensures Honest(cfg, n, TakeMove(cfg, n, k)) && !TakeMove(cfg, n, k).PeerOpens?
    ensures
      var after := Apply(cfg, alloc, n, TakeMove(cfg, n, k));
      && Sane(cfg, after) && after.down == n.down[1..] && after.peers == n.peers
      && match Middle(cfg, n, k)
         case None => Lookup(after.conns, k) == None && To(cfg, after.up, k) == To(cfg, n.up, k) + Said(cfg, n, k)
         case Some(c) =>
           && ConnOk(cfg, c.Remote(), c)
           && Lookup(after.conns, k) == Serve(cfg, c, room).conn
           && To(cfg, after.up, k) == To(cfg, n.up, k) + Said(cfg, n, k) + Serve(cfg, c, room).out
    ensures Reacted(cfg, n.conns, n.down[0], Some(OneByte())).Proceed? ==>
              room == DRAIN_LIMIT || Middle(cfg, n, k) == None
  {
    hide React, To, Drain, Put, EndpointOk, HandlePacket, Answers, Serve, ConnOk;
    var p := n.down[0];
    var handler := Some(OneByte());
    var r := Reacted(cfg, n.conns, p, handler);
    var order := Order(cfg, n, k);
    var middle, answers := Put(n.conns, Sender(p.header), r.conn), Answers(r, p.header);
    ReactOk(cfg, n.conns, p, handler);
    HandleParts(cfg, n.conns, p, handler, order);
    HandleOk(cfg, n.conns, p, handler, order);
    TakenAnswers(cfg, n, k);
    ToConcat(cfg, n.up, answers, k);
    SentBounded(cfg, middle, k);
    room := 0;
    if r.Proceed? {
      TurnTaken(cfg, n.up, answers, middle, order, k);
      room := RoomAt(cfg, middle, order, DRAIN_LIMIT, k);
    } else if k in middle {
      ServeTo(cfg, middle[k], 0, k);
      Empty(To(cfg, n.up, k) + Said(cfg, n, k));
    }
  }

  lemma TakenAnswers(cfg: Config, n: Net, k: Key)
    requires Sane(cfg, n) && n.down != []
    ensures To(cfg, Answers(Reacted(cfg, n.conns, n.down[0], Some(OneByte())), n.down[0].header), k) == Said(cfg, n, k)
    ensures Lookup(Put(n.conns, Sender(n.down[0].header), Reacted(cfg, n.conns, n.down[0], Some(OneByte())).conn), k)
            == Middle(cfg, n, k)
  {
    var p := n.down[0];
    var j := Sender(p.header);
    AnswersTo(cfg, |n.conns| >= cfg.maxConns, j, Lookup(n.conns, j), p, Some(OneByte()));
    ToAll(cfg, Answers(Reacted(cfg, n.conns, p, Some(OneByte())), p.header), j, k);
    hide React;
  }

  // ------------------------------------------------------------ data behind a response

  /** No shutdown comes into play: c is not shut down before it has a response, and no shutdown
      lies in front of it. */
  predicate Unshut(c: Option<Conn>, down: seq<Packet>) {
    (c.Some? && c.value.closing ==> c.value.response.Some?) && Count(down, OP_SHUTDOWN) == 0
  }

  /** k waits for the answer to its request, with the endpoint about to send data of an earlier
      attempt behind a response. */
  ghost predicate Brewing(cfg: Config, n: Net, k: Key, earlier: seq<Packet>, request: Packet) {
    && Sane(cfg, n) && PeerAt(n, k) == Connecting
    && From(n.down, k) == earlier + [request] && request.header.op == OP_REQUEST
    && Count(To(cfg, n.up, k), OP_RESET) == 0
    && Loud(cfg, Lookup(n.conns, k), earlier, Count(To(cfg, n.up, k), OP_RESPONSE) > 0)
    && Unshut(Lookup(n.conns, k), earlier)
  }

  /** That data is on its way. */
  ghost predicate Spilled(cfg: Config, n: Net, k: Key) {
    && Sane(cfg, n) && PeerAt(n, k) == Connecting && Total(Connecting, To(cfg, n.up, k)) > 0
    && var down := From(n.down, k); down != [] && down[|down| - 1].header.op == OP_REQUEST
  }

  lemma ServeSpills(cfg: Config, c: Conn)
    requires ConnOk(cfg, c.Remote(), c) && CanSend(cfg, c)
    ensures
      var s := Serve(cfg, c, DRAIN_LIMIT);
      && Stream(s.out) != [] && Count(s.out, OP_RESPONSE) == 0 && Count(s.out, OP_RESET) == 0
  {
    ServeFacts(cfg, c, DRAIN_LIMIT);
    ServeAdds(cfg, c, DRAIN_LIMIT);
    SendChunksFacts(cfg, c, DRAIN_LIMIT);
    AfterChunkOk(cfg, c);
    SendChunksFacts(cfg, AfterChunk(cfg, c), DRAIN_LIMIT - 1);
    hide Serve, Stream;
  }

  /** Adding what is spilled behind a response. */
  lemma SpillTotal(up: seq<Packet>, more: seq<Packet>)
    requires Count(up, OP_RESET) == 0 && Count(up, OP_RESPONSE) > 0
    requires Stream(more) != [] && Count(more, OP_RESPONSE) == 0 && Count(more, OP_RESET) == 0
    ensures Total(Connecting, up + more) > 0
  {
    hide Stream, Count;
    LiveWhole(up);
    SendMore(Connecting, up, more);
  }

  lemma SpillNow(cfg: Config, alloc: Offers, base: seq<Move>, n: Net, k: Key, earlier: seq<Packet>, request: Packet)
      returns (m: Net)
    requires Reached(cfg, alloc, base, n) && Brewing(cfg, n, k, earlier, request)
    requires k in n.conns && Count(To(cfg, n.up, k), OP_RESPONSE) > 0 && CanSend(cfg, n.conns[k])
    ensures Reached(cfg, alloc, base, m) && Spilled(cfg, m, k)
  {
    hide Reached, Drain, Serve, Count, To, From, Loud, CanSend, Stream, EndpointOk;
    var order := EnumerateFrom(k, n.conns.Keys);
    SentBounded(cfg, n.conns, k);
    DrainAt(cfg, n.conns, order, DRAIN_LIMIT, k);
    FirstRoom(cfg, n.conns, order, DRAIN_LIMIT);
    DrainOk(cfg, n.conns, order, DRAIN_LIMIT);
    var d := Drain(cfg, n.conns, order, DRAIN_LIMIT);
    ToConcat(cfg, n.up, d.out, k);
    ServeSpills(cfg, n.conns[k]);
    SpillTotal(To(cfg, n.up, k), Serve(cfg, n.conns[k], DRAIN_LIMIT).out);
    m := Apply(cfg, alloc, n, EndpointDrains(order));
    ReachedNext(cfg, alloc, base, n, EndpointDrains(order));
    Last(earlier, request);
  }

  /** A turn that does not send data behind a response leaves the endpoint as loud. */
  lemma TurnBrews(cfg: Config, c: Conn, room: nat, down: seq<Packet>, heard: bool)
    requires ConnOk(cfg, c.Remote(), c) && Unshut(Some(c), down) && Loud(cfg, Some(c), down, heard)
    requires !(heard && CanSend(cfg, c))
    ensures
      var s := Serve(cfg, c, room);
      && s.conn.Some? && Loud(cfg, s.conn, down, heard) && Unshut(s.conn, down)
      && Count(s.out, OP_RESPONSE) == 0 && Count(s.out, OP_RESET) == 0
  {
    var s := Serve(cfg, c, room);
    ServeFacts(cfg, c, room);
    ServeAdds(cfg, c, room);
    SendChunksFacts(cfg, c, room);
    assert s.conn.Some? && Unshut(s.conn, down);
    if heard {
      assert SendChunks(cfg, c, room) == Sent(c, []);
      Closing(cfg, c, down, heard);
    } else {
      hide Loud, Serve;
      Alike(cfg, c, s.conn.value, down);
    }
  }

  lemma LoudHead(cfg: Config, c: Option<Conn>, p: Packet, down: seq<Packet>, heard: bool)
    requires Loud(cfg, c, [p] + down, heard) && !(heard && c.Some? && CanSend(cfg, c.value))
    ensures p.header.op == OP_REQUEST ==> Loud(cfg, Some(NewConn(p.header)), down, true)
    ensures p.header.op != OP_REQUEST ==>
              && c.Some?
              && var r := React(cfg, false, c, p, Some(OneByte()));
                 (r.Quiet? || r.Proceed?) && Loud(cfg, r.conn, down, heard)
  {
    Tail([p], down);
    Empty(down);
    hide NewConn;
  }

  lemma PlainReaction(cfg: Config, full: bool, c: Conn, p: Packet, down: seq<Packet>)
    requires p.header.op != OP_REQUEST && Unshut(Some(c), [p] + down)
    ensures
      var r := React(cfg, full, Some(c), p, Some(OneByte()));
      && r == React(cfg, false, Some(c), p, Some(OneByte()))
      && (r.Quiet? ==> r.conn == None && Unshut(None, down))
      && (r.Proceed? ==> r.conn.Some? && Unshut(r.conn, down))
      && (r.Quiet? || r.Proceed? ==>
            Count(Answers(r, p.header), OP_RESPONSE) == 0 && Count(Answers(r, p.header), OP_RESET) == 0)
  {
    hide Complete;
    Head(p, down);
    var r := React(cfg, full, Some(c), p, Some(OneByte()));
    if r.Proceed? && |r.replies| == 1 { assert r.replies[1..] == []; }
  }

  lemma FromHead(n: Net, k: Key)
    requires n.down != []
    ensures From(n.down, k) == if Sender(n.down[0].header) == k then [n.down[0]] + From(n.down[1..], k)
            else From(n.down[1..], k)
  {
  }

  lemma Split(p: Packet, rest: seq<Packet>, earlier: seq<Packet>, last: Packet)
    requires [p] + rest == earlier + [last]
    ensures earlier == [] ==> p == last && rest == []
    ensures earlier != [] ==> p == earlier[0] && rest == earlier[1..] + [last] && earlier == [p] + earlier[1..]
  {
    var all := [p] + rest;
    assert all[0] == p && all[1..] == rest;
    if earlier == [] {
      assert all == [last];
    } else {
      assert (earlier + [last])[1..] == earlier[1..] + [last];
    }
  }

  /** After the reaction, with nothing to be said but plain packets: the turn of the drain. */
  lemma BrewTurn(cfg: Config, alloc: Offers, base: seq<Move>, n: Net, k: Key, earlier: seq<Packet>, request: Packet,
      heard: bool) returns (spilled: bool)
    requires Reached(cfg, alloc, base, n) && Sane(cfg, n) && PeerAt(n, k) == Connecting && n.down != []
    requires From(n.down[1..], k) == earlier + [request] && request.header.op == OP_REQUEST
    requires Loud(cfg, Middle(cfg, n, k), earlier, heard) && Unshut(Middle(cfg, n, k), earlier)
    requires Count(To(cfg, n.up, k) + Said(cfg, n, k), OP_RESET) == 0
    requires heard == (Count(To(cfg, n.up, k) + Said(cfg, n, k), OP_RESPONSE) > 0)
    requires heard && Middle(cfg, n, k).Some? && CanSend(cfg, Middle(cfg, n, k).value) ==>
               Reacted(cfg, n.conns, n.down[0], Some(OneByte())).Proceed?
    ensures
      var m := Apply(cfg, alloc, n, TakeMove(cfg, n, k));
      Reached(cfg, alloc, base, m) && if spilled then Spilled(cfg, m, k) else Brewing(cfg, m, k, earlier, request)
  {
    hide Reached, Drain, Serve, Count, To, From, Loud, CanSend, Stream, EndpointOk, Apply, Said, Middle, Reacted,
        TakeMove, Honest, Total;
    var c := Middle(cfg, n, k);
    var room := Taken(cfg, alloc, n, k);
    var m := Apply(cfg, alloc, n, TakeMove(cfg, n, k));
    ReachedNext(cfg, alloc, base, n, TakeMove(cfg, n, k));
    var before := To(cfg, n.up, k) + Said(cfg, n, k);
    spilled := false;
    if c.Some? {
      var out := Serve(cfg, c.value, room).out;
      if heard && CanSend(cfg, c.value) {
        spilled := true;
        ServeSpills(cfg, c.value);
        SpillTotal(before, out);
        Last(earlier, request);
      } else {
        TurnBrews(cfg, c.value, room, earlier, heard);
        CountConcat(before, out, OP_RESET);
        CountConcat(before, out, OP_RESPONSE);
      }
    }
  }

  /** Taking packet after packet, the endpoint comes to send data behind a response. */
  lemma {:induction false} Brew(cfg: Config, alloc: Offers, base: seq<Move>, n: Net, k: Key, earlier: seq<Packet>,
      request: Packet) returns (m: Net)
    requires cfg.maxConns >= 1 && Reached(cfg, alloc, base, n) && Brewing(cfg, n, k, earlier, request)
    ensures Reached(cfg, alloc, base, m) && Spilled(cfg, m, k)
    decreases |n.down|
  {
    hide Reached, Drain, Serve, Count, To, From, Loud, CanSend, Stream, EndpointOk, Spilled, React, Answers,
        HandlePacket;
    var heard := Count(To(cfg, n.up, k), OP_RESPONSE) > 0;
    if heard && k in n.conns && CanSend(cfg, n.conns[k]) {
      m := SpillNow(cfg, alloc, base, n, k, earlier, request);
      return;
    }
    assert n.down != [] by { NoneFrom(n, k, earlier, request); }
    var p := n.down[0];
    var now := n;
    FromHead(n, k);
    var spilled, later;
    if Sender(p.header) != k {
      later := earlier;
      Empty(To(cfg, n.up, k));
      spilled := BrewTurn(cfg, alloc, base, n, k, earlier, request, heard);
    } else {
      Split(p, From(n.down[1..], k), earlier, request);
      assert earlier != [] by { LoudNow(cfg, Lookup(n.conns, k), heard); }
      later := earlier[1..];
      LoudHead(cfg, Lookup(n.conns, k), p, later, heard);
      Head(p, later);
      if p.header.op == OP_REQUEST {
        now := n.(conns := map[]);
        spilled := BrewRequest(cfg, alloc, base, n, k, later, request);
      } else {
        PlainReaction(cfg, |n.conns| >= cfg.maxConns, n.conns[k], p, later);
        CountConcat(To(cfg, n.up, k), Said(cfg, n, k), OP_RESET);
        CountConcat(To(cfg, n.up, k), Said(cfg, n, k), OP_RESPONSE);
        spilled := BrewTurn(cfg, alloc, base, n, k, later, request, heard);
      }
    }
    m := Apply(cfg, alloc, now, TakeMove(cfg, now, k));
    if !spilled {
      assert |m.down| < |n.down| by { Shorter(cfg, alloc, now, k); }
      m := Brew(cfg, alloc, base, m, k, later, request);
    }
  }

  lemma Shorter(cfg: Config, alloc: Offers, n: Net, k: Key)
    requires n.down != []
    ensures |Apply(cfg, alloc, n, TakeMove(cfg, n, k)).down| < |n.down|
  {
    hide HandlePacket;
  }

  lemma NoneFrom(n: Net, k: Key, earlier: seq<Packet>, request: Packet)
    requires From(n.down, k) == earlier + [request]
    ensures n.down != []
  {
  }

  lemma LoudNow(cfg: Config, c: Option<Conn>, heard: bool)
    requires !(heard && c.Some? && CanSend(cfg, c.value))
    ensures !Loud(cfg, c, [], heard)
  {
  }

  /** A request is accepted once a transport reset event has dropped all connections. */
  lemma BrewRequest(cfg: Config, alloc: Offers, base: seq<Move>, n: Net, k: Key, earlier: seq<Packet>, request: Packet)
      returns (spilled: bool)
    requires cfg.maxConns >= 1 && Reached(cfg, alloc, base, n) && Sane(cfg, n) && PeerAt(n, k) == Connecting
    requires n.down != []
    requires Sender(n.down[0].header) == k && n.down[0].header.op == OP_REQUEST
    requires From(n.down[1..], k) == earlier + [request] && request.header.op == OP_REQUEST
    requires Count(To(cfg, n.up, k), OP_RESET) == 0 && Count(earlier, OP_SHUTDOWN) == 0
    requires Loud(cfg, Some(NewConn(n.down[0].header)), earlier, true)
    ensures
      var now := n.(conns := map[]);
      var m := Apply(cfg, alloc, now, TakeMove(cfg, now, k));
      Reached(cfg, alloc, base, m) && if spilled then Spilled(cfg, m, k) else Brewing(cfg, m, k, earlier, request)
  {
    var now := n.(conns := map[]);
    assert now == Apply(cfg, alloc, n, EndpointClears);
    ReachedNext(cfg, alloc, base, n, EndpointClears);
    NoConns(cfg);
    hide Reached, Drain, Serve, Count, To, From, Loud, CanSend, Stream, Spilled, Brewing, TakeMove, Apply;
    var said := Said(cfg, now, k);
    assert said == [said[0]] && said[0].header.op == OP_RESPONSE;
    CountConcat(To(cfg, n.up, k), said, OP_RESET);
    CountConcat(To(cfg, n.up, k), said, OP_RESPONSE);
    CountOne(said[0], OP_RESET);
    CountOne(said[0], OP_RESPONSE);
    spilled := BrewTurn(cfg, alloc, base, now, k, earlier, request, true);
  }

  // -------------------------------------------------------- the peer hears, the endpoint goes on

  lemma ToHead(cfg: Config, n: Net, k: Key)
    requires n.up != []
    ensures
      var mine := Sender(n.up[0].header) == Key(cfg.cid, cfg.port) && Receiver(n.up[0].header) == k;
      To(cfg, n.up, k) == if mine then [n.up[0]] + To(cfg, n.up[1..], k) else To(cfg, n.up[1..], k)
  {
  }

  lemma NothingToHear(h: Peer)
    ensures Total(h, []) == if h.Established? then |h.received| else 0
  {
  }

  lemma DeafBehindReset(h: Peer, p: Packet, up: seq<Packet>)
    requires p.header.op == OP_RESET
    ensures Total(h, [p] + up) == if h.Established? then |h.received| else 0
  {
    Tail([p], up);
  }

  /** The peer hears what is on its way up to the first data. */
  lemma {:induction false} Hear(cfg: Config, alloc: Offers, base: seq<Move>, n: Net, k: Key) returns (m: Net)
    requires Reached(cfg, alloc, base, n) && Sane(cfg, n)
    requires PeerAt(n, k) != Closed && Total(PeerAt(n, k), To(cfg, n.up, k)) > 0
    ensures Reached(cfg, alloc, base, m) && Sane(cfg, m) && m.down == n.down
    ensures PeerAt(m, k).Established? && PeerAt(m, k).received != []
    decreases |n.up|
  {
    hide Reached, Whole, To, EndpointOk, Accept;
    var h := PeerAt(n, k);
    if h.Established? && h.received != [] {
      m := n;
      return;
    }
    if n.up == [] {
      NothingToHear(h);
      assert To(cfg, n.up, k) == [] by { ToNone(cfg, k); }
    } else {
      var p := n.up[0];
      ToHead(cfg, n, k);
      m := Apply(cfg, alloc, n, PeerReceives);
      ReachedNext(cfg, alloc, base, n, PeerReceives);
      if Sender(p.header) == Key(cfg.cid, cfg.port) && Receiver(p.header) == k {
        if p.header.op == OP_RESET { DeafBehindReset(h, p, To(cfg, n.up[1..], k)); }
        AcceptTotal(h, p, To(cfg, n.up[1..], k));
      }
      m := Hear(cfg, alloc, base, m, k);
    }
  }

  lemma FreshTurn(cfg: Config, h: Header, room: nat)
    ensures Serve(cfg, NewConn(h), room) == Served(Some(NewConn(h)), [])
  {
  }

  lemma LastRest(p: Packet, rest: seq<Packet>)
    requires rest != []
    ensures ([p] + rest)[|rest|] == rest[|rest| - 1]
  {
  }

  /** The endpoint takes everything, and accepts the last request. */
  lemma {:induction false} TakeAll(cfg: Config, alloc: Offers, base: seq<Move>, n: Net, k: Key) returns (m: Net)
    requires cfg.maxConns >= 1 && Reached(cfg, alloc, base, n) && Sane(cfg, n)
    requires From(n.down, k) != [] && From(n.down, k)[|From(n.down, k)| - 1].header.op == OP_REQUEST
    ensures Reached(cfg, alloc, base, m) && m.peers == n.peers
    ensures k in m.conns && m.conns[k].sent == 0 && From(m.down, k) == []
    decreases |n.down|
  {
    hide Reached, To, EndpointOk, Serve, React, Drain, HandlePacket, TakeMove, Said;
    assert n.down != [];
    var rest := From(n.down[1..], k);
    FromHead(n, k);
    if Sender(n.down[0].header) == k && rest == [] {
      var now := n.(conns := map[]);
      assert now == Apply(cfg, alloc, n, EndpointClears);
      ReachedNext(cfg, alloc, base, n, EndpointClears);
      NoConns(cfg);
      var room := Taken(cfg, alloc, now, k);
      ReachedNext(cfg, alloc, base, now, TakeMove(cfg, now, k));
      m := Apply(cfg, alloc, now, TakeMove(cfg, now, k));
      Accepted(cfg, n, k);
      FreshTurn(cfg, n.down[0].header, room);
    } else {
      if Sender(n.down[0].header) == k { LastRest(n.down[0], rest); }
      var room := Taken(cfg, alloc, n, k);
      ReachedNext(cfg, alloc, base, n, TakeMove(cfg, n, k));
      m := Apply(cfg, alloc, n, TakeMove(cfg, n, k));
      m := TakeAll(cfg, alloc, base, m, k);
    }
  }

  lemma Accepted(cfg: Config, n: Net, k: Key)
    requires cfg.maxConns >= 1 && n.down != [] && Sender(n.down[0].header) == k && n.down[0].header.op == OP_REQUEST
    ensures Middle(cfg, n.(conns := map[]), k) == Some(NewConn(n.down[0].header))
  {
  }

  // --------------------------------------------------------------------- exactness

  lemma {:induction false} CalmConcat(cfg: Config, alloc: Offers, base: seq<Move>, more: seq<Move>)
    requires CalmPlay(cfg, alloc, base) && CalmAfter(cfg, alloc, base, more)
    ensures CalmPlay(cfg, alloc, base + more)
    decreases |more|
  {
    hide CalmMove, Play;
    if more == [] {
      Empty(base);
    } else {
      var n := |more| - 1;
      CalmConcat(cfg, alloc, base, more[..n]);
      assert base + more == (base + more[..n]) + [more[n]];
      Last(base + more[..n], more[n]);
    }
  }

  /** The state when k opens. */
  lemma Opened(cfg: Config, alloc: Offers, moves: seq<Move>, k: Key)
    requires CalmPlay(cfg, alloc, moves)
    ensures
      var n, m := Play(cfg, alloc, moves), Play(cfg, alloc, moves + [PeerOpens(k)]);
      && Sane(cfg, m) && PeerAt(m, k) == Connecting && m.conns == n.conns && m.up == n.up
      && From(m.down, k) == From(n.down, k) + [FromPeer(cfg, alloc(k), k, OP_REQUEST, [], 0)]
  {
    hide Play, CalmPlay, KeyOk, EndpointOk;
    CalmPlayOk(cfg, alloc, moves);
    var n := Play(cfg, alloc, moves);
    var p := FromPeer(cfg, alloc(k), k, OP_REQUEST, [], 0);
    FromConcat(n.down, [p], k);
    assert From([p], k) == [p];
    assert Play(cfg, alloc, moves + [PeerOpens(k)])
        == Apply(cfg, alloc, n, PeerOpens(k)) by { PlayNext(cfg, alloc, moves, PeerOpens(k)); }
  }

  /** Where opening is not calm, a way on without further opening leads to an established peer
      that has received bytes of which its connection has sent none, its request being taken. */
  lemma Disturbed(cfg: Config, alloc: Offers, moves: seq<Move>, k: Key)
    requires cfg.maxConns >= 1 && CalmPlay(cfg, alloc, moves)
    requires
      var n := Play(cfg, alloc, moves);
      && PeerAt(n, k) == Closed && Unshut(Lookup(n.conns, k), From(n.down, k))
      && !Calm(cfg, Lookup(n.conns, k), To(cfg, n.up, k), From(n.down, k))
    ensures exists more :: NoOpens(more) && LeadsAstray(cfg, alloc, moves + [PeerOpens(k)], more, k)
  {
    hide Play, CalmPlay, CalmAfter, Loud, Count, To, From, Live, AfterResponse, Stream, Whole, Sane;
    var n, base := Play(cfg, alloc, moves), moves + [PeerOpens(k)];
    var m := Play(cfg, alloc, base);
    var request := FromPeer(cfg, alloc(k), k, OP_REQUEST, [], 0);
    Opened(cfg, alloc, moves, k);
    ReachedStart(cfg, alloc, base);
    assert Reached(cfg, alloc, base, m);
    hide Reached;
    Last(From(n.down, k), request);
    TotalConnecting(To(cfg, n.up, k));
    if Total(Connecting, To(cfg, n.up, k)) == 0 {
      m := Brew(cfg, alloc, base, m, k, From(n.down, k), request);
    }
    m := Hear(cfg, alloc, base, m, k);
    m := TakeAll(cfg, alloc, base, m, k);
    Unfold(cfg, alloc, base, m, k);
  }

  lemma TotalConnecting(up: seq<Packet>)
    ensures Total(Connecting, up) == |Stream(AfterResponse(Live(up)))|
  {
  }

  /** k's peer has received bytes that its connection has not sent, although that is its own. */
  ghost predicate Miscounted(n: Net, k: Key) {
    && k in n.conns && PeerAt(n, k).Established? && !Counted(n.conns[k], PeerAt(n, k))
    && Count(From(n.down, k), OP_REQUEST) == 0
  }

  /** more is a calm way on from base, and miscounts. */
  ghost predicate LeadsAstray(cfg: Config, alloc: Offers, base: seq<Move>, more: seq<Move>, k: Key) {
    CalmAfter(cfg, alloc, base, more) && Miscounted(Play(cfg, alloc, base + more), k)
  }

  lemma Unfold(cfg: Config, alloc: Offers, base: seq<Move>, n: Net, k: Key)
    requires Reached(cfg, alloc, base, n) && k in n.conns && n.conns[k].sent == 0 && From(n.down, k) == []
    requires PeerAt(n, k).Established? && PeerAt(n, k).received != []
    ensures exists more :: NoOpens(more) && LeadsAstray(cfg, alloc, base, more, k)
  {
    hide Play, CalmAfter;
    var more :| NoOpens(more) && CalmAfter(cfg, alloc, base, more) && Play(cfg, alloc, base + more) == n;
    assert LeadsAstray(cfg, alloc, base, more, k);
  }

  /** The condition is exact. After any calm play, a closed peer may open if and only if, however
      things go on calmly, no peer ever receives a byte that its connection has not sent. */
  lemma OpensExactly(cfg: Config, alloc: Offers, moves: seq<Move>, k: Key)
    requires cfg.maxConns >= 1 && CalmPlay(cfg, alloc, moves)
    requires
      var n := Play(cfg, alloc, moves);
      PeerAt(n, k) == Closed && Unshut(Lookup(n.conns, k), From(n.down, k))
    ensures
      var n := Play(cfg, alloc, moves);
      Calm(cfg, Lookup(n.conns, k), To(cfg, n.up, k), From(n.down, k)) <==>
      forall more :: !LeadsAstray(cfg, alloc, moves + [PeerOpens(k)], more, k)
  {
    hide Play, CalmPlay, CalmAfter, Calm, Unshut, To, From;
    var n, base := Play(cfg, alloc, moves), moves + [PeerOpens(k)];
    if Calm(cfg, Lookup(n.conns, k), To(cfg, n.up, k), From(n.down, k)) {
      CalmOpens(cfg, alloc, moves, k);
      forall more | CalmAfter(cfg, alloc, base, more) ensures !LeadsAstray(cfg, alloc, base, more, k) {
        CalmConcat(cfg, alloc, base, more);
        CalmSafety(cfg, alloc, base + more, k);
      }
    } else {
      Disturbed(cfg, alloc, moves, k);
    }
  }

  lemma CalmOpens(cfg: Config, alloc: Offers, moves: seq<Move>, k: Key)
    requires CalmPlay(cfg, alloc, moves)
    requires CalmMove(cfg, Play(cfg, alloc, moves), PeerOpens(k))
    ensures CalmPlay(cfg, alloc, moves + [PeerOpens(k)])
  {
    hide Play, CalmMove;
    Last(moves, PeerOpens(k));
  }
}
