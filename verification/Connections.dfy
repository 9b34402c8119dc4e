/** The inductive invariant of the endpoint, and the fact on which all whole-run results rest:
    seen from one remote, Drain is a single turn of its connection, whatever the order. */
module Connections {
  import opened Bytes
  import opened Seqs
  import opened Wire
  import opened Protocol

  // ------------------------------------------------------------- streams of packets

  function Data(p: Packet): seq<byte> {
    if p.header.op == OP_READ_WRITE then p.payload else []
  }

  /** The bytes that a sequence of packets carries as stream data. */
  function Stream(ps: seq<Packet>): seq<byte> {
    if ps == [] then [] else Data(ps[0]) + Stream(ps[1..])
  }

  lemma {:induction false} StreamConcat(a: seq<Packet>, b: seq<Packet>)
    ensures Stream(a + b) == Stream(a) + Stream(b)
  {
    hide Data;
    if a == [] {
      Empty(b);
      Empty(Stream(b));
    } else {
      StreamConcat(a[1..], b);
      Tail(a, b);
      Assoc(Data(a[0]), Stream(a[1..]), Stream(b));
    }
  }

  lemma ToNone(cfg: Config, k: Key)
    ensures To(cfg, [], k) == []
  {
  }

  lemma {:induction false} ToConcat(cfg: Config, a: seq<Packet>, b: seq<Packet>, k: Key)
    ensures To(cfg, a + b, k) == To(cfg, a, k) + To(cfg, b, k)
  {
    if a == [] {
      Empty(b);
      Empty(To(cfg, b, k));
    } else {
      ToConcat(cfg, a[1..], b, k);
      Tail(a, b);
      Assoc([a[0]], To(cfg, a[1..], k), To(cfg, b, k));
    }
  }

  ghost predicate AllTo(cfg: Config, ps: seq<Packet>, k: Key) {
    forall i :: 0 <= i < |ps| ==> Sender(ps[i].header) == Key(cfg.cid, cfg.port) && Receiver(ps[i].header) == k
  }

  lemma {:induction false} ToAll(cfg: Config, ps: seq<Packet>, k: Key, j: Key)
    requires AllTo(cfg, ps, k)
    ensures To(cfg, ps, j) == if j == k then ps else []
  {
    if ps != [] {
      ToAll(cfg, ps[1..], k, j);
    }
  }

  // ------------------------------------------------------------------ the invariant

  ghost predicate ConnOk(cfg: Config, k: Key, c: Conn) {
    && c.Remote() == k
    && c.rxFwd == |c.request| <= cfg.bufferLen
    && c.txCount == Wrap32(c.sent)
    && c.sent <= c.ResponseLength()
  }

  ghost predicate EndpointOk(cfg: Config, conns: Conns) {
    && (forall k :: k in conns ==> ConnOk(cfg, k, conns[k]))
    && (conns != map[] ==> |conns| <= cfg.maxConns)
  }

  /** What a connection has been told and has stored is the same in c and d. */
  ghost predicate SameInput(c: Conn, d: Conn) {
    && c.Remote() == d.Remote()
    && c.request == d.request && c.rxFwd == d.rxFwd
    && c.peerAlloc == d.peerAlloc && c.peerFwd == d.peerFwd
    && c.response == d.response
  }

  ghost predicate AllOp(ps: seq<Packet>, op: u16) {
    forall i :: 0 <= i < |ps| ==> ps[i].header.op == op
  }

  lemma AfterChunkOk(cfg: Config, c: Conn)
    requires ConnOk(cfg, c.Remote(), c) && CanSend(cfg, c)
    ensures
      var d := AfterChunk(cfg, c);
      && SameInput(c, d) && d.closing == c.closing && ConnOk(cfg, c.Remote(), d) && c.sent < d.sent
      && Data(Chunk(cfg, c)) == c.Body()[c.sent..d.sent]
      && AllTo(cfg, [Chunk(cfg, c)], c.Remote()) && AllOp([Chunk(cfg, c)], OP_READ_WRITE)
  {
  }

  lemma SentOfBody(cfg: Config, c: Conn)
    requires ConnOk(cfg, c.Remote(), c)
    ensures c.sent <= |c.Body()|
  {
  }

  /** Chunks continue the stream exactly where it stopped. */
  lemma {:induction false} SendChunksFacts(cfg: Config, c: Conn, room: nat)
    requires ConnOk(cfg, c.Remote(), c)
    ensures
      var s := SendChunks(cfg, c, room);
      && SameInput(c, s.conn) && s.conn.closing == c.closing
      && ConnOk(cfg, c.Remote(), s.conn) && c.sent <= s.conn.sent
      && AllTo(cfg, s.out, c.Remote()) && AllOp(s.out, OP_READ_WRITE)
      && Stream(s.out) == c.Body()[c.sent..s.conn.sent]
      && (|s.out| < room ==> !CanSend(cfg, s.conn))
    decreases room
  {
    hide AfterChunk, Chunk, CanSend, ConnOk, AllTo, AllOp, Stream, SameInput, Data;
    SentOfBody(cfg, c);
    if room == 0 || !CanSend(cfg, c) {
      NoChunks(cfg, c);
    } else {
      var d, s := AfterChunk(cfg, c), SendChunks(cfg, c, room);
      AfterChunkOk(cfg, c);
      SendChunksFacts(cfg, d, room - 1);
      SameTwice(c, d, s.conn);
      SentOfBody(cfg, s.conn);
      ChunkThen(cfg, c, SendChunks(cfg, d, room - 1).out);
      Join(c.Body(), c.sent, d.sent, s.conn.sent);
    }
  }

  lemma NoChunks(cfg: Config, c: Conn)
    ensures SameInput(c, c) && AllTo(cfg, [], c.Remote()) && AllOp([], OP_READ_WRITE) && Stream([]) == []
  {
  }

  lemma SameTwice(c: Conn, d: Conn, e: Conn)
    requires SameInput(c, d) && SameInput(d, e)
    ensures SameInput(c, e) && c.Remote() == d.Remote() == e.Remote() && c.Body() == d.Body() == e.Body()
  {
  }

  lemma ChunkThen(cfg: Config, c: Conn, rest: seq<Packet>)
    requires CanSend(cfg, c)
    requires AllTo(cfg, [Chunk(cfg, c)], c.Remote()) && AllTo(cfg, rest, c.Remote()) && AllOp(rest, OP_READ_WRITE)
    ensures
      var out := [Chunk(cfg, c)] + rest;
      && AllTo(cfg, out, c.Remote()) && AllOp(out, OP_READ_WRITE)
      && Stream(out) == Data(Chunk(cfg, c)) + Stream(rest)
  {
    Tail([Chunk(cfg, c)], rest);
    assert [Chunk(cfg, c)][0] == Chunk(cfg, c);
  }

  lemma NoResponse(cfg: Config, c: Conn, room: nat)
    requires c.response.None?
    ensures SendChunks(cfg, c, room) == Sent(c, [])
  {
  }

  lemma SettleFacts(cfg: Config, c: Conn)
    requires ConnOk(cfg, c.Remote(), c)
    ensures
      var s := Settle(cfg, c);
      && AllTo(cfg, s.out, c.Remote()) && Stream(s.out) == []
      && (s.conn.Some? ==>
            && SameInput(c, s.conn.value) && ConnOk(cfg, c.Remote(), s.conn.value)
            && c.sent == s.conn.value.sent)
      && (s.conn.None? ==> c.response.None? && c.closing && s.out == [Reply(cfg, c, OP_RESET, 0)])
  {
  }

  /** A turn in Drain: stream data, then at most one control packet. A reset leaves only
      together with the connection, which then never had a response. */
  lemma ServeFacts(cfg: Config, c: Conn, room: nat)
    requires ConnOk(cfg, c.Remote(), c)
    ensures
      var s := Serve(cfg, c, room);
      var chunks := SendChunks(cfg, c, room);
      && AllTo(cfg, s.out, c.Remote())
      && Stream(s.out) == Stream(chunks.out)
      && (s.conn.Some? ==>
            && SameInput(c, s.conn.value) && ConnOk(cfg, c.Remote(), s.conn.value)
            && c.sent <= s.conn.value.sent
            && Stream(s.out) == c.Body()[c.sent..s.conn.value.sent])
      && (s.conn.None? ==> c.response.None? && c.closing && s.out == [Reply(cfg, c, OP_RESET, 0)])
  {
    var chunks := SendChunks(cfg, c, room);
    SendChunksFacts(cfg, c, room);
    SettleFacts(cfg, chunks.conn);
    if c.response.None? { NoResponse(cfg, c, room); }
    hide SendChunks, Settle, Stream, Reply;
    if |chunks.out| < room {
      var rest := Settle(cfg, chunks.conn);
      StreamConcat(chunks.out, rest.out);
      Empty(Stream(chunks.out));
      Empty(rest.out);
    }
  }

  // ------------------------------------------------------- Drain seen from one remote

  /** The room that is left in Drain when the turn of k comes. */
  function RoomAt(cfg: Config, conns: Conns, order: seq<Key>, limit: int, k: Key): nat {
    if limit <= 0 || order == [] then 0
    else
      var before := order[..|order| - 1];
      if order[|order| - 1] == k then limit - |Drain(cfg, conns, before, limit).out|
      else RoomAt(cfg, conns, before, limit, k)
  }

  ghost predicate Distinct(order: seq<Key>) {
    forall i, j :: 0 <= i < j < |order| ==> order[i] != order[j]
  }

  /** Every set of keys has an order. */
  lemma Enumerate(keys: set<Key>) returns (order: seq<Key>)
    ensures IsOrder(order, keys) && (keys == {} ==> order == [])
  {
    order := [];
    var rest := keys;
    while rest != {}
      invariant rest <= keys && IsOrder(order, keys - rest)
      invariant rest == keys ==> order == []
      decreases rest
    {
      var k :| k in rest;
      order := order + [k];
      rest := rest - {k};
    }
  }

  /** ... and one that starts with k. */
  lemma EnumerateFrom(k: Key, keys: set<Key>) returns (order: seq<Key>)
    ensures IsOrder(order, keys) && (k in keys ==> order != [] && order[0] == k)
  {
    order := Enumerate(keys - {k});
    if k in keys {
      order := [k] + order;
    }
  }

  /** The first one to be visited has all the room. */
  lemma {:induction false} FirstRoom(cfg: Config, conns: Conns, order: seq<Key>, limit: nat)
    requires order != [] && Distinct(order)
    ensures RoomAt(cfg, conns, order, limit, order[0]) == limit
    decreases |order|
  {
    hide Drain;
    if |order| == 1 {
      assert order[..0] == [];
      assert Drain(cfg, conns, [], limit) == Drained(conns, []) by { NoDrain(cfg, conns, limit); }
    } else if limit > 0 {
      FirstRoom(cfg, conns, order[..|order| - 1], limit);
    }
  }

  lemma NoDrain(cfg: Config, conns: Conns, limit: int)
    ensures Drain(cfg, conns, [], limit) == Drained(conns, [])
  {
  }

  lemma ServeTo(cfg: Config, c: Conn, room: nat, k: Key)
    requires ConnOk(cfg, c.Remote(), c)
    ensures To(cfg, Serve(cfg, c, room).out, k) == if k == c.Remote() then Serve(cfg, c, room).out else []
    ensures Serve(cfg, c, 0) == Served(Some(c), [])
  {
    ServeFacts(cfg, c, room);
    ToAll(cfg, Serve(cfg, c, room).out, c.Remote(), k);
  }

  /** d is what k sees of a drain in which its connection got a turn with this room. */
  ghost predicate OneTurn(cfg: Config, conns: Conns, d: Drained, room: nat, k: Key) {
    && (k in conns ==> Lookup(d.conns, k) == Serve(cfg, conns[k], room).conn)
    && (k in conns ==> To(cfg, d.out, k) == Serve(cfg, conns[k], room).out)
    && (k !in conns ==> k !in d.conns && To(cfg, d.out, k) == [])
  }

  lemma NoTurn(cfg: Config, conns: Conns, k: Key)
    requires EndpointOk(cfg, conns)
    ensures OneTurn(cfg, conns, Drained(conns, []), 0, k)
  {
    hide Serve;
    if k in conns { ServeTo(cfg, conns[k], 0, k); }
  }

  lemma OwnTurn(cfg: Config, conns: Conns, before: Drained, room: nat, k: Key)
    requires EndpointOk(cfg, conns) && OneTurn(cfg, conns, before, 0, k) && k in before.conns
    ensures
      var s := Serve(cfg, before.conns[k], room);
      OneTurn(cfg, conns, Drained(Put(before.conns, k, s.conn), before.out + s.out), room, k)
  {
    hide Serve, To, Put;
    var s := Serve(cfg, before.conns[k], room);
    ServeTo(cfg, conns[k], 0, k);
    assert before.conns[k] == conns[k];
    ServeTo(cfg, conns[k], room, k);
    ToConcat(cfg, before.out, s.out, k);
    Empty(s.out);
  }

  lemma OtherTurn(cfg: Config, conns: Conns, before: Drained, room: nat, left: nat, j: Key, k: Key)
    requires EndpointOk(cfg, conns) && OneTurn(cfg, conns, before, room, k) && j != k
    requires j in before.conns && OneTurn(cfg, conns, before, 0, j)
    ensures
      var s := Serve(cfg, before.conns[j], left);
      OneTurn(cfg, conns, Drained(Put(before.conns, j, s.conn), before.out + s.out), room, k)
  {
    hide Serve, To, Put;
    var s := Serve(cfg, before.conns[j], left);
    ServeTo(cfg, conns[j], 0, j);
    assert before.conns[j] == conns[j];
    ServeTo(cfg, conns[j], left, k);
    ToConcat(cfg, before.out, s.out, k);
    Empty(To(cfg, before.out, k));
    assert Lookup(Put(before.conns, j, s.conn), k) == Lookup(before.conns, k);
  }

  /** Whatever the order, Drain does to each remote what one turn of its connection does. */
  lemma {:induction false} DrainAt(cfg: Config, conns: Conns, order: seq<Key>, limit: int, k: Key)
    requires EndpointOk(cfg, conns) && Distinct(order)
    ensures OneTurn(cfg, conns, Drain(cfg, conns, order, limit), RoomAt(cfg, conns, order, limit, k), k)
    ensures k !in order ==> RoomAt(cfg, conns, order, limit, k) == 0
    decreases |order|
  {
    hide Serve, To, Put, OneTurn;
    if limit <= 0 || order == [] {
      NoTurn(cfg, conns, k);
    } else {
      var n := |order| - 1;
      var before := Drain(cfg, conns, order[..n], limit);
      var j := order[n];
      DrainAt(cfg, conns, order[..n], limit, k);
      DrainAt(cfg, conns, order[..n], limit, j);
      if j !in before.conns {
        if j == k { StaysAway(cfg, conns, before, limit - |before.out|, k); }
      } else if j == k {
        OwnTurn(cfg, conns, before, limit - |before.out|, k);
      } else {
        OtherTurn(cfg, conns, before, RoomAt(cfg, conns, order, limit, k), limit - |before.out|, j, k);
      }
    }
  }

  lemma StaysAway(cfg: Config, conns: Conns, before: Drained, room: nat, k: Key)
    requires EndpointOk(cfg, conns) && OneTurn(cfg, conns, before, 0, k) && k !in before.conns
    ensures OneTurn(cfg, conns, before, room, k)
  {
    hide Serve;
    if k in conns { ServeTo(cfg, conns[k], 0, k); }
  }

  // ------------------------------------------------- the invariant, step by step

  lemma PutSize(conns: Conns, k: Key, c: Option<Conn>)
    ensures |Put(conns, k, c)| <= |conns| + if k in conns || c.None? then 0 else 1
    ensures Put(conns, k, c) != map[] ==> conns != map[] || c.Some?
  {
    var m := Put(conns, k, c);
    if c.Some? {
      assert m.Keys == conns.Keys + {k};
    } else {
      assert m.Keys == conns.Keys - {k};
    }
  }

  lemma ReactConnOk(cfg: Config, full: bool, k: Key, c: Option<Conn>, p: Packet, handler: Option<Handler>)
    requires Sender(p.header) == k && (c.Some? ==> ConnOk(cfg, k, c.value))
    ensures
      var r := React(cfg, full, c, p, handler);
      r.conn.Some? ==> ConnOk(cfg, k, r.conn.value) && (c.None? ==> p.header.op == OP_REQUEST && !full)
  {
    hide Complete, Reply;
  }

  lemma ReactOk(cfg: Config, conns: Conns, p: Packet, handler: Option<Handler>)
    requires EndpointOk(cfg, conns)
    ensures
      var k := Sender(p.header);
      var r := Reacted(cfg, conns, p, handler);
      && (r.conn.Some? ==> ConnOk(cfg, k, r.conn.value))
      && EndpointOk(cfg, Put(conns, k, r.conn))
  {
    hide React, ConnOk, Put;
    var k := Sender(p.header);
    var r := Reacted(cfg, conns, p, handler);
    ReactConnOk(cfg, |conns| >= cfg.maxConns, k, Lookup(conns, k), p, handler);
    var m := Put(conns, k, r.conn);
    PutSize(conns, k, r.conn);
    forall j | j in m ensures ConnOk(cfg, j, m[j]) {
      assert Lookup(m, j) == if j == k then r.conn else Lookup(conns, j);
    }
  }

  lemma {:induction false} DrainOk(cfg: Config, conns: Conns, order: seq<Key>, limit: int)
    requires EndpointOk(cfg, conns) && Distinct(order)
    ensures EndpointOk(cfg, Drain(cfg, conns, order, limit).conns)
  {
    var d := Drain(cfg, conns, order, limit);
    forall k | k in d.conns ensures k in conns && ConnOk(cfg, k, d.conns[k]) {
      DrainAt(cfg, conns, order, limit, k);
      ServeFacts(cfg, conns[k], RoomAt(cfg, conns, order, limit, k));
      assert Lookup(d.conns, k) == Some(d.conns[k]);
    }
    Subset(d.conns.Keys, conns.Keys);
  }

  lemma Subset(a: set<Key>, b: set<Key>)
    requires a <= b
    ensures |a| <= |b|
  {
    assert b == a + (b - a);
  }

  /** Every call of Handle keeps the invariant, in every order, on every packet. */
  lemma HandleOk(cfg: Config, conns: Conns, p: Packet, handler: Option<Handler>, order: seq<Key>)
    requires EndpointOk(cfg, conns) && HandleOrder(cfg, conns, p, handler, order)
    ensures EndpointOk(cfg, HandlePacket(cfg, conns, p, handler, order).conns)
  {
    if Addressed(cfg, p.header) {
      ReactOk(cfg, conns, p, handler);
      var r := Reacted(cfg, conns, p, handler);
      if r.Proceed? {
        DrainOk(cfg, Put(conns, Sender(p.header), r.conn), order, DRAIN_LIMIT);
      }
    }
  }

  /** Handling a packet of one peer touches no input of another: requests, credit and
      responses of all other connections stay as they were, and only a connection that was
      closing without a response can disappear. */
  lemma HandleIsolation(cfg: Config, conns: Conns, p: Packet, handler: Option<Handler>, order: seq<Key>, k: Key)
    requires EndpointOk(cfg, conns) && HandleOrder(cfg, conns, p, handler, order)
    requires k != Sender(p.header)
    ensures
      var after := HandlePacket(cfg, conns, p, handler, order).conns;
      && (k in after ==> k in conns && SameInput(conns[k], after[k]) && conns[k].sent <= after[k].sent)
      && (k in conns && k !in after ==> conns[k].closing && conns[k].response.None?)
  {
    if Addressed(cfg, p.header) {
      ReactOk(cfg, conns, p, handler);
      var r := Reacted(cfg, conns, p, handler);
      var middle := Put(conns, Sender(p.header), r.conn);
      assert Lookup(middle, k) == Lookup(conns, k);
      if r.Proceed? {
        DrainAt(cfg, middle, order, DRAIN_LIMIT, k);
        if k in conns {
          ServeFacts(cfg, conns[k], RoomAt(cfg, middle, order, DRAIN_LIMIT, k));
        }
      }
    }
  }

  // ------------------------------------------------- what packets tell their receivers

  /** A packet of this endpoint on behalf of c: it announces the endpoint's buffer and exactly
      the bytes that have been received. */
  ghost predicate Announces(cfg: Config, c: Conn, p: Packet) {
    && p.header.typ == TYPE_STREAM && Sender(p.header) == Key(cfg.cid, cfg.port) && Receiver(p.header) == c.Remote()
    && p.header.bufAlloc == cfg.bufferLen && p.header.fwdCnt == |c.request|
  }

  lemma {:induction false} ChunksAnnounce(cfg: Config, c: Conn, room: nat)
    requires ConnOk(cfg, c.Remote(), c)
    ensures forall i :: 0 <= i < |SendChunks(cfg, c, room).out| ==> Announces(cfg, c, SendChunks(cfg, c, room).out[i])
    decreases room
  {
    if room > 0 && CanSend(cfg, c) {
      AfterChunkOk(cfg, c);
      ChunksAnnounce(cfg, AfterChunk(cfg, c), room - 1);
    }
  }

  /** Every packet of a turn announces the receive credit truthfully. */
  lemma TurnAnnounces(cfg: Config, c: Conn, room: nat)
    requires ConnOk(cfg, c.Remote(), c)
    ensures forall i :: 0 <= i < |Serve(cfg, c, room).out| ==> Announces(cfg, c, Serve(cfg, c, room).out[i])
  {
    ChunksAnnounce(cfg, c, room);
    SendChunksFacts(cfg, c, room);
    hide SendChunks;
  }

  /** So does every reply to a packet, which takes the packet's own payload into account. */
  lemma ReplyAnnounces(cfg: Config, full: bool, k: Key, c: Option<Conn>, p: Packet, handler: Option<Handler>)
    requires Sender(p.header) == k && (c.Some? ==> ConnOk(cfg, k, c.value))
    requires React(cfg, full, c, p, handler).Proceed?
    ensures
      var r := React(cfg, full, c, p, handler);
      r.conn.Some? && forall i :: 0 <= i < |r.replies| ==> Announces(cfg, r.conn.value, r.replies[i])
  {
    ReactConnOk(cfg, full, k, c, p, handler);
    hide Complete;
  }

  /** When a packet is turned away at the door: it is for somebody else, it belongs to no
      connection, or it asks for a connection that exists or for one too many. */
  predicate Unwelcome(cfg: Config, conns: Conns, h: Header) {
    || !Addressed(cfg, h)
    || (Sender(h) !in conns && (h.op != OP_REQUEST || |conns| >= cfg.maxConns))
    || (Sender(h) in conns && h.op == OP_REQUEST)
  }

  /** Such a packet, even a reset, changes nothing and is answered with one reset, from the
      address that it was sent to and to the address that it came from. */
  lemma UnwelcomeAnswer(cfg: Config, conns: Conns, p: Packet, handler: Option<Handler>, order: seq<Key>)
    requires Unwelcome(cfg, conns, p.header)
    ensures
      var o := HandlePacket(cfg, conns, p, handler, order);
      && o.conns == conns && !o.failed && |o.Out()| == 1
      && o.Out()[0].header.op == OP_RESET && o.Out()[0].payload == []
      && Sender(o.Out()[0].header) == Receiver(p.header) && Receiver(o.Out()[0].header) == Sender(p.header)
  {
    hide Drain, ReactToData;
  }

  /** Any other packet removes its connection at once exactly when it is a reset, has an unknown
      operation, or would overfill the request buffer, whose size limits the connection's whole
      life. */
  lemma WhenConnectionsGo(cfg: Config, conns: Conns, p: Packet, handler: Option<Handler>)
    requires !Unwelcome(cfg, conns, p.header)
    ensures
      var h := p.header;
      Reacted(cfg, conns, p, handler).conn.None? <==>
        || h.op == OP_RESET
        || h.op !in {OP_REQUEST, OP_READ_WRITE, OP_CREDIT_UPDATE, OP_CREDIT_REQUEST, OP_SHUTDOWN}
        || (h.op == OP_READ_WRITE && |conns[Sender(h)].request| + |p.payload| > cfg.bufferLen)
  {
    hide Complete;
  }
}
