/** Drain does as much as it may, and repeated drains finish every response. */
module Progress {
  import opened Bytes
  import opened Seqs
  import opened Wire
  import opened Protocol
  import opened Connections
  import opened Channels

  /** Nothing is left to send for c: no byte with credit, no shutdown, no reset. */
  ghost predicate Quiescent(cfg: Config, c: Conn) {
    !CanSend(cfg, c) && !OwesShutdown(c) && !OwesReset(c)
  }

  /** The bytes and control packets that c has yet to send. */
  function Work(c: Conn): (n: nat)
    requires c.sent <= c.ResponseLength()
  {
    c.ResponseLength() - c.sent
    + (if c.response.Some? && !c.closing then 1 else 0)
    + (if OwesReset(c) then 1 else 0)
  }

  lemma {:induction false} ChunksWork(cfg: Config, c: Conn, room: nat)
    requires c.sent <= c.ResponseLength()
    ensures
      var s := SendChunks(cfg, c, room);
      && s.conn.sent <= s.conn.ResponseLength()
      && s.conn.response == c.response && s.conn.closing == c.closing
      && Work(s.conn) + |s.out| <= Work(c)
      && (|s.out| < room ==> !CanSend(cfg, s.conn))
    decreases room
  {
    if room == 0 || !CanSend(cfg, c) {
    } else {
      ChunksWork(cfg, AfterChunk(cfg, c), room - 1);
    }
  }

  /** Every packet of a turn is paid for with work, and a turn with room to spare leaves nothing. */
  lemma ServeWork(cfg: Config, c: Conn, room: nat)
    requires ConnOk(cfg, c.Remote(), c)
    ensures
      var s := Serve(cfg, c, room);
      && (s.conn.Some? ==>
            && s.conn.value.sent <= s.conn.value.ResponseLength()
            && Work(s.conn.value) + |s.out| <= Work(c))
      && (s.conn.None? ==> |s.out| <= Work(c))
      && (|s.out| < room && s.conn.Some? ==> Quiescent(cfg, s.conn.value))
  {
    ChunksWork(cfg, c, room);
    hide SendChunks, SendSpace;
  }

  // ------------------------------------------------------------- work conservation

  lemma {:induction false} RoomLeft(cfg: Config, conns: Conns, order: seq<Key>, limit: int, k: Key)
    requires EndpointOk(cfg, conns) && Distinct(order) && k in order && k in conns
    requires |Drain(cfg, conns, order, limit).out| < limit
    ensures
      var room := RoomAt(cfg, conns, order, limit, k);
      |Serve(cfg, conns[k], room).out| < room
    decreases |order|
  {
    hide Serve;
    var n := |order| - 1;
    var before := order[..n];
    var d := Drain(cfg, conns, before, limit);
    if order[n] == k {
      DrainAt(cfg, conns, before, limit, k);
      ServeTo(cfg, conns[k], 0, k);
      assert Lookup(d.conns, k) == Some(conns[k]);
    } else {
      RoomLeft(cfg, conns, before, limit, k);
    }
  }

  /** Work conservation: a drain that returns fewer packets than it was allowed leaves every
      connection quiescent, in whatever order it visited them. */
  lemma DrainConserves(cfg: Config, conns: Conns, order: seq<Key>, limit: int, k: Key)
    requires EndpointOk(cfg, conns) && IsOrder(order, conns.Keys)
    requires |Drain(cfg, conns, order, limit).out| < limit
    requires k in Drain(cfg, conns, order, limit).conns
    ensures Quiescent(cfg, Drain(cfg, conns, order, limit).conns[k])
  {
    var room := RoomAt(cfg, conns, order, limit, k);
    DrainAt(cfg, conns, order, limit, k);
    hide Serve, Drain, RoomAt, Quiescent;
    RoomLeft(cfg, conns, order, limit, k);
    ServeWork(cfg, conns[k], room);
    assert Lookup(Drain(cfg, conns, order, limit).conns, k) == Serve(cfg, conns[k], room).conn;
  }

  // -------------------------------------------------------------------- total work

  ghost predicate Bounded(conns: Conns) {
    forall k :: k in conns ==> conns[k].sent <= conns[k].ResponseLength()
  }

  ghost function TotalWork(conns: Conns): nat
    requires Bounded(conns)
    decreases |conns|
  {
    if conns == map[] then 0
    else
      var k :| k in conns;
      Smaller(conns, k);
      Work(conns[k]) + TotalWork(conns - {k})
  }

  lemma Smaller(conns: Conns, k: Key)
    requires k in conns
    ensures |conns - {k}| < |conns|
  {
    assert (conns - {k}).Keys == conns.Keys - {k};
  }

  /** The sum does not depend on which connection is counted first. */
  lemma {:induction false} TotalSplit(conns: Conns, k: Key)
    requires Bounded(conns) && k in conns
    ensures TotalWork(conns) == Work(conns[k]) + TotalWork(conns - {k})
    decreases |conns|
  {
    var j :| j in conns && TotalWork(conns) == Work(conns[j]) + TotalWork(conns - {j});
    if j != k {
      Smaller(conns, j);
      Smaller(conns, k);
      TotalSplit(conns - {j}, k);
      TotalSplit(conns - {k}, j);
      assert conns - {j} - {k} == conns - {k} - {j};
    }
  }

  lemma TotalPut(conns: Conns, k: Key, c: Option<Conn>)
    requires Bounded(conns) && k in conns && (c.Some? ==> c.value.sent <= c.value.ResponseLength())
    ensures Bounded(Put(conns, k, c))
    ensures TotalWork(Put(conns, k, c)) ==
            TotalWork(conns) - Work(conns[k]) + if c.Some? then Work(c.value) else 0
  {
    hide Work;
    TotalSplit(conns, k);
    if c.Some? {
      var m := conns[k := c.value];
      TotalSplit(m, k);
      assert m - {k} == conns - {k};
    }
  }

  /** Every packet that Drain returns uses up work. */
  lemma {:induction false} DrainWork(cfg: Config, conns: Conns, order: seq<Key>, limit: int)
    requires EndpointOk(cfg, conns) && Distinct(order)
    ensures
      var d := Drain(cfg, conns, order, limit);
      Bounded(d.conns) && TotalWork(d.conns) + |d.out| <= TotalWork(conns)
    decreases |order|
  {
    hide Serve, Put, Work, TotalWork;
    if limit <= 0 || order == [] {
    } else {
      var n := |order| - 1;
      var before := Drain(cfg, conns, order[..n], limit);
      var k := order[n];
      DrainWork(cfg, conns, order[..n], limit);
      DrainOk(cfg, conns, order[..n], limit);
      if k in before.conns {
        var room := limit - |before.out|;
        ServeWork(cfg, before.conns[k], room);
        TotalPut(before.conns, k, Serve(cfg, before.conns[k], room).conn);
      }
    }
  }

  lemma {:induction false} NoWork(conns: Conns)
    requires Bounded(conns) && forall k :: k in conns ==> Work(conns[k]) == 0
    ensures TotalWork(conns) == 0
    decreases |conns|
  {
    if conns != map[] {
      var k :| k in conns;
      Smaller(conns, k);
      NoWork(conns - {k});
      TotalSplit(conns, k);
    }
  }

  // ---------------------------------------------------------------------- liveness

  /** A round in which the peers have acknowledged everything and offer some buffer, followed
      by a drain in some order. */
  datatype Round = Round(alloc: Key -> u32, order: seq<Key>)

  function Acknowledge(conns: Conns, alloc: Key -> u32): Conns {
    map k | k in conns :: conns[k].(peerFwd := conns[k].txCount, peerAlloc := alloc(k))
  }

  function DoRound(cfg: Config, conns: Conns, limit: int, r: Round): Conns {
    Drain(cfg, Acknowledge(conns, r.alloc), r.order, limit).conns
  }

  ghost predicate RoundOk(conns: Conns, r: Round) {
    IsOrder(r.order, conns.Keys) && forall k :: k in conns ==> r.alloc(k) > 0
  }

  function DoRounds(cfg: Config, conns: Conns, limit: int, rounds: seq<Round>): Conns
    decreases |rounds|
  {
    if rounds == [] then conns
    else DoRounds(cfg, DoRound(cfg, conns, limit, rounds[0]), limit, rounds[1..])
  }

  ghost predicate RoundsOk(cfg: Config, conns: Conns, limit: int, rounds: seq<Round>)
    decreases |rounds|
  {
    rounds != [] ==>
      RoundOk(conns, rounds[0]) && RoundsOk(cfg, DoRound(cfg, conns, limit, rounds[0]), limit, rounds[1..])
  }

  lemma {:induction false} AcknowledgedWork(conns: Conns, alloc: Key -> u32)
    requires Bounded(conns)
    ensures Bounded(Acknowledge(conns, alloc)) && TotalWork(Acknowledge(conns, alloc)) == TotalWork(conns)
    decreases |conns|
  {
    var m := Acknowledge(conns, alloc);
    if conns != map[] {
      var k :| k in conns;
      Smaller(conns, k);
      AcknowledgedWork(conns - {k}, alloc);
      assert m - {k} == Acknowledge(conns - {k}, alloc);
      TotalSplit(conns, k);
      TotalSplit(m, k);
    } else {
      assert m == map[];
    }
  }

  lemma AcknowledgedOk(cfg: Config, conns: Conns, alloc: Key -> u32)
    requires EndpointOk(cfg, conns)
    ensures EndpointOk(cfg, Acknowledge(conns, alloc))
  {
    var m := Acknowledge(conns, alloc);
    assert m.Keys == conns.Keys;
    assert |m| == |conns|;
    forall k | k in m ensures ConnOk(cfg, k, m[k]) { assert ConnOk(cfg, k, conns[k]); }
  }

  /** A turn that sends nothing although the peer has acknowledged everything and offers buffer
      is the turn of a connection without work. */
  lemma IdleTurn(cfg: Config, c: Conn, room: nat)
    requires ConnOk(cfg, c.Remote(), c) && cfg.bufferLen > 0
    requires c.peerFwd == c.txCount && c.peerAlloc > 0 && room > 0
    requires Serve(cfg, c, room).out == []
    ensures Work(c) == 0
  {
    assert CanSend(cfg, c) ==> |SendChunks(cfg, c, room).out| > 0;
  }

  lemma RoundWorks(cfg: Config, conns: Conns, limit: int, r: Round)
    requires EndpointOk(cfg, conns) && cfg.bufferLen > 0 && limit > 0 && RoundOk(conns, r)
    ensures
      var after := DoRound(cfg, conns, limit, r);
      && EndpointOk(cfg, after)
      && TotalWork(after) <= TotalWork(conns) && (TotalWork(conns) > 0 ==> TotalWork(after) < TotalWork(conns))
  {
    var m := Acknowledge(conns, r.alloc);
    var d := Drain(cfg, m, r.order, limit);
    AcknowledgedOk(cfg, conns, r.alloc);
    AcknowledgedWork(conns, r.alloc);
    DrainOk(cfg, m, r.order, limit);
    DrainWork(cfg, m, r.order, limit);
    if |d.out| == 0 {
      hide Serve, Drain, RoomAt, Work, TotalWork;
      forall k | k in m ensures Work(m[k]) == 0 {
        RoomLeft(cfg, m, r.order, limit, k);
        DrainAt(cfg, m, r.order, limit, k);
        ToNone(cfg, k);
        IdleTurn(cfg, m[k], RoomAt(cfg, m, r.order, limit, k));
      }
      NoWork(m);
    }
  }

  /** What acknowledges everything is a credit update that announces the bytes sent. */
  lemma AcknowledgedByUpdate(cfg: Config, conns: Conns, alloc: Key -> u32, k: Key, p: Packet, handler: Option<Handler>)
    requires k in conns && Sender(p.header) == k && p.header.op == OP_CREDIT_UPDATE
    requires p.header.fwdCnt == conns[k].txCount && p.header.bufAlloc == alloc(k)
    ensures Reacted(cfg, conns, p, handler) == Proceed(Some(Acknowledge(conns, alloc)[k]), [])
  {
    hide Complete;
  }

  /** What the rounds send to k. */
  function RoundsTo(cfg: Config, conns: Conns, limit: int, rounds: seq<Round>, k: Key): seq<Packet>
    decreases |rounds|
  {
    if rounds == [] then []
    else
      To(cfg, Drain(cfg, Acknowledge(conns, rounds[0].alloc), rounds[0].order, limit).out, k)
      + RoundsTo(cfg, DoRound(cfg, conns, limit, rounds[0]), limit, rounds[1..], k)
  }

  lemma ServeShuts(cfg: Config, c: Conn, room: nat)
    requires ConnOk(cfg, c.Remote(), c) && c.response.Some?
    ensures
      var s := Serve(cfg, c, room);
      s.conn.Some? && (c.closing ==> s.conn.value.closing)
      && Count(s.out, OP_SHUTDOWN) == if s.conn.value.closing && !c.closing then 1 else 0
  {
    SendChunksFacts(cfg, c, room);
    var s := SendChunks(cfg, c, room);
    hide SendChunks, SendSpace, ConnOk;
    CountNone(s.out, OP_SHUTDOWN);
    var settled := Settle(cfg, s.conn);
    CountConcat(s.out, settled.out, OP_SHUTDOWN);
    if settled.out != [] { CountOne(settled.out[0], OP_SHUTDOWN); }
  }

  /** One round continues k's stream, and shuts it down at most once. */
  lemma RoundSends(cfg: Config, conns: Conns, limit: int, r: Round, k: Key)
    requires EndpointOk(cfg, conns) && RoundOk(conns, r)
    requires k in conns && conns[k].response.Some?
    ensures
      var after := DoRound(cfg, conns, limit, r);
      var out := To(cfg, Drain(cfg, Acknowledge(conns, r.alloc), r.order, limit).out, k);
      && k in after && after[k].response == conns[k].response
      && conns[k].sent <= after[k].sent <= |conns[k].response.value|
      && Stream(out) == conns[k].response.value[conns[k].sent..after[k].sent]
      && (conns[k].closing ==> after[k].closing)
      && Count(out, OP_SHUTDOWN) == if after[k].closing && !conns[k].closing then 1 else 0
  {
    var m := Acknowledge(conns, r.alloc);
    var room := RoomAt(cfg, m, r.order, limit, k);
    AcknowledgedOk(cfg, conns, r.alloc);
    DrainAt(cfg, m, r.order, limit, k);
    ServeFacts(cfg, m[k], room);
    ServeShuts(cfg, m[k], room);
    hide Serve, Drain, RoomAt, Count, To, Stream;
    assert Lookup(DoRound(cfg, conns, limit, r), k).Some?;
  }

  /** Rounds continue k's stream, and shut it down at most once. */
  lemma {:induction false} RoundsSend(cfg: Config, conns: Conns, limit: int, rounds: seq<Round>, k: Key)
    requires EndpointOk(cfg, conns) && cfg.bufferLen > 0 && limit > 0 && RoundsOk(cfg, conns, limit, rounds)
    requires k in conns && conns[k].response.Some? && conns[k].sent <= |conns[k].response.value|
    ensures
      var after, out := DoRounds(cfg, conns, limit, rounds), RoundsTo(cfg, conns, limit, rounds, k);
      && k in after && after[k].response == conns[k].response
      && conns[k].sent <= after[k].sent <= |conns[k].response.value|
      && Stream(out) == conns[k].response.value[conns[k].sent..after[k].sent]
      && (conns[k].closing ==> after[k].closing)
      && Count(out, OP_SHUTDOWN) == if after[k].closing && !conns[k].closing then 1 else 0
    decreases |rounds|
  {
    if rounds != [] {
      hide DoRound, Count, Stream, To, Drain, EndpointOk;
      var r := rounds[0];
      var next, after := DoRound(cfg, conns, limit, r), DoRounds(cfg, conns, limit, rounds);
      var out := To(cfg, Drain(cfg, Acknowledge(conns, r.alloc), r.order, limit).out, k);
      var later := RoundsTo(cfg, next, limit, rounds[1..], k);
      RoundWorks(cfg, conns, limit, r);
      RoundSends(cfg, conns, limit, r, k);
      RoundsSend(cfg, next, limit, rounds[1..], k);
      StreamConcat(out, later);
      CountConcat(out, later, OP_SHUTDOWN);
      Join(conns[k].response.value, conns[k].sent, next[k].sent, after[k].sent);
    }
  }

  lemma {:induction false} RoundsEnd(cfg: Config, conns: Conns, limit: int, rounds: seq<Round>, k: Key)
    requires EndpointOk(cfg, conns) && cfg.bufferLen > 0 && limit > 0
    requires RoundsOk(cfg, conns, limit, rounds) && |rounds| >= TotalWork(conns)
    requires k in conns && conns[k].response.Some?
    ensures
      var after := DoRounds(cfg, conns, limit, rounds);
      && k in after && after[k].response == conns[k].response
      && after[k].sent == |conns[k].response.value| && after[k].closing
    decreases |rounds|
  {
    if rounds == [] {
      TotalSplit(conns, k);
    } else {
      hide DoRound;
      RoundWorks(cfg, conns, limit, rounds[0]);
      RoundSends(cfg, conns, limit, rounds[0], k);
      RoundsEnd(cfg, DoRound(cfg, conns, limit, rounds[0]), limit, rounds[1..], k);
    }
  }

  /** Liveness: as many rounds as there is work send exactly the rest of every response, and its
      shutdown once, unless the peer had closed, whatever the buffers and the orders. */
  lemma RoundsFinish(cfg: Config, conns: Conns, limit: int, rounds: seq<Round>, k: Key)
    requires EndpointOk(cfg, conns) && cfg.bufferLen > 0 && limit > 0
    requires RoundsOk(cfg, conns, limit, rounds) && |rounds| >= TotalWork(conns)
    requires k in conns && conns[k].response.Some?
    ensures
      var after, out := DoRounds(cfg, conns, limit, rounds), RoundsTo(cfg, conns, limit, rounds, k);
      && k in after && after[k].response == conns[k].response
      && after[k].sent == |conns[k].response.value| && after[k].closing
      && conns[k].sent <= |conns[k].response.value| && Stream(out) == conns[k].response.value[conns[k].sent..]
      && Count(out, OP_SHUTDOWN) == if conns[k].closing then 0 else 1
  {
    assert ConnOk(cfg, k, conns[k]);
    hide DoRounds, RoundsTo, RoundsOk, TotalWork, EndpointOk, Count, Stream;
    RoundsEnd(cfg, conns, limit, rounds, k);
    RoundsSend(cfg, conns, limit, rounds, k);
  }
}
