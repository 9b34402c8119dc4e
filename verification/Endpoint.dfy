/** The vsock endpoint as the code has it: connection objects that are updated in place, a map
    from remote addresses to them, and loops. Every method computes its Protocol function. */
module Endpoints {
  import opened Bytes
  import opened Wire
  import opened Seqs
  import Protocol
  import opened Connections

  const DEFAULT_BUFFER: u32 := 256 * 1024
  const DEFAULT_MAX_CONNS := 64

  class Connection {
    const remoteCID: u64
    const remotePort: u32
    var peerAlloc: u32
    var peerFwd: u32
    var txCount: u32
    var rxFwd: u32
    var request: seq<byte>
    var response: Option<seq<byte>>
    var sent: nat
    var closing: bool

    constructor (remoteCID: u64, remotePort: u32)
      ensures Model() == Protocol.Conn(remoteCID, remotePort, 0, 0, 0, 0, [], None, 0, false)
    {
      this.remoteCID, this.remotePort := remoteCID, remotePort;
      peerAlloc, peerFwd, txCount, rxFwd := 0, 0, 0, 0;
      request, response, sent, closing := [], None, 0, false;
    }

    function Model(): Protocol.Conn
      reads this
    {
      Protocol.Conn(remoteCID, remotePort, peerAlloc, peerFwd, txCount, rxFwd, request, response, sent, closing)
    }

    method UpdatePeer(header: Header)
      modifies this`peerAlloc, this`peerFwd
      ensures Model() == Protocol.UpdatePeer(old(Model()), header)
    {
      peerAlloc := header.bufAlloc;
      peerFwd := header.fwdCnt;
    }
  }

  lemma EncodeAllConcat(a: seq<Packet>, b: seq<Packet>)
    ensures EncodeAll(a + b) == EncodeAll(a) + EncodeAll(b)
  {
  }

  /** What the inner loop of Drain has done: taken is what it took, c what remains to serve. */
  ghost predicate Progress(cfg: Protocol.Config, before: Protocol.Conn, room: nat, c: Protocol.Conn,
      taken: seq<Packet>) {
    |taken| <= room &&
    var rest := Protocol.SendChunks(cfg, c, room - |taken|);
    Protocol.SendChunks(cfg, before, room) == Protocol.Sent(rest.conn, taken + rest.out)
  }

  lemma ChunkStep(cfg: Protocol.Config, before: Protocol.Conn, room: nat, c: Protocol.Conn, taken: seq<Packet>)
    requires Progress(cfg, before, room, c, taken) && |taken| < room && Protocol.CanSend(cfg, c)
    ensures Progress(cfg, before, room, Protocol.AfterChunk(cfg, c), taken + [Protocol.Chunk(cfg, c)])
  {
    var d := Protocol.AfterChunk(cfg, c);
    Assoc(taken, [Protocol.Chunk(cfg, c)], Protocol.SendChunks(cfg, d, room - |taken| - 1).out);
  }

  lemma ChunksEnd(cfg: Protocol.Config, before: Protocol.Conn, room: nat, c: Protocol.Conn, taken: seq<Packet>)
    requires Progress(cfg, before, room, c, taken) && (|taken| == room || !Protocol.CanSend(cfg, c))
    ensures Protocol.SendChunks(cfg, before, room) == Protocol.Sent(c, taken)
  {
    Empty(taken);
  }

  lemma DrainNext(cfg: Protocol.Config, conns: Protocol.Conns, order: seq<Protocol.Key>, limit: int, k: Protocol.Key)
    requires limit > 0 && k in Protocol.Drain(cfg, conns, order, limit).conns
    ensures
      var d := Protocol.Drain(cfg, conns, order, limit);
      var s := Protocol.Serve(cfg, d.conns[k], limit - |d.out|);
      Protocol.Drain(cfg, conns, order + [k], limit)
          == Protocol.Drained(Protocol.Put(d.conns, k, s.conn), d.out + s.out)
  {
    hide Protocol.Serve;
    Last(order, k);
  }

  /** Once Drain has no room left, further visits change nothing. */
  lemma {:induction false} DrainFull(cfg: Protocol.Config, conns: Protocol.Conns, order: seq<Protocol.Key>,
      rest: seq<Protocol.Key>, limit: int)
    requires rest == [] || limit <= 0 || |Protocol.Drain(cfg, conns, order, limit).out| == limit
    ensures Protocol.Drain(cfg, conns, order + rest, limit) == Protocol.Drain(cfg, conns, order, limit)
    decreases |rest|
  {
    if rest == [] || limit <= 0 {
      Empty(order);
    } else {
      var n := |rest| - 1;
      DrainFull(cfg, conns, order, rest[..n], limit);
      Last(order + rest[..n], rest[n]);
      Assoc(order, rest[..n], [rest[n]]);
      assert rest == rest[..n] + [rest[n]];
      var d := Protocol.Drain(cfg, conns, order, limit);
      Empty(d.out);
    }
  }

  lemma OrderConcat(a: seq<Protocol.Key>, keys: set<Protocol.Key>, b: seq<Protocol.Key>, more: set<Protocol.Key>)
    requires Protocol.IsOrder(a, keys) && Protocol.IsOrder(b, more) && keys !! more
    ensures Protocol.IsOrder(a + b, keys + more)
  {
    forall i, j | 0 <= i < j < |a + b| ensures (a + b)[i] != (a + b)[j] {
      if i < |a| <= j {
        assert a[i] in keys && b[j - |a|] in more;
      }
    }
  }

  lemma NoKeys()
    ensures Protocol.IsOrder([], {})
  {
  }

  lemma OneKey(k: Protocol.Key)
    ensures Protocol.IsOrder([k], {k})
  {
  }

  /** A packet for a connection that does not exist, other than a request, is refused. */
  lemma Unknown(cfg: Protocol.Config, full: bool, p: Packet, handler: Option<Protocol.Handler>)
    requires p.header.op != OP_REQUEST
    ensures Protocol.React(cfg, full, None, p, handler) == Protocol.Refuse(None)
  {
  }

  /** HandlePacket in terms of its reaction, as encoded packets. */
  lemma Concluded(cfg: Protocol.Config, conns: Protocol.Conns, p: Packet, handler: Option<Protocol.Handler>,
      order: seq<Protocol.Key>)
    requires Protocol.Addressed(cfg, p.header)
    ensures
      var r := Protocol.Reacted(cfg, conns, p, handler);
      var after := Protocol.Put(conns, Protocol.Sender(p.header), r.conn);
      var o := Protocol.HandlePacket(cfg, conns, p, handler, order);
      match r
      case Refuse(_) => o.conns == after && EncodeAll(o.Out()) == [Encode(Protocol.Refusal(p.header))] && !o.failed
      case Quiet(_) => o.conns == after && EncodeAll(o.Out()) == [] && !o.failed
      case Fail(_) => o.conns == after && EncodeAll(o.Out()) == [] && o.failed
      case Proceed(_, replies) =>
        var d := Protocol.Drain(cfg, after, order, Protocol.DRAIN_LIMIT);
        o.conns == d.conns && EncodeAll(o.Out()) == EncodeAll(replies) + EncodeAll(d.out) && !o.failed
  {
    hide Protocol.Drain, Protocol.React, Encode, Protocol.Put;
    var r := Protocol.Reacted(cfg, conns, p, handler);
    if r.Proceed? {
      var after := Protocol.Put(conns, Protocol.Sender(p.header), r.conn);
      EncodeAllConcat(r.replies, Protocol.Drain(cfg, after, order, Protocol.DRAIN_LIMIT).out);
    }
  }

  datatype Verdict = Done | Failed | Continue

  class Endpoint {
    const cid: u64
    const port: u32
    const handler: Option<Protocol.Handler>
    const bufferLen: u32
    const maxConns: int
    var connections: map<Protocol.Key, Connection>

    constructor (cid: u64, port: u32, handler: Option<Protocol.Handler>)
      ensures Valid() && Conns() == map[] && connections == map[] && this.handler == handler
      ensures Config() == Protocol.Config(cid, port, 256 * 1024, 64)
    {
      this.cid, this.port, this.handler := cid, port, handler;
      bufferLen, maxConns := DEFAULT_BUFFER, DEFAULT_MAX_CONNS;
      connections := map[];
    }

    function Config(): Protocol.Config {
      Protocol.Config(cid, port, bufferLen, maxConns)
    }

    /** Objects are filed under their remote address, so distinct keys have distinct objects. */
    ghost predicate Valid()
      reads this
    {
      forall k :: k in connections ==> Protocol.Key(connections[k].remoteCID, connections[k].remotePort) == k
    }

    ghost function Conns(): Protocol.Conns
      reads this, connections.Values
    {
      map k | k in connections :: connections[k].Model()
    }

    lemma SameKeys()
      ensures Conns().Keys == connections.Keys
    {
    }

    lemma SameAt(key: Protocol.Key)
      ensures Protocol.Lookup(Conns(), key) ==
              if key in connections then Some(connections[key].Model()) else None
    {
    }

    method Reset()
      modifies this`connections
      ensures Valid() && Conns() == map[] && connections == map[]
    {
      connections := map[];
    }

    /** The inner loop of Drain: chunks of one response while there is room and credit. */
    method SendChunks(c: Connection, room: nat) returns (out: seq<seq<byte>>)
      modifies c`sent, c`txCount
      ensures
        var s := Protocol.SendChunks(Config(), old(c.Model()), room);
        c.Model() == s.conn && out == EncodeAll(s.out)
    {
      hide Protocol.SendChunks, Protocol.SendSpace, Encode;
      out := [];
      ghost var before := c.Model();
      ghost var taken: seq<Packet> := [];
      Empty(Protocol.SendChunks(Config(), before, room).out);
      while |out| < room && c.sent < c.Model().ResponseLength()
        invariant |taken| == |out| <= room && out == EncodeAll(taken)
        invariant Progress(Config(), before, room, c.Model(), taken)
        decreases room - |out|
      {
        var space := Protocol.SendSpace(Config(), c.Model());
        if space == 0 {
          break;
        }
        ChunkStep(Config(), before, room, c.Model(), taken);
        ghost var packet := Protocol.Chunk(Config(), c.Model());
        var remaining := |c.response.value| - c.sent;
        var chunkLen := Protocol.Min(Protocol.Min(remaining, space), MAX_PACKET_PAYLOAD);
        var chunk := c.response.value[c.sent..c.sent + chunkLen];
        out := out + [Encode(Packet(Protocol.ReplyHeader(Config(), c.Model(), OP_READ_WRITE, 0), chunk))];
        c.sent := c.sent + chunkLen;
        c.txCount := Wrap32(c.txCount + chunkLen);
        EncodeAllConcat(taken, [packet]);
        taken := taken + [packet];
      }
      ChunksEnd(Config(), before, room, c.Model(), taken);
    }

    /** Conns() after the object of one key alone has changed, or has been removed. */
    twostate lemma OneChanged(key: Protocol.Key)
      requires old(Valid()) && key in old(connections)
      requires forall k :: k in connections ==> k in old(connections) && connections[k] == old(connections[k])
      requires forall k :: k in old(connections) && k != key ==> k in connections
      requires forall k :: k in connections && k != key ==> unchanged(connections[k])
      ensures Conns() == Protocol.Put(old(Conns()), key,
                if key in connections then Some(connections[key].Model()) else None)
    {
    }

    twostate lemma SameConns(key: Protocol.Key)
      requires old(Conns()) == Conns()
      ensures Conns() == Protocol.Put(old(Conns()), key, Protocol.Lookup(old(Conns()), key))
    {
    }

    twostate lemma Inserted(key: Protocol.Key)
      requires old(Valid()) && key !in old(connections)
      requires key in connections && connections == old(connections)[key := connections[key]]
      requires forall k :: k in old(connections) ==> unchanged(old(connections)[k])
      ensures Conns() == Protocol.Put(old(Conns()), key, Some(connections[key].Model()))
    {
    }

    /** The end of the loop body of Drain: the control packet that is owed. */
    method Settle(key: Protocol.Key) returns (out: seq<seq<byte>>)
      requires Valid() && key in connections
      modifies this`connections, connections[key]
      ensures Valid()
      ensures connections == old(connections) || connections == old(connections) - {key}
      ensures
        var s := Protocol.Settle(Config(), old(connections[key].Model()));
        && (key in connections <==> s.conn.Some?)
        && (key in connections ==> Some(connections[key].Model()) == s.conn)
        && out == EncodeAll(s.out)
    {
      hide Encode;
      out := [];
      var c := connections[key];
      if c.response.Some? && c.sent == |c.response.value| && !c.closing {
        out := out + [Encode(Protocol.Reply(Config(), c.Model(), OP_SHUTDOWN, SHUTDOWN_BOTH))];
        c.closing := true;
      }
      if c.closing && c.response.None? {
        out := out + [Encode(Protocol.Reply(Config(), c.Model(), OP_RESET, 0))];
        connections := connections - {key};
      }
    }

    /** The loop body of Drain for one key. */
    method Turn(key: Protocol.Key, room: nat) returns (out: seq<seq<byte>>)
      requires Valid() && key in connections && room > 0
      modifies this`connections, connections[key]
      ensures Valid()
      ensures connections == old(connections) || connections == old(connections) - {key}
      ensures
        var s := Protocol.Serve(Config(), old(Conns())[key], room);
        Conns() == Protocol.Put(old(Conns()), key, s.conn) && out == EncodeAll(s.out)
    {
      hide Protocol.SendChunks, Protocol.Settle, Encode, Protocol.Put, EncodeAll;
      var c := connections[key];
      ghost var sent := Protocol.SendChunks(Config(), c.Model(), room);
      ghost var rest := Protocol.Settle(Config(), sent.conn);
      out := SendChunks(c, room);
      if |out| < room {
        var control := Settle(key);
        out := out + control;
        EncodeAllConcat(sent.out, rest.out);
      }
      OneChanged(key);
    }

    /** Drain visits the connections in an order that Go leaves open; order reports it. */
    method Drain(limit: int) returns (out: seq<seq<byte>>, ghost order: seq<Protocol.Key>)
      requires Valid()
      modifies this`connections, connections.Values
      ensures Valid() && connections.Values <= old(connections.Values)
      ensures Protocol.IsOrder(order, old(connections.Keys))
      ensures
        var d := Protocol.Drain(Config(), old(Conns()), order, limit);
        Conns() == d.conns && out == EncodeAll(d.out)
    {
      hide Protocol.Serve, Protocol.Drain, Protocol.IsOrder, Protocol.Put, Encode, Valid, Conns;
      NoKeys();
      assert old(connections.Keys) - old(connections.Keys) == {};
      out := [];
      ghost var emitted: seq<Packet> := [];
      order := [];
      var todo := connections.Keys;
      NoDrain(Config(), Conns(), limit);
      while todo != {} && |out| < limit
        invariant Valid() && connections.Keys <= old(connections.Keys) && todo <= connections.Keys
        invariant forall k :: k in connections ==> connections[k] == old(connections)[k]
        invariant Protocol.IsOrder(order, old(connections.Keys) - todo)
        invariant out == EncodeAll(emitted)
        invariant Protocol.Drain(Config(), old(Conns()), order, limit) == Protocol.Drained(Conns(), emitted)
        decreases todo
      {
        var key :| key in todo;
        ghost var done := old(connections.Keys) - todo;
        todo := todo - {key};
        SameKeys();
        DrainNext(Config(), old(Conns()), order, limit, key);
        ghost var s := Protocol.Serve(Config(), Conns()[key], limit - |out|);
        var sent := Turn(key, limit - |out|);
        EncodeAllConcat(emitted, s.out);
        emitted := emitted + s.out;
        out := out + sent;
        OneKey(key);
        OrderConcat(order, done, [key], {key});
        assert done + {key} == old(connections.Keys) - todo;
        order := order + [key];
      }
      ghost var rest := Enumerate(todo);
      DrainFull(Config(), old(Conns()), order, rest, limit);
      OrderConcat(order, old(connections.Keys) - todo, rest, todo);
      assert old(connections.Keys) - todo + todo == old(connections.Keys);
      order := order + rest;
    }

    /** What Handle returns early with, or that it goes on to Drain. */
    ghost predicate Answers(header: Header, r: Protocol.Reaction, out: seq<seq<byte>>, verdict: Verdict) {
      match r
      case Refuse(_) => verdict == Done && out == [Encode(Protocol.Refusal(header))]
      case Quiet(_) => verdict == Done && out == []
      case Fail(_) => verdict == Failed && out == []
      case Proceed(_, replies) => verdict == Continue && out == EncodeAll(replies)
    }

    /** Handle for OpRequest, up to its Drain. */
    method Open(key: Protocol.Key, header: Header) returns (out: seq<seq<byte>>, verdict: Verdict)
      requires Valid() && key == Protocol.Sender(header) && header.op == OP_REQUEST
      modifies this`connections
      ensures Valid() && fresh(connections.Values - old(connections.Values))
      ensures forall payload {:trigger Packet(header, payload)} ::
        var r := Protocol.Reacted(Config(), old(Conns()), Packet(header, payload), handler);
        Conns() == Protocol.Put(old(Conns()), key, r.conn) && Answers(header, r, out, verdict)
    {
      hide Encode, Protocol.Put, Conns;
      SameKeys();
      SameAt(key);
      if key in connections || |connections| >= maxConns {
        SameConns(key);
        return [Encode(Protocol.Refusal(header))], Done;
      }
      var c := new Connection(header.srcCID, header.srcPort);
      c.UpdatePeer(header);
      connections := connections[key := c];
      Inserted(key);
      return [Encode(Protocol.Reply(Config(), c.Model(), OP_RESPONSE, 0))], Continue;
    }

    /** The OpReadWrite case of Handle; false as ok stands for the deletion of the connection. */
    method ReadWrite(c: Connection, payload: seq<byte>) returns (out: seq<seq<byte>>, ok: bool, failed: bool)
      modifies c`request, c`rxFwd, c`response
      ensures
        var r := Protocol.ReactToData(Config(), old(c.Model()), payload, handler);
        && (!ok ==> r == Protocol.Refuse(None) && !failed)
        && (ok && failed ==> r == Protocol.Fail(Some(c.Model())))
        && (ok && !failed ==> r.Proceed? && r.conn == Some(c.Model()))
        && out == (if r.Proceed? then EncodeAll(r.replies) else [])
    {
      hide Encode, Protocol.Complete;
      if |c.request| + |payload| > bufferLen {
        return [], false, false;
      }
      c.request := c.request + payload;
      c.rxFwd := Wrap32(c.rxFwd + |payload|);
      if c.response.None? && Protocol.Complete(c.request) {
        if handler.None? {
          return [], true, true;
        }
        c.response := handler.value(c.request);
      }
      out := [];
      if c.response.None? {
        out := [Encode(Protocol.Reply(Config(), c.Model(), OP_CREDIT_UPDATE, 0))];
      }
      return out, true, false;
    }

    /** Handle for a packet on an existing connection, up to its Drain. */
    method Update(key: Protocol.Key, header: Header, payload: seq<byte>) returns (out: seq<seq<byte>>, verdict: Verdict)
      requires Valid() && key == Protocol.Sender(header) && key in connections && header.op != OP_REQUEST
      modifies this`connections, connections[key]
      ensures Valid() && connections.Values <= old(connections.Values)
      ensures
        var r := Protocol.Reacted(Config(), old(Conns()), Packet(header, payload), handler);
        Conns() == Protocol.Put(old(Conns()), key, r.conn) && Answers(header, r, out, verdict)
    {
      hide Encode, Protocol.Put, Protocol.ReactToData, Protocol.Reply, Conns;
      SameAt(key);
      var c := connections[key];
      c.UpdatePeer(header);
      out, verdict := [], Continue;
      if header.op == OP_READ_WRITE {
        var replies, ok, failed := ReadWrite(c, payload);
        if !ok {
          connections := connections - {key};
          out, verdict := [Encode(Protocol.Refusal(header))], Done;
        } else {
          out, verdict := replies, if failed then Failed else Continue;
        }
      } else if header.op == OP_CREDIT_REQUEST {
        out := [Encode(Protocol.Reply(Config(), c.Model(), OP_CREDIT_UPDATE, 0))];
      } else if header.op == OP_CREDIT_UPDATE {
      } else if header.op == OP_SHUTDOWN {
        c.closing := true;
      } else if header.op == OP_RESET {
        connections := connections - {key};
        verdict := Done;
      } else {
        connections := connections - {key};
        out, verdict := [Encode(Protocol.Refusal(header))], Done;
      }
      OneChanged(key);
    }

    /** Handle, with the order of its Drain reported (it is arbitrary when nothing is drained). */
    method Handle(packet: seq<byte>) returns (out: seq<seq<byte>>, failed: bool, ghost order: seq<Protocol.Key>)
      requires Valid()
      modifies this`connections, connections.Values
      ensures Valid() && fresh(connections.Values - old(connections.Values))
      ensures Decode(packet).Ok? ==>
                Protocol.HandleOrder(Config(), old(Conns()), Decode(packet).value, handler, order)
      ensures
        var r := Protocol.Handle(Config(), old(Conns()), packet, handler, order);
        Conns() == r.conns && out == EncodeAll(r.Out()) && failed == r.failed
    {
      hide Protocol.Drain, Protocol.React, Encode, Decode, Protocol.Put;
      out, failed, order := [], false, [];
      var decoded := Decode(packet);
      if decoded.Error? {
        failed := true;
        return;
      }
      var header, payload := decoded.value.header, decoded.value.payload;
      if header.typ != TYPE_STREAM || header.dstCID != cid || header.dstPort != port {
        out := [Encode(Protocol.Refusal(header))];
        return;
      }
      var key := Protocol.Key(header.srcCID, header.srcPort);
      assert decoded.value == Packet(header, payload);
      ghost var reaction := Protocol.Reacted(Config(), Conns(), decoded.value, handler);
      var verdict;
      if header.op == OP_REQUEST {
        out, verdict := Open(key, header);
      } else if key in connections {
        out, verdict := Update(key, header, payload);
      } else {
        out, verdict := [Encode(Protocol.Refusal(header))], Done;
        Unknown(Config(), |Conns()| >= maxConns, decoded.value, handler);
        SameConns(key);
      }
      match verdict {
        case Done =>
        case Failed => failed := true;
        case Continue =>
          var drained, o := Drain(Protocol.DRAIN_LIMIT);
          out, order := out + drained, o;
      }
      Concluded(Config(), old(Conns()), decoded.value, handler, order);
      hide Protocol.HandlePacket;
    }
  }
}
