/** What the vsock endpoint does to its connections, on values.

    Endpoint.dfy holds the code itself, with its mutable connections and its loops, and proves
    that it computes the functions of this module. The order in which Drain visits the
    connection map is not fixed by Go, so it is a parameter here. */
module Protocol {
  import opened Bytes
  import opened Wire

  /** The exported fields of Endpoint that a run does not change. */
  datatype Config = Config(cid: u64, port: u32, bufferLen: u32, maxConns: int)

  datatype Key = Key(cid: u64, port: u32)

  /** One connection. A response that is None (Go's nil) has not been produced yet,
      which differs from the empty response Some([]). */
  datatype Conn = Conn(
    remoteCID: u64, remotePort: u32, peerAlloc: u32, peerFwd: u32, txCount: u32, rxFwd: u32,
    request: seq<byte>, response: Option<seq<byte>>, sent: nat, closing: bool)
  {
    function Remote(): Key { Key(remoteCID, remotePort) }

    /** Go's len(c.response), where the length of nil is 0. */
    function ResponseLength(): nat { if response.Some? then |response.value| else 0 }

    function Body(): seq<byte> { if response.Some? then response.value else [] }
  }

  type Conns = map<Key, Conn>

  type Handler = seq<byte> -> Option<seq<byte>>

  const DRAIN_LIMIT := 8

  // -------------------------------------------------------------- maps and packets

  function Lookup(conns: Conns, k: Key): Option<Conn> {
    if k in conns then Some(conns[k]) else None
  }

  function Put(conns: Conns, k: Key, c: Option<Conn>): (m: Conns)
    ensures Lookup(m, k) == c
    ensures forall j :: j != k ==> Lookup(m, j) == Lookup(conns, j)
  {
    if c.Some? then conns[k := c.value] else conns - {k}
  }

  function Sender(h: Header): Key { Key(h.srcCID, h.srcPort) }

  function Receiver(h: Header): Key { Key(h.dstCID, h.dstPort) }

  /** The packets of ps that travel from this endpoint to the remote k. */
  function To(cfg: Config, ps: seq<Packet>, k: Key): seq<Packet> {
    if ps == [] then []
    else if Sender(ps[0].header) == Key(cfg.cid, cfg.port) && Receiver(ps[0].header) == k
    then [ps[0]] + To(cfg, ps[1..], k)
    else To(cfg, ps[1..], k)
  }

  // ------------------------------------------------------------------- small steps

  function ReplyHeader(cfg: Config, c: Conn, op: u16, flags: u32): Header {
    Header(cfg.cid, c.remoteCID, cfg.port, c.remotePort, 0, TYPE_STREAM, op, flags,
           cfg.bufferLen, c.rxFwd)
  }

  function Reply(cfg: Config, c: Conn, op: u16, flags: u32): Packet {
    Packet(ReplyHeader(cfg, c, op, flags), [])
  }

  /** The reset that answers a packet with header h. */
  function Refusal(h: Header): Packet {
    Packet(Header(h.dstCID, h.srcCID, h.dstPort, h.srcPort, 0, TYPE_STREAM, OP_RESET, 0, 0, 0), [])
  }

  function UpdatePeer(c: Conn, h: Header): Conn {
    c.(peerAlloc := h.bufAlloc, peerFwd := h.fwdCnt)
  }

  function Min(a: int, b: int): int { if a <= b then a else b }

  function SendLimit(cfg: Config, c: Conn): u32 {
    Min(c.peerAlloc, cfg.bufferLen)
  }

  function SendSpace(cfg: Config, c: Conn): u32 {
    var limit := SendLimit(cfg, c);
    if c.peerFwd > c.txCount then limit
    else if c.txCount - c.peerFwd >= limit then 0
    else limit - (c.txCount - c.peerFwd)
  }

  function Terminator(): seq<byte> { [13, 10, 13, 10] }

  predicate TerminatorAt(request: seq<byte>, i: int) {
    0 <= i <= |request| - 4 && request[i..i + 4] == Terminator()
  }

  /** bytes.Contains(request, "\r\n\r\n") */
  predicate Complete(request: seq<byte>) {
    exists i | 0 <= i < |request| :: TerminatorAt(request, i)
  }

  // ------------------------------------------------------------------------- Drain

  /** The loop condition of the inner loop of Drain, with its break folded in. */
  predicate CanSend(cfg: Config, c: Conn) {
    c.sent < c.ResponseLength() && SendSpace(cfg, c) > 0
  }

  function ChunkLength(cfg: Config, c: Conn): (n: nat)
    requires CanSend(cfg, c)
    ensures 0 < n <= MAX_PACKET_PAYLOAD && n <= SendSpace(cfg, c) && c.sent + n <= c.ResponseLength()
  {
    Min(Min(c.ResponseLength() - c.sent, SendSpace(cfg, c)), MAX_PACKET_PAYLOAD)
  }

  function Chunk(cfg: Config, c: Conn): Packet
    requires CanSend(cfg, c)
  {
    Packet(ReplyHeader(cfg, c, OP_READ_WRITE, 0),
           c.response.value[c.sent..c.sent + ChunkLength(cfg, c)])
  }

  function AfterChunk(cfg: Config, c: Conn): Conn
    requires CanSend(cfg, c)
  {
    var n := ChunkLength(cfg, c);
    c.(sent := c.sent + n, txCount := Wrap32(c.txCount + n))
  }

  datatype Sent = Sent(conn: Conn, out: seq<Packet>)

  /** The chunks Drain takes from one response while there is room for packets. */
  function SendChunks(cfg: Config, c: Conn, room: nat): (s: Sent)
    ensures |s.out| <= room
    decreases room
  {
    if room == 0 || !CanSend(cfg, c) then Sent(c, [])
    else
      var rest := SendChunks(cfg, AfterChunk(cfg, c), room - 1);
      Sent(rest.conn, [Chunk(cfg, c)] + rest.out)
  }

  /** A connection after its turn in Drain (None: deleted), and the packets it produced. */
  datatype Served = Served(conn: Option<Conn>, out: seq<Packet>)

  predicate OwesShutdown(c: Conn) {
    c.response.Some? && c.sent == |c.response.value| && !c.closing
  }

  predicate OwesReset(c: Conn) {
    c.closing && c.response.None?
  }

  /** The control packet a connection owes once its data is out: a shutdown behind the last
      byte, or a reset that closes a connection without a response. */
  function Settle(cfg: Config, c: Conn): (s: Served)
    ensures |s.out| <= 1
  {
    if OwesShutdown(c) then Served(Some(c.(closing := true)), [Reply(cfg, c, OP_SHUTDOWN, SHUTDOWN_BOTH)])
    else if OwesReset(c) then Served(None, [Reply(cfg, c, OP_RESET, 0)])
    else Served(Some(c), [])
  }

  function Serve(cfg: Config, c: Conn, room: nat): (s: Served)
    ensures |s.out| <= room
  {
    var sent := SendChunks(cfg, c, room);
    if |sent.out| >= room then Served(Some(sent.conn), sent.out)
    else
      var rest := Settle(cfg, sent.conn);
      Served(rest.conn, sent.out + rest.out)
  }

  datatype Drained = Drained(conns: Conns, out: seq<Packet>)

  /** Drain after the visits in order, each connection getting the room that is left. */
  function Drain(cfg: Config, conns: Conns, order: seq<Key>, limit: int): (d: Drained)
    ensures |d.out| <= if limit > 0 then limit else 0
  {
    if limit <= 0 || order == [] then Drained(conns, [])
    else
      var before := Drain(cfg, conns, order[..|order| - 1], limit);
      var k := order[|order| - 1];
      if k !in before.conns then before
      else
        var s := Serve(cfg, before.conns[k], limit - |before.out|);
        Drained(Put(before.conns, k, s.conn), before.out + s.out)
  }

  ghost predicate IsOrder(order: seq<Key>, keys: set<Key>) {
    && (forall k :: k in order <==> k in keys)
    && (forall i, j :: 0 <= i < j < |order| ==> order[i] != order[j])
  }

  // ------------------------------------------------------------------------ Handle

  /** What a packet does to the connection it is addressed to, before any draining. */
  datatype Reaction =
    | Refuse(conn: Option<Conn>)                         // answered with a reset
    | Quiet(conn: Option<Conn>)                          // no answer
    | Fail(conn: Option<Conn>)                           // Handle returns an error
    | Proceed(conn: Option<Conn>, replies: seq<Packet>)  // continues with Drain(8)

  predicate Addressed(cfg: Config, h: Header) {
    h.typ == TYPE_STREAM && Receiver(h) == Key(cfg.cid, cfg.port)
  }

  function NewConn(h: Header): Conn {
    UpdatePeer(Conn(h.srcCID, h.srcPort, 0, 0, 0, 0, [], None, 0, false), h)
  }

  /** A connection with the payload of a ReadWrite packet appended to its request. */
  function Receive(c: Conn, payload: seq<byte>): Conn {
    c.(request := c.request + payload, rxFwd := Wrap32(c.rxFwd + |payload|))
  }

  predicate CallsHandler(c: Conn) {
    c.response.None? && Complete(c.request)
  }

  function ReactToData(cfg: Config, c: Conn, payload: seq<byte>, handler: Option<Handler>): Reaction {
    if |c.request| + |payload| > cfg.bufferLen then Refuse(None)
    else
      var d := Receive(c, payload);
      if CallsHandler(d) && handler.None? then Fail(Some(d))
      else
        var e := if CallsHandler(d) then d.(response := handler.value(d.request)) else d;
        Proceed(Some(e), if e.response.None? then [Reply(cfg, e, OP_CREDIT_UPDATE, 0)] else [])
  }

  function React(cfg: Config, full: bool, c: Option<Conn>, p: Packet, handler: Option<Handler>): Reaction {
    var h := p.header;
    if h.op == OP_REQUEST then
      if c.Some? || full then Refuse(c)
      else Proceed(Some(NewConn(h)), [Reply(cfg, NewConn(h), OP_RESPONSE, 0)])
    else if c.None? then Refuse(None)
    else
      var d := UpdatePeer(c.value, h);
      if h.op == OP_READ_WRITE then ReactToData(cfg, d, p.payload, handler)
      else if h.op == OP_CREDIT_REQUEST then Proceed(Some(d), [Reply(cfg, d, OP_CREDIT_UPDATE, 0)])
      else if h.op == OP_CREDIT_UPDATE then Proceed(Some(d), [])
      else if h.op == OP_SHUTDOWN then Proceed(Some(d.(closing := true)), [])
      else if h.op == OP_RESET then Quiet(None)
      else Refuse(None)
  }

  /** The endpoint after Handle. Refusals answer the packet itself, replies are sent on
      behalf of connections; at most one of the two is non-empty. */
  datatype Outcome = Outcome(conns: Conns, refusals: seq<Packet>, replies: seq<Packet>, failed: bool)
  {
    function Out(): seq<Packet> { refusals + replies }
  }

  /** The connection map after React, which is the one that Drain visits. */
  function Reacted(cfg: Config, conns: Conns, p: Packet, handler: Option<Handler>): Reaction {
    React(cfg, |conns| >= cfg.maxConns, Lookup(conns, Sender(p.header)), p, handler)
  }

  function HandlePacket(cfg: Config, conns: Conns, p: Packet, handler: Option<Handler>, order: seq<Key>): Outcome {
    if !Addressed(cfg, p.header) then Outcome(conns, [Refusal(p.header)], [], false)
    else
      var r := Reacted(cfg, conns, p, handler);
      var after := Put(conns, Sender(p.header), r.conn);
      match r
      case Refuse(_) => Outcome(after, [Refusal(p.header)], [], false)
      case Quiet(_) => Outcome(after, [], [], false)
      case Fail(_) => Outcome(after, [], [], true)
      case Proceed(_, replies) =>
        var d := Drain(cfg, after, order, DRAIN_LIMIT);
        Outcome(d.conns, [], replies + d.out, false)
  }

  function Handle(cfg: Config, conns: Conns, packet: seq<byte>, handler: Option<Handler>, order: seq<Key>): Outcome {
    match Decode(packet)
    case Error => Outcome(conns, [], [], true)
    case Ok(p) => HandlePacket(cfg, conns, p, handler, order)
  }

  /** order is one that Go may use for the Drain inside HandlePacket. */
  ghost predicate HandleOrder(cfg: Config, conns: Conns, p: Packet, handler: Option<Handler>, order: seq<Key>) {
    Addressed(cfg, p.header) && Reacted(cfg, conns, p, handler).Proceed? ==>
      IsOrder(order, Put(conns, Sender(p.header), Reacted(cfg, conns, p, handler).conn).Keys)
  }
}
