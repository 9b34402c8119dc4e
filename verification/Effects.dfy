/** What every packet does to the endpoint, operation by operation, in the numbers of VIRTIO 1.1
    section 5.10.6: the connection it leaves, what is answered at once, and that a drain of at
    most eight packets follows; and what a turn of one connection in that drain sends. */
module Effects {
  import opened Bytes
  import opened Wire
  import opened Seqs
  import opened Protocol
  import opened Connections
  import opened History

  // ------------------------------------------------------------------- direct answers

  /** The header is for this endpoint. */
  predicate ForUs(cfg: Config, h: Header) {
    h.typ == 1 && h.dstCID == cfg.cid && h.dstPort == cfg.port
  }

  /** A packet without payload to k, which announces that n bytes have been received. */
  function Control(cfg: Config, k: Key, op: u16, flags: u32, n: u32): Packet {
    Packet(Header(cfg.cid, k.cid, cfg.port, k.port, 0, 1, op, flags, cfg.bufferLen, n), [])
  }

  /** The reset that goes back to where a packet came from. */
  function ResetBack(h: Header): Packet {
    Packet(Header(h.dstCID, h.srcCID, h.dstPort, h.srcPort, 0, 1, 3, 0, 0, 0), [])
  }

  /** CR LF CR LF somewhere in s */
  predicate HasBlankLine(s: seq<byte>) {
    exists i :: 0 <= i && i + 4 <= |s| && s[i] == 13 && s[i + 1] == 10 && s[i + 2] == 13 && s[i + 3] == 10
  }

  /** After the connections have become conns and answer has been given, a drain of at most eight
      packets follows. */
  ghost predicate Then(cfg: Config, o: Outcome, conns: Conns, answer: seq<Packet>, order: seq<Key>) {
    var d := Drain(cfg, conns, order, 8);
    !o.failed && o.conns == d.conns && o.Out() == answer + d.out
  }

  /** The connections have become conns, answer has been given, and nothing follows. */
  ghost predicate Stops(o: Outcome, conns: Conns, answer: seq<Packet>) {
    !o.failed && o.conns == conns && o.Out() == answer
  }

  lemma BlankLine(s: seq<byte>)
    ensures Complete(s) <==> HasBlankLine(s)
  {
    if Complete(s) {
      var i :| 0 <= i < |s| && TerminatorAt(s, i);
      assert s[i..i + 4][0] == s[i] && s[i..i + 4][1] == s[i + 1] && s[i..i + 4][2] == s[i + 2]
          && s[i..i + 4][3] == s[i + 3];
    }
    if HasBlankLine(s) {
      var i :| 0 <= i && i + 4 <= |s| && s[i] == 13 && s[i + 1] == 10 && s[i + 2] == 13 && s[i + 3] == 10;
      assert s[i..i + 4] == [13, 10, 13, 10];
      assert TerminatorAt(s, i);
    }
  }

  lemma SplitOut(cfg: Config, conns: Conns, p: Packet, handler: Option<Handler>, order: seq<Key>)
    requires ForUs(cfg, p.header)
    ensures
      var k := Sender(p.header);
      var r := React(cfg, |conns| >= cfg.maxConns, Lookup(conns, k), p, handler);
      var o := HandlePacket(cfg, conns, p, handler, order);
      match r
      case Refuse(c) => Stops(o, Put(conns, k, c), [ResetBack(p.header)])
      case Quiet(c) => Stops(o, Put(conns, k, c), [])
      case Fail(c) => o.failed && o.conns == Put(conns, k, c) && o.Out() == []
      case Proceed(c, replies) => Then(cfg, o, Put(conns, k, c), replies, order)
  {
    hide React, Drain, Put;
  }

  /** What is not for this endpoint, or for a connection that does not exist, draws a reset and
      changes nothing. */
  lemma Strangers(cfg: Config, conns: Conns, p: Packet, handler: Option<Handler>, order: seq<Key>)
    requires ForUs(cfg, p.header) ==> p.header.op != 1 && Key(p.header.srcCID, p.header.srcPort) !in conns
    ensures Stops(HandlePacket(cfg, conns, p, handler, order), conns, [ResetBack(p.header)])
  {
    if ForUs(cfg, p.header) { SplitOut(cfg, conns, p, handler, order); }
    hide Drain;
  }

  /** What does not decode is an error that changes nothing and sends nothing; everything else is
      handled as the packet that it decodes to. */
  lemma Undecoded(cfg: Config, conns: Conns, bytes: seq<byte>, handler: Option<Handler>, order: seq<Key>)
    ensures
      var o := Handle(cfg, conns, bytes, handler, order);
      if |bytes| >= 44 && 44 + Number(bytes, 24, 4) <= |bytes| then
        var p := Packet(DecodeHeader(bytes[..44]), bytes[44..44 + Number(bytes, 24, 4)]);
        o == HandlePacket(cfg, conns, p, handler, order)
      else o.failed && o.conns == conns && o.Out() == []
  {
    DecodesExactly(bytes);
    hide Decode, Number, DecodeHeader, HandlePacket;
  }

  /** A request opens a connection, or draws a reset when there is one already or no room. */
  lemma Requests(cfg: Config, conns: Conns, p: Packet, handler: Option<Handler>, order: seq<Key>)
    requires ForUs(cfg, p.header) && p.header.op == 1
    ensures
      var h := p.header;
      var k := Key(h.srcCID, h.srcPort);
      var o := HandlePacket(cfg, conns, p, handler, order);
      if k in conns || |conns| >= cfg.maxConns then Stops(o, conns, [ResetBack(h)])
      else
        var c := Conn(k.cid, k.port, h.bufAlloc, h.fwdCnt, 0, 0, [], None, 0, false);
        Then(cfg, o, conns[k := c], [Control(cfg, k, 2, 0, 0)], order)
  {
    SplitOut(cfg, conns, p, handler, order);
    hide Drain;
    var k := Key(p.header.srcCID, p.header.srcPort);
    if k in conns { assert conns[k := conns[k]] == conns; }
  }

  /** The connection of the sender with the credit that the header brings. */
  function Told(conns: Conns, h: Header): Conn
    requires Key(h.srcCID, h.srcPort) in conns
  {
    conns[Key(h.srcCID, h.srcPort)].(peerAlloc := h.bufAlloc, peerFwd := h.fwdCnt)
  }

  /** A packet for an existing connection, other than data: a credit request is answered with one
      credit update, a credit update and a shutdown with nothing, a reset with nothing at all, and
      an unknown operation with a reset. */
  lemma Controls(cfg: Config, conns: Conns, p: Packet, handler: Option<Handler>, order: seq<Key>)
    requires EndpointOk(cfg, conns) && ForUs(cfg, p.header) && Key(p.header.srcCID, p.header.srcPort) in conns
    requires p.header.op !in {1, 5}
    ensures
      var h := p.header;
      var k := Key(h.srcCID, h.srcPort);
      var o, c := HandlePacket(cfg, conns, p, handler, order), Told(conns, h);
      && |c.request| <= cfg.bufferLen
      && (h.op == 7 ==> Then(cfg, o, conns[k := c], [Control(cfg, k, 6, 0, |c.request|)], order))
      && (h.op == 6 ==> Then(cfg, o, conns[k := c], [], order))
      && (h.op == 4 ==> Then(cfg, o, conns[k := c.(closing := true)], [], order))
      && (h.op == 3 ==> Stops(o, conns - {k}, []))
      && (h.op !in {3, 4, 6, 7} ==> Stops(o, conns - {k}, [ResetBack(h)]))
  {
    SplitOut(cfg, conns, p, handler, order);
    assert ConnOk(cfg, Sender(p.header), conns[Sender(p.header)]);
    hide Drain, Complete;
  }

  lemma LongerLonger(c: Conn, p: Packet)
    ensures Longer(c.(peerAlloc := p.header.bufAlloc, peerFwd := p.header.fwdCnt), p.payload).request
            == c.request + p.payload
  {
  }

  /** A connection with more data in its request. */
  function Longer(c: Conn, payload: seq<byte>): Conn {
    c.(request := c.request + payload, rxFwd := Wrap32(|c.request| + |payload|))
  }

  lemma DataReaction(cfg: Config, k: Key, full: bool, c: Conn, p: Packet, handler: Option<Handler>)
    requires ConnOk(cfg, k, c) && p.header.op == 5
    ensures
      var r := React(cfg, full, Some(c), p, handler);
      var h, n := p.header, |c.request| + |p.payload|;
      var d := Longer(c.(peerAlloc := h.bufAlloc, peerFwd := h.fwdCnt), p.payload);
      if n > cfg.bufferLen then r == Refuse(None)
      else if c.response.Some? then r == Proceed(Some(d), [])
      else if !HasBlankLine(d.request) then r == Proceed(Some(d), [Control(cfg, k, 6, 0, n)])
      else if handler.None? then r == Fail(Some(d))
      else
        match handler.value(d.request)
        case None => r == Proceed(Some(d), [Control(cfg, k, 6, 0, n)])
        case Some(b) => r == Proceed(Some(d.(response := Some(b))), [])
  {
    BlankLine(c.request + p.payload);
    hide Complete, HasBlankLine;
  }

  /** Data for an existing connection. What would overfill the request ends the connection with a
      reset. Otherwise it is stored, and answered with one credit update as long as there is no
      response. The application is asked when the request has a blank line and no response yet;
      without an application that is an error, with the data stored and nothing sent. */
  lemma Payloads(cfg: Config, conns: Conns, p: Packet, handler: Option<Handler>, order: seq<Key>)
    requires EndpointOk(cfg, conns) && ForUs(cfg, p.header) && Key(p.header.srcCID, p.header.srcPort) in conns
    requires p.header.op == 5
    ensures
      var h := p.header;
      var k := Key(h.srcCID, h.srcPort);
      var o, c := HandlePacket(cfg, conns, p, handler, order), Told(conns, h);
      var d, n := Longer(c, p.payload), |c.request| + |p.payload|;
      if n > cfg.bufferLen then Stops(o, conns - {k}, [ResetBack(h)])
      else if c.response.Some? then Then(cfg, o, conns[k := d], [], order)
      else if !HasBlankLine(d.request) then Then(cfg, o, conns[k := d], [Control(cfg, k, 6, 0, n)], order)
      else if handler.None? then o.failed && o.conns == conns[k := d] && o.Out() == []
      else
        match handler.value(d.request)
        case None => Then(cfg, o, conns[k := d], [Control(cfg, k, 6, 0, n)], order)
        case Some(b) => Then(cfg, o, conns[k := d.(response := Some(b))], [], order)
  {
    hide React, Drain, HandlePacket, Then, Stops, HasBlankLine, ConnOk, Longer, Control, ResetBack;
    var k := Sender(p.header);
    SplitOut(cfg, conns, p, handler, order);
    DataReaction(cfg, k, |conns| >= cfg.maxConns, conns[k], p, handler);
    LongerLonger(conns[k], p);
  }

  // --------------------------------------------------------------------- one turn

  /** The bytes that c may still send after more further ones, in the wrapping counters. */
  function Credit(cfg: Config, c: Conn, more: nat): nat {
    var limit := if c.peerAlloc <= cfg.bufferLen then c.peerAlloc else cfg.bufferLen;
    var count := (c.txCount + more) % 0x1_0000_0000;
    if c.peerFwd > count then limit
    else if count - c.peerFwd >= limit then 0
    else limit - (count - c.peerFwd)
  }

  function Least(a: int, b: int, c: int): int {
    if a <= b && a <= c then a else if b <= c then b else c
  }

  /** The packet with bytes from..to of the response of c. */
  function Piece(cfg: Config, c: Conn, from: nat, to: nat): Packet
    requires from <= to <= |c.Body()|
  {
    Packet(Header(cfg.cid, c.remoteCID, cfg.port, c.remotePort, 0, 1, 5, 0, cfg.bufferLen, c.rxFwd),
           c.Body()[from..to])
  }

  /** out[i] is the next piece of the response of c, and it is as long as the rest of the
      response, the credit behind the pieces in front of it and 65536 bytes allow. */
  ghost predicate LongestPiece(cfg: Config, c: Conn, out: seq<Packet>, i: nat)
    requires i < |out|
  {
    var from := c.sent + |Stream(out[..i])|;
    && from <= |c.Body()|
    && var n := Least(|c.Body()| - from, Credit(cfg, c, from - c.sent), 65536);
       n > 0 && out[i] == Piece(cfg, c, from, from + n)
  }

  ghost predicate LongestPieces(cfg: Config, c: Conn, out: seq<Packet>) {
    forall i :: 0 <= i < |out| ==> LongestPiece(cfg, c, out, i)
  }

  /** c when so many more bytes have been sent. */
  function Further(c: Conn, n: nat): Conn {
    c.(sent := c.sent + n, txCount := Wrap32(c.txCount + n))
  }

  lemma FurtherTwice(cfg: Config, c: Conn, m: nat, n: nat)
    ensures Further(Further(c, m), n) == Further(c, m + n)
    ensures Credit(cfg, Further(c, m), n) == Credit(cfg, c, m + n)
  {
    var a := c.txCount + m;
    assert a == a / W32 * W32 + a % W32;
    ModTwice(a % W32 + n, a / W32);
    assert Wrap32(a) + n == a % W32 + n && a + n == a % W32 + n + a / W32 * W32;
  }

  lemma {:induction false} ModTwice(x: int, k: nat)
    ensures (x + k * W32) % W32 == x % W32
    decreases k
  {
    if k > 0 {
      ModTwice(x, k - 1);
      assert x + k * W32 == (x + (k - 1) * W32) + W32;
    }
  }

  lemma FirstPiece(cfg: Config, c: Conn)
    requires ConnOk(cfg, c.Remote(), c)
    ensures CanSend(cfg, c) <==> c.sent < |c.Body()| && Credit(cfg, c, 0) > 0
    ensures CanSend(cfg, c) ==>
              var n := Least(|c.Body()| - c.sent, Credit(cfg, c, 0), 65536);
              && n > 0 && c.sent + n <= |c.Body()|
              && Chunk(cfg, c) == Piece(cfg, c, c.sent, c.sent + n) && AfterChunk(cfg, c) == Further(c, n)
  {
  }

  lemma PieceBehind(cfg: Config, c: Conn, p: Packet, n: nat, rest: seq<Packet>, i: nat)
    requires c.sent + n <= |c.Body()| && p == Piece(cfg, c, c.sent, c.sent + n) && i < |rest|
    requires LongestPiece(cfg, Further(c, n), rest, i)
    ensures LongestPiece(cfg, c, [p] + rest, i + 1)
  {
    hide Stream, Credit, Further, Piece;
    var out := [p] + rest;
    assert out[..i + 1] == [p] + rest[..i] && out[i + 1] == rest[i];
    StreamConcat([p], rest[..i]);
    PieceData(cfg, c, c.sent, c.sent + n);
    FurtherTwice(cfg, c, n, |Stream(rest[..i])|);
    FurtherFields(c, n);
    var from := c.sent + n + |Stream(rest[..i])|;
    var m := Least(|c.Body()| - from, Credit(cfg, c, from - c.sent), 65536);
    SamePieces(cfg, c, n);
    assert out[i + 1] == Piece(cfg, c, from, from + m);
  }

  lemma SamePieces(cfg: Config, c: Conn, n: nat)
    ensures forall from, to | 0 <= from <= to <= |c.Body()| ::
              Piece(cfg, Further(c, n), from, to) == Piece(cfg, c, from, to)
  {
  }

  /** The chunks of one connection: each is the longest possible next piece of its response, and
      they end only for want of room, of response or of credit. */
  lemma {:induction false} Chunks(cfg: Config, c: Conn, room: nat)
    requires ConnOk(cfg, c.Remote(), c)
    ensures
      var s := SendChunks(cfg, c, room);
      var n := |Stream(s.out)|;
      && LongestPieces(cfg, c, s.out) && c.sent + n <= |c.Body()| && s.conn == Further(c, n)
      && (|s.out| == room || c.sent + n == |c.Body()| || Credit(cfg, c, n) == 0)
    decreases room
  {
    hide Credit, Chunk, AfterChunk, CanSend, Piece, Further, Least, LongestPiece;
    FirstPiece(cfg, c);
    SentOfBody(cfg, c);
    if room == 0 || !CanSend(cfg, c) {
      FurtherNone(c);
    } else {
      var n := Least(|c.Body()| - c.sent, Credit(cfg, c, 0), 65536);
      var p, d := Chunk(cfg, c), AfterChunk(cfg, c);
      AfterChunkOk(cfg, c);
      Chunks(cfg, d, room - 1);
      var rest := SendChunks(cfg, d, room - 1).out;
      FurtherFields(c, n);
      FirstIsLongest(cfg, c, p, rest);
      forall i | 0 <= i < |[p] + rest| ensures LongestPiece(cfg, c, [p] + rest, i) {
        if i > 0 { PieceBehind(cfg, c, p, n, rest, i - 1); }
      }
      StreamConcat([p], rest);
      PieceData(cfg, c, c.sent, c.sent + n);
      FurtherTwice(cfg, c, n, |Stream(rest)|);
    }
  }

  lemma FurtherNone(c: Conn)
    requires c.txCount == Wrap32(c.txCount)
    ensures Further(c, 0) == c && Stream([]) == []
  {
  }

  lemma FurtherFields(c: Conn, n: nat)
    ensures Further(c, n).sent == c.sent + n && Further(c, n).Body() == c.Body() && Further(c, n).Remote() == c.Remote()
  {
  }

  lemma PieceData(cfg: Config, c: Conn, from: nat, to: nat)
    requires from <= to <= |c.Body()|
    ensures Stream([Piece(cfg, c, from, to)]) == c.Body()[from..to]
  {
    assert [Piece(cfg, c, from, to)][1..] == [];
  }

  lemma FirstIsLongest(cfg: Config, c: Conn, p: Packet, rest: seq<Packet>)
    requires c.sent < |c.Body()|
    requires
      var n := Least(|c.Body()| - c.sent, Credit(cfg, c, 0), 65536);
      n > 0 && p == Piece(cfg, c, c.sent, c.sent + n)
    ensures LongestPiece(cfg, c, [p] + rest, 0)
  {
    assert ([p] + rest)[..0] == [];
    hide Credit;
  }

  /** A turn of one connection: its chunks, and behind them, if there is still room, the shutdown
      in both directions behind the last byte of its response, or the reset of a connection that
      was closed without a response, which goes. */
  lemma Turn(cfg: Config, c: Conn, room: nat) returns (chunks: seq<Packet>)
    requires ConnOk(cfg, c.Remote(), c)
    ensures LongestPieces(cfg, c, chunks) && |chunks| <= room && c.sent + |Stream(chunks)| <= |c.Body()|
    ensures |chunks| == room || c.sent + |Stream(chunks)| == |c.Body()| || Credit(cfg, c, |Stream(chunks)|) == 0
    ensures
      var s, d := Serve(cfg, c, room), Further(c, |Stream(chunks)|);
      if |chunks| == room then s == Served(Some(d), chunks)
      else if c.closing then
        if c.response.None? then s == Served(None, chunks + [Control(cfg, c.Remote(), 3, 0, c.rxFwd)])
        else s == Served(Some(d), chunks)
      else if c.response.Some? && d.sent == |c.Body()| then
        s == Served(Some(d.(closing := true)), chunks + [Control(cfg, c.Remote(), 4, 3, c.rxFwd)])
      else s == Served(Some(d), chunks)
  {
    Chunks(cfg, c, room);
    hide SendChunks, Credit, Stream, LongestPieces;
    chunks := SendChunks(cfg, c, room).out;
    Empty(chunks);
  }

  /** A drain visits the connections one behind the other, each as it was before the drain, and
      gives each the room that those in front of it have left. */
  lemma InOrder(cfg: Config, conns: Conns, order: seq<Key>, limit: nat, k: Key)
    requires EndpointOk(cfg, conns) && Distinct(order + [k]) && k in conns
    ensures
      var before, after := Drain(cfg, conns, order, limit), Drain(cfg, conns, order + [k], limit);
      && |before.out| <= limit
      && if |before.out| == limit then after == before
         else
           var s := Serve(cfg, conns[k], limit - |before.out|);
           && after.out == before.out + s.out
           && after.conns == if s.conn.Some? then before.conns[k := s.conn.value] else before.conns - {k}
  {
    hide Serve, Drain, To, EndpointOk, RoomAt;
    NotBefore(order, k);
    DrainAt(cfg, conns, order, limit, k);
    ServeNone(cfg, conns[k]);
    if limit > 0 { NextVisit(cfg, conns, order, limit, k); } else { NoRoom(cfg, conns, order, k); }
    var before := Drain(cfg, conns, order, limit);
    assert before.conns[k] == conns[k];
    if |before.out| == limit {
      Empty(before.out);
      assert before.conns[k := conns[k]] == before.conns;
    }
  }

  lemma NoRoom(cfg: Config, conns: Conns, order: seq<Key>, k: Key)
    ensures Drain(cfg, conns, order, 0) == Drain(cfg, conns, order + [k], 0) == Drained(conns, [])
  {
  }

  lemma NextVisit(cfg: Config, conns: Conns, order: seq<Key>, limit: nat, k: Key)
    requires limit > 0
    ensures
      var before, after := Drain(cfg, conns, order, limit), Drain(cfg, conns, order + [k], limit);
      if k !in before.conns then after == before
      else
        var s := Serve(cfg, before.conns[k], limit - |before.out|);
        after == Drained(Put(before.conns, k, s.conn), before.out + s.out)
  {
    hide Serve, Put;
    Last(order, k);
  }

  lemma ServeNone(cfg: Config, c: Conn)
    ensures Serve(cfg, c, 0) == Served(Some(c), [])
  {
  }

  lemma NotBefore(order: seq<Key>, k: Key)
    requires Distinct(order + [k])
    ensures Distinct(order) && k !in order
  {
    assert forall i :: 0 <= i < |order| ==> (order + [k])[i] == order[i];
    assert (order + [k])[|order|] == k;
  }

  // ------------------------------------------------------------------ how many packets

  /** The credit is counted without wrap-around, up to the end of the response. */
  predicate Straight(c: Conn) {
    c.sent <= |c.Body()| && c.peerFwd <= c.txCount && c.txCount + (|c.Body()| - c.sent) < 0x1_0000_0000
  }

  lemma CreditFalls(cfg: Config, c: Conn, m: nat, n: nat)
    requires Straight(c) && c.sent + m + n <= |c.Body()| && n <= Credit(cfg, c, m)
    ensures Credit(cfg, c, m + n) == Credit(cfg, c, m) - n
  {
  }

  lemma NextFrom(cfg: Config, c: Conn, out: seq<Packet>, i: nat)
    requires i < |out| && LongestPiece(cfg, c, out, i)
    ensures |Stream(out[..i + 1])| == |Stream(out[..i])| + |out[i].payload|
  {
    assert out[..i + 1] == out[..i] + [out[i]];
    StreamConcat(out[..i], [out[i]]);
    PieceStream(out[i]);
    hide Stream;
  }

  lemma PieceStream(p: Packet)
    ensures p.header.op == 5 ==> Stream([p]) == p.payload
  {
    assert [p][1..] == [];
  }

  /** Only the last chunk of a turn is shorter than the maximum. */
  lemma FullPieces(cfg: Config, c: Conn, out: seq<Packet>, i: nat)
    requires Straight(c) && LongestPieces(cfg, c, out) && i + 1 < |out|
    ensures |out[i].payload| == 65536
  {
    assert LongestPiece(cfg, c, out, i) && LongestPiece(cfg, c, out, i + 1);
    NextFrom(cfg, c, out, i);
    CreditFalls(cfg, c, |Stream(out[..i])|, |out[i].payload|);
    hide Credit, Stream;
  }

  lemma {:induction false} PiecesBefore(cfg: Config, c: Conn, out: seq<Packet>, i: nat)
    requires Straight(c) && LongestPieces(cfg, c, out) && i < |out|
    ensures |Stream(out[..i])| == 65536 * i
  {
    hide Credit, Stream;
    if i == 0 {
      assert out[..0] == [];
      NoPieces();
    } else {
      PiecesBefore(cfg, c, out, i - 1);
      FullPieces(cfg, c, out, i - 1);
      assert LongestPiece(cfg, c, out, i - 1);
      NextFrom(cfg, c, out, i - 1);
    }
  }

  lemma NoPieces()
    ensures Stream([]) == []
  {
  }

  /** With enough room and credit, a turn sends the whole rest of a response, in as few packets of
      at most 65536 bytes as it takes. */
  lemma FewestPackets(cfg: Config, c: Conn, room: nat)
    requires ConnOk(cfg, c.Remote(), c) && Straight(c)
    requires
      var n := |c.Body()| - c.sent;
      Credit(cfg, c, 0) >= n && room >= (n + 65535) / 65536
    ensures
      var s, n := SendChunks(cfg, c, room), |c.Body()| - c.sent;
      |s.out| == (n + 65535) / 65536 && |Stream(s.out)| == n && s.conn.sent == |c.Body()|
  {
    hide Stream, SendChunks, Credit, LongestPieces;
    Chunks(cfg, c, room);
    var out := SendChunks(cfg, c, room).out;
    if out == [] {
      NoPieces();
    } else {
      LastPiece(cfg, c, out);
      CreditFalls(cfg, c, 0, |Stream(out)|);
      Ceiling(|c.Body()| - c.sent, |out| - 1, |Stream(out)|, room);
    }
  }

  /** All pieces but the last are full, and the last is full or ends the response, if there is
      credit for all of it. */
  lemma LastPiece(cfg: Config, c: Conn, out: seq<Packet>)
    requires Straight(c) && LongestPieces(cfg, c, out) && out != []
    requires Credit(cfg, c, 0) >= |c.Body()| - c.sent
    ensures
      var l, n := |out| - 1, |c.Body()| - c.sent;
      && 65536 * l < n && |Stream(out)| == if n - 65536 * l <= 65536 then n else 65536 * (l + 1)
  {
    hide Stream;
    var l := |out| - 1;
    PiecesBefore(cfg, c, out, l);
    assert LongestPiece(cfg, c, out, l);
    NextFrom(cfg, c, out, l);
    assert out[..l + 1] == out;
    CreditFalls(cfg, c, 0, 65536 * l);
    hide Credit;
  }

  lemma Ceiling(n: nat, l: nat, total: nat, room: nat)
    requires 65536 * l < n && total == (if n - 65536 * l <= 65536 then n else 65536 * (l + 1))
    requires l + 1 == room || total == n
    requires room >= (n + 65535) / 65536
    ensures total == n && l + 1 == (n + 65535) / 65536
  {
  }

  // ---------------------------------------------------------------------- the driver

  /** The other steps of the driver: a reset event drops all connections and nothing else; a drain
      of at most eight packets puts them behind those that wait; the first of these enters the
      ring; the device finishes packets. */
  lemma DriverSteps(cfg: Config, w: World, order: seq<Key>, count: nat)
    ensures Next(cfg, w, Clear) == w.(conns := map[])
    ensures
      var v, d := Next(cfg, w, Flush(order)), Drain(cfg, w.conns, order, 8);
      && v.conns == d.conns && v.pending == w.pending + d.out && v.pushed == w.pushed && v.used == w.used
      && v.failed == w.failed && v.gens == w.gens && v.lives == w.lives
    ensures w.pending != [] ==>
              Next(cfg, w, Push) == w.(pushed := w.pushed + [w.pending[0]], pending := w.pending[1..])
    ensures Next(cfg, w, Use(count)) == w.(used := w.used + count)
  {
    PacketsTagged(cfg, w.gens, Drain(cfg, w.conns, order, 8).out);
    hide Drain, TagAll, Packets;
  }
}
