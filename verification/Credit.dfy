/** Credit safety end to end (VIRTIO 1.1 section 5.10.6.3): the endpoint composed with honest
    peers over asynchronous FIFO channels. */
module Credit {
  import opened Bytes
  import opened Wire
  import opened Seqs
  import opened Protocol
  import opened Connections
  import opened Channels
  import opened Hazards

  // ------------------------------------------------------------- exactness of SendSpace

  /** sendSpace compares counters that wrap. With sent bytes sent and fwd of them consumed, it
      returns the remaining credit exactly when the wrapped fwd is not ahead of the wrapped sent;
      otherwise it grants the whole limit again. */
  lemma SendSpaceExact(cfg: Config, c: Conn, sent: nat, fwd: nat)
    requires c.txCount == Wrap32(sent) && c.peerFwd == Wrap32(fwd)
    requires fwd <= sent && sent - fwd <= SendLimit(cfg, c)
    ensures SendSpace(cfg, c) == SendLimit(cfg, c) - (sent - fwd) <==> Wrap32(fwd) <= Wrap32(sent)
  {
    var i, j := sent / W32, fwd / W32;
    assert sent == i * W32 + Wrap32(sent) && fwd == j * W32 + Wrap32(fwd);
    if Wrap32(fwd) <= Wrap32(sent) {
      assert i == j;
    }
  }

  /** With 2^32 bytes sent and all but one of them consumed, the counter has wrapped, and the whole
      limit is granted instead of one byte less. */
  lemma SendSpaceWraps(cfg: Config, c: Conn)
    requires c.txCount == Wrap32(W32) && c.peerFwd == Wrap32(W32 - 1) && SendLimit(cfg, c) > 0
    ensures SendSpace(cfg, c) == SendLimit(cfg, c) > SendLimit(cfg, c) - 1
  {
  }

  /** Data never exceeds the credit: the chunks of one turn end within the limit. */
  lemma {:induction false} ChunksWithinCredit(cfg: Config, c: Conn, room: nat)
    requires ConnOk(cfg, c.Remote(), c) && c.ResponseLength() <= W32
    requires c.peerFwd <= c.sent && c.sent - c.peerFwd <= SendLimit(cfg, c)
    ensures
      var s := SendChunks(cfg, c, room);
      s.conn.sent - s.conn.peerFwd <= SendLimit(cfg, c)
    decreases room
  {
    hide AfterChunk, Chunk, CanSend, SendLimit, ConnOk;
    if room > 0 && CanSend(cfg, c) {
      ChunkWithinCredit(cfg, c);
      ChunksWithinCredit(cfg, AfterChunk(cfg, c), room - 1);
    }
  }

  lemma ChunkWithinCredit(cfg: Config, c: Conn)
    requires ConnOk(cfg, c.Remote(), c) && c.ResponseLength() <= W32 && CanSend(cfg, c)
    requires c.peerFwd <= c.sent && c.sent - c.peerFwd <= SendLimit(cfg, c)
    ensures
      var d := AfterChunk(cfg, c);
      && ConnOk(cfg, d.Remote(), d) && d.ResponseLength() <= W32 && d.peerFwd == c.peerFwd <= d.sent
      && d.sent - d.peerFwd <= SendLimit(cfg, d) == SendLimit(cfg, c)
  {
    SendSpaceExact(cfg, c, c.sent, c.peerFwd);
    AfterChunkOk(cfg, c);
  }

  // --------------------------------------------------------------------------- peers

  /** A peer's end of a connection. It holds the stream bytes it has received since the response
      to its request, and knows how many of these its application has consumed. */
  datatype Peer = Closed | Connecting | Established(received: seq<byte>, consumed: nat)

  /** A peer takes data only on an established connection, and is established by a response. */
  function Accept(h: Peer, p: Packet): Peer {
    if p.header.op == OP_RESET then Closed
    else match h
      case Closed => Closed
      case Connecting => if p.header.op == OP_RESPONSE then Established([], 0) else Connecting
      case Established(received, consumed) =>
        if p.header.op == OP_READ_WRITE then Established(received + p.payload, consumed) else h
  }

  function Consumed(h: Peer): nat { if h.Established? then h.consumed else 0 }

  /** A packet of peer k, which offers alloc bytes of buffer and has consumed fwd. */
  function FromPeer(cfg: Config, alloc: u32, k: Key, op: u16, payload: seq<byte>, fwd: nat): Packet {
    Packet(Header(k.cid, cfg.cid, k.port, cfg.port, 0, TYPE_STREAM, op, 0, alloc, Wrap32(fwd)), payload)
  }

  // ---------------------------------------------------------- the invariant of one remote

  /** The bytes that the peer has received, or will receive from what is under way. */
  function Whole(h: Peer, up: seq<Packet>): seq<byte> {
    if h.Established? then h.received + Stream(Live(up)) else Stream(AfterResponse(Live(up)))
  }

  function Total(h: Peer, up: seq<Packet>): nat { |Whole(h, up)| }

  /** A response has established the peer's end, or will. */
  predicate Heard(h: Peer, up: seq<Packet>) {
    h.Established? || (h.Connecting? && Count(Live(up), OP_RESPONSE) > 0)
  }

  /** The peer's end and a connection of the endpoint belong together. */
  predicate Attached(h: Peer, up: seq<Packet>, down: seq<Packet>) {
    Heard(h, up) && Count(down, OP_REQUEST) == 0 && Count(up, OP_RESET) == 0
  }

  /** What the peer announces, and when it has stopped doing so. */
  ghost predicate PeerOk(alloc: u32, h: Peer, down: seq<Packet>) {
    && (forall i :: 0 <= i < |down| ==> down[i].header.bufAlloc == alloc)
    && Zeroed(down, alloc)
    && (h.Established? ==> h.consumed <= |h.received|)
    && (h != Closed ==> Count(Current(down), OP_RESET) == 0)
    && (h != Closed && Count(down, OP_REQUEST) > 0 ==> Rising(Current(down), alloc, 0, 0))
  }

  /** A connection of the endpoint stays within the credit that it knows, and what will still
      reach it grows up to what it has sent. With 2^32 bytes sent, acknowledgements wrap around,
      but nothing is left to send. */
  ghost predicate WithinCredit(cfg: Config, alloc: u32, c: Conn, down: seq<Packet>) {
    && c.ResponseLength() <= W32 && c.peerAlloc == alloc
    && (c.sent < W32 ==>
          && c.peerFwd <= c.sent && c.sent - c.peerFwd <= Min(alloc, cfg.bufferLen)
          && Rising(Front(down), alloc, c.peerFwd, c.sent))
  }

  /** What the peer has and gets is what c has sent, and c knows no acknowledgement newer than its. */
  ghost predicate InStep(alloc: u32, c: Conn, h: Peer, whole: seq<byte>, down: seq<Packet>) {
    && c.sent <= |c.Body()| && whole == c.Body()[..c.sent]
    && (c.sent < W32 ==> c.peerFwd <= Consumed(h) && Rising(down, alloc, c.peerFwd, Consumed(h)))
  }

  /** c will be reset before it hears from another attempt, or knows no acknowledgement at all. */
  ghost predicate Abandoned(alloc: u32, c: Conn, down: seq<Packet>) {
    ResetFirst(down) || (c.peerFwd == 0 && Rising(Front(down), alloc, 0, 0))
  }

  /** At most one request or response is under way, and none once the peer is established. */
  predicate AwaitsAnswers(h: Peer, up: seq<Packet>, down: seq<Packet>) {
    && Count(down, OP_REQUEST) + Count(up, OP_RESPONSE) <= 1
    && (h.Established? ==> Count(down, OP_REQUEST) + Count(up, OP_RESPONSE) == 0)
  }

  /** While the endpoint has not taken the peer's request, no data is or will be on its way. */
  ghost predicate Undisturbed(cfg: Config, c: Option<Conn>, h: Peer, up: seq<Packet>, down: seq<Packet>) {
    && Total(h, up) == 0
    && (Count(up, OP_RESET) == 0 ==> !Loud(cfg, c, Earlier(down), Heard(h, up)))
  }

  ghost predicate Bounded(cfg: Config, alloc: u32, h: Peer, up: seq<Packet>) {
    Total(h, up) <= W32 && Consumed(h) <= Total(h, up) && Total(h, up) - Consumed(h) <= Min(alloc, cfg.bufferLen)
  }

  /** alloc is the peer's buffer; up and down are the packets under way to and from the peer;
      waits says that it opens only when nothing of an earlier attempt is under way. */
  ghost predicate KeyOk(cfg: Config, alloc: u32, waits: bool, c: Option<Conn>, h: Peer, up: seq<Packet>,
      down: seq<Packet>) {
    && (waits ==> AwaitsAnswers(h, up, down))
    && PeerOk(alloc, h, down)
    && (h != Closed && Count(down, OP_REQUEST) > 0 ==> Undisturbed(cfg, c, h, up, down))
    && (Heard(h, up) ==> Bounded(cfg, alloc, h, up))
    && (c.Some? ==>
          && WithinCredit(cfg, alloc, c.value, down)
          && (if Attached(h, up, down) then InStep(alloc, c.value, h, Whole(h, up), down)
              else Abandoned(alloc, c.value, down))
          && (Heard(h, up) && Count(down, OP_REQUEST) == 0 && Count(up, OP_RESET) > 0 ==> Total(h, up) == 0))
  }

  // ------------------------------------------------------------ the endpoint's side

  /** Packets without responses and resets in them add their data to the total. */
  lemma SendMore(h: Peer, up: seq<Packet>, more: seq<Packet>)
    requires Count(more, OP_RESPONSE) == 0 && Count(more, OP_RESET) == 0
    ensures Count(up + more, OP_RESPONSE) == Count(up, OP_RESPONSE) && Count(up + more, OP_RESET) == Count(up, OP_RESET)
    ensures Heard(h, up + more) == Heard(h, up)
    ensures Count(up, OP_RESET) > 0 ==> Whole(h, up + more) == Whole(h, up)
    ensures Count(up, OP_RESET) == 0 && h != Closed ==>
              Whole(h, up + more) == if Heard(h, up) then Whole(h, up) + Stream(more) else []
  {
    hide Stream;
    CountConcat(up, more, OP_RESPONSE);
    CountConcat(up, more, OP_RESET);
    LiveConcat(up, more);
    if Count(up, OP_RESET) == 0 {
      LiveWhole(up);
      LiveWhole(more);
      AfterResponseConcat(up, more);
      StreamConcat(up, more);
      StreamConcat(AfterResponse(up), more);
      if h.Established? { Assoc(h.received, Stream(up), Stream(more)); }
      if Count(up, OP_RESPONSE) == 0 {
        NoResponseAfter(up + more);
        assert Stream([]) == [] by { NoData(); }
      }
    }
  }

  lemma NoData()
    ensures Stream([]) == []
  {
  }

  /** A reset at the end is the last thing that the peer hears, if it hears it at all. */
  lemma SendReset(h: Peer, up: seq<Packet>, p: Packet)
    requires p.header.op == OP_RESET
    ensures Count(up + [p], OP_RESPONSE) == Count(up, OP_RESPONSE) && Count(up + [p], OP_RESET) > 0
    ensures Heard(h, up + [p]) == Heard(h, up) && Whole(h, up + [p]) == Whole(h, up)
  {
    CountConcat(up, [p], OP_RESPONSE);
    CountConcat(up, [p], OP_RESET);
    CountOne(p, OP_RESPONSE);
    CountOne(p, OP_RESET);
    LiveConcat(up, [p]);
    if Count(up, OP_RESET) == 0 {
      LiveWhole(up);
      assert Live([p]) == [];
      Empty(up);
    }
  }

  lemma ServeCredit(cfg: Config, c: Conn, room: nat)
    requires ConnOk(cfg, c.Remote(), c) && c.ResponseLength() <= W32
    requires c.peerFwd <= c.sent && c.sent - c.peerFwd <= SendLimit(cfg, c)
    ensures
      var s := Serve(cfg, c, room);
      s.conn.Some? ==> s.conn.value.sent - c.peerFwd <= SendLimit(cfg, c)
  {
    ChunksWithinCredit(cfg, c, room);
    SendChunksFacts(cfg, c, room);
    hide SendChunks, SendSpace;
  }

  /** What a turn adds to the channel: as many bytes as to c.sent and neither response nor reset,
      or just the reset of a connection that goes. */
  lemma ServeAdds(cfg: Config, c: Conn, room: nat)
    requires ConnOk(cfg, c.Remote(), c)
    ensures
      var s := Serve(cfg, c, room);
      if s.conn.Some? then
        && SameInput(c, s.conn.value) && s.conn.value.ResponseLength() == c.ResponseLength() == |c.Body()|
        && c.sent <= s.conn.value.sent <= c.ResponseLength() && s.conn.value.Body() == c.Body()
        && Stream(s.out) == c.Body()[c.sent..s.conn.value.sent]
        && Count(s.out, OP_RESPONSE) == 0 && Count(s.out, OP_RESET) == 0
      else exists p :: s.out == [p] && p.header.op == OP_RESET
  {
    ServeFacts(cfg, c, room);
    SendChunksFacts(cfg, c, room);
    var s := Serve(cfg, c, room);
    if s.conn.Some? {
      hide SendChunks, Stream, SendSpace;
      CountNone(s.out, OP_RESPONSE);
      CountNone(s.out, OP_RESET);
    } else {
      hide SendChunks, Stream;
      assert s.out[0].header.op == OP_RESET;
    }
  }

  lemma JoinFront(a: seq<byte>, i: nat, j: nat)
    requires i <= j <= |a|
    ensures a[..i] + a[i..j] == a[..j]
  {
  }

  /** A turn in Drain keeps the credit invariant. */
  lemma TurnKeeps(cfg: Config, alloc: u32, waits: bool, c: Conn, h: Peer, up: seq<Packet>, down: seq<Packet>, room: nat)
    requires KeyOk(cfg, alloc, waits, Some(c), h, up, down) && ConnOk(cfg, c.Remote(), c)
    ensures
      var s := Serve(cfg, c, room);
      KeyOk(cfg, alloc, waits, s.conn, h, up + s.out, down)
  {
    hide Serve, Stream, Rising, Count, Current, Earlier, Whole, ConnOk, Live, Loud, Front, Zeroed, ResetFirst,
        AfterResponse;
    var s := Serve(cfg, c, room);
    ServeAdds(cfg, c, room);
    if s.conn.None? {
      var p :| s.out == [p] && p.header.op == OP_RESET;
      SendReset(h, up, p);
    } else {
      SendMore(h, up, s.out);
      JoinFront(c.Body(), c.sent, s.conn.value.sent);
      if c.sent < W32 {
        ServeCredit(cfg, c, room);
        RisingHigher(Front(down), alloc, c.peerFwd, c.sent, s.conn.value.sent);
      }
      if h != Closed && Count(down, OP_REQUEST) > 0 && Count(up, OP_RESET) == 0 {
        ServeQuiet(cfg, c, room, Earlier(down), Heard(h, up));
      }
    }
  }

  /** The parts of a channel with one more packet at its head. */
  lemma Head(p: Packet, down: seq<Packet>)
    ensures
      var all := [p] + down;
      && (forall op :: Count(all, op) == (if p.header.op == op then 1 else 0) + Count(down, op))
      && Front(all) == (if p.header.op in {OP_RESET, OP_REQUEST} then [] else [p] + Front(down))
      && ResetFirst(all) == (p.header.op == OP_RESET || (p.header.op != OP_REQUEST && ResetFirst(down)))
    ensures
      var all := [p] + down;
      if Count(down, OP_REQUEST) > 0 then Current(all) == Current(down) && Earlier(all) == [p] + Earlier(down)
      else Current(all) == all && Current(down) == down && Earlier(all) == [] && Earlier(down) == []
  {
    Tail([p], down);
    Empty(down);
  }

  lemma HeadZeroed(alloc: u32, p: Packet, down: seq<Packet>)
    requires Zeroed([p] + down, alloc)
    ensures Zeroed(down, alloc)
    ensures p.header.op == OP_REQUEST ==> p.header.fwdCnt == 0 && Rising(Front(down), alloc, 0, 0)
  {
    hide Front, Rising;
    Tail([p], down);
    assert ([p] + down)[0] == p && ([p] + down)[1..] == down;
  }

  lemma HeadAlloc(alloc: u32, p: Packet, down: seq<Packet>)
    requires forall i :: 0 <= i < |[p] + down| ==> ([p] + down)[i].header.bufAlloc == alloc
    ensures p.header.bufAlloc == alloc && forall i :: 0 <= i < |down| ==> down[i].header.bufAlloc == alloc
  {
    assert ([p] + down)[0] == p;
    assert forall i :: 0 <= i < |down| ==> down[i] == ([p] + down)[i + 1];
  }

  lemma HeadPeer(alloc: u32, h: Peer, p: Packet, down: seq<Packet>)
    requires PeerOk(alloc, h, [p] + down)
    ensures PeerOk(alloc, h, down) && p.header.bufAlloc == alloc
    ensures p.header.op == OP_REQUEST ==> p.header.fwdCnt == 0 && Rising(Front(down), alloc, 0, 0)
    ensures h != Closed && Count(down, OP_REQUEST) == 0 ==> p.header.op != OP_RESET
    ensures h != Closed && Count(down, OP_REQUEST) == 0 && p.header.op == OP_REQUEST ==> Rising(down, alloc, 0, 0)
  {
    hide Front, Current, Rising, Count, Zeroed;
    Head(p, down);
    HeadZeroed(alloc, p, down);
    HeadAlloc(alloc, p, down);
    if h != Closed && Count(down, OP_REQUEST) == 0 && p.header.op == OP_REQUEST { HeadRising(p, down, alloc, 0, 0); }
  }

  /** The answer of the endpoint to one packet, without what Drain adds. */
  function Answers(r: Reaction, h: Header): seq<Packet> {
    match r
    case Refuse(_) => [Refusal(h)]
    case Quiet(_) => []
    case Fail(_) => []
    case Proceed(_, replies) => replies
  }

  ghost predicate ShortAnswers(handler: Option<Handler>) {
    handler.Some? ==> forall request :: handler.value(request).Some? ==> |handler.value(request).value| <= W32
  }

  lemma RequestReaction(cfg: Config, full: bool, c: Option<Conn>, p: Packet, handler: Option<Handler>)
    requires p.header.op == OP_REQUEST
    ensures
      var r := React(cfg, full, c, p, handler);
      var answer := Answers(r, p.header);
      if r.Proceed? then
        c.None? && r.conn == Some(NewConn(p.header)) && |answer| == 1 && answer[0].header.op == OP_RESPONSE
      else
        r.conn == c && |answer| == 1 && answer[0].header.op == OP_RESET
  {
  }

  /** A response at the end establishes a connecting peer, if no reset comes before. */
  lemma SendResponse(h: Peer, up: seq<Packet>, p: Packet)
    requires p.header.op == OP_RESPONSE && h != Closed && Total(h, up) == 0
    ensures Count(up + [p], OP_RESPONSE) == Count(up, OP_RESPONSE) + 1
    ensures Count(up + [p], OP_RESET) == Count(up, OP_RESET)
    ensures Total(h, up + [p]) == 0
    ensures if Count(up, OP_RESET) == 0 then Heard(h, up + [p]) else Heard(h, up + [p]) == Heard(h, up)
  {
    hide Stream;
    CountConcat(up, [p], OP_RESPONSE);
    CountConcat(up, [p], OP_RESET);
    CountOne(p, OP_RESPONSE);
    CountOne(p, OP_RESET);
    LiveConcat(up, [p]);
    if Count(up, OP_RESET) == 0 {
      LiveWhole(up);
      LiveWhole([p]);
      AfterResponseConcat(up, [p]);
      OnePlain(p);
      StreamConcat(up, [p]);
      StreamConcat(AfterResponse(up), [p]);
    }
  }

  lemma OnePlain(p: Packet)
    requires p.header.op == OP_RESPONSE
    ensures Stream([p]) == [] && AfterResponse([p]) == [] && Stream([]) == []
  {
    assert [p][1..] == [];
  }

  /** A request starts a new pairing when it is accepted, and none when it is refused. */
  lemma RequestKeeps(cfg: Config, alloc: u32, waits: bool, full: bool, c: Option<Conn>, h: Peer, up: seq<Packet>,
      p: Packet, down: seq<Packet>, handler: Option<Handler>)
    requires KeyOk(cfg, alloc, waits, c, h, up, [p] + down) && p.header.op == OP_REQUEST
    ensures
      var r := React(cfg, full, c, p, handler);
      KeyOk(cfg, alloc, waits, r.conn, h, up + Answers(r, p.header), down)
  {
    hide React, Answers;
    RequestReaction(cfg, full, c, p, handler);
    var r := React(cfg, full, c, p, handler);
    var answer := Answers(r, p.header);
    assert answer == [answer[0]];
    Head(p, down);
    HeadPeer(alloc, h, p, down);
    if r.Proceed? {
      RequestAccepted(cfg, alloc, waits, h, up, p, down, answer[0]);
    } else {
      RequestRefused(cfg, alloc, waits, c, h, up, p, down, answer[0]);
    }
  }

  /** A new connection knows of no credit but the request's. */
  lemma NewWithin(cfg: Config, alloc: u32, h: Peer, p: Packet, down: seq<Packet>)
    requires p.header.bufAlloc == alloc && p.header.fwdCnt == 0 && Rising(Front(down), alloc, 0, 0)
    ensures
      var c := NewConn(p.header);
      && WithinCredit(cfg, alloc, c, down) && Abandoned(alloc, c, down)
      && (Rising(down, alloc, 0, 0) && Consumed(h) == 0 ==> InStep(alloc, c, h, [], down))
  {
    hide Front, Rising;
  }

  lemma RequestAccepted(cfg: Config, alloc: u32, waits: bool, h: Peer, up: seq<Packet>, p: Packet, down: seq<Packet>,
      answer: Packet)
    requires KeyOk(cfg, alloc, waits, None, h, up, [p] + down) && p.header.op == OP_REQUEST
    requires answer.header.op == OP_RESPONSE
    ensures KeyOk(cfg, alloc, waits, Some(NewConn(p.header)), h, up + [answer], down)
  {
    hide Stream, Rising, Count, Current, Whole, Live, Front, Zeroed, ResetFirst, AfterResponse, Loud, PeerOk, Earlier,
        WithinCredit, InStep, Abandoned, NewConn;
    Head(p, down);
    HeadPeer(alloc, h, p, down);
    NewWithin(cfg, alloc, h, p, down);
    if h != Closed {
      SendResponse(h, up, answer);
      ZeroTotal(alloc, h, up, down);
      if Count(down, OP_REQUEST) > 0 && Count(up, OP_RESET) == 0 {
        HeadQuiet(cfg, None, p, Earlier(down), Heard(h, up));
      }
    } else {
      CountConcat(up, [answer], OP_RESPONSE);
      CountOne(answer, OP_RESPONSE);
    }
  }

  lemma ZeroTotal(alloc: u32, h: Peer, up: seq<Packet>, down: seq<Packet>)
    requires PeerOk(alloc, h, down) && Total(h, up) == 0
    ensures Consumed(h) == 0
  {
  }

  lemma RequestRefused(cfg: Config, alloc: u32, waits: bool, c: Option<Conn>, h: Peer, up: seq<Packet>, p: Packet,
      down: seq<Packet>, answer: Packet)
    requires KeyOk(cfg, alloc, waits, c, h, up, [p] + down) && p.header.op == OP_REQUEST && answer.header.op == OP_RESET
    ensures KeyOk(cfg, alloc, waits, c, h, up + [answer], down)
  {
    hide Stream, Rising, Count, Current, Whole, Live, Front, Zeroed, ResetFirst, AfterResponse, Loud, PeerOk, Earlier;
    Head(p, down);
    HeadPeer(alloc, h, p, down);
    SendReset(h, up, answer);
    if c.Some? { RisingHigher(Front(down), alloc, 0, 0, c.value.sent); }
    if h != Closed { ZeroTotal(alloc, h, up, down); }
  }

  lemma UpdateReaction(cfg: Config, full: bool, c: Option<Conn>, p: Packet, handler: Option<Handler>)
    requires p.header.op != OP_REQUEST && ShortAnswers(handler)
    requires c.Some? ==> c.value.sent <= c.value.ResponseLength() <= W32
    ensures
      var r := React(cfg, full, c, p, handler);
      var answer := Answers(r, p.header);
      if r.conn.Some? then
        && c.Some? && p.header.op != OP_RESET
        && Count(answer, OP_RESPONSE) == 0 && Count(answer, OP_RESET) == 0 && Stream(answer) == []
        && var d := r.conn.value;
           d.sent == c.value.sent && d.peerFwd == p.header.fwdCnt && d.peerAlloc == p.header.bufAlloc
               && d.ResponseLength() <= W32 && d.sent <= |d.Body()| && c.value.sent <= |c.value.Body()|
               && d.Body()[..d.sent] == c.value.Body()[..c.value.sent]
      else if r.Quiet? then c.Some? && p.header.op == OP_RESET && answer == []
      else |answer| == 1 && answer[0].header.op == OP_RESET
  {
    hide Complete;
    var answer := Answers(React(cfg, full, c, p, handler), p.header);
    if |answer| == 1 {
      assert answer[1..] == [];
    }
  }

  /** Any other packet brings the acknowledgement up to date, or ends the connection. */
  lemma UpdateKeeps(cfg: Config, alloc: u32, waits: bool, full: bool, c: Option<Conn>, h: Peer, up: seq<Packet>,
      p: Packet, down: seq<Packet>, handler: Option<Handler>)
    requires KeyOk(cfg, alloc, waits, c, h, up, [p] + down) && p.header.op != OP_REQUEST && ShortAnswers(handler)
    requires c.Some? ==> ConnOk(cfg, c.value.Remote(), c.value)
    ensures
      var r := React(cfg, full, c, p, handler);
      KeyOk(cfg, alloc, waits, r.conn, h, up + Answers(r, p.header), down)
  {
    hide React, Answers, Stream, Rising, Count, Current, Whole, Live, Front, Zeroed, ResetFirst, AfterResponse, Loud,
        PeerOk, Earlier;
    UpdateReaction(cfg, full, c, p, handler);
    Head(p, down);
    HeadPeer(alloc, h, p, down);
    var r := React(cfg, full, c, p, handler);
    var answer := Answers(r, p.header);
    if r.conn.Some? {
      UpdateStays(cfg, alloc, waits, full, c.value, h, up, p, down, handler);
    } else if r.Quiet? {
      Empty(up);
      if h != Closed && Count(down, OP_REQUEST) > 0 && Count(up, OP_RESET) == 0 {
        HeadQuiet(cfg, c, p, Earlier(down), Heard(h, up));
      }
    } else {
      assert answer == [answer[0]];
      SendReset(h, up, answer[0]);
    }
  }

  lemma UpdateStays(cfg: Config, alloc: u32, waits: bool, full: bool, c: Conn, h: Peer, up: seq<Packet>, p: Packet,
      down: seq<Packet>, handler: Option<Handler>)
    requires KeyOk(cfg, alloc, waits, Some(c), h, up, [p] + down) && p.header.op != OP_REQUEST && ShortAnswers(handler)
    requires ConnOk(cfg, c.Remote(), c) && React(cfg, full, Some(c), p, handler).conn.Some?
    ensures
      var r := React(cfg, full, Some(c), p, handler);
      KeyOk(cfg, alloc, waits, r.conn, h, up + Answers(r, p.header), down)
  {
    hide React, Answers, Stream, Rising, Count, Current, Whole, Live, Front, Zeroed, ResetFirst, AfterResponse, Loud,
        PeerOk, Earlier;
    UpdateReaction(cfg, full, Some(c), p, handler);
    Head(p, down);
    HeadPeer(alloc, h, p, down);
    var r := React(cfg, full, Some(c), p, handler);
    SendMore(h, up, Answers(r, p.header));
    if c.sent < W32 { HeadRising(p, Front(down), alloc, c.peerFwd, c.sent); }
    if Attached(h, up, [p] + down) {
      if c.sent < W32 { HeadRising(p, down, alloc, c.peerFwd, Consumed(h)); }
    } else if !ResetFirst(down) {
      HeadRising(p, Front(down), alloc, 0, 0);
    }
    if h != Closed && Count(down, OP_REQUEST) > 0 && Count(up, OP_RESET) == 0 {
      EarlierAlloc(alloc, h, down);
      ReactQuiet(cfg, alloc, full, c, p, handler, Earlier(down), Heard(h, up));
    }
  }

  lemma HeadRising(p: Packet, ps: seq<Packet>, alloc: u32, low: int, high: int)
    requires Rising([p] + ps, alloc, low, high)
    ensures low <= p.header.fwdCnt <= high && Rising(ps, alloc, p.header.fwdCnt, high)
  {
    Tail([p], ps);
    Empty(ps);
    RisingTail([p] + ps, alloc, low, high);
  }

  lemma EarlierAlloc(alloc: u32, h: Peer, down: seq<Packet>)
    requires PeerOk(alloc, h, down)
    ensures forall i :: 0 <= i < |Earlier(down)| ==> Earlier(down)[i].header.bufAlloc == alloc
  {
    EarlierWithin(down);
  }

  lemma {:induction false} EarlierWithin(ps: seq<Packet>)
    ensures |Earlier(ps)| <= |ps| && forall i :: 0 <= i < |Earlier(ps)| ==> Earlier(ps)[i] == ps[i]
  {
    if Count(ps, OP_REQUEST) > 0 && Count(ps[1..], OP_REQUEST) > 0 {
      EarlierWithin(ps[1..]);
    }
  }

  // ----------------------------------------------------------------- the peer's side

  /** The peer takes the next packet from its channel. */
  lemma AcceptKeeps(cfg: Config, alloc: u32, waits: bool, c: Option<Conn>, h: Peer, p: Packet, up: seq<Packet>,
      down: seq<Packet>)
    requires KeyOk(cfg, alloc, waits, c, h, [p] + up, down)
    ensures KeyOk(cfg, alloc, waits, c, Accept(h, p), up, down)
  {
    hide Rising, Zeroed, Front, Current, ResetFirst, Earlier, Loud;
    AcceptTotal(h, p, up);
    hide Whole, Stream, Live, AfterResponse, Count;
  }

  lemma AcceptTotal(h: Peer, p: Packet, up: seq<Packet>)
    ensures
      var all, after := [p] + up, Accept(h, p);
      && (forall op :: Count(all, op) == (if p.header.op == op then 1 else 0) + Count(up, op))
      && (p.header.op == OP_RESET ==> after == Closed)
      && (p.header.op != OP_RESET && h != Closed ==>
            && after != Closed && Heard(after, up) == Heard(h, all) && Whole(after, up) == Whole(h, all)
            && Consumed(after) == Consumed(h)
            && (p.header.op == OP_RESPONSE && h.Connecting? ==> after.Established?)
            && (p.header.op != OP_RESPONSE ==> after.Established? == h.Established?)
            && (after.Established? && h.Established? ==> h.received <= after.received)
            && (after.Established? && !h.Established? ==>
                  after == Established([], 0) && p.header.op == OP_RESPONSE))
      && (h == Closed ==> after == Closed)
  {
    Tail([p], up);
    Empty(up);
    if p.header.op != OP_RESET {
      var live := Live(up);
      Tail([p], live);
      Empty(live);
      assert Live([p] + up) == [p] + live;
      if h.Established? { Assoc(h.received, Data(p), Stream(live)); }
    }
  }

  /** A peer opens a connection when the endpoint is calm, or when nothing is under way. */
  lemma OpenKeeps(cfg: Config, alloc: u32, waits: bool, k: Key, c: Option<Conn>, up: seq<Packet>, down: seq<Packet>)
    requires KeyOk(cfg, alloc, waits, c, Closed, up, down) && Calm(cfg, c, up, down)
    requires waits ==> Count(down, OP_REQUEST) + Count(up, OP_RESPONSE) == 0
    ensures KeyOk(cfg, alloc, waits, c, Connecting, up, down + [FromPeer(cfg, alloc, k, OP_REQUEST, [], 0)])
  {
    hide Rising, Zeroed, Front, Current, ResetFirst, Earlier, Loud, Count, Stream, Live, AfterResponse;
    var p := FromPeer(cfg, alloc, k, OP_REQUEST, [], 0);
    AddedPeer(alloc, Closed, down, p);
    CountConcat(down, [p], OP_REQUEST);
    CountOne(p, OP_REQUEST);
    CurrentSnoc(down, p);
    FrontSnoc(down, p);
    OneRising(p, alloc);
    CountOne(p, OP_RESET);
    if Count(up, OP_RESET) == 0 { LiveWhole(up); }
  }

  lemma OneRising(p: Packet, alloc: u32)
    requires p.header.bufAlloc == alloc && p.header.fwdCnt == 0
    ensures Rising([p], alloc, 0, 0)
  {
  }

  lemma AddedPeer(alloc: u32, h: Peer, down: seq<Packet>, p: Packet)
    requires PeerOk(alloc, h, down) && p.header.bufAlloc == alloc && (p.header.op == OP_RESET || p.header.fwdCnt == 0)
    ensures Zeroed(down + [p], alloc)
    ensures forall i :: 0 <= i < |down| + 1 ==> (down + [p])[i].header.bufAlloc == alloc
  {
    ZeroedSnoc(down, p, alloc);
  }

  /** While its request is not taken, or when a reset will cut it off, a peer acknowledges nothing. */
  lemma NothingConsumed(cfg: Config, alloc: u32, waits: bool, c: Option<Conn>, h: Peer, up: seq<Packet>,
      down: seq<Packet>)
    requires KeyOk(cfg, alloc, waits, c, h, up, down)
    ensures h != Closed && Count(down, OP_REQUEST) > 0 ==> Consumed(h) == 0
    ensures c.Some? && !Attached(h, up, down) && Count(down, OP_REQUEST) == 0 ==> Consumed(h) == 0
    ensures c.Some? && Attached(h, up, down) && c.value.sent < W32 ==> Consumed(h) < W32
  {
    hide Rising, Zeroed, Front, Current, ResetFirst, Earlier, Loud, Count, Stream, Live, AfterResponse;
  }

  /** A peer sends a packet of an open connection, announcing what it has consumed. */
  lemma SendKeeps(cfg: Config, alloc: u32, waits: bool, k: Key, c: Option<Conn>, h: Peer, up: seq<Packet>,
      down: seq<Packet>, op: u16, payload: seq<byte>)
    requires KeyOk(cfg, alloc, waits, c, h, up, down) && h != Closed && op != OP_REQUEST && op != OP_RESET
    ensures KeyOk(cfg, alloc, waits, c, h, up, down + [FromPeer(cfg, alloc, k, op, payload, Consumed(h))])
  {
    hide Rising, Zeroed, Front, Current, ResetFirst, Earlier, Loud, Count, Stream, Live, AfterResponse, Whole;
    NothingConsumed(cfg, alloc, waits, c, h, up, down);
    var p := FromPeer(cfg, alloc, k, op, payload, Consumed(h));
    CountConcat(down, [p], OP_REQUEST);
    CountOne(p, OP_REQUEST);
    CountOne(p, OP_RESET);
    CurrentSnoc(down, p);
    FrontSnoc(down, p);
    SendPeer(alloc, h, down, p);
    if c.Some? {
      SendFront(cfg, alloc, waits, c.value, h, up, down, p);
    }
  }

  lemma SendPeer(alloc: u32, h: Peer, down: seq<Packet>, p: Packet)
    requires PeerOk(alloc, h, down) && h != Closed && p.header.op != OP_REQUEST && p.header.op != OP_RESET
    requires p.header.bufAlloc == alloc && (Count(down, OP_REQUEST) > 0 ==> p.header.fwdCnt == 0)
    ensures PeerOk(alloc, h, down + [p])
  {
    hide Rising, Zeroed, Front, Current, ResetFirst, Earlier, Count;
    CurrentSnoc(down, p);
    CountConcat(Current(down), [p], OP_RESET);
    CountConcat(down, [p], OP_REQUEST);
    CountOne(p, OP_REQUEST);
    CountOne(p, OP_RESET);
    if Count(down, OP_REQUEST) > 0 {
      RisingSnoc(Current(down), p, alloc, 0, 0);
      ZeroedSnoc(down, p, alloc);
    } else {
      NoRequestZeroed(down + [p], alloc);
    }
  }

  lemma SendFront(cfg: Config, alloc: u32, waits: bool, c: Conn, h: Peer, up: seq<Packet>, down: seq<Packet>, p: Packet)
    requires KeyOk(cfg, alloc, waits, Some(c), h, up, down) && h != Closed && p.header.op != OP_REQUEST
    requires p.header.op != OP_RESET
    requires p.header.bufAlloc == alloc && p.header.fwdCnt == Wrap32(Consumed(h))
    ensures
      var after := down + [p];
      && (c.sent < W32 ==> Rising(Front(after), alloc, c.peerFwd, c.sent))
      && (Attached(h, up, down) && c.sent < W32 ==> Rising(after, alloc, c.peerFwd, Consumed(h)))
      && (!Attached(h, up, down) ==> Abandoned(alloc, c, after))
  {
    hide Zeroed, Front, ResetFirst, Earlier, Loud, Count, Stream, Live, AfterResponse, Rising, Whole, Current;
    NothingConsumed(cfg, alloc, waits, Some(c), h, up, down);
    FrontSnoc(down, p);
    if Attached(h, up, down) {
      if c.sent < W32 {
        RisingSnoc(down, p, alloc, c.peerFwd, Consumed(h));
        RisingHigher(down + [p], alloc, c.peerFwd, Consumed(h), c.sent);
      }
    } else if Front(down + [p]) != Front(down) {
      RisingSnoc(down, p, alloc, 0, 0);
      RisingHigher(down + [p], alloc, 0, 0, c.sent);
    }
  }

  /** A peer closes its end with a reset. */
  lemma CloseKeeps(cfg: Config, alloc: u32, waits: bool, k: Key, c: Option<Conn>, h: Peer, up: seq<Packet>,
      down: seq<Packet>)
    requires KeyOk(cfg, alloc, waits, c, h, up, down)
    ensures KeyOk(cfg, alloc, waits, c, Closed, up, down + [FromPeer(cfg, alloc, k, OP_RESET, [], Consumed(h))])
  {
    hide Rising, Zeroed, Front, Current, ResetFirst, Earlier, Loud, Count, Stream, Live, AfterResponse, Whole;
    var p := FromPeer(cfg, alloc, k, OP_RESET, [], Consumed(h));
    AddedPeer(alloc, h, down, p);
    CountConcat(down, [p], OP_REQUEST);
    CountOne(p, OP_REQUEST);
    FrontSnoc(down, p);
  }

  /** The peer's application consumes bytes that have been received. */
  lemma ConsumeKeeps(cfg: Config, alloc: u32, waits: bool, c: Option<Conn>, h: Peer, up: seq<Packet>,
      down: seq<Packet>, count: nat)
    requires KeyOk(cfg, alloc, waits, c, h, up, down) && h.Established? && h.consumed + count <= |h.received|
    ensures KeyOk(cfg, alloc, waits, c, Established(h.received, h.consumed + count), up, down)
  {
    hide Zeroed, Front, Current, ResetFirst, Earlier, Loud, Count, Stream, Live, AfterResponse, Rising;
    if c.Some? && Attached(h, up, down) && c.value.sent < W32 {
      RisingHigher(down, alloc, c.value.peerFwd, h.consumed, h.consumed + count);
    }
  }

  /** A transport reset event drops the connection. */
  lemma DropKeeps(cfg: Config, alloc: u32, waits: bool, c: Option<Conn>, h: Peer, up: seq<Packet>, down: seq<Packet>)
    requires KeyOk(cfg, alloc, waits, c, h, up, down)
    ensures KeyOk(cfg, alloc, waits, None, h, up, down)
  {
    hide Zeroed, Front, Current, ResetFirst, Loud, Rising;
    if h != Closed && Count(down, OP_REQUEST) > 0 && Count(up, OP_RESET) == 0 {
      DropQuiet(cfg, c, Earlier(down), Heard(h, up));
    }
  }
}
