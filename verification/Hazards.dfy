/** When a peer may open a connection: what the endpoint may still send it that belongs to an
    earlier attempt. */
module Hazards {
  import opened Bytes
  import opened Wire
  import opened Seqs
  import opened Protocol
  import opened Connections
  import opened Channels

  /** An application that answers every request with one byte. */
  function OneByte(): Handler { request => Some([65]) }

  /** With connection c, and with down still to be taken from the peer, the endpoint may send data
      behind a response, and no reset in front of it. heard says that a response is under way
      already. The application may answer; a connection may be dropped by a transport reset event,
      which is why every request can be accepted. */
  predicate Loud(cfg: Config, c: Option<Conn>, down: seq<Packet>, heard: bool)
    decreases |down|
  {
    if heard && c.Some? && CanSend(cfg, c.value) then true
    else if down == [] then false
    else if down[0].header.op == OP_REQUEST then Loud(cfg, Some(NewConn(down[0].header)), down[1..], true)
    else
      match React(cfg, false, c, down[0], Some(OneByte()))
      case Refuse(_) => false
      case Fail(_) => false
      case Quiet(d) => Loud(cfg, d, down[1..], heard)
      case Proceed(d, _) => Loud(cfg, d, down[1..], heard)
  }

  /** A peer may open: no data follows a response that it would take for its own, neither under
      way to it nor from what the endpoint has yet to take from it. */
  predicate Calm(cfg: Config, c: Option<Conn>, up: seq<Packet>, down: seq<Packet>) {
    && Stream(AfterResponse(Live(up))) == []
    && (Count(up, OP_RESET) == 0 ==> !Loud(cfg, c, down, Count(up, OP_RESPONSE) > 0))
  }

  /** When nothing of an earlier attempt is under way, there is no danger. */
  lemma {:induction false} NoRequestQuiet(cfg: Config, c: Option<Conn>, down: seq<Packet>)
    requires Count(down, OP_REQUEST) == 0
    ensures !Loud(cfg, c, down, false)
    decreases |down|
  {
    hide React;
    if down != [] {
      match React(cfg, false, c, down[0], Some(OneByte()))
      case Refuse(_) =>
      case Fail(_) =>
      case Quiet(d) => NoRequestQuiet(cfg, d, down[1..]);
      case Proceed(d, _) => NoRequestQuiet(cfg, d, down[1..]);
    }
  }

  lemma WaitingIsCalm(cfg: Config, c: Option<Conn>, up: seq<Packet>, down: seq<Packet>)
    requires Count(down, OP_REQUEST) + Count(up, OP_RESPONSE) == 0
    ensures Calm(cfg, c, up, down)
  {
    NoRequestQuiet(cfg, c, down);
    LiveCount(up, OP_RESPONSE);
    NoResponseAfter(Live(up));
  }

  lemma {:induction false} LiveCount(ps: seq<Packet>, op: u16)
    ensures Count(Live(ps), op) <= Count(ps, op)
  {
    if ps != [] {
      LiveCount(ps[1..], op);
      assert ps[0].header.op != OP_RESET ==> Live(ps)[1..] == Live(ps[1..]);
    }
  }

  // ------------------------------------------- what Loud depends on, before a response

  lemma AlikeReact(cfg: Config, c: Conn, d: Conn, p: Packet)
    requires c.request == d.request && p.header.op != OP_REQUEST
    ensures
      var q, r := React(cfg, false, Some(c), p, Some(OneByte())), React(cfg, false, Some(d), p, Some(OneByte()));
      && (q.Refuse? <==> r.Refuse?) && (q.Quiet? <==> r.Quiet?) && (q.Proceed? <==> r.Proceed?)
      && (q.Quiet? ==> q.conn == r.conn == None)
      && (q.Proceed? ==> q.conn.Some? && r.conn.Some? && q.conn.value.request == r.conn.value.request)
  {
    hide Complete;
  }

  lemma {:induction false} Alike(cfg: Config, c: Conn, d: Conn, down: seq<Packet>)
    requires c.request == d.request
    ensures Loud(cfg, Some(c), down, false) == Loud(cfg, Some(d), down, false)
    decreases |down|
  {
    hide React;
    if down != [] && down[0].header.op != OP_REQUEST {
      AlikeReact(cfg, c, d, down[0]);
      var q, r := React(cfg, false, Some(c), down[0], Some(OneByte())),
          React(cfg, false, Some(d), down[0], Some(OneByte()));
      if q.Proceed? { Alike(cfg, q.conn.value, r.conn.value, down[1..]); }
    }
  }

  // ------------------------------------------------------- what keeps the endpoint quiet

  lemma ClosingReact(cfg: Config, c: Conn, p: Packet)
    requires p.header.op != OP_REQUEST
    ensures
      var q := React(cfg, false, Some(c), p, Some(OneByte()));
      var r := React(cfg, false, Some(c.(closing := true)), p, Some(OneByte()));
      && (q.Refuse? <==> r.Refuse?) && (q.Quiet? <==> r.Quiet?) && (q.Proceed? <==> r.Proceed?)
      && (q.Quiet? ==> q.conn == r.conn == None)
      && (q.Proceed? ==> q.conn.Some? && r.conn == Some(q.conn.value.(closing := true)))
  {
    hide Complete;
  }

  lemma {:induction false} Closing(cfg: Config, c: Conn, down: seq<Packet>, heard: bool)
    ensures Loud(cfg, Some(c.(closing := true)), down, heard) == Loud(cfg, Some(c), down, heard)
    decreases |down|
  {
    hide React;
    if down != [] && down[0].header.op != OP_REQUEST {
      ClosingReact(cfg, c, down[0]);
      var q := React(cfg, false, Some(c), down[0], Some(OneByte()));
      if q.Proceed? { Closing(cfg, q.conn.value, down[1..], heard); }
    }
  }

  /** A turn in Drain makes a quiet endpoint no louder; once a response is under way it sends no
      data at all. */
  lemma ServeQuiet(cfg: Config, c: Conn, room: nat, down: seq<Packet>, heard: bool)
    requires ConnOk(cfg, c.Remote(), c) && !Loud(cfg, Some(c), down, heard)
    ensures
      var s := Serve(cfg, c, room);
      && (s.conn.Some? ==> !Loud(cfg, s.conn, down, heard))
      && (heard ==> Stream(s.out) == [])
  {
    var s := Serve(cfg, c, room);
    ServeFacts(cfg, c, room);
    if heard {
      assert !CanSend(cfg, c) && SendChunks(cfg, c, room) == Sent(c, []);
      Closing(cfg, c, down, heard);
    } else if s.conn.Some? {
      hide Loud, Serve;
      Alike(cfg, c, s.conn.value, down);
    }
  }

  /** Without buffer on one side there is never any data. */
  lemma {:induction false} NoCredit(cfg: Config, alloc: u32, c: Option<Conn>, down: seq<Packet>, heard: bool)
    requires alloc == 0 || cfg.bufferLen == 0
    requires c.Some? ==> c.value.peerAlloc == alloc
    requires forall i :: 0 <= i < |down| ==> down[i].header.bufAlloc == alloc
    ensures !Loud(cfg, c, down, heard)
    decreases |down|
  {
    if down != [] {
      if down[0].header.op == OP_REQUEST {
        NoCredit(cfg, alloc, Some(NewConn(down[0].header)), down[1..], true);
      } else {
        ReactAlloc(cfg, c, down[0], Some(OneByte()));
        hide React;
        match React(cfg, false, c, down[0], Some(OneByte()))
        case Refuse(_) =>
        case Fail(_) =>
        case Quiet(d) => NoCredit(cfg, alloc, d, down[1..], heard);
        case Proceed(d, _) => NoCredit(cfg, alloc, d, down[1..], heard);
      }
    }
  }

  lemma ReactAlloc(cfg: Config, c: Option<Conn>, p: Packet, handler: Option<Handler>)
    requires p.header.op != OP_REQUEST
    ensures
      var r := React(cfg, false, c, p, handler);
      r.conn.Some? ==> r.conn.value.peerAlloc == p.header.bufAlloc
  {
    hide Complete;
  }

  /** How a reaction with any application differs from one that answers. */
  lemma ReactAnswer(cfg: Config, full: bool, c: Conn, p: Packet, handler: Option<Handler>)
    requires p.header.op != OP_REQUEST && c.sent <= c.ResponseLength() && c.txCount == Wrap32(c.sent)
    requires React(cfg, full, Some(c), p, handler).conn.Some?
    ensures
      var d := React(cfg, full, Some(c), p, handler).conn.value;
      var r := React(cfg, false, Some(c), p, Some(OneByte()));
      && r.Proceed? && r.conn.Some? && r.conn.value.request == d.request
      && (r.conn.value == d || (Min(p.header.bufAlloc, cfg.bufferLen) > 0 ==> CanSend(cfg, r.conn.value)))
  {
    hide Complete;
  }

  /** Taking a packet makes a quiet endpoint no louder, whatever the application answers. */
  lemma ReactQuiet(cfg: Config, alloc: u32, full: bool, c: Conn, p: Packet, handler: Option<Handler>,
      down: seq<Packet>, heard: bool)
    requires p.header.op != OP_REQUEST && c.sent <= c.ResponseLength() && c.txCount == Wrap32(c.sent)
    requires p.header.bufAlloc == alloc && forall i :: 0 <= i < |down| ==> down[i].header.bufAlloc == alloc
    requires !Loud(cfg, Some(c), [p] + down, heard)
    requires React(cfg, full, Some(c), p, handler).conn.Some?
    ensures !Loud(cfg, React(cfg, full, Some(c), p, handler).conn, down, heard)
  {
    Tail([p], down);
    Empty(down);
    ReactAnswer(cfg, full, c, p, handler);
    var d := React(cfg, full, Some(c), p, handler).conn.value;
    var e := React(cfg, false, Some(c), p, Some(OneByte())).conn.value;
    ReactAllocFull(cfg, full, c, p, handler);
    hide React;
    assert !Loud(cfg, Some(e), down, heard);
    if !heard {
      Alike(cfg, d, e, down);
    } else if d != e {
      NoCredit(cfg, alloc, Some(d), down, heard);
    }
  }

  lemma ReactAllocFull(cfg: Config, full: bool, c: Conn, p: Packet, handler: Option<Handler>)
    requires p.header.op != OP_REQUEST && React(cfg, full, Some(c), p, handler).conn.Some?
    ensures React(cfg, full, Some(c), p, handler).conn.value.peerAlloc == p.header.bufAlloc
  {
    hide Complete;
  }

  lemma HeadQuiet(cfg: Config, c: Option<Conn>, p: Packet, down: seq<Packet>, heard: bool)
    requires !Loud(cfg, c, [p] + down, heard)
    ensures p.header.op == OP_REQUEST ==> !Loud(cfg, Some(NewConn(p.header)), down, true)
    ensures p.header.op == OP_RESET && c.Some? ==> !Loud(cfg, None, down, heard)
  {
    Tail([p], down);
    Empty(down);
    hide NewConn;
  }

  /** Losing the connection makes a quiet endpoint no louder. */
  lemma DropQuiet(cfg: Config, c: Option<Conn>, down: seq<Packet>, heard: bool)
    requires !Loud(cfg, c, down, heard)
    ensures !Loud(cfg, None, down, heard)
  {
  }
}
