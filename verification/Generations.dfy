/** One generation of a connection: everything between its creation and its deletion.
    The life of a generation is what it received, which handler calls it made and which packets
    it produced; the results here say what every life looks like, finished or not. */
module Generations {
  import opened Bytes
  import opened Wire
  import opened Seqs
  import opened Protocol
  import opened Connections

  datatype Call = Call(request: seq<byte>, response: Option<seq<byte>>)

  datatype Life = Life(key: Key, payloads: seq<seq<byte>>, calls: seq<Call>)

  // ------------------------------------------------------------------- reassembly

  function Concat(payloads: seq<seq<byte>>): seq<byte> {
    if payloads == [] then []
    else Concat(payloads[..|payloads| - 1]) + payloads[|payloads| - 1]
  }

  /** The least number of payloads whose concatenation holds the terminator, or one more than
      there are. */
  function CompleteAfter(payloads: seq<seq<byte>>): (n: nat)
    ensures n <= |payloads| + 1
  {
    if payloads == [] then 1
    else
      var n := CompleteAfter(payloads[..|payloads| - 1]);
      if n < |payloads| then n
      else if Complete(Concat(payloads)) then |payloads|
      else |payloads| + 1
  }

  lemma CompletePrefix(a: seq<byte>, b: seq<byte>)
    requires Complete(a)
    ensures Complete(a + b)
  {
    var i :| 0 <= i < |a| && TerminatorAt(a, i);
    assert (a + b)[i..i + 4] == a[i..i + 4];
    assert TerminatorAt(a + b, i);
  }

  /** CompleteAfter is what it says: nothing shorter is complete, everything longer is. */
  lemma {:induction false} CompleteAfterLeast(payloads: seq<seq<byte>>, i: nat)
    requires i <= |payloads|
    ensures Complete(Concat(payloads[..i])) <==> CompleteAfter(payloads) <= i
    decreases |payloads|
  {
    if payloads == [] {
      assert payloads[..i] == payloads;
    } else {
      var before := payloads[..|payloads| - 1];
      if i < |payloads| {
        CompleteAfterLeast(before, i);
        assert payloads[..i] == before[..i];
      } else {
        assert payloads[..i] == payloads;
        CompleteAfterLeast(before, |before|);
        assert before[..|before|] == before;
        if Complete(Concat(before)) {
          CompletePrefix(Concat(before), payloads[|payloads| - 1]);
        }
      }
    }
  }

  /** When the handler is called and with what: on the shortest complete concatenation of whole
      payloads, and again after each further payload as long as it has returned nil. */
  ghost predicate CallsOk(payloads: seq<seq<byte>>, calls: seq<Call>) {
    var first := CompleteAfter(payloads);
    if first > |payloads| then calls == []
    else
      && 0 < |calls| <= |payloads| - first + 1
      && (forall i :: 0 <= i < |calls| ==> calls[i].request == Concat(payloads[..first + i]))
      && (forall i :: 0 <= i < |calls| - 1 ==> calls[i].response.None?)
      && (calls[|calls| - 1].response.None? ==> |calls| == |payloads| - first + 1)
  }

  /** The response that the calls have produced. */
  function Answer(calls: seq<Call>): Option<seq<byte>> {
    if calls == [] then None else calls[|calls| - 1].response
  }

  /** The life after one more payload, when the handler is present. */
  function Extend(life: Life, payload: seq<byte>, handler: Handler): Life {
    var payloads := life.payloads + [payload];
    var request := Concat(payloads);
    Life(life.key, payloads,
         if Answer(life.calls).None? && Complete(request) then life.calls + [Call(request, handler(request))]
         else life.calls)
  }

  lemma ConcatSnoc(payloads: seq<seq<byte>>, payload: seq<byte>)
    ensures Concat(payloads + [payload]) == Concat(payloads) + payload
  {
    Last(payloads, payload);
  }

  lemma CompleteAfterSnoc(payloads: seq<seq<byte>>, payload: seq<byte>)
    ensures
      var longer := payloads + [payload];
      CompleteAfter(longer) ==
        if CompleteAfter(payloads) <= |payloads| then CompleteAfter(payloads)
        else if Complete(Concat(longer)) then |longer| else |longer| + 1
    ensures Complete(Concat(payloads)) <==> CompleteAfter(payloads) <= |payloads|
    ensures Complete(Concat(payloads)) ==> Complete(Concat(payloads + [payload]))
  {
    var longer := payloads + [payload];
    Last(payloads, payload);
    assert payloads[..|payloads|] == payloads;
    CompleteAfterLeast(payloads, |payloads|);
    if Complete(Concat(payloads)) {
      CompletePrefix(Concat(payloads), payload);
    }
  }

  lemma CallsExtend(life: Life, payload: seq<byte>, handler: Handler)
    requires CallsOk(life.payloads, life.calls)
    ensures
      var longer := Extend(life, payload, handler);
      CallsOk(longer.payloads, longer.calls)
  {
    CompleteAfterSnoc(life.payloads, payload);
    hide Complete, Concat, CompleteAfter;
    var longer := Extend(life, payload, handler);
    forall i | 0 <= i <= |life.payloads| ensures longer.payloads[..i] == life.payloads[..i] {
    }
    assert longer.payloads[..|longer.payloads|] == longer.payloads;
  }

  // --------------------------------------------------------- what a generation sends

  ghost predicate Lacks(outs: seq<Packet>, op: u16) {
    forall i :: 0 <= i < |outs| ==> outs[i].header.op != op
  }

  /** A shutdown stands behind the whole response and is the only one, no data follows it;
      a reset is the last packet and no data precedes it. */
  ghost predicate ClosesInOrder(outs: seq<Packet>, body: seq<byte>) {
    && (forall i :: 0 <= i < |outs| && outs[i].header.op == OP_SHUTDOWN ==> Stream(outs[..i]) == body)
    && (forall i, j :: 0 <= i < j < |outs| && outs[i].header.op == OP_SHUTDOWN ==>
          outs[j].header.op !in {OP_SHUTDOWN, OP_READ_WRITE})
    && (forall i :: 0 <= i < |outs| && outs[i].header.op == OP_RESET ==>
          i == |outs| - 1 && Stream(outs) == [])
  }

  function BodyOf(calls: seq<Call>): seq<byte> {
    if Answer(calls).Some? then Answer(calls).value else []
  }

  /** What holds of a generation at any time, also after it has ended. */
  ghost predicate LifeOk(life: Life, outs: seq<Packet>) {
    && Stream(outs) <= BodyOf(life.calls)
    && ClosesInOrder(outs, BodyOf(life.calls))
  }

  /** What links a generation to its connection while it lives. */
  ghost predicate LiveOk(life: Life, outs: seq<Packet>, c: Conn) {
    && LifeOk(life, outs)
    && c.Remote() == life.key
    && c.request == Concat(life.payloads)
    && c.response == Answer(life.calls)
    && c.sent == |Stream(outs)|
    && (Lacks(outs, OP_SHUTDOWN) || (c.closing && c.response.Some? && c.sent == |c.response.value|))
    && Lacks(outs, OP_RESET)
  }

  lemma StreamSnoc(outs: seq<Packet>, p: Packet)
    ensures Stream(outs + [p]) == Stream(outs) + Data(p)
  {
    StreamConcat(outs, [p]);
    Empty(Data(p));
    assert Stream([p]) == Data(p) + Stream([p][1..]);
  }

  /** Appending packets that carry no data and close nothing. */
  lemma AppendPlain(outs: seq<Packet>, p: Packet, body: seq<byte>)
    requires ClosesInOrder(outs, body) && Lacks(outs, OP_RESET)
    requires p.header.op !in {OP_READ_WRITE, OP_SHUTDOWN, OP_RESET}
    ensures ClosesInOrder(outs + [p], body) && Stream(outs + [p]) == Stream(outs)
  {
    StreamSnoc(outs, p);
    Empty(Stream(outs));
    hide Stream;
    forall i | 0 <= i < |outs| ensures (outs + [p])[..i] == outs[..i] {
    }
  }

  lemma AppendData(outs: seq<Packet>, more: seq<Packet>, body: seq<byte>)
    requires ClosesInOrder(outs, body) && AllOp(more, OP_READ_WRITE)
    requires Lacks(outs, OP_RESET) && Lacks(outs, OP_SHUTDOWN)
    ensures ClosesInOrder(outs + more, body) && Lacks(outs + more, OP_RESET) && Lacks(outs + more, OP_SHUTDOWN)
  {
  }

  lemma AppendShutdown(outs: seq<Packet>, p: Packet, body: seq<byte>)
    requires Lacks(outs, OP_RESET) && Lacks(outs, OP_SHUTDOWN) && Stream(outs) == body
    requires p.header.op == OP_SHUTDOWN
    ensures ClosesInOrder(outs + [p], body) && Stream(outs + [p]) == body
  {
    StreamSnoc(outs, p);
    Empty(Stream(outs));
    Last(outs, p);
    hide Stream;
  }

  lemma AppendReset(outs: seq<Packet>, p: Packet, body: seq<byte>)
    requires Lacks(outs, OP_RESET) && Lacks(outs, OP_SHUTDOWN) && Stream(outs) == []
    requires p.header.op == OP_RESET
    ensures ClosesInOrder(outs + [p], body) && Stream(outs + [p]) == []
  {
    StreamSnoc(outs, p);
  }

  // --------------------------------------------------------- the steps of a generation

  lemma ChunksKeepLife(cfg: Config, life: Life, outs: seq<Packet>, c: Conn, room: nat)
    requires LiveOk(life, outs, c) && ConnOk(cfg, life.key, c)
    ensures
      var s := SendChunks(cfg, c, room);
      LiveOk(life, outs + s.out, s.conn) && ConnOk(cfg, life.key, s.conn)
  {
    var s := SendChunks(cfg, c, room);
    SendChunksFacts(cfg, c, room);
    hide SendChunks, Stream, ClosesInOrder;
    if s.out == [] {
      Empty(outs);
      Nothing();
    } else {
      assert CanSend(cfg, c) by { Starts(cfg, c, room); }
      StreamConcat(outs, s.out);
      Grows(Stream(outs), BodyOf(life.calls), c.sent, s.conn.sent);
      AppendData(outs, s.out, BodyOf(life.calls));
    }
  }

  lemma Nothing()
    ensures Stream([]) == []
  {
  }

  lemma Starts(cfg: Config, c: Conn, room: nat)
    ensures SendChunks(cfg, c, room).out != [] ==> CanSend(cfg, c)
  {
  }

  lemma Grows(stream: seq<byte>, body: seq<byte>, i: nat, j: nat)
    requires stream <= body && |stream| == i <= j <= |body|
    ensures stream + body[i..j] <= body && |stream + body[i..j]| == j
  {
    assert stream == body[..i];
    assert body[..i] + body[i..j] == body[..j];
  }

  /** A turn in Drain continues the life, or ends it with a reset. */
  lemma ServeKeepsLife(cfg: Config, life: Life, outs: seq<Packet>, c: Conn, room: nat)
    requires LiveOk(life, outs, c) && ConnOk(cfg, life.key, c)
    ensures
      var s := Serve(cfg, c, room);
      if s.conn.Some? then LiveOk(life, outs + s.out, s.conn.value) else LifeOk(life, outs + s.out)
  {
    var s := SendChunks(cfg, c, room);
    ChunksKeepLife(cfg, life, outs, c, room);
    hide SendChunks, Stream, ClosesInOrder, ConnOk;
    if |s.out| < room {
      SettleKeepsLife(cfg, life, outs + s.out, s.conn);
      Assoc(outs, s.out, Settle(cfg, s.conn).out);
    }
  }

  lemma SettleKeepsLife(cfg: Config, life: Life, outs: seq<Packet>, c: Conn)
    requires LiveOk(life, outs, c)
    ensures
      var s := Settle(cfg, c);
      if s.conn.Some? then LiveOk(life, outs + s.out, s.conn.value) else LifeOk(life, outs + s.out)
  {
    var s := Settle(cfg, c);
    if OwesShutdown(c) {
      AppendShutdown(outs, s.out[0], BodyOf(life.calls));
    } else if OwesReset(c) {
      AppendReset(outs, s.out[0], BodyOf(life.calls));
    } else {
      Empty(outs);
    }
  }

  /** A request that is accepted starts a life. */
  lemma OpenStartsLife(cfg: Config, h: Header)
    ensures LiveOk(Life(Sender(h), [], []), [Reply(cfg, NewConn(h), OP_RESPONSE, 0)], NewConn(h))
  {
    var p := Reply(cfg, NewConn(h), OP_RESPONSE, 0);
    Nothing();
    AppendPlain([], p, []);
    Empty([p]);
  }

  /** A packet on a living connection that goes on to Drain continues its life. */
  lemma ReactKeepsLife(cfg: Config, full: bool, life: Life, outs: seq<Packet>, c: Conn, p: Packet,
      handler: Option<Handler>)
    requires LiveOk(life, outs, c) && p.header.op != OP_REQUEST && p.header.op != OP_READ_WRITE
    requires React(cfg, full, Some(c), p, handler).Proceed?
    ensures
      var r := React(cfg, full, Some(c), p, handler);
      r.conn.Some? && LiveOk(life, outs + r.replies, r.conn.value)
  {
    var r := React(cfg, full, Some(c), p, handler);
    hide Stream, ClosesInOrder, Concat;
    if r.replies == [] {
      Empty(outs);
    } else {
      AppendPlain(outs, r.replies[0], BodyOf(life.calls));
    }
  }

  lemma DataKeepsLife(cfg: Config, life: Life, outs: seq<Packet>, c: Conn, payload: seq<byte>, handler: Handler)
    requires LiveOk(life, outs, c)
    requires ReactToData(cfg, c, payload, Some(handler)).Proceed?
    ensures
      var r := ReactToData(cfg, c, payload, Some(handler));
      r.conn.Some? && LiveOk(Extend(life, payload, handler), outs + r.replies, r.conn.value)
  {
    var r := ReactToData(cfg, c, payload, Some(handler));
    var longer := Extend(life, payload, handler);
    ConcatSnoc(life.payloads, payload);
    hide Complete, Concat, Stream, ClosesInOrder;
    if longer.calls != life.calls {
      NewBody(life, outs, longer);
      assert LifeOk(longer, outs);
    }
    if r.replies == [] {
      Empty(outs);
    } else {
      AppendPlain(outs, r.replies[0], BodyOf(longer.calls));
    }
  }

  /** A response that has just been produced has not been sent from yet. */
  lemma NewBody(life: Life, outs: seq<Packet>, longer: Life)
    requires LifeOk(life, outs) && BodyOf(life.calls) == [] && Lacks(outs, OP_SHUTDOWN)
    ensures LifeOk(longer, outs)
  {
  }

  /** A data packet that makes Handle fail for want of a handler still extends the request. */
  lemma FailKeepsLife(cfg: Config, life: Life, outs: seq<Packet>, c: Conn, payload: seq<byte>)
    requires LiveOk(life, outs, c)
    requires ReactToData(cfg, c, payload, None).Fail?
    ensures
      var r := ReactToData(cfg, c, payload, None);
      r.conn.Some? && LiveOk(life.(payloads := life.payloads + [payload]), outs, r.conn.value)
  {
    ConcatSnoc(life.payloads, payload);
    hide Complete, Concat, Stream, ClosesInOrder;
  }
}
