/** Rules for opening that look at how many requests and responses of a key are under way: which
    of them are safe, and runs that overflow the buffer under the others. */
module Reopening {
  import opened Bytes
  import opened Wire
  import opened Seqs
  import opened Protocol
  import opened Connections
  import opened Channels
  import opened Credit
  import opened Network

  /** A rule of the game: may a closed key be opened, with so many of its requests and responses
      under way, and how long may an answer of the application be? */
  datatype Rule = Rule(opens: (nat, nat) -> bool, longest: nat)

  ghost predicate AnswersWithin(handler: Option<Handler>, longest: nat) {
    handler.Some? ==> forall request :: handler.value(request).Some? ==> |handler.value(request).value| <= longest
  }

  /** As Honest, but by such a rule. */
  ghost predicate Ruled(cfg: Config, rule: Rule, n: Net, m: Move) {
    match m
    case PeerOpens(k) =>
      PeerAt(n, k) == Closed && rule.opens(Count(From(n.down, k), OP_REQUEST), Count(To(cfg, n.up, k), OP_RESPONSE))
    case EndpointReceives(handler, order) =>
      n.down != [] && AnswersWithin(handler, rule.longest) && HandleOrder(cfg, n.conns, n.down[0], handler, order)
    case _ => Honest(cfg, n, m)
  }

  /** Moves that fit the code: there is a handler, and payloads fit the length field. */
  predicate Plain(m: Move) {
    && (m.EndpointReceives? ==> m.handler.Some?)
    && (m.PeerSends? ==> |m.payload| < W32)
  }

  ghost predicate AllPlain(moves: seq<Move>) {
    forall i :: 0 <= i < |moves| ==> Plain(moves[i])
  }

  ghost predicate RuledPlay(cfg: Config, alloc: Offers, rule: Rule, moves: seq<Move>) {
    moves != [] ==>
      && RuledPlay(cfg, alloc, rule, moves[..|moves| - 1])
      && Ruled(cfg, rule, Play(cfg, alloc, moves[..|moves| - 1]), moves[|moves| - 1])
  }

  /** Every peer has a buffer of one byte. */
  const ONE_EACH: Offers := k => 1

  /** n is reached by such a play. */
  ghost predicate Reached(cfg: Config, rule: Rule, n: Net) {
    exists moves :: RuledPlay(cfg, ONE_EACH, rule, moves) && AllPlain(moves) && Play(cfg, ONE_EACH, moves) == n
  }

  /** Such a play leaves two bytes in k's buffer of one. */
  ghost predicate Overflows(cfg: Config, rule: Rule, moves: seq<Move>, k: Key) {
    && RuledPlay(cfg, ONE_EACH, rule, moves) && AllPlain(moves)
    && PeerAt(Play(cfg, ONE_EACH, moves), k) == Established([65, 65], 0)
  }

  lemma ReachedNext(cfg: Config, rule: Rule, n: Net, m: Move)
    requires Reached(cfg, rule, n) && Ruled(cfg, rule, n, m) && Plain(m)
    ensures Reached(cfg, rule, Apply(cfg, ONE_EACH, n, m))
  {
    hide Apply, Ruled;
    var moves :| RuledPlay(cfg, ONE_EACH, rule, moves) && AllPlain(moves) && Play(cfg, ONE_EACH, moves) == n;
    Last(moves, m);
    assert RuledPlay(cfg, ONE_EACH, rule, moves + [m]) && AllPlain(moves + [m]);
  }

  // ------------------------------------------------------- one remote, one byte of buffer

  /** The network with at most one connection, of the remote k, whose end is h. */
  function One(k: Key, c: Option<Conn>, h: Peer, up: seq<Packet>, down: seq<Packet>): Net {
    Net(if c.Some? then map[k := c.value] else map[], up, down, map[k := h])
  }

  function Request(cfg: Config, k: Key): Packet { FromPeer(cfg, 1, k, OP_REQUEST, [], 0) }

  function Reset(cfg: Config, k: Key, fwd: nat): Packet { FromPeer(cfg, 1, k, OP_RESET, [], fwd) }

  function Question(cfg: Config, k: Key): Packet { FromPeer(cfg, 1, k, OP_READ_WRITE, Terminator(), 0) }

  function Fresh(k: Key): Conn { Conn(k.cid, k.port, 1, 0, 0, 0, [], None, 0, false) }

  function Answered(k: Key): Conn { Conn(k.cid, k.port, 1, 0, 0, 4, Terminator(), Some([65]), 0, false) }

  function Finished(k: Key): Conn { Conn(k.cid, k.port, 1, 0, 1, 4, Terminator(), Some([65]), 1, true) }

  function Welcome(cfg: Config, k: Key): Packet { Reply(cfg, Fresh(k), OP_RESPONSE, 0) }

  function Byte(cfg: Config, k: Key): Packet { Packet(ReplyHeader(cfg, Answered(k), OP_READ_WRITE, 0), [65]) }

  function Bye(cfg: Config, k: Key): Packet { Reply(cfg, Finished(k), OP_SHUTDOWN, SHUTDOWN_BOTH) }

  predicate Small(cfg: Config) { cfg.bufferLen >= 4 && cfg.maxConns >= 1 }

  predicate Fair(cfg: Config, rule: Rule) { Small(cfg) && rule.longest >= 1 }

  /** The endpoint receives; its application answers every complete request with one byte. */
  function Serving(k: Key): Move { EndpointReceives(Some(request => Some([65])), [k]) }

  lemma DrainOne(cfg: Config, k: Key, c: Conn)
    ensures
      var s := Serve(cfg, c, DRAIN_LIMIT);
      Drain(cfg, map[k := c], [k], DRAIN_LIMIT) == Drained(Put(map[k := c], k, s.conn), s.out)
  {
    hide Serve;
    assert [k][..0] == [];
    Empty(Serve(cfg, c, DRAIN_LIMIT).out);
  }

  lemma ServeFresh(cfg: Config, k: Key)
    ensures Serve(cfg, Fresh(k), DRAIN_LIMIT) == Served(Some(Fresh(k)), [])
  {
  }

  lemma ServeAnswered(cfg: Config, k: Key)
    requires Small(cfg)
    ensures Serve(cfg, Answered(k), DRAIN_LIMIT) == Served(Some(Finished(k)), [Byte(cfg, k), Bye(cfg, k)])
  {
    var c := Answered(k);
    assert CanSend(cfg, c) && ChunkLength(cfg, c) == 1;
    assert [65][0..1] == [65];
    assert Chunk(cfg, c) == Byte(cfg, k);
    var d := AfterChunk(cfg, c);
    assert SendChunks(cfg, d, 7) == Sent(d, []);
    assert SendChunks(cfg, c, 8) == Sent(d, [Byte(cfg, k)]);
  }

  lemma ReactToQuestion(cfg: Config, k: Key, full: bool)
    requires Small(cfg)
    ensures React(cfg, full, Some(Fresh(k)), Question(cfg, k), Serving(k).handler) == Proceed(Some(Answered(k)), [])
  {
    assert [] + Terminator() == Terminator();
    assert Terminator()[0..4] == Terminator();
    assert TerminatorAt(Terminator(), 0);
  }

  // ------------------------------------------------------------------- single moves

  /** Everything under way is between the endpoint and k. */
  ghost predicate AllWith(cfg: Config, k: Key, up: seq<Packet>, down: seq<Packet>) {
    AllTo(cfg, up, k) && forall i :: 0 <= i < |down| ==> Sender(down[i].header) == k
  }

  lemma {:induction false} FromAll(down: seq<Packet>, k: Key)
    requires forall i :: 0 <= i < |down| ==> Sender(down[i].header) == k
    ensures From(down, k) == down
  {
    if down != [] { FromAll(down[1..], k); }
  }

  lemma TakeRequest(cfg: Config, rule: Rule, k: Key, h: Peer, up: seq<Packet>, down: seq<Packet>)
    requires Fair(cfg, rule) && Reached(cfg, rule, One(k, None, h, up, [Request(cfg, k)] + down))
    ensures Reached(cfg, rule, One(k, Some(Fresh(k)), h, up + [Welcome(cfg, k)], down))
  {
    hide Reached, Drain, Serve;
    var n := One(k, None, h, up, [Request(cfg, k)] + down);
    var after := One(k, Some(Fresh(k)), h, up + [Welcome(cfg, k)], down);
    assert n.down[1..] == down;
    DrainOne(cfg, k, Fresh(k));
    ServeFresh(cfg, k);
    assert Apply(cfg, ONE_EACH, n, Serving(k)) == after;
    ReachedNext(cfg, rule, n, Serving(k));
  }

  lemma TakeReset(cfg: Config, rule: Rule, k: Key, c: Conn, h: Peer, up: seq<Packet>, down: seq<Packet>)
    requires Fair(cfg, rule) && Reached(cfg, rule, One(k, Some(c), h, up, [Reset(cfg, k, 0)] + down))
    ensures Reached(cfg, rule, One(k, None, h, up, down))
  {
    hide Reached, Drain, Serve;
    var n := One(k, Some(c), h, up, [Reset(cfg, k, 0)] + down);
    assert n.down[1..] == down;
    assert Apply(cfg, ONE_EACH, n, Serving(k)) == One(k, None, h, up, down);
    ReachedNext(cfg, rule, n, Serving(k));
  }

  lemma TakeQuestion(cfg: Config, rule: Rule, k: Key, h: Peer, up: seq<Packet>, down: seq<Packet>)
    requires Fair(cfg, rule) && Reached(cfg, rule, One(k, Some(Fresh(k)), h, up, [Question(cfg, k)] + down))
    ensures Reached(cfg, rule, One(k, Some(Finished(k)), h, up + [Byte(cfg, k), Bye(cfg, k)], down))
  {
    hide Reached, Drain, Serve, React;
    var n := One(k, Some(Fresh(k)), h, up, [Question(cfg, k)] + down);
    assert n.down[1..] == down;
    ReactToQuestion(cfg, k, |n.conns| >= cfg.maxConns);
    DrainOne(cfg, k, Answered(k));
    ServeAnswered(cfg, k);
    Empty([Byte(cfg, k), Bye(cfg, k)]);
    assert Put(n.conns, k, Some(Answered(k))) == map[k := Answered(k)];
    assert Apply(cfg, ONE_EACH, n, Serving(k)) == One(k, Some(Finished(k)), h, up + [Byte(cfg, k), Bye(cfg, k)], down);
    ReachedNext(cfg, rule, n, Serving(k));
  }

  lemma Open(cfg: Config, rule: Rule, k: Key, c: Option<Conn>, up: seq<Packet>, down: seq<Packet>)
    requires Reached(cfg, rule, One(k, c, Closed, up, down)) && AllWith(cfg, k, up, down)
    requires rule.opens(Count(down, OP_REQUEST), Count(up, OP_RESPONSE))
    ensures Reached(cfg, rule, One(k, c, Connecting, up, down + [Request(cfg, k)]))
  {
    hide Reached, Honest, Count;
    var n := One(k, c, Closed, up, down);
    ToAll(cfg, up, k, k);
    FromAll(down, k);
    assert Apply(cfg, ONE_EACH, n, PeerOpens(k)) == One(k, c, Connecting, up, down + [Request(cfg, k)]);
    ReachedNext(cfg, rule, n, PeerOpens(k));
  }

  lemma Close(cfg: Config, rule: Rule, k: Key, c: Option<Conn>, h: Peer, up: seq<Packet>, down: seq<Packet>)
    requires Consumed(h) == 0 && Reached(cfg, rule, One(k, c, h, up, down))
    ensures Reached(cfg, rule, One(k, c, Closed, up, down + [Reset(cfg, k, 0)]))
  {
    hide Reached;
    var n := One(k, c, h, up, down);
    assert Apply(cfg, ONE_EACH, n, PeerCloses(k)) == One(k, c, Closed, up, down + [Reset(cfg, k, 0)]);
    ReachedNext(cfg, rule, n, PeerCloses(k));
  }

  lemma Ask(cfg: Config, rule: Rule, k: Key, c: Option<Conn>, received: seq<byte>, up: seq<Packet>, down: seq<Packet>)
    requires Reached(cfg, rule, One(k, c, Established(received, 0), up, down))
    ensures Reached(cfg, rule, One(k, c, Established(received, 0), up, down + [Question(cfg, k)]))
  {
    hide Reached;
    var n := One(k, c, Established(received, 0), up, down);
    var m := PeerSends(k, OP_READ_WRITE, Terminator());
    assert Apply(cfg, ONE_EACH, n, m) == One(k, c, Established(received, 0), up, down + [Question(cfg, k)]);
    ReachedNext(cfg, rule, n, m);
  }

  lemma Hear(cfg: Config, rule: Rule, k: Key, c: Option<Conn>, h: Peer, p: Packet, up: seq<Packet>, down: seq<Packet>)
    requires Sender(p.header) == Key(cfg.cid, cfg.port) && Receiver(p.header) == k
    requires Reached(cfg, rule, One(k, c, h, [p] + up, down))
    ensures Reached(cfg, rule, One(k, c, Accept(h, p), up, down))
  {
    hide Reached, Accept;
    var n := One(k, c, h, [p] + up, down);
    assert n.up[1..] == up;
    assert Apply(cfg, ONE_EACH, n, PeerReceives) == One(k, c, Accept(h, p), up, down);
    ReachedNext(cfg, rule, n, PeerReceives);
  }

  lemma OneByteMore(cfg: Config, k: Key)
    ensures Accept(Established([], 0), Byte(cfg, k)) == Established([65], 0)
    ensures Accept(Established([65], 0), Byte(cfg, k)) == Established([65, 65], 0)
  {
    assert [] + [65] == [65];
    assert [65] + [65] == [65, 65];
  }

  lemma Start(cfg: Config, rule: Rule, k: Key)
    requires rule.opens(0, 0)
    ensures Reached(cfg, rule, One(k, None, Connecting, [], [Request(cfg, k)]))
  {
    assert Reached(cfg, rule, QUIET) by {
      var none: seq<Move> := [];
      assert RuledPlay(cfg, ONE_EACH, rule, none) && AllPlain(none) && Play(cfg, ONE_EACH, none) == QUIET;
    }
    hide Reached;
    assert Apply(cfg, ONE_EACH, QUIET, PeerOpens(k)) == One(k, None, Connecting, [], [Request(cfg, k)]);
    ReachedNext(cfg, rule, QUIET, PeerOpens(k));
  }

  // --------------------------------------------------- a rule that ignores responses

  /** The first two attempts: the response to the first one establishes the second. */
  lemma StaleWelcome(cfg: Config, rule: Rule, k: Key)
    requires Fair(cfg, rule) && rule.opens(0, 0) && rule.opens(0, 1)
    ensures Reached(cfg, rule, One(k, Some(Fresh(k)), Established([], 0), [Welcome(cfg, k)], []))
  {
    hide Reached, One;
    var w, x, q := Welcome(cfg, k), Reset(cfg, k, 0), Request(cfg, k);
    Start(cfg, rule, k);
    Empty([q]);
    Empty([x]);
    TakeRequest(cfg, rule, k, Connecting, [], []);
    Empty([w]);
    Close(cfg, rule, k, Some(Fresh(k)), Connecting, [w], []);
    assert Count([x], OP_REQUEST) == 0 by { CountOne(x, OP_REQUEST); }
    assert Count([w], OP_RESPONSE) == 1 by { CountOne(w, OP_RESPONSE); }
    Open(cfg, rule, k, Some(Fresh(k)), [w], [x]);
    TakeReset(cfg, rule, k, Fresh(k), Connecting, [w], [q]);
    TakeRequest(cfg, rule, k, Connecting, [w], []);
    Hear(cfg, rule, k, Some(Fresh(k)), Connecting, w, [w], []);
  }

  lemma ThreeSaid(cfg: Config, k: Key)
    ensures
      var w, d, b := Welcome(cfg, k), Byte(cfg, k), Bye(cfg, k);
      && [w] + [d, b] == [w, d, b] && [d] + [b] == [d, b] && [b] + [] == [b]
      && Count([w, d, b], OP_RESPONSE) == 1
  {
    var w, d, b := Welcome(cfg, k), Byte(cfg, k), Bye(cfg, k);
    assert [w] + [d, b] == [w, d, b] && [d] + [b] == [d, b];
    CountConcat([w], [d, b], OP_RESPONSE);
    CountConcat([d], [b], OP_RESPONSE);
    CountOne(w, OP_RESPONSE);
    CountOne(d, OP_RESPONSE);
    CountOne(b, OP_RESPONSE);
  }

  /** The third attempt is established by the response to the second, and takes its byte. */
  lemma StaleByte(cfg: Config, rule: Rule, k: Key)
    requires Fair(cfg, rule) && rule.opens(0, 0) && rule.opens(0, 1)
    ensures Reached(cfg, rule, One(k, Some(Fresh(k)), Established([65], 0), [Welcome(cfg, k)], []))
  {
    hide Reached, One, Count;
    var w, x, q, t := Welcome(cfg, k), Reset(cfg, k, 0), Request(cfg, k), Question(cfg, k);
    var d, b := Byte(cfg, k), Bye(cfg, k);
    var f := Some(Finished(k));
    StaleWelcome(cfg, rule, k);
    Ask(cfg, rule, k, Some(Fresh(k)), [], [w], []);
    Empty([t]);
    Empty([x]);
    Empty([w]);
    ThreeSaid(cfg, k);
    TakeQuestion(cfg, rule, k, Established([], 0), [w], []);
    Close(cfg, rule, k, f, Established([], 0), [w, d, b], []);
    CountOne(x, OP_REQUEST);
    Open(cfg, rule, k, f, [w, d, b], [x]);
    Hear(cfg, rule, k, f, Connecting, w, [d, b], [x] + [q]);
    OneByteMore(cfg, k);
    Hear(cfg, rule, k, f, Established([], 0), d, [b], [x] + [q]);
    Hear(cfg, rule, k, f, Established([65], 0), b, [], [x] + [q]);
    TakeReset(cfg, rule, k, Finished(k), Established([65], 0), [], [q]);
    Empty([q]);
    TakeRequest(cfg, rule, k, Established([65], 0), [], []);
  }

  lemma Overflowed(cfg: Config, rule: Rule, n: Net, k: Key)
    requires Reached(cfg, rule, n) && PeerAt(n, k) == Established([65, 65], 0)
    ensures exists moves :: Overflows(cfg, rule, moves, k)
  {
    hide Play, RuledPlay;
    var moves :| RuledPlay(cfg, ONE_EACH, rule, moves) && AllPlain(moves) && Play(cfg, ONE_EACH, moves) == n;
    assert Overflows(cfg, rule, moves, k);
  }

  /** From one byte in the buffer to two. */
  lemma SecondByte(cfg: Config, rule: Rule, k: Key, c: Option<Conn>)
    requires Fair(cfg, rule) && c == Some(Fresh(k)) && Reached(cfg, rule, One(k, c, Established([65], 0), [], []))
    ensures exists moves :: Overflows(cfg, rule, moves, k)
  {
    hide Reached, Overflows, Accept, Finished, Question, Byte, Bye, Fresh;
    var t, d, b := Question(cfg, k), Byte(cfg, k), Bye(cfg, k);
    var f := Some(Finished(k));
    Ask(cfg, rule, k, c, [65], [], []);
    Empty([t]);
    Empty([d, b]);
    TakeQuestion(cfg, rule, k, Established([65], 0), [], []);
    assert [d] + [b] == [d, b];
    OneByteMore(cfg, k);
    ByteToPeer(cfg, k);
    Hear(cfg, rule, k, f, Established([65], 0), d, [b], []);
    Overflowed(cfg, rule, One(k, f, Established([65, 65], 0), [b], []), k);
  }

  lemma ByteToPeer(cfg: Config, k: Key)
    ensures Sender(Byte(cfg, k).header) == Key(cfg.cid, cfg.port) && Receiver(Byte(cfg, k).header) == k
  {
  }

  /** A peer that does not wait for responses, and consumes nothing, ends up with two bytes in a
      buffer of one. */
  lemma ResponseOverflow(cfg: Config, rule: Rule, k: Key)
    requires Fair(cfg, rule) && rule.opens(0, 0) && rule.opens(0, 1)
    ensures exists moves :: Overflows(cfg, rule, moves, k)
  {
    hide Reached, One, RuledPlay, Play;
    var w := Welcome(cfg, k);
    StaleByte(cfg, rule, k);
    Empty([w]);
    Hear(cfg, rule, k, Some(Fresh(k)), Established([65], 0), w, [], []);
    SecondByte(cfg, rule, k, Some(Fresh(k)));
  }

  // ---------------------------------------------------- a rule that ignores requests

  /** Two requests under way; the response to the first establishes the second attempt. */
  lemma StaleRequest(cfg: Config, rule: Rule, k: Key)
    requires Fair(cfg, rule) && rule.opens(0, 0) && rule.opens(1, 0)
    ensures Reached(cfg, rule, One(k, Some(Fresh(k)), Established([], 0), [], [Reset(cfg, k, 0), Request(cfg, k)]))
  {
    hide Reached, One, Count;
    var w, x, q := Welcome(cfg, k), Reset(cfg, k, 0), Request(cfg, k);
    Start(cfg, rule, k);
    Close(cfg, rule, k, None, Connecting, [], [q]);
    assert [q] + [x] == [q, x] && [q, x] + [q] == [q, x, q] && [q] + [x, q] == [q, x, q];
    CountConcat([q], [x], OP_REQUEST);
    CountOne(q, OP_REQUEST);
    CountOne(x, OP_REQUEST);
    CountNone([], OP_RESPONSE);
    Open(cfg, rule, k, None, [], [q, x]);
    TakeRequest(cfg, rule, k, Connecting, [], [x, q]);
    Empty([w]);
    Hear(cfg, rule, k, Some(Fresh(k)), Connecting, w, [], [x, q]);
  }

  /** The question to the second attempt is answered behind its response, for the third to hear. */
  lemma StaleAnswer(cfg: Config, rule: Rule, k: Key)
    requires Fair(cfg, rule) && rule.opens(0, 0) && rule.opens(1, 0)
    ensures
      var w, d, b := Welcome(cfg, k), Byte(cfg, k), Bye(cfg, k);
      Reached(cfg, rule, One(k, Some(Fresh(k)), Connecting, [w, d, b, w], []))
  {
    hide Reached, One, Count;
    var w, x, q, t := Welcome(cfg, k), Reset(cfg, k, 0), Request(cfg, k), Question(cfg, k);
    var d, b := Byte(cfg, k), Bye(cfg, k);
    StaleRequest(cfg, rule, k);
    assert [x, q] + [t] == [x, q, t] && [x, q, t] + [x] == [x, q, t, x] && [x, q, t, x] + [q] == [x, q, t, x, q];
    assert [x] + [q, t, x, q] == [x, q, t, x, q] && [q] + [t, x, q] == [q, t, x, q];
    assert [t] + [x, q] == [t, x, q] && [x] + [q] == [x, q] && [q] + [] == [q];
    Ask(cfg, rule, k, Some(Fresh(k)), [], [], [x, q]);
    Close(cfg, rule, k, Some(Fresh(k)), Established([], 0), [], [x, q, t]);
    OneRequest(x, q, t);
    CountNone([], OP_RESPONSE);
    Open(cfg, rule, k, Some(Fresh(k)), [], [x, q, t, x]);
    TakeReset(cfg, rule, k, Fresh(k), Connecting, [], [q, t, x, q]);
    TakeRequest(cfg, rule, k, Connecting, [], [t, x, q]);
    Empty([w]);
    ThreeSaid(cfg, k);
    TakeQuestion(cfg, rule, k, Connecting, [w], [x, q]);
    TakeReset(cfg, rule, k, Finished(k), Connecting, [w, d, b], [q]);
    TakeRequest(cfg, rule, k, Connecting, [w, d, b], []);
    assert [w, d, b] + [w] == [w, d, b, w];
  }

  lemma OneRequest(x: Packet, q: Packet, t: Packet)
    requires x.header.op == OP_RESET && q.header.op == OP_REQUEST && t.header.op == OP_READ_WRITE
    ensures Count([x, q, t, x], OP_REQUEST) == 1
  {
    assert [x, q, t, x] == [x] + [q] + [t] + [x];
    CountConcat([x] + [q] + [t], [x], OP_REQUEST);
    CountConcat([x] + [q], [t], OP_REQUEST);
    CountConcat([x], [q], OP_REQUEST);
    CountOne(x, OP_REQUEST);
    CountOne(q, OP_REQUEST);
    CountOne(t, OP_REQUEST);
  }

  /** So does a peer that does not wait until its requests are taken. */
  lemma RequestOverflow(cfg: Config, rule: Rule, k: Key)
    requires Fair(cfg, rule) && rule.opens(0, 0) && rule.opens(1, 0)
    ensures exists moves :: Overflows(cfg, rule, moves, k)
  {
    hide Reached, One, RuledPlay, Play;
    var w, d, b := Welcome(cfg, k), Byte(cfg, k), Bye(cfg, k);
    var c := Some(Fresh(k));
    StaleAnswer(cfg, rule, k);
    assert [w] + [d, b, w] == [w, d, b, w] && [d] + [b, w] == [d, b, w] && [b] + [w] == [b, w] && [w] + [] == [w];
    Hear(cfg, rule, k, c, Connecting, w, [d, b, w], []);
    OneByteMore(cfg, k);
    Hear(cfg, rule, k, c, Established([], 0), d, [b, w], []);
    Hear(cfg, rule, k, c, Established([65], 0), b, [w], []);
    Hear(cfg, rule, k, c, Established([65], 0), w, [], []);
    SecondByte(cfg, rule, k, c);
  }

  // -------------------------------------------------------------------- the safe rules

  /** A rule that waits for both makes peers honest, although it may allow other cases: these
      never arise. */
  lemma {:induction false} WaitingRule(cfg: Config, alloc: Offers, rule: Rule, moves: seq<Move>)
    requires !rule.opens(0, 1) && !rule.opens(1, 0) && rule.longest <= W32 && RuledPlay(cfg, alloc, rule, moves)
    ensures HonestPlay(cfg, alloc, moves)
    decreases |moves|
  {
    hide Apply, NetOk;
    if moves != [] {
      var before, m := moves[..|moves| - 1], moves[|moves| - 1];
      WaitingRule(cfg, alloc, rule, before);
      PlayOk(cfg, alloc, before);
      var n := Play(cfg, alloc, before);
      hide Play, RuledPlay;
      if m.PeerOpens? {
        Awaiting(cfg, alloc, n, m.key);
      }
    }
  }

  lemma Awaiting(cfg: Config, alloc: Offers, n: Net, k: Key)
    requires NetOk(cfg, alloc, true, n)
    ensures Count(From(n.down, k), OP_REQUEST) + Count(To(cfg, n.up, k), OP_RESPONSE) <= 1
  {
    assert RemoteOk(cfg, alloc, true, n, k);
  }
}
