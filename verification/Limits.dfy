/** The limits of credit safety: how long an answer may be before the counters wrap while there is
    data left to send, and with that the exact condition on the rules of the game. */
module Limits {
  import opened Bytes
  import opened Wire
  import opened Seqs
  import opened Protocol
  import opened Credit
  import opened Network
  import opened Reopening

  // ------------------------------------------------------- an answer of 2^32 + 1 bytes

  /** The connection of k when it has sent so many bytes of b, of which so many are acknowledged. */
  function At(k: Key, b: seq<byte>, sent: nat, fwd: nat): Conn {
    Conn(k.cid, k.port, 1, Wrap32(fwd), Wrap32(sent), 4, Terminator(), Some(b), sent, false)
  }

  /** The packet with byte n of b. */
  function Piece(cfg: Config, k: Key, b: seq<byte>, n: nat): Packet
    requires n < |b|
  {
    Packet(ReplyHeader(cfg, At(k, b, 0, 0), OP_READ_WRITE, 0), b[n..n + 1])
  }

  function Farewell(cfg: Config, k: Key, b: seq<byte>): Packet {
    Reply(cfg, At(k, b, 0, 0), OP_SHUTDOWN, SHUTDOWN_BOTH)
  }

  /** With everything acknowledged, the endpoint sends one byte of credit. */
  lemma OnePiece(cfg: Config, k: Key, b: seq<byte>, n: nat)
    requires Small(cfg) && |b| == W32 + 1 && n < W32 - 1
    ensures Serve(cfg, At(k, b, n, n), DRAIN_LIMIT) == Served(Some(At(k, b, n + 1, n)), [Piece(cfg, k, b, n)])
  {
    var c, d := At(k, b, n, n), At(k, b, n + 1, n);
    assert Wrap32(n) == n && Wrap32(n + 1) == n + 1;
    hide Wrap32;
    assert CanSend(cfg, c) && ChunkLength(cfg, c) == 1;
    assert AfterChunk(cfg, c) == d && Chunk(cfg, c) == Piece(cfg, k, b, n);
    assert SendChunks(cfg, d, 7) == Sent(d, []);
    assert SendChunks(cfg, c, 8) == Sent(d, [Piece(cfg, k, b, n)]);
  }

  /** But the counter wraps with byte 2^32, and the next byte follows without any credit. */
  lemma TwoPieces(cfg: Config, k: Key, b: seq<byte>)
    requires Small(cfg) && |b| == W32 + 1
    ensures
      var n := W32 - 1;
      Serve(cfg, At(k, b, n, n), DRAIN_LIMIT)
      == Served(Some(At(k, b, W32 + 1, n).(closing := true)),
                [Piece(cfg, k, b, n), Piece(cfg, k, b, W32), Farewell(cfg, k, b)])
  {
    var n := W32 - 1;
    var c, d, e := At(k, b, n, n), At(k, b, W32, n), At(k, b, W32 + 1, n);
    assert Wrap32(n) == n && Wrap32(W32) == 0 && Wrap32(W32 + 1) == 1;
    hide Wrap32;
    assert CanSend(cfg, c) && ChunkLength(cfg, c) == 1 && CanSend(cfg, d) && ChunkLength(cfg, d) == 1;
    assert AfterChunk(cfg, c) == d by { NextCount(n); }
    assert AfterChunk(cfg, d) == e by { NextCount(W32); }
    assert Chunk(cfg, c) == Piece(cfg, k, b, n) && Chunk(cfg, d) == Piece(cfg, k, b, W32);
    assert SendChunks(cfg, e, 6) == Sent(e, []);
    assert SendChunks(cfg, d, 7) == Sent(e, [Piece(cfg, k, b, W32)]);
    assert SendChunks(cfg, c, 8) == Sent(e, [Piece(cfg, k, b, n), Piece(cfg, k, b, W32)]);
  }

  lemma NextCount(n: nat)
    ensures Wrap32(Wrap32(n) + 1) == Wrap32(n + 1)
  {
  }

  /** The endpoint takes a packet after which k's connection is c, and serves it. */
  lemma TakeAndServe(cfg: Config, rule: Rule, k: Key, c: Conn, d: Conn, e: Conn, h: Peer, p: Packet, out: seq<Packet>,
      handler: Option<Handler>)
    requires handler.Some? && AnswersWithin(handler, rule.longest) && Reached(cfg, rule, One(k, Some(c), h, [], [p]))
    requires Sender(p.header) == k && Addressed(cfg, p.header)
    requires Reacted(cfg, map[k := c], p, handler) == Proceed(Some(d), [])
    requires Serve(cfg, d, DRAIN_LIMIT) == Served(Some(e), out)
    ensures Reached(cfg, rule, One(k, Some(e), h, out, []))
  {
    hide Reached, Drain, Serve, React;
    var n := One(k, Some(c), h, [], [p]);
    assert n.down[1..] == [];
    DrainOne(cfg, k, d);
    Empty(out);
    assert Put(n.conns, k, Some(d)) == map[k := d];
    assert Apply(cfg, ONE_EACH, n, EndpointReceives(handler, [k])) == One(k, Some(e), h, out, []);
    ReachedNext(cfg, rule, n, EndpointReceives(handler, [k]));
  }

  /** The application that answers b. */
  function Answering(b: seq<byte>): Option<Handler> { Some(request => Some(b)) }

  lemma ReactToLong(cfg: Config, k: Key, b: seq<byte>, full: bool)
    requires Small(cfg)
    ensures React(cfg, full, Some(Fresh(k)), Question(cfg, k), Answering(b)) == Proceed(Some(At(k, b, 0, 0)), [])
  {
    assert [] + Terminator() == Terminator();
    assert Terminator()[0..4] == Terminator();
    assert TerminatorAt(Terminator(), 0);
  }

  /** The peer's announcement that it has consumed n bytes. */
  function News(cfg: Config, k: Key, n: nat): Packet { FromPeer(cfg, 1, k, OP_CREDIT_UPDATE, [], n) }

  lemma ReactToNews(cfg: Config, k: Key, b: seq<byte>, n: nat, full: bool, handler: Option<Handler>)
    requires 0 < n < W32
    ensures React(cfg, full, Some(At(k, b, n, n - 1)), News(cfg, k, n), handler) == Proceed(Some(At(k, b, n, n)), [])
  {
  }

  lemma PieceToPeer(cfg: Config, k: Key, b: seq<byte>, n: nat, consumed: nat)
    requires n < |b|
    ensures
      var p := Piece(cfg, k, b, n);
      && Sender(p.header) == Key(cfg.cid, cfg.port) && Receiver(p.header) == k
      && Accept(Established(b[..n], consumed), p) == Established(b[..n + 1], consumed)
  {
    assert b[..n] + b[n..n + 1] == b[..n + 1];
  }

  /** Byte n is on its way, and everything before it is consumed. */
  function Stage(cfg: Config, k: Key, b: seq<byte>, n: nat): Net
    requires n < |b|
  {
    One(k, Some(At(k, b, n + 1, n)), Established(b[..n], n), [Piece(cfg, k, b, n)], [])
  }

  lemma FirstStage(cfg: Config, rule: Rule, k: Key, b: seq<byte>)
    requires Fair(cfg, rule) && rule.opens(0, 0) && |b| == W32 + 1 <= rule.longest
    ensures Reached(cfg, rule, Stage(cfg, k, b, 0))
  {
    hide Reached, One, React, Serve;
    var q, t, w := Request(cfg, k), Question(cfg, k), Welcome(cfg, k);
    Start(cfg, rule, k);
    Empty([q]);
    Empty([w]);
    Empty([t]);
    TakeRequest(cfg, rule, k, Connecting, [], []);
    Hear(cfg, rule, k, Some(Fresh(k)), Connecting, w, [], []);
    Ask(cfg, rule, k, Some(Fresh(k)), [], [], []);
    ReactToLong(cfg, k, b, |map[k := Fresh(k)]| >= cfg.maxConns);
    OnePiece(cfg, k, b, 0);
    assert b[..0] == [];
    TakeAndServe(cfg, rule, k, Fresh(k), At(k, b, 0, 0), At(k, b, 1, 0), Established([], 0), t, [Piece(cfg, k, b, 0)],
        Answering(b));
  }

  /** The peer takes byte n, consumes it and says so. */
  lemma Consumes(cfg: Config, rule: Rule, k: Key, b: seq<byte>, n: nat)
    requires n < |b| && n + 1 < W32 && Reached(cfg, rule, Stage(cfg, k, b, n))
    ensures
      Reached(cfg, rule, One(k, Some(At(k, b, n + 1, n)), Established(b[..n + 1], n + 1), [], [News(cfg, k, n + 1)]))
  {
    hide Reached, Accept, At, Piece;
    var c := Some(At(k, b, n + 1, n));
    PieceToPeer(cfg, k, b, n, n);
    Empty([Piece(cfg, k, b, n)]);
    Hear(cfg, rule, k, c, Established(b[..n], n), Piece(cfg, k, b, n), [], []);
    var heard := One(k, c, Established(b[..n + 1], n), [], []);
    var eaten := One(k, c, Established(b[..n + 1], n + 1), [], []);
    assert Apply(cfg, ONE_EACH, heard, PeerConsumes(k, 1)) == eaten;
    ReachedNext(cfg, rule, heard, PeerConsumes(k, 1));
    var m := PeerSends(k, OP_CREDIT_UPDATE, []);
    assert Apply(cfg, ONE_EACH, eaten, m)
        == One(k, c, Established(b[..n + 1], n + 1), [], [News(cfg, k, n + 1)]);
    ReachedNext(cfg, rule, eaten, m);
  }

  lemma {:induction false} Stages(cfg: Config, rule: Rule, k: Key, b: seq<byte>, n: nat)
    requires Fair(cfg, rule) && rule.opens(0, 0) && |b| == W32 + 1 <= rule.longest && n < W32 - 1
    ensures Reached(cfg, rule, Stage(cfg, k, b, n))
    decreases n
  {
    hide Reached, At, Piece, Serve, React, One;
    if n == 0 {
      FirstStage(cfg, rule, k, b);
    } else {
      Stages(cfg, rule, k, b, n - 1);
      Consumes(cfg, rule, k, b, n - 1);
      OnePiece(cfg, k, b, n);
      Update(cfg, rule, k, b, n, At(k, b, n + 1, n), [Piece(cfg, k, b, n)]);
    }
  }

  /** The endpoint takes the announcement and sends on. */
  lemma Update(cfg: Config, rule: Rule, k: Key, b: seq<byte>, n: nat, e: Conn, out: seq<Packet>)
    requires 0 < n < W32 && n <= |b|
    requires Reached(cfg, rule, One(k, Some(At(k, b, n, n - 1)), Established(b[..n], n), [], [News(cfg, k, n)]))
    requires Serve(cfg, At(k, b, n, n), DRAIN_LIMIT) == Served(Some(e), out) && |b| <= rule.longest
    ensures Reached(cfg, rule, One(k, Some(e), Established(b[..n], n), out, []))
  {
    hide Reached, At, Serve, React, One;
    ReactToNews(cfg, k, b, n, |map[k := At(k, b, n, n - 1)]| >= cfg.maxConns, Answering(b));
    var h := Established(b[..n], n);
    TakeAndServe(cfg, rule, k, At(k, b, n, n - 1), At(k, b, n, n), e, h, News(cfg, k, n), out, Answering(b));
  }

  /** Where answers may be longer than 2^32 bytes, a peer with a buffer of one byte that does
      everything right is sent two bytes that it has no room for. */
  lemma LengthOverflow(cfg: Config, rule: Rule, k: Key)
    requires Fair(cfg, rule) && rule.opens(0, 0) && rule.longest > W32
    ensures exists moves :: Overfilled(cfg, rule, moves, k)
  {
    hide Reached, At, Piece, Serve, React, One, Accept, Farewell;
    var b := seq(W32 + 1, _ => 65);
    var n := W32 - 1;
    Stages(cfg, rule, k, b, n - 1);
    Consumes(cfg, rule, k, b, n - 1);
    TwoPieces(cfg, k, b);
    var e := At(k, b, W32 + 1, n).(closing := true);
    var p, q, r := Piece(cfg, k, b, n), Piece(cfg, k, b, W32), Farewell(cfg, k, b);
    Update(cfg, rule, k, b, n, e, [p, q, r]);
    assert [p] + [q, r] == [p, q, r] && [q] + [r] == [q, r];
    PieceToPeer(cfg, k, b, n, n);
    PieceToPeer(cfg, k, b, W32, n);
    Hear(cfg, rule, k, Some(e), Established(b[..n], n), p, [q, r], []);
    Hear(cfg, rule, k, Some(e), Established(b[..W32], n), q, [r], []);
    OneAt(k, Some(e), Established(b[..W32 + 1], n), [r], []);
    Spills(cfg, rule, k, One(k, Some(e), Established(b[..W32 + 1], n), [r], []));
  }

  lemma OneAt(k: Key, c: Option<Conn>, h: Peer, up: seq<Packet>, down: seq<Packet>)
    ensures PeerAt(One(k, c, h, up, down), k) == h
  {
  }

  /** Such a play overfills k's buffer of one byte. */
  ghost predicate Overfilled(cfg: Config, rule: Rule, moves: seq<Move>, k: Key) {
    && RuledPlay(cfg, ONE_EACH, rule, moves) && AllPlain(moves)
    && !BufferSafe(1, PeerAt(Play(cfg, ONE_EACH, moves), k))
  }

  lemma Spills(cfg: Config, rule: Rule, k: Key, n: Net)
    requires Reached(cfg, rule, n) && !BufferSafe(1, PeerAt(n, k))
    ensures exists moves :: Overfilled(cfg, rule, moves, k)
  {
    hide Play, RuledPlay, BufferSafe;
    var moves :| RuledPlay(cfg, ONE_EACH, rule, moves) && AllPlain(moves) && Play(cfg, ONE_EACH, moves) == n;
    assert Overfilled(cfg, rule, moves, k);
  }

  // -------------------------------------------------------------------------- exactness

  /** A rule that asks for too little lets a buffer overflow. */
  lemma SomeOverfill(cfg: Config, rule: Rule, k: Key)
    requires Fair(cfg, rule) && rule.opens(0, 0)
    requires rule.opens(0, 1) || rule.opens(1, 0) || rule.longest > W32
    ensures exists moves :: Overfilled(cfg, rule, moves, k)
  {
    hide Play, RuledPlay, Fair;
    if rule.longest > W32 {
      LengthOverflow(cfg, rule, k);
    } else {
      if rule.opens(0, 1) { ResponseOverflow(cfg, rule, k); } else { RequestOverflow(cfg, rule, k); }
      var moves :| Overflows(cfg, rule, moves, k);
      assert Overfilled(cfg, rule, moves, k);
    }
  }

  /** No buffer of any size ever overflows under the rule. */
  ghost predicate Keeps(cfg: Config, rule: Rule) {
    forall alloc: Offers, moves, k ::
      RuledPlay(cfg, alloc, rule, moves) ==> BufferSafe(alloc(k), PeerAt(Play(cfg, alloc, moves), k))
  }

  lemma Broken(cfg: Config, rule: Rule, moves: seq<Move>, k: Key)
    requires Overfilled(cfg, rule, moves, k)
    ensures !Keeps(cfg, rule)
  {
    hide Play, RuledPlay;
    assert !BufferSafe(ONE_EACH(k), PeerAt(Play(cfg, ONE_EACH, moves), k));
  }

  /** The exact condition. Under a rule that lets peers open and the application answer at all,
      no buffer overflows if and only if the rule makes peers wait while a request or a response
      is under way, and answers have at most 2^32 bytes. */
  lemma RuleExact(cfg: Config, rule: Rule)
    requires Fair(cfg, rule) && rule.opens(0, 0)
    ensures Keeps(cfg, rule) <==> !rule.opens(0, 1) && !rule.opens(1, 0) && rule.longest <= W32
  {
    hide Play, RuledPlay, Fair;
    var k := Key(0, 0);
    if rule.opens(0, 1) || rule.opens(1, 0) || rule.longest > W32 {
      SomeOverfill(cfg, rule, k);
      var moves :| Overfilled(cfg, rule, moves, k);
      Broken(cfg, rule, moves, k);
    } else {
      forall alloc: Offers, moves, k | RuledPlay(cfg, alloc, rule, moves)
          ensures BufferSafe(alloc(k), PeerAt(Play(cfg, alloc, moves), k)) {
        WaitingRule(cfg, alloc, rule, moves);
        CreditSafety(cfg, alloc, moves, k);
      }
    }
  }
}
