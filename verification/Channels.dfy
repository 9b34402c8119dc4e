/** The packets under way between the endpoint and one peer, and the parts of them that matter
    for credit. */
module Channels {
  import opened Bytes
  import opened Wire
  import opened Seqs
  import opened Protocol

  function Count(ps: seq<Packet>, op: u16): nat {
    if ps == [] then 0 else (if ps[0].header.op == op then 1 else 0) + Count(ps[1..], op)
  }

  /** What follows the first response. */
  function AfterResponse(ps: seq<Packet>): seq<Packet> {
    if ps == [] then []
    else if ps[0].header.op == OP_RESPONSE then ps[1..]
    else AfterResponse(ps[1..])
  }

  /** What a peer still hears: nothing behind the first reset, which closes its end. */
  function Live(ps: seq<Packet>): seq<Packet> {
    if ps == [] || ps[0].header.op == OP_RESET then [] else [ps[0]] + Live(ps[1..])
  }

  /** The packets of peer k. */
  function From(ps: seq<Packet>, k: Key): seq<Packet> {
    if ps == [] then []
    else if Sender(ps[0].header) == k then [ps[0]] + From(ps[1..], k)
    else From(ps[1..], k)
  }

  /** What the latest attempt has sent: from its request on, or everything once that is taken. */
  function Current(ps: seq<Packet>): seq<Packet> {
    if Count(ps, OP_REQUEST) == 0 || Count(ps[1..], OP_REQUEST) == 0 then ps else Current(ps[1..])
  }

  /** What lies in front of the request of the latest attempt. */
  function Earlier(ps: seq<Packet>): seq<Packet> {
    if Count(ps, OP_REQUEST) == 0 || Count(ps[1..], OP_REQUEST) == 0 then [] else [ps[0]] + Earlier(ps[1..])
  }

  /** What reaches the present connection of the endpoint: the packets in front of the first
      reset, which ends it, or request, which it does not take. */
  function Front(ps: seq<Packet>): seq<Packet> {
    if ps == [] || ps[0].header.op in {OP_RESET, OP_REQUEST} then [] else [ps[0]] + Front(ps[1..])
  }

  /** A reset comes before any request. */
  predicate ResetFirst(ps: seq<Packet>) {
    ps != [] && (ps[0].header.op == OP_RESET || (ps[0].header.op != OP_REQUEST && ResetFirst(ps[1..])))
  }

  /** Credit announcements that grow, between two bounds. */
  ghost predicate Rising(ps: seq<Packet>, alloc: u32, low: int, high: int) {
    && (forall i :: 0 <= i < |ps| ==> ps[i].header.bufAlloc == alloc && low <= ps[i].header.fwdCnt <= high)
    && (forall i, j :: 0 <= i < j < |ps| ==> ps[i].header.fwdCnt <= ps[j].header.fwdCnt)
  }

  /** Every request, and what reaches its connection from behind it, acknowledges nothing. */
  ghost predicate Zeroed(ps: seq<Packet>, alloc: u32) {
    ps != [] ==>
      && (ps[0].header.op == OP_REQUEST ==>
            ps[0].header.bufAlloc == alloc && ps[0].header.fwdCnt == 0 && Rising(Front(ps[1..]), alloc, 0, 0))
      && Zeroed(ps[1..], alloc)
  }

  // ------------------------------------------------------------------- concatenation

  lemma {:induction false} CountConcat(a: seq<Packet>, b: seq<Packet>, op: u16)
    ensures Count(a + b, op) == Count(a, op) + Count(b, op)
  {
    if a == [] { Empty(b); } else { Tail(a, b); CountConcat(a[1..], b, op); }
  }

  lemma {:induction false} CountNone(ps: seq<Packet>, op: u16)
    requires forall i :: 0 <= i < |ps| ==> ps[i].header.op != op
    ensures Count(ps, op) == 0
  {
    if ps != [] { CountNone(ps[1..], op); }
  }

  lemma CountOne(p: Packet, op: u16)
    ensures Count([p], op) == if p.header.op == op then 1 else 0
  {
    assert [p][1..] == [];
  }

  lemma {:induction false} AfterResponseConcat(a: seq<Packet>, b: seq<Packet>)
    ensures AfterResponse(a + b) == if Count(a, OP_RESPONSE) > 0 then AfterResponse(a) + b else AfterResponse(b)
  {
    if a == [] { Empty(b); } else { Tail(a, b); AfterResponseConcat(a[1..], b); }
  }

  lemma {:induction false} NoResponseAfter(ps: seq<Packet>)
    requires Count(ps, OP_RESPONSE) == 0
    ensures AfterResponse(ps) == []
  {
    if ps != [] { NoResponseAfter(ps[1..]); }
  }

  lemma {:induction false} LiveConcat(a: seq<Packet>, b: seq<Packet>)
    ensures Live(a + b) == if Count(a, OP_RESET) > 0 then Live(a) else a + Live(b)
  {
    if a == [] {
      Empty(b);
      Empty(Live(b));
    } else {
      Tail(a, b);
      LiveConcat(a[1..], b);
      Assoc([a[0]], a[1..], Live(b));
    }
  }

  lemma {:induction false} LiveWhole(ps: seq<Packet>)
    requires Count(ps, OP_RESET) == 0
    ensures Live(ps) == ps
  {
    if ps != [] { LiveWhole(ps[1..]); }
  }

  lemma {:induction false} FromConcat(a: seq<Packet>, b: seq<Packet>, k: Key)
    ensures From(a + b, k) == From(a, k) + From(b, k)
  {
    if a == [] {
      Empty(b);
      Empty(From(b, k));
    } else {
      FromConcat(a[1..], b, k);
      Tail(a, b);
      Assoc([a[0]], From(a[1..], k), From(b, k));
    }
  }

  // ------------------------------------------------------------ one packet at the end

  lemma {:induction false} CurrentSnoc(ps: seq<Packet>, p: Packet)
    ensures Current(ps + [p]) == if p.header.op == OP_REQUEST then [p] else Current(ps) + [p]
    ensures Earlier(ps + [p]) == if p.header.op == OP_REQUEST then ps else Earlier(ps)
  {
    CountOne(p, OP_REQUEST);
    CountConcat(ps, [p], OP_REQUEST);
    if ps == [] {
      Empty([p]);
      assert [p][1..] == [];
    } else {
      Tail(ps, [p]);
      CountConcat(ps[1..], [p], OP_REQUEST);
      CurrentSnoc(ps[1..], p);
    }
  }

  lemma {:induction false} FrontSnoc(ps: seq<Packet>, p: Packet)
    ensures
      Front(ps + [p]) ==
      if Count(ps, OP_RESET) + Count(ps, OP_REQUEST) > 0 || p.header.op in {OP_RESET, OP_REQUEST} then Front(ps)
      else ps + [p]
    ensures Count(ps, OP_RESET) + Count(ps, OP_REQUEST) == 0 ==> Front(ps) == ps
    ensures ResetFirst(ps) ==> ResetFirst(ps + [p])
    ensures Count(ps, OP_REQUEST) == 0 && p.header.op == OP_RESET ==> ResetFirst(ps + [p])
    ensures Count(ps, OP_RESET) == 0 ==> !ResetFirst(ps)
  {
    if ps == [] {
      Empty([p]);
      assert [p][1..] == [];
    } else {
      Tail(ps, [p]);
      FrontSnoc(ps[1..], p);
    }
  }

  lemma {:induction false} NoRequestZeroed(ps: seq<Packet>, alloc: u32)
    requires Count(ps, OP_REQUEST) == 0
    ensures Zeroed(ps, alloc)
  {
    if ps != [] { NoRequestZeroed(ps[1..], alloc); }
  }

  lemma {:induction false} ZeroedSnoc(ps: seq<Packet>, p: Packet, alloc: u32)
    requires Zeroed(ps, alloc)
    requires p.header.op == OP_RESET || (p.header.bufAlloc == alloc && p.header.fwdCnt == 0)
    ensures Zeroed(ps + [p], alloc)
  {
    if ps == [] {
      Empty([p]);
      assert [p][1..] == [];
    } else {
      Tail(ps, [p]);
      ZeroedSnoc(ps[1..], p, alloc);
      FrontSnoc(ps[1..], p);
      hide Front, Count, ResetFirst;
    }
  }

  lemma RisingTail(ps: seq<Packet>, alloc: u32, low: int, high: int)
    requires ps != [] && Rising(ps, alloc, low, high)
    ensures low <= ps[0].header.fwdCnt <= high && ps[0].header.bufAlloc == alloc
    ensures Rising(ps[1..], alloc, ps[0].header.fwdCnt, high) && Rising(ps[1..], alloc, low, high)
  {
  }

  lemma RisingSnoc(ps: seq<Packet>, p: Packet, alloc: u32, low: int, high: int)
    requires Rising(ps, alloc, low, high) && p.header.bufAlloc == alloc && p.header.fwdCnt == high && low <= high
    ensures Rising(ps + [p], alloc, low, high)
  {
  }

  lemma RisingHigher(ps: seq<Packet>, alloc: u32, low: int, high: int, higher: int)
    requires Rising(ps, alloc, low, high) && high <= higher
    ensures Rising(ps, alloc, low, higher)
  {
  }
}
