/** What a generation still sends once its connection is gone, in every run: nothing; and which
    resets on the wire end a generation. */
module Silence {
  import opened Bytes
  import opened Wire
  import opened Seqs
  import opened Protocol
  import opened Connections
  import opened Generations
  import opened History

  /** Generation g has a connection. */
  predicate Alive(w: World, g: nat) {
    g < |w.lives| && w.lives[g].key in w.conns && w.lives[g].key in w.gens && w.gens[w.lives[g].key] == g
  }

  /** What a step adds to the packets produced. */
  function Added(cfg: Config, w: World, s: Step): seq<Tagged> {
    var after := Next(cfg, w, s);
    if |w.produced| <= |after.produced| then after.produced[|w.produced|..] else []
  }

  // ---------------------------------------------------------------- a dead generation

  lemma DrainSilent(cfg: Config, w: World, order: seq<Key>, g: nat)
    requires WorldOk(cfg, w) && Distinct(order) && g < |w.lives| && !Alive(w, g)
    ensures !Alive(DrainWorld(cfg, w, order), g)
    ensures SentBy(TagAll(cfg, w.gens, Drain(cfg, w.conns, order, DRAIN_LIMIT).out), g) == []
  {
    hide LifeOk, LiveOk, CallsOk, SentBy, Drain, To, Serve;
    var k := w.lives[g].key;
    DrainAt(cfg, w.conns, order, DRAIN_LIMIT, k);
    SentByTagged(cfg, w.gens, Drain(cfg, w.conns, order, DRAIN_LIMIT).out, g, k);
  }

  /** From packet n on, nothing is added for g. */
  lemma DrainWorldSilent(cfg: Config, w: World, order: seq<Key>, g: nat, n: nat)
    requires WorldOk(cfg, w) && Distinct(order) && g < |w.lives| && !Alive(w, g)
    requires n <= |w.produced| && SentBy(w.produced[n..], g) == []
    ensures
      var after := DrainWorld(cfg, w, order);
      && !Alive(after, g) && g < |after.lives|
      && w.produced <= after.produced && SentBy(after.produced[n..], g) == []
  {
    hide WorldOk, SentBy, Drain, TagAll;
    DrainSilent(cfg, w, order, g);
    var more := TagAll(cfg, w.gens, Drain(cfg, w.conns, order, DRAIN_LIMIT).out);
    SentByConcat(w.produced[n..], more, g);
    assert DrainWorld(cfg, w, order).produced[n..] == w.produced[n..] + more;
  }

  /** The replies of a reaction go to a connection that lives. */
  lemma RepliesElsewhere(cfg: Config, w: World, p: Packet, handler: Option<Handler>, g: nat)
    requires WorldOk(cfg, w) && g < |w.lives| && !Alive(w, g)
    requires Reacted(cfg, w.conns, p, handler).Proceed?
    ensures
      var r := Reacted(cfg, w.conns, p, handler);
      SentBy(TagAll(cfg, NewGens(w, p, r), r.replies), g) == []
  {
    hide LifeOk, LiveOk, CallsOk, SentBy, To, SentBy, NewConn;
    var j, k := Sender(p.header), w.lives[g].key;
    var r := Reacted(cfg, w.conns, p, handler);
    if p.header.op == OP_REQUEST {
      OpenReplies(cfg, p.header);
    } else {
      Member(cfg, w.conns, j);
      ReactReplies(cfg, |w.conns| >= cfg.maxConns, w.conns[j], p, handler);
    }
    ToAll(cfg, r.replies, j, k);
    SentByTagged(cfg, NewGens(w, p, r), r.replies, g, k);
  }

  lemma ReactSilent(cfg: Config, w: World, p: Packet, handler: Option<Handler>, g: nat)
    requires WorldOk(cfg, w) && !w.failed && g < |w.lives| && !Alive(w, g)
    ensures
      var after := ReactWorld(cfg, w, p, handler);
      && !Alive(after, g) && g < |after.lives|
      && w.produced <= after.produced && SentBy(after.produced[|w.produced|..], g) == []
  {
    hide LifeOk, LiveOk, CallsOk, SentBy, To, React, Note, WorldOk, TagAll;
    var j := Sender(p.header);
    var r := Reacted(cfg, w.conns, p, handler);
    ReactKind(cfg, |w.conns| >= cfg.maxConns, Lookup(w.conns, j), p, handler);
    TurnedAwayConn(cfg, |w.conns| >= cfg.maxConns, Lookup(w.conns, j), p, handler);
    Keys(cfg, w);
    NoteKey(w.lives, p, handler, g);
    SentByNone([], g);
    var after := ReactWorld(cfg, w, p, handler);
    if r.Proceed? {
      RepliesElsewhere(cfg, w, p, handler, g);
      assert after.produced[|w.produced|..] == TagAll(cfg, NewGens(w, p, r), r.replies);
    } else if r.Refuse? {
      SentByNone([Tagged(None, Refusal(p.header))], g);
      assert after.produced[|w.produced|..] == [Tagged(None, Refusal(p.header))];
    } else {
      assert after.produced[|w.produced|..] == [];
    }
  }

  lemma Keys(cfg: Config, w: World)
    requires WorldOk(cfg, w)
    ensures GensOk(w)
  {
  }

  lemma NoteKey(lives: seq<Life>, p: Packet, handler: Option<Handler>, g: nat)
    requires g < |lives|
    ensures Note(lives[g], p.payload, handler).key == lives[g].key
  {
  }

  /** No step produces anything for a generation without a connection, or revives it. */
  lemma StepSilent(cfg: Config, depth: nat, w: World, s: Step, g: nat)
    requires WorldOk(cfg, w) && CanStep(cfg, depth, w, s) && g < |w.lives| && !Alive(w, g)
    ensures
      var after := Next(cfg, w, s);
      && g < |after.lives| && !Alive(after, g)
      && w.produced <= after.produced && SentBy(Added(cfg, w, s), g) == []
  {
    hide SentBy, WorldOk, ReactWorld, DrainWorld, Reacted, Decode;
    SentByNone([], g);
    var after := Next(cfg, w, s);
    match s
    case Rx(bytes, handler, order) =>
      if Decode(bytes).Ok? {
        var p := Decode(bytes).value;
        if !Addressed(cfg, p.header) {
          SentByNone([Tagged(None, Refusal(p.header))], g);
          assert after.produced[|w.produced|..] == [Tagged(None, Refusal(p.header))];
        } else {
          ReactSilent(cfg, w, p, handler, g);
          if Reacted(cfg, w.conns, p, handler).Proceed? {
            ReactWorldOk(cfg, w, p, handler);
            DrainWorldSilent(cfg, ReactWorld(cfg, w, p, handler), order, g, |w.produced|);
          }
        }
      } else {
        assert after.produced[|w.produced|..] == [];
      }
    case Flush(order) =>
      assert w.produced[|w.produced|..] == [];
      DrainWorldSilent(cfg, w, order, g, |w.produced|);
    case _ => assert after.produced[|w.produced|..] == [];
  }

  // ------------------------------------------------------------------------- runs

  lemma RunConcat(cfg: Config, depth: nat, steps: seq<Step>, s: Step)
    ensures Run(cfg, START, steps + [s]) == Next(cfg, Run(cfg, START, steps), s)
    ensures CanRun(cfg, depth, START, steps + [s]) ==>
              CanRun(cfg, depth, START, steps) && CanStep(cfg, depth, Run(cfg, START, steps), s)
  {
    hide Next, CanStep;
    Last(steps, s);
  }

  lemma PrefixRuns(cfg: Config, depth: nat, steps: seq<Step>, more: seq<Step>)
    requires CanRun(cfg, depth, START, steps + more)
    ensures CanRun(cfg, depth, START, steps)
    decreases |more|
  {
    hide Run, CanStep;
    if more == [] {
      Empty(steps);
    } else {
      var n := |more| - 1;
      assert steps + more == steps + more[..n] + [more[n]];
      RunConcat(cfg, depth, steps + more[..n], more[n]);
      PrefixRuns(cfg, depth, steps, more[..n]);
    }
  }

  /** An ended generation is silent: from the moment it has no connection, whatever happens, it
      gets none again and nothing more is produced for it. */
  lemma {:induction false} EndedIsSilent(cfg: Config, depth: nat, steps: seq<Step>, more: seq<Step>, g: nat)
    requires CanRun(cfg, depth, START, steps + more)
    requires g < |Run(cfg, START, steps).lives| && !Alive(Run(cfg, START, steps), g)
    ensures
      var w, u := Run(cfg, START, steps), Run(cfg, START, steps + more);
      && g < |u.lives| && !Alive(u, g)
      && w.produced <= u.produced && SentBy(u.produced[|w.produced|..], g) == []
      && SentBy(u.produced, g) == SentBy(w.produced, g)
    decreases |more|
  {
    hide Run, CanRun, CanStep, WorldOk, SentBy, Next, Alive;
    var w := Run(cfg, START, steps);
    if more == [] {
      Empty(steps);
      SentByNone([], g);
      assert w.produced[|w.produced|..] == [];
    } else {
      var n := |more| - 1;
      var v := Run(cfg, START, steps + more[..n]);
      assert steps + more == steps + more[..n] + [more[n]];
      RunConcat(cfg, depth, steps + more[..n], more[n]);
      RunOk(cfg, depth, steps + more[..n]);
      EndedIsSilent(cfg, depth, steps, more[..n], g);
      StepSilent(cfg, depth, v, more[n], g);
      var u := Run(cfg, START, steps + more);
      Grown(w.produced, v.produced, u.produced);
      SentByConcat(v.produced[|w.produced|..], u.produced[|v.produced|..], g);
      Empty<Packet>([]);
      SentByConcat(v.produced, u.produced[|v.produced|..], g);
      Empty(SentBy(v.produced, g));
    }
  }

  lemma Grown<T>(a: seq<T>, b: seq<T>, c: seq<T>)
    requires a <= b <= c
    ensures a <= c && c[|a|..] == b[|a|..] + c[|b|..] && c == b + c[|b|..]
  {
  }

  // --------------------------------------------------------------- device resets

  /** The packets that were produced for one of the first n generations. */
  function OfOld(ts: seq<Tagged>, n: nat): seq<Packet> {
    if ts == [] then []
    else if ts[0].gen.Some? && ts[0].gen.value < n then [ts[0].packet] + OfOld(ts[1..], n)
    else OfOld(ts[1..], n)
  }

  lemma {:induction false} OfOldConcat(a: seq<Tagged>, b: seq<Tagged>, n: nat)
    ensures OfOld(a + b, n) == OfOld(a, n) + OfOld(b, n)
  {
    if a == [] {
      Empty(b);
      Empty(OfOld(b, n));
    } else {
      OfOldConcat(a[1..], b, n);
      Tail(a, b);
      Assoc([a[0].packet], OfOld(a[1..], n), OfOld(b, n));
    }
  }

  lemma {:induction false} NoneOld(ts: seq<Tagged>, n: nat)
    requires forall g: nat :: g < n ==> SentBy(ts, g) == []
    ensures OfOld(ts, n) == []
  {
    if ts != [] {
      forall g: nat | g < n ensures SentBy(ts[1..], g) == [] {
        assert SentBy(ts, g) == [];
      }
      NoneOld(ts[1..], n);
      assert ts[0].gen.Some? && ts[0].gen.value < n ==> SentBy(ts, ts[0].gen.value) != [];
    }
  }

  lemma {:induction false} PushedGrows(cfg: Config, depth: nat, steps: seq<Step>, more: seq<Step>)
    requires CanRun(cfg, depth, START, steps + more)
    ensures |Run(cfg, START, steps).pushed| <= |Run(cfg, START, steps + more).pushed|
    decreases |more|
  {
    hide Run, CanRun, CanStep;
    if more == [] {
      Empty(steps);
    } else {
      var n := |more| - 1;
      assert steps + more == steps + more[..n] + [more[n]];
      RunConcat(cfg, depth, steps + more[..n], more[n]);
      PushedGrows(cfg, depth, steps, more[..n]);
      StepPushes(cfg, Run(cfg, START, steps + more[..n]), more[n]);
    }
  }

  lemma StepPushes(cfg: Config, w: World, s: Step)
    ensures |w.pushed| <= |Next(cfg, w, s).pushed|
  {
    hide React, Drain, Decode;
  }

  /** After a device reset, the packets of earlier generations that enter the ring are exactly
      those that were pending at the reset, in their order; so there are none if none was. */
  lemma PushedAfterClear(cfg: Config, depth: nat, steps: seq<Step>, more: seq<Step>)
    requires CanRun(cfg, depth, START, steps + [Clear] + more)
    ensures
      var w, u := Run(cfg, START, steps), Run(cfg, START, steps + [Clear] + more);
      var n := |w.lives|;
      && |w.pushed| <= |u.pushed| <= |u.produced| && |w.pushed| <= |w.produced|
      && OfOld(u.produced[|w.pushed|..|u.pushed|], n)
         == OfOld(w.produced[|w.pushed|..if |u.pushed| < |w.produced| then |u.pushed| else |w.produced|], n)
  {
    hide Run, CanRun, CanStep, WorldOk, SentBy, OfOld;
    var w, v, u := Run(cfg, START, steps), Run(cfg, START, steps + [Clear]), Run(cfg, START, steps + [Clear] + more);
    RunConcat(cfg, depth, steps, Clear);
    PrefixRuns(cfg, depth, steps + [Clear], more);
    OnTheWire(cfg, depth, steps);
    OnTheWire(cfg, depth, steps + [Clear] + more);
    PushedGrows(cfg, depth, steps + [Clear], more);
    ProducedGrows(cfg, depth, steps + [Clear], more);
    forall g: nat | g < |w.lives| ensures SentBy(u.produced[|w.produced|..], g) == [] {
      EndedIsSilent(cfg, depth, steps + [Clear], more, g);
    }
    var late := u.produced[|w.produced|..];
    NoneOld(late, |w.lives|);
    if |u.pushed| >= |w.produced| {
      var end := |u.pushed| - |w.produced|;
      assert u.produced[|w.pushed|..|u.pushed|] == w.produced[|w.pushed|..] + late[..end];
      OfOldConcat(w.produced[|w.pushed|..], late[..end], |w.lives|);
      OfOldConcat(late[..end], late[end..], |w.lives|);
      assert late == late[..end] + late[end..];
      Empty(OfOld(w.produced[|w.pushed|..], |w.lives|));
      assert w.produced[|w.pushed|..|w.produced|] == w.produced[|w.pushed|..];
    } else {
      assert u.produced[|w.pushed|..|u.pushed|] == w.produced[|w.pushed|..|u.pushed|];
    }
  }

  lemma OnTheWire(cfg: Config, depth: nat, steps: seq<Step>)
    requires CanRun(cfg, depth, START, steps)
    ensures
      var w := Run(cfg, START, steps);
      |w.pushed| <= |w.produced| && w.pushed + w.pending == Packets(w.produced)
  {
    RunOk(cfg, depth, steps);
    hide Run, CanRun;
  }

  lemma {:induction false} ProducedGrows(cfg: Config, depth: nat, steps: seq<Step>, more: seq<Step>)
    requires CanRun(cfg, depth, START, steps + more)
    ensures Run(cfg, START, steps).produced <= Run(cfg, START, steps + more).produced
    decreases |more|
  {
    hide Run, CanRun, CanStep;
    if more == [] {
      Empty(steps);
    } else {
      var n := |more| - 1;
      assert steps + more == steps + more[..n] + [more[n]];
      RunConcat(cfg, depth, steps + more[..n], more[n]);
      ProducedGrows(cfg, depth, steps, more[..n]);
      StepProduces(cfg, Run(cfg, START, steps + more[..n]), more[n]);
    }
  }

  lemma StepProduces(cfg: Config, w: World, s: Step)
    ensures w.produced <= Next(cfg, w, s).produced
  {
    hide React, Drain, Decode;
  }
}
