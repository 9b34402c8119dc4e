/** Runs that show what can happen: data behind a reset, and packets of a forgotten connection. */
module Witnesses {
  import opened Bytes
  import opened Wire
  import opened Seqs
  import opened Protocol
  import opened Generations
  import opened History
  import opened Silence
  import opened Resets
  import R = Reopening

  const ANSWERING: Option<Handler> := Some(request => Some([65]))

  /** k asks for a connection. */
  function Asks(cfg: Config, k: Key): Step { Rx(Encode(R.Request(cfg, k)), ANSWERING, [k]) }

  /** k sends a complete request. */
  function Sends(cfg: Config, k: Key): Step { Rx(Encode(R.Question(cfg, k)), ANSWERING, [k]) }

  /** After k's request has been accepted. */
  function Accepted(cfg: Config, k: Key): World {
    var w := R.Welcome(cfg, k);
    World(map[k := R.Fresh(k)], map[k := 0], [Life(k, [], [])], [Tagged(Some(0), w)], [w], [], 0, false)
  }

  lemma DecodeRequest(cfg: Config, k: Key)
    ensures Decode(Encode(R.Request(cfg, k))) == Ok(R.Request(cfg, k))
  {
    DecodeEncode(R.Request(cfg, k));
    hide Decode, Encode;
  }

  lemma Step1(cfg: Config, k: Key)
    requires R.Small(cfg)
    ensures CanStep(cfg, 1, START, Asks(cfg, k)) && Next(cfg, START, Asks(cfg, k)) == Accepted(cfg, k)
  {
    hide Drain, Serve, Decode, Encode;
    DecodeRequest(cfg, k);
    R.DrainOne(cfg, k, R.Fresh(k));
    R.ServeFresh(cfg, k);
    var p := R.Request(cfg, k);
    var w := R.Welcome(cfg, k);
    var r := Reacted(cfg, map[], p, ANSWERING);
    assert r == Proceed(Some(R.Fresh(k)), [w]);
    assert TagAll(cfg, map[k := 0], [w]) == [Tagged(Some(0), w)];
    var next := ReactWorld(cfg, START, p, ANSWERING);
    assert next == Accepted(cfg, k);
    assert DrainWorld(cfg, next, [k]) == next;
  }

  lemma RunOne(cfg: Config, k: Key)
    requires R.Small(cfg)
    ensures CanRun(cfg, 1, START, [Asks(cfg, k)]) && Run(cfg, START, [Asks(cfg, k)]) == Accepted(cfg, k)
  {
    hide CanStep, Next, Accepted;
    Step1(cfg, k);
    RunNext(cfg, [], Asks(cfg, k));
    Empty([Asks(cfg, k)]);
  }

  lemma RunNext(cfg: Config, steps: seq<Step>, s: Step)
    ensures Run(cfg, START, steps + [s]) == Next(cfg, Run(cfg, START, steps), s)
    ensures CanRun(cfg, 1, START, steps) && CanStep(cfg, 1, Run(cfg, START, steps), s)
            ==> CanRun(cfg, 1, START, steps + [s])
  {
    hide Next, CanStep;
    Last(steps, s);
  }

  /** After a device reset. */
  function Dropped(cfg: Config, k: Key): World { Accepted(cfg, k).(conns := map[]) }

  /** After the push of what was pending. */
  function Forgotten(cfg: Config, k: Key): World {
    Dropped(cfg, k).(pending := [], pushed := [R.Welcome(cfg, k)])
  }

  lemma ClearSteps(cfg: Config, k: Key)
    ensures CanStep(cfg, 1, Accepted(cfg, k), Clear) && Next(cfg, Accepted(cfg, k), Clear) == Dropped(cfg, k)
    ensures CanStep(cfg, 1, Dropped(cfg, k), Flush([])) && Next(cfg, Dropped(cfg, k), Flush([])) == Dropped(cfg, k)
  {
    var v := Dropped(cfg, k);
    hide R.Welcome;
    Connections.NoDrain(cfg, v.conns, DRAIN_LIMIT);
    assert TagAll(cfg, v.gens, []) == [] && Packets([]) == [];
    Empty(v.produced);
    Empty(v.pending);
  }

  lemma PushSteps(cfg: Config, k: Key)
    ensures CanStep(cfg, 1, Dropped(cfg, k), Use(0)) && Next(cfg, Dropped(cfg, k), Use(0)) == Dropped(cfg, k)
    ensures CanStep(cfg, 1, Dropped(cfg, k), Push) && Next(cfg, Dropped(cfg, k), Push) == Forgotten(cfg, k)
    ensures
      var u := Forgotten(cfg, k);
      && Accepted(cfg, k).pushed == [] && u.pushed == [R.Welcome(cfg, k)]
      && |u.produced| == 1 && u.produced[0].gen == Some(0) && !Alive(u, 0)
  {
    var w := R.Welcome(cfg, k);
    hide R.Welcome;
    assert [w][1..] == [];
    Empty([w]);
  }

  /** A response that is pending when the device is reset is sent after the reset, although its
      connection is gone, in one iteration of the driver's loop: a received request, the reset
      event, the drain, a look at the ring and a push. */
  lemma ForgottenPacket(cfg: Config, k: Key)
    requires R.Small(cfg)
    ensures
      var steps := [Asks(cfg, k)];
      var w, u := Run(cfg, START, steps), Run(cfg, START, steps + [Clear] + [Flush([])] + [Use(0)] + [Push]);
      && CanRun(cfg, 1, START, steps + [Clear] + [Flush([])] + [Use(0)] + [Push])
      && w.pushed == [] && u.pushed == [R.Welcome(cfg, k)]
      && |u.produced| == 1 && u.produced[0].gen == Some(0) && !Alive(u, 0)
  {
    RunOne(cfg, k);
    ClearSteps(cfg, k);
    PushSteps(cfg, k);
    hide Run, CanRun, Next, CanStep, Forgotten, Dropped, Accepted, Alive, Asks;
    var steps := [Asks(cfg, k)];
    RunNext(cfg, steps, Clear);
    RunNext(cfg, steps + [Clear], Flush([]));
    RunNext(cfg, steps + [Clear] + [Flush([])], Use(0));
    RunNext(cfg, steps + [Clear] + [Flush([])] + [Use(0)], Push);
  }

  // --------------------------------------------------------------- data behind a reset

  /** After k's second request, which is refused. */
  function Refused(cfg: Config, k: Key): World {
    var no := Refusal(R.Request(cfg, k).header);
    var w := Accepted(cfg, k);
    w.(produced := w.produced + [Tagged(None, no)], pending := w.pending + [no])
  }

  lemma Step2(cfg: Config, k: Key)
    requires R.Small(cfg)
    ensures CanStep(cfg, 1, Accepted(cfg, k), Asks(cfg, k))
    ensures Next(cfg, Accepted(cfg, k), Asks(cfg, k)) == Refused(cfg, k)
  {
    hide Drain, Decode, Encode;
    DecodeRequest(cfg, k);
    var w := Accepted(cfg, k);
    assert Reacted(cfg, w.conns, R.Request(cfg, k), ANSWERING) == Refuse(Some(R.Fresh(k)));
    assert Packets([Tagged(None, Refusal(R.Request(cfg, k).header))]) == [Refusal(R.Request(cfg, k).header)];
  }

  function Read(cfg: Config, k: Key): Packet {
    var p := R.Question(cfg, k);
    p.(header := p.header.(len := 4))
  }

  lemma Step3(cfg: Config, k: Key)
    requires R.Small(cfg)
    ensures
      var v := Next(cfg, Refused(cfg, k), Sends(cfg, k));
      && CanStep(cfg, 1, Refused(cfg, k), Sends(cfg, k))
      && v.produced == Refused(cfg, k).produced + [Tagged(Some(0), R.Byte(cfg, k)), Tagged(Some(0), R.Bye(cfg, k))]
  {
    hide Drain, Serve, Decode, Encode, React, Note;
    DecodeEncode(R.Question(cfg, k));
    var p := Read(cfg, k);
    assert Decode(Encode(R.Question(cfg, k))) == Ok(p);
    var w := Refused(cfg, k);
    Answer3(cfg, k, |w.conns| >= cfg.maxConns);
    R.DrainOne(cfg, k, R.Answered(k));
    R.ServeAnswered(cfg, k);
    assert TagAll(cfg, map[k := 0], []) == [];
    var d, b := R.Byte(cfg, k), R.Bye(cfg, k);
    assert TagAll(cfg, map[k := 0], [d, b]) == [Tagged(Some(0), d), Tagged(Some(0), b)];
    var next := ReactWorld(cfg, w, p, ANSWERING);
    assert next.produced == w.produced && next.gens == map[k := 0];
    assert next.conns == map[k := R.Answered(k)];
  }

  lemma Answer3(cfg: Config, k: Key, full: bool)
    requires R.Small(cfg)
    ensures React(cfg, full, Some(R.Fresh(k)), Read(cfg, k), ANSWERING) == Proceed(Some(R.Answered(k)), [])
  {
    assert [] + Terminator() == Terminator();
    assert Terminator()[0..4] == Terminator();
    assert TerminatorAt(Terminator(), 0);
  }

  lemma RefusedOnWire(cfg: Config, k: Key)
    ensures
      var u := Refused(cfg, k);
      |u.produced| == 2 && ResetTo(cfg, u.produced[1].packet, k) && u.produced[0].gen == Some(0)
  {
  }

  /** A second request draws a reset, and the data of the living connection follows it. */
  lemma DataBehindReset(cfg: Config, k: Key)
    requires R.Small(cfg)
    ensures
      var steps := [Asks(cfg, k)] + [Asks(cfg, k)] + [Sends(cfg, k)];
      var u := Run(cfg, START, steps);
      && CanRun(cfg, 1, START, steps) && |u.produced| == 4
      && ResetTo(cfg, u.produced[1].packet, k)
      && u.produced[2] == Tagged(Some(0), R.Byte(cfg, k)) && u.produced[0].gen == Some(0)
  {
    hide Run, CanRun, Next, CanStep, Accepted, Refused, Asks, Sends, ResetTo, R.Byte, R.Bye;
    RunOne(cfg, k);
    Step2(cfg, k);
    Step3(cfg, k);
    RefusedOnWire(cfg, k);
    RunNext(cfg, [Asks(cfg, k)], Asks(cfg, k));
    RunNext(cfg, [Asks(cfg, k)] + [Asks(cfg, k)], Sends(cfg, k));
  }
}
