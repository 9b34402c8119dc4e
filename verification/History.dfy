/** Whole runs of the endpoint and its transmit side, with a history: which generations of
    connections there were, what each received, and which packet was produced for which. */
module History {
  import opened Bytes
  import opened Wire
  import opened Seqs
  import opened Protocol
  import opened Connections
  import opened Generations

  /** A produced packet with the generation that it was sent for; None for a refusal. */
  datatype Tagged = Tagged(gen: Option<nat>, packet: Packet)

  /** pending are the packets that wait for the transmit ring, pushed those that entered it;
      the device has used (finished with) the first used of the latter. */
  datatype World = World(
    conns: Conns, gens: map<Key, nat>, lives: seq<Life>, produced: seq<Tagged>,
    pending: seq<Packet>, pushed: seq<Packet>, used: nat, failed: bool)

  const START := World(map[], map[], [], [], [], [], 0, false)

  // ------------------------------------------------------------------------ tagging

  function Tag(cfg: Config, gens: map<Key, nat>, p: Packet): Tagged {
    if Sender(p.header) == Key(cfg.cid, cfg.port) && Receiver(p.header) in gens
    then Tagged(Some(gens[Receiver(p.header)]), p)
    else Tagged(None, p)
  }

  function TagAll(cfg: Config, gens: map<Key, nat>, ps: seq<Packet>): (ts: seq<Tagged>)
    ensures |ts| == |ps|
  {
    seq(|ps|, i requires 0 <= i < |ps| => Tag(cfg, gens, ps[i]))
  }

  function Packets(ts: seq<Tagged>): (ps: seq<Packet>)
    ensures |ps| == |ts|
  {
    seq(|ts|, i requires 0 <= i < |ts| => ts[i].packet)
  }

  /** The packets that were produced for generation g. */
  function SentBy(ts: seq<Tagged>, g: nat): seq<Packet> {
    if ts == [] then []
    else if ts[0].gen == Some(g) then [ts[0].packet] + SentBy(ts[1..], g)
    else SentBy(ts[1..], g)
  }

  lemma {:induction false} SentByConcat(a: seq<Tagged>, b: seq<Tagged>, g: nat)
    ensures SentBy(a + b, g) == SentBy(a, g) + SentBy(b, g)
  {
    if a == [] {
      Empty(b);
      Empty(SentBy(b, g));
    } else {
      SentByConcat(a[1..], b, g);
      Tail(a, b);
      Assoc([a[0].packet], SentBy(a[1..], g), SentBy(b, g));
    }
  }

  /** What is tagged with the generation of k is what travels to k. */
  lemma {:induction false} SentByTagged(cfg: Config, gens: map<Key, nat>, ps: seq<Packet>, g: nat, k: Key)
    requires forall j :: j in gens && gens[j] == g ==> j == k
    ensures SentBy(TagAll(cfg, gens, ps), g) == if k in gens && gens[k] == g then To(cfg, ps, k) else []
  {
    if ps != [] {
      SentByTagged(cfg, gens, ps[1..], g, k);
      assert TagAll(cfg, gens, ps)[1..] == TagAll(cfg, gens, ps[1..]);
      assert TagAll(cfg, gens, ps)[0] == Tag(cfg, gens, ps[0]);
    }
  }

  lemma PacketsConcat(a: seq<Tagged>, b: seq<Tagged>)
    ensures Packets(a + b) == Packets(a) + Packets(b)
  {
  }

  lemma PacketsTagged(cfg: Config, gens: map<Key, nat>, ps: seq<Packet>)
    ensures Packets(TagAll(cfg, gens, ps)) == ps
  {
  }

  // -------------------------------------------------------------------------- steps

  function Emit(w: World, ts: seq<Tagged>): World {
    w.(produced := w.produced + ts, pending := w.pending + Packets(ts))
  }

  /** A life that has received a payload. Without a handler no call is made. */
  function Note(life: Life, payload: seq<byte>, handler: Option<Handler>): Life {
    if handler.Some? then Extend(life, payload, handler.value)
    else life.(payloads := life.payloads + [payload])
  }

  function NewGens(w: World, p: Packet, r: Reaction): map<Key, nat> {
    if p.header.op == OP_REQUEST && r.Proceed? then w.gens[Sender(p.header) := |w.lives|] else w.gens
  }

  function NewLives(w: World, p: Packet, r: Reaction, handler: Option<Handler>): seq<Life> {
    var k := Sender(p.header);
    if p.header.op == OP_REQUEST && r.Proceed? then w.lives + [Life(k, [], [])]
    else if p.header.op == OP_READ_WRITE && (r.Proceed? || r.Fail?) && k in w.gens && w.gens[k] < |w.lives|
    then w.lives[w.gens[k] := Note(w.lives[w.gens[k]], p.payload, handler)]
    else w.lives
  }

  /** Handle up to its Drain. */
  function ReactWorld(cfg: Config, w: World, p: Packet, handler: Option<Handler>): World {
    var r := Reacted(cfg, w.conns, p, handler);
    var gens := NewGens(w, p, r);
    var next := w.(conns := Put(w.conns, Sender(p.header), r.conn), gens := gens, lives := NewLives(w, p, r, handler));
    match r
    case Refuse(_) => Emit(next, [Tagged(None, Refusal(p.header))])
    case Quiet(_) => next
    case Fail(_) => next.(failed := true)
    case Proceed(_, replies) => Emit(next, TagAll(cfg, gens, replies))
  }

  function DrainWorld(cfg: Config, w: World, order: seq<Key>): World {
    var d := Drain(cfg, w.conns, order, DRAIN_LIMIT);
    Emit(w.(conns := d.conns), TagAll(cfg, w.gens, d.out))
  }

  function ReceiveWorld(cfg: Config, w: World, p: Packet, handler: Option<Handler>, order: seq<Key>): World {
    if !Addressed(cfg, p.header) then Emit(w, [Tagged(None, Refusal(p.header))])
    else
      var next := ReactWorld(cfg, w, p, handler);
      if Reacted(cfg, w.conns, p, handler).Proceed? then DrainWorld(cfg, next, order) else next
  }

  /** What the polling loop does, one step at a time. An error ends the loop. */
  datatype Step =
    | Rx(bytes: seq<byte>, handler: Option<Handler>, order: seq<Key>)  // a received packet is handled
    | Clear                                                            // a transport reset event
    | Flush(order: seq<Key>)                                           // Drain(8)
    | Push                                                             // one packet enters the ring
    | Use(count: nat)                                                  // the device finishes packets

  function Next(cfg: Config, w: World, s: Step): World {
    match s
    case Rx(bytes, handler, order) =>
      (match Decode(bytes)
       case Error => w.(failed := true)
       case Ok(p) => ReceiveWorld(cfg, w, p, handler, order))
    case Clear => w.(conns := map[])
    case Flush(order) => DrainWorld(cfg, w, order)
    case Push =>
      if w.pending == [] then w
      else w.(pending := w.pending[1..], pushed := w.pushed + [w.pending[0]])
    case Use(count) => w.(used := w.used + count)
  }

  /** The steps that the polling loop can take with a ring of the given depth: it drains in an
      order of all connections, pushes only into a free slot, and the device finishes only what
      it was given. */
  ghost predicate CanStep(cfg: Config, depth: nat, w: World, s: Step) {
    && !w.failed
    && match s
       case Rx(bytes, handler, order) =>
         Decode(bytes).Ok? ==> HandleOrder(cfg, w.conns, Decode(bytes).value, handler, order)
       case Clear => true
       case Flush(order) => IsOrder(order, w.conns.Keys)
       case Push => w.pending != [] && |w.pushed| - w.used < depth
       case Use(count) => w.used + count <= |w.pushed|
  }

  function Run(cfg: Config, w: World, steps: seq<Step>): World {
    if steps == [] then w
    else Next(cfg, Run(cfg, w, steps[..|steps| - 1]), steps[|steps| - 1])
  }

  ghost predicate CanRun(cfg: Config, depth: nat, w: World, steps: seq<Step>) {
    steps != [] ==>
      && CanRun(cfg, depth, w, steps[..|steps| - 1])
      && CanStep(cfg, depth, Run(cfg, w, steps[..|steps| - 1]), steps[|steps| - 1])
  }

  // ---------------------------------------------------------------------- invariant

  ghost predicate GensOk(w: World) {
    && (forall k :: k in w.conns ==> k in w.gens)
    && (forall k :: k in w.gens ==> w.gens[k] < |w.lives| && w.lives[w.gens[k]].key == k)
  }

  ghost predicate PastOk(w: World, g: nat)
    requires g < |w.lives|
  {
    && LifeOk(w.lives[g], SentBy(w.produced, g))
    && (!w.failed ==> CallsOk(w.lives[g].payloads, w.lives[g].calls))
  }

  ghost predicate AliveOk(w: World, k: Key)
    requires GensOk(w) && k in w.conns
  {
    LiveOk(w.lives[w.gens[k]], SentBy(w.produced, w.gens[k]), w.conns[k])
  }

  ghost predicate WorldOk(cfg: Config, w: World) {
    && EndpointOk(cfg, w.conns)
    && GensOk(w)
    && (forall g :: 0 <= g < |w.lives| ==> PastOk(w, g))
    && (forall k :: k in w.conns ==> AliveOk(w, k))
    && w.pushed + w.pending == Packets(w.produced)
    && NoFuture(w)
  }

  /** Nothing has been produced for a generation that does not exist yet. */
  ghost predicate NoFuture(w: World) {
    forall i :: 0 <= i < |w.produced| && w.produced[i].gen.Some? ==> w.produced[i].gen.value < |w.lives|
  }

  lemma OkEndpoint(cfg: Config, w: World)
    requires WorldOk(cfg, w)
    ensures EndpointOk(cfg, w.conns) && GensOk(w)
  {
  }

  lemma {:induction false} SentByNone(ts: seq<Tagged>, g: nat)
    requires forall i :: 0 <= i < |ts| ==> ts[i].gen != Some(g)
    ensures SentBy(ts, g) == []
  {
    if ts != [] { SentByNone(ts[1..], g); }
  }

  lemma EmitWire(w: World, ts: seq<Tagged>)
    requires w.pushed + w.pending == Packets(w.produced)
    ensures Emit(w, ts).pushed + Emit(w, ts).pending == Packets(Emit(w, ts).produced)
  {
    PacketsConcat(w.produced, ts);
    Assoc(w.pushed, w.pending, Packets(ts));
  }

  /** Emitting refusals changes nothing for any generation. */
  lemma RefuseOk(cfg: Config, w: World, p: Packet)
    requires WorldOk(cfg, w)
    ensures WorldOk(cfg, Emit(w, [Tagged(None, p)]))
  {
    hide LifeOk, LiveOk, CallsOk, SentBy, EndpointOk;
    var after := Emit(w, [Tagged(None, p)]);
    EmitWire(w, [Tagged(None, p)]);
    forall g: nat ensures SentBy(after.produced, g) == SentBy(w.produced, g) {
      SentByConcat(w.produced, [Tagged(None, p)], g);
      SentByNone([Tagged(None, p)], g);
      Empty(SentBy(w.produced, g));
    }
    forall g | 0 <= g < |after.lives| ensures PastOk(after, g) { assert PastOk(w, g); }
    forall k | k in after.conns ensures AliveOk(after, k) { assert AliveOk(w, k); }
  }

  // -------------------------------------------------------------- draining in a world

  lemma DrainGen(cfg: Config, w: World, order: seq<Key>, g: nat)
    requires WorldOk(cfg, w) && Distinct(order) && g < |w.lives|
    ensures PastOk(DrainWorld(cfg, w, order), g)
    ensures
      var k := w.lives[g].key;
      var after := DrainWorld(cfg, w, order);
      k in after.conns && k in w.gens && w.gens[k] == g ==>
        LiveOk(after.lives[g], SentBy(after.produced, g), after.conns[k])
  {
    hide LifeOk, LiveOk, CallsOk, SentBy, Drain, To, Serve;
    var k := w.lives[g].key;
    var d := Drain(cfg, w.conns, order, DRAIN_LIMIT);
    var room := RoomAt(cfg, w.conns, order, DRAIN_LIMIT, k);
    DrainAt(cfg, w.conns, order, DRAIN_LIMIT, k);
    var more := TagAll(cfg, w.gens, d.out);
    SentByConcat(w.produced, more, g);
    SentByTagged(cfg, w.gens, d.out, g, k);
    Empty(SentBy(w.produced, g));
    assert PastOk(w, g);
    if k in w.conns && w.gens[k] == g {
      assert AliveOk(w, k);
      ServeKeepsLife(cfg, w.lives[g], SentBy(w.produced, g), w.conns[k], room);
      LiveIsOk(w.lives[g], SentBy(DrainWorld(cfg, w, order).produced, g), Serve(cfg, w.conns[k], room).conn);
      assert Lookup(d.conns, k) == Serve(cfg, w.conns[k], room).conn;
    }
  }

  lemma LiveIsOk(life: Life, outs: seq<Packet>, c: Option<Conn>)
    ensures c.Some? && LiveOk(life, outs, c.value) ==> LifeOk(life, outs)
  {
  }

  lemma DrainWorldOk(cfg: Config, w: World, order: seq<Key>)
    requires WorldOk(cfg, w) && Distinct(order)
    ensures WorldOk(cfg, DrainWorld(cfg, w, order))
  {
    hide LifeOk, LiveOk, CallsOk, SentBy, Drain, To, Serve;
    var after := DrainWorld(cfg, w, order);
    var d := Drain(cfg, w.conns, order, DRAIN_LIMIT);
    DrainOk(cfg, w.conns, order, DRAIN_LIMIT);
    EmitWire(w.(conns := d.conns), TagAll(cfg, w.gens, d.out));
    forall k | k in after.conns ensures k in w.conns {
      DrainAt(cfg, w.conns, order, DRAIN_LIMIT, k);
    }
    forall g | 0 <= g < |after.lives| ensures PastOk(after, g) { DrainGen(cfg, w, order, g); }
    forall k | k in after.conns ensures AliveOk(after, k) { DrainGen(cfg, w, order, w.gens[k]); }
  }

  // --------------------------------------------------------------- packets in a world

  /** Connections may disappear at any time: their generations have ended well. */
  lemma ShrinkOk(cfg: Config, w: World, conns: Conns)
    requires WorldOk(cfg, w) && EndpointOk(cfg, conns)
    requires forall k :: k in conns ==> k in w.conns && conns[k] == w.conns[k]
    ensures WorldOk(cfg, w.(conns := conns))
  {
    hide LifeOk, LiveOk, CallsOk, SentBy, EndpointOk;
    var after := w.(conns := conns);
    forall g | 0 <= g < |after.lives| ensures PastOk(after, g) { assert PastOk(w, g); }
    forall k | k in after.conns ensures AliveOk(after, k) { assert AliveOk(w, k); }
  }

  /** w with the connection and the life of k replaced, and packets emitted for it. */
  function Revise(cfg: Config, w: World, k: Key, c: Conn, life: Life, more: seq<Packet>): World
    requires k in w.gens && w.gens[k] < |w.lives|
  {
    Emit(w.(conns := w.conns[k := c], lives := w.lives[w.gens[k] := life]), TagAll(cfg, w.gens, more))
  }

  lemma ReviseGen(cfg: Config, w: World, k: Key, c: Conn, life: Life, more: seq<Packet>, g: nat)
    requires WorldOk(cfg, w) && k in w.conns && g < |w.lives|
    requires life.key == k && AllTo(cfg, more, k)
    ensures SentBy(Revise(cfg, w, k, c, life, more).produced, g) ==
            SentBy(w.produced, g) + if g == w.gens[k] then more else []
  {
    hide SentBy, To;
    var j := w.lives[g].key;
    SentByConcat(w.produced, TagAll(cfg, w.gens, more), g);
    SentByTagged(cfg, w.gens, more, g, j);
    ToAll(cfg, more, k, j);
  }

  lemma ReplaceOk(cfg: Config, conns: Conns, k: Key, c: Conn)
    requires EndpointOk(cfg, conns) && k in conns && ConnOk(cfg, k, c)
    ensures EndpointOk(cfg, conns[k := c])
  {
    hide ConnOk;
    assert conns[k := c].Keys == conns.Keys;
    assert |conns[k := c].Keys| == |conns[k := c]| && |conns.Keys| == |conns|;
  }

  lemma ReviseOk(cfg: Config, w: World, k: Key, c: Conn, life: Life, more: seq<Packet>, failed: bool)
    requires WorldOk(cfg, w) && k in w.conns && (w.failed ==> failed)
    requires life.key == k && AllTo(cfg, more, k) && ConnOk(cfg, k, c)
    requires LiveOk(life, SentBy(w.produced, w.gens[k]) + more, c)
    requires !failed ==> CallsOk(life.payloads, life.calls)
    ensures WorldOk(cfg, Revise(cfg, w, k, c, life, more).(failed := failed))
  {
    hide LiveOk, LifeOk, CallsOk, SentBy, ConnOk, EndpointOk, AllTo;
    var after := Revise(cfg, w, k, c, life, more).(failed := failed);
    var h := w.gens[k];
    ReplaceOk(cfg, w.conns, k, c);
    EmitWire(w, TagAll(cfg, w.gens, more));
    LiveIsOk(life, SentBy(w.produced, h) + more, Some(c));
    forall g | 0 <= g < |after.lives| ensures PastOk(after, g) {
      assert PastOk(w, g);
      ReviseGen(cfg, w, k, c, life, more, g);
      Empty(SentBy(w.produced, g));
    }
    forall j | j in after.conns ensures AliveOk(after, j) {
      ReviseGen(cfg, w, k, c, life, more, w.gens[j]);
      Empty(SentBy(w.produced, w.gens[j]));
      if j != k { assert AliveOk(w, j); }
    }
  }

  /** w with a new generation for k, and packets emitted for it. */
  function Begin(cfg: Config, w: World, k: Key, c: Conn, more: seq<Packet>): World {
    var gens := w.gens[k := |w.lives|];
    Emit(w.(conns := w.conns[k := c], gens := gens, lives := w.lives + [Life(k, [], [])]), TagAll(cfg, gens, more))
  }

  lemma BeginGen(cfg: Config, w: World, k: Key, c: Conn, more: seq<Packet>, g: nat)
    requires GensOk(w) && NoFuture(w) && g <= |w.lives| && AllTo(cfg, more, k)
    ensures SentBy(Begin(cfg, w, k, c, more).produced, g) == if g == |w.lives| then more else SentBy(w.produced, g)
  {
    hide SentBy, To;
    var after := Begin(cfg, w, k, c, more);
    SentByConcat(w.produced, TagAll(cfg, after.gens, more), g);
    SentByTagged(cfg, after.gens, more, g, after.lives[g].key);
    ToAll(cfg, more, k, after.lives[g].key);
    if g == |w.lives| { SentByNone(w.produced, g); }
    Empty(more);
    Empty(SentBy(w.produced, g));
  }

  lemma BeginOk(cfg: Config, w: World, k: Key, c: Conn, more: seq<Packet>)
    requires WorldOk(cfg, w) && !w.failed && k !in w.conns && EndpointOk(cfg, w.conns[k := c])
    requires AllTo(cfg, more, k) && LiveOk(Life(k, [], []), more, c)
    ensures WorldOk(cfg, Begin(cfg, w, k, c, more))
  {
    hide LiveOk, LifeOk, SentBy, EndpointOk, AllTo;
    var after := Begin(cfg, w, k, c, more);
    EmitWire(w, TagAll(cfg, after.gens, more));
    LiveIsOk(Life(k, [], []), more, Some(c));
    forall g | 0 <= g < |after.lives| ensures PastOk(after, g) {
      BeginGen(cfg, w, k, c, more, g);
      if g < |w.lives| { assert PastOk(w, g); }
    }
    forall j | j in after.conns ensures AliveOk(after, j) {
      BeginGen(cfg, w, k, c, more, after.gens[j]);
      if j != k { assert AliveOk(w, j); }
    }
  }

  /** An accepted request starts a generation with an empty past. */
  lemma OpenOk(cfg: Config, w: World, p: Packet, handler: Option<Handler>)
    requires WorldOk(cfg, w) && !w.failed
    requires p.header.op == OP_REQUEST && Reacted(cfg, w.conns, p, handler).Proceed?
    ensures WorldOk(cfg, ReactWorld(cfg, w, p, handler))
  {
    hide WorldOk, EndpointOk, LiveOk, NewConn, AllTo;
    OkEndpoint(cfg, w);
    ReactOk(cfg, w.conns, p, handler);
    OpenReplies(cfg, p.header);
    var more := [Reply(cfg, NewConn(p.header), OP_RESPONSE, 0)];
    BeginOk(cfg, w, Sender(p.header), NewConn(p.header), more);
  }

  lemma OpenReplies(cfg: Config, h: Header)
    ensures
      var replies := [Reply(cfg, NewConn(h), OP_RESPONSE, 0)];
      AllTo(cfg, replies, Sender(h)) && LiveOk(Life(Sender(h), [], []), replies, NewConn(h))
  {
    OpenStartsLife(cfg, h);
  }

  lemma ReactReplies(cfg: Config, full: bool, c: Conn, p: Packet, handler: Option<Handler>)
    requires React(cfg, full, Some(c), p, handler).Proceed?
    ensures AllTo(cfg, React(cfg, full, Some(c), p, handler).replies, c.Remote())
  {
    hide Complete;
  }

  /** On an existing connection, ReactWorld is a revision of that connection. */
  lemma UpdateShape(cfg: Config, w: World, p: Packet, handler: Option<Handler>)
    requires Sender(p.header) in w.conns && GensOk(w) && !w.failed && p.header.op != OP_REQUEST
    requires
      var r := Reacted(cfg, w.conns, p, handler);
      r.conn.Some? && (r.Proceed? || r.Fail?)
    ensures
      var k := Sender(p.header);
      var r := Reacted(cfg, w.conns, p, handler);
      var life := w.lives[w.gens[k]];
      var note := if p.header.op == OP_READ_WRITE then Note(life, p.payload, handler) else life;
      ReactWorld(cfg, w, p, handler) ==
        Revise(cfg, w, k, r.conn.value, note, if r.Proceed? then r.replies else []).(failed := r.Fail?)
  {
    hide React, Note;
    var life := w.lives[w.gens[Sender(p.header)]];
    assert w.lives[w.gens[Sender(p.header)] := life] == w.lives;
    EmitNothing(w, cfg);
  }

  /** A packet that Handle goes on with, on a connection that exists. */
  lemma UpdateOk(cfg: Config, w: World, p: Packet, handler: Option<Handler>)
    requires WorldOk(cfg, w) && !w.failed && Sender(p.header) in w.conns && p.header.op != OP_REQUEST
    requires
      var r := Reacted(cfg, w.conns, p, handler);
      r.Proceed? || r.Fail?
    ensures WorldOk(cfg, ReactWorld(cfg, w, p, handler))
  {
    hide LiveOk, LifeOk, CallsOk, SentBy, ConnOk, React, Note, ReactWorld, Revise, EndpointOk;
    var k := Sender(p.header);
    var full := |w.conns| >= cfg.maxConns;
    var c := w.conns[k];
    var life := w.lives[w.gens[k]];
    var outs := SentBy(w.produced, w.gens[k]);
    var r := React(cfg, full, Some(c), p, handler);
    assert AliveOk(w, k) && PastOk(w, w.gens[k]);
    Member(cfg, w.conns, k);
    UpdateLife(cfg, full, k, life, outs, c, p, handler);
    UpdateShape(cfg, w, p, handler);
    var note := if p.header.op == OP_READ_WRITE then Note(life, p.payload, handler) else life;
    ReviseOk(cfg, w, k, r.conn.value, note, if r.Proceed? then r.replies else [], r.Fail?);
  }

  lemma Member(cfg: Config, conns: Conns, k: Key)
    requires EndpointOk(cfg, conns) && k in conns
    ensures ConnOk(cfg, k, conns[k])
  {
  }

  lemma UpdateLife(cfg: Config, full: bool, k: Key, life: Life, outs: seq<Packet>, c: Conn, p: Packet,
      handler: Option<Handler>)
    requires LiveOk(life, outs, c) && CallsOk(life.payloads, life.calls) && ConnOk(cfg, k, c)
    requires Sender(p.header) == k && p.header.op != OP_REQUEST
    ensures
      var r := React(cfg, full, Some(c), p, handler);
      var note := if p.header.op == OP_READ_WRITE then Note(life, p.payload, handler) else life;
      var more := if r.Proceed? then r.replies else [];
      r.Proceed? || r.Fail? ==>
        && r.conn.Some? && ConnOk(cfg, k, r.conn.value)
        && note.key == life.key == k && AllTo(cfg, more, k)
        && LiveOk(note, outs + more, r.conn.value)
        && (!r.Fail? ==> CallsOk(note.payloads, note.calls))
  {
    hide LifeOk, CallsOk, Complete, Extend;
    var r := React(cfg, full, Some(c), p, handler);
    ReactConnOk(cfg, full, k, Some(c), p, handler);
    LivePeer(life, outs, c, p.header);
    if p.header.op == OP_READ_WRITE {
      DataOk(cfg, life, outs, UpdatePeer(c, p.header), p.payload, handler);
    } else {
      ControlOk(cfg, full, life, outs, c, p, handler);
    }
    if r.Proceed? {
      ReactReplies(cfg, full, c, p, handler);
    }
    Empty(outs);
  }

  lemma EmitNothing(w: World, cfg: Config)
    ensures forall v: World {:trigger Emit(v, [])} :: Emit(v, []) == v
    ensures TagAll(cfg, w.gens, []) == []
  {
    forall v: World ensures Emit(v, []) == v {
      Empty(v.produced);
      Empty(v.pending);
    }
  }

  lemma LivePeer(life: Life, outs: seq<Packet>, c: Conn, h: Header)
    requires LiveOk(life, outs, c)
    ensures LiveOk(life, outs, UpdatePeer(c, h))
  {
  }

  lemma DataOk(cfg: Config, life: Life, outs: seq<Packet>, d: Conn, payload: seq<byte>, handler: Option<Handler>)
    requires LiveOk(life, outs, d) && CallsOk(life.payloads, life.calls)
    ensures
      var r := ReactToData(cfg, d, payload, handler);
      var note := Note(life, payload, handler);
      && note.key == life.key
      && (r.Proceed? ==>
            && r.conn.Some? && LiveOk(note, outs + r.replies, r.conn.value)
            && CallsOk(note.payloads, note.calls))
      && (r.Fail? ==> r.conn.Some? && LiveOk(note, outs, r.conn.value))
  {
    var r := ReactToData(cfg, d, payload, handler);
    if r.Proceed? {
      var h: Handler := if handler.Some? then handler.value else (request => None);
      ConcatSnoc(life.payloads, payload);
      assert Note(life, payload, handler) == Extend(life, payload, h);
      assert r == ReactToData(cfg, d, payload, Some(h));
      DataKeepsLife(cfg, life, outs, d, payload, h);
      CallsExtend(life, payload, h);
    } else if r.Fail? {
      FailKeepsLife(cfg, life, outs, d, payload);
    }
  }

  lemma ControlOk(cfg: Config, full: bool, life: Life, outs: seq<Packet>, c: Conn, p: Packet, handler: Option<Handler>)
    requires LiveOk(life, outs, c) && p.header.op != OP_REQUEST && p.header.op != OP_READ_WRITE
    ensures
      var r := React(cfg, full, Some(c), p, handler);
      !r.Fail? && (r.Proceed? ==> r.conn.Some? && LiveOk(life, outs + r.replies, r.conn.value))
  {
    if React(cfg, full, Some(c), p, handler).Proceed? {
      ReactKeepsLife(cfg, full, life, outs, c, p, handler);
    }
  }

  lemma PutShrinks(conns: Conns, k: Key, c: Option<Conn>)
    requires c == None || c == Lookup(conns, k)
    ensures forall j :: j in Put(conns, k, c) ==> j in conns && Put(conns, k, c)[j] == conns[j]
  {
  }

  lemma TurnedAwayWorld(cfg: Config, w: World, p: Packet, handler: Option<Handler>)
    ensures
      var r := Reacted(cfg, w.conns, p, handler);
      var next := w.(conns := Put(w.conns, Sender(p.header), r.conn));
      && (r.Refuse? ==> ReactWorld(cfg, w, p, handler) == Emit(next, [Tagged(None, Refusal(p.header))]))
      && (r.Quiet? ==> ReactWorld(cfg, w, p, handler) == next)
  {
    hide React, Put, Emit;
  }

  lemma TurnedAway(cfg: Config, w: World, p: Packet, handler: Option<Handler>)
    requires WorldOk(cfg, w)
    requires
      var r := Reacted(cfg, w.conns, p, handler);
      r.Refuse? || r.Quiet?
    ensures WorldOk(cfg, ReactWorld(cfg, w, p, handler))
  {
    var k := Sender(p.header);
    var r := Reacted(cfg, w.conns, p, handler);
    assert EndpointOk(cfg, w.conns);
    hide React, WorldOk, EndpointOk, ReactWorld, Emit, Put, Reacted;
    ReactOk(cfg, w.conns, p, handler);
    TurnedAwayConn(cfg, |w.conns| >= cfg.maxConns, Lookup(w.conns, k), p, handler);
    assert r.conn == None || r.conn == Lookup(w.conns, k) by { ReactedIs(cfg, w.conns, p, handler); }
    PutShrinks(w.conns, k, r.conn);
    ShrinkOk(cfg, w, Put(w.conns, k, r.conn));
    RefuseOk(cfg, w.(conns := Put(w.conns, k, r.conn)), Refusal(p.header));
    TurnedAwayWorld(cfg, w, p, handler);
  }

  lemma ReactedIs(cfg: Config, conns: Conns, p: Packet, handler: Option<Handler>)
    ensures Reacted(cfg, conns, p, handler)
            == React(cfg, |conns| >= cfg.maxConns, Lookup(conns, Sender(p.header)), p, handler)
  {
  }

  lemma TurnedAwayConn(cfg: Config, full: bool, c: Option<Conn>, p: Packet, handler: Option<Handler>)
    ensures
      var r := React(cfg, full, c, p, handler);
      (r.Refuse? || r.Quiet?) && r.conn.Some? ==> r.conn == c
  {
  }

  lemma ReactWorldOk(cfg: Config, w: World, p: Packet, handler: Option<Handler>)
    requires WorldOk(cfg, w) && !w.failed
    ensures WorldOk(cfg, ReactWorld(cfg, w, p, handler))
  {
    var k := Sender(p.header);
    var r := Reacted(cfg, w.conns, p, handler);
    ReactKind(cfg, |w.conns| >= cfg.maxConns, Lookup(w.conns, k), p, handler);
    hide React, WorldOk, ReactWorld;
    if r.Refuse? || r.Quiet? {
      TurnedAway(cfg, w, p, handler);
    } else if k in w.conns {
      UpdateOk(cfg, w, p, handler);
    } else {
      OpenOk(cfg, w, p, handler);
    }
  }

  lemma ReactKind(cfg: Config, full: bool, c: Option<Conn>, p: Packet, handler: Option<Handler>)
    ensures
      var r := React(cfg, full, c, p, handler);
      r.Proceed? || r.Fail? ==> if c.None? then p.header.op == OP_REQUEST && r.Proceed? else p.header.op != OP_REQUEST
  {
  }

  // --------------------------------------------------------------------- all runs

  /** The stages of ReceiveWorld compute HandlePacket. */
  lemma ReceiveIsHandle(cfg: Config, w: World, p: Packet, handler: Option<Handler>, order: seq<Key>)
    ensures
      var o := HandlePacket(cfg, w.conns, p, handler, order);
      var after := ReceiveWorld(cfg, w, p, handler, order);
      && after.conns == o.conns && after.pending == w.pending + o.Out()
      && after.failed == (w.failed || o.failed)
      && after.pushed == w.pushed && after.used == w.used
  {
    hide Drain, React;
    if Addressed(cfg, p.header) && Reacted(cfg, w.conns, p, handler).Proceed? {
      var r := Reacted(cfg, w.conns, p, handler);
      var next := ReactWorld(cfg, w, p, handler);
      var d := Drain(cfg, next.conns, order, DRAIN_LIMIT);
      PacketsTagged(cfg, next.gens, r.replies);
      PacketsTagged(cfg, next.gens, d.out);
      Assoc(w.pending, r.replies, d.out);
    }
    assert Packets([Tagged(None, Refusal(p.header))]) == [Refusal(p.header)];
    var o := HandlePacket(cfg, w.conns, p, handler, order);
    Empty(o.refusals);
    Empty(o.replies);
    Empty(w.pending);
  }

  lemma NextOk(cfg: Config, depth: nat, w: World, s: Step)
    requires WorldOk(cfg, w) && CanStep(cfg, depth, w, s)
    ensures WorldOk(cfg, Next(cfg, w, s))
  {
    match s
    case Rx(bytes, handler, order) =>
      match Decode(bytes) {
        case Error => SameHistory(cfg, w, w.(failed := true));
        case Ok(p) =>
          if Addressed(cfg, p.header) {
            ReactWorldOk(cfg, w, p, handler);
            if Reacted(cfg, w.conns, p, handler).Proceed? {
              DrainWorldOk(cfg, ReactWorld(cfg, w, p, handler), order);
            }
          } else {
            RefuseOk(cfg, w, Refusal(p.header));
          }
      }
    case Clear => ShrinkOk(cfg, w, map[]);
    case Flush(order) => DrainWorldOk(cfg, w, order);
    case Push =>
      var after := Next(cfg, w, Push);
      Assoc(w.pushed, [w.pending[0]], w.pending[1..]);
      assert [w.pending[0]] + w.pending[1..] == w.pending;
      SameHistory(cfg, w, after);
    case Use(count) => SameHistory(cfg, w, Next(cfg, w, s));
  }

  lemma SameHistory(cfg: Config, w: World, after: World)
    requires WorldOk(cfg, w)
    requires after.conns == w.conns && after.gens == w.gens && after.lives == w.lives && after.produced == w.produced
    requires after.pushed + after.pending == w.pushed + w.pending
    requires w.failed ==> after.failed
    ensures WorldOk(cfg, after)
  {
    hide LifeOk, LiveOk, CallsOk, SentBy, EndpointOk;
    forall g | 0 <= g < |after.lives| ensures PastOk(after, g) { assert PastOk(w, g); }
    forall k | k in after.conns ensures AliveOk(after, k) { assert AliveOk(w, k); }
  }

  lemma {:induction false} RunOk(cfg: Config, depth: nat, steps: seq<Step>)
    requires CanRun(cfg, depth, START, steps)
    ensures
      var w := Run(cfg, START, steps);
      WorldOk(cfg, w) && w.used <= |w.pushed| <= w.used + depth
  {
    if steps == [] {
    } else {
      var before := steps[..|steps| - 1];
      RunOk(cfg, depth, before);
      NextOk(cfg, depth, Run(cfg, START, before), steps[|steps| - 1]);
      RingStep(cfg, depth, Run(cfg, START, before), steps[|steps| - 1]);
    }
  }

  lemma RingStep(cfg: Config, depth: nat, w: World, s: Step)
    requires CanStep(cfg, depth, w, s) && w.used <= |w.pushed| <= w.used + depth
    ensures
      var after := Next(cfg, w, s);
      after.used <= |after.pushed| <= after.used + depth
  {
    if s.Rx? && Decode(s.bytes).Ok? {
      ReceiveIsHandle(cfg, w, Decode(s.bytes).value, s.handler, s.order);
    }
    hide Drain, ReceiveWorld, HandlePacket, HandleOrder, Decode, Packets;
  }
}
