/** The DISCOVER/OFFER/REQUEST/ACK run of the DHCP client (RFC 2131 section 3.1), against any
    device and any clock. */
module Acquiring {
  import opened Bytes
  import opened Bits
  import opened Seqs
  import opened Frames
  import opened ServerFrames
  import opened Leases
  import opened Waiting
  import Options
  import ClientFrames

  const DEFAULT_TIMEOUT := 20 * SECOND
  const MAX_ATTEMPTS := 4

  function BoundedDeadline(now: int, overall: int, wait: nat): (deadline: int)
    ensures deadline <= overall && deadline <= now + wait && deadline in {overall, now + wait}
  {
    if now + wait > overall then overall else now + wait
  }

  // -------------------------------------------------------------------- attempts

  /** One round of the loop of Acquire: whether the discover went out, what came in while the
      client waited for an offer, whether the request went out, and what came in after it. */
  datatype Attempt = Attempt(discovered: bool, first: seq<seq<byte>>, requested: bool, second: seq<seq<byte>>)

  /** The client: its MAC address, the transaction it uses and its host name. */
  datatype Client = Client(mac: Mac, xid: u32, hostname: seq<byte>)
  {
    function Offer(a: Attempt): Option<Result<Message>> { Judge(a.first, xid, mac, OFFER) }

    function Ack(a: Attempt): Option<Result<Message>> { Judge(a.second, xid, mac, ACK) }

    function DiscoverFrame(): seq<byte> { ClientFrame(mac, xid, DISCOVER, NoAddr, NoAddr, hostname) }

    function RequestFrame(offer: Message): seq<byte> {
      ClientFrame(mac, xid, REQUEST, offer.address, offer.server, hostname)
    }

    /** A request follows only an acceptable offer with a server, heard in the same attempt. */
    predicate AttemptOk(a: Attempt) {
      && (!a.discovered ==> a.first == [] && !a.requested)
      && (a.requested ==> Offer(a).Some? && Offer(a).value.Ok? && Offer(a).value.value.server != NoAddr)
      && (!a.requested ==> a.second == [])
    }

    function AttemptLog(a: Attempt): seq<Event>
      requires AttemptOk(a)
    {
      (if a.discovered then [Sent(DiscoverFrame())] else [])
      + AllReceived(a.first)
      + (if a.requested then [Sent(RequestFrame(Offer(a).value.value))] else [])
      + AllReceived(a.second)
    }

    ghost predicate AttemptsOk(attempts: seq<Attempt>) {
      forall i :: 0 <= i < |attempts| ==> AttemptOk(attempts[i])
    }

    ghost function Log(attempts: seq<Attempt>): seq<Event>
      requires AttemptsOk(attempts)
    {
      if attempts == [] then []
      else Log(attempts[..|attempts| - 1]) + AttemptLog(attempts[|attempts| - 1])
    }

    /** A lease merges the offer and the acknowledgement of one and the same attempt. */
    predicate Leased(a: Attempt, lease: Lease) {
      && AttemptOk(a) && a.requested
      && Ack(a).Some? && Ack(a).value.Ok?
      && MergeLease(mac, Offer(a).value.value, Ack(a).value.value) == Ok(lease)
    }
  }

  // ------------------------------------------------------------------ specification

  /** 2<<attempt seconds */
  function Patience(attempt: nat): nat {
    if attempt == 0 then 2 * SECOND else 2 * Patience(attempt - 1)
  }

  /** The end of an attempt, and what remains of the surroundings. */
  datatype Tried = Tried(outcome: Outcome<Lease>, attempt: Attempt, rest: Surroundings)

  /** A wait that starts by reading the clock for its own deadline. */
  function WaitWithin(c: Client, s: Surroundings, want: byte, deadline: int, patience: nat): Waited {
    if s.clock == [] then Waited(Unfinished, [], [], s.receipts)
    else Wait(s.clock[1..], s.receipts, c.xid, c.mac, want, BoundedDeadline(s.clock[0], deadline, patience))
  }

  /** The second half of an attempt, after an acceptable offer was heard. */
  function TryRequest(c: Client, s: Surroundings, deadline: int, first: seq<seq<byte>>, offer: Message): Tried {
    if offer.server == NoAddr then Tried(Failed, Attempt(true, first, false, []), s)
    else
      var sent := s.(transmits := Rest(s.transmits));
      if !s.Transmits() then Tried(Failed, Attempt(true, first, false, []), sent)
      else
        var w := WaitWithin(c, sent, ACK, deadline, 4 * SECOND);
        var a, rest := Attempt(true, first, true, w.frames), sent.(clock := w.clock, receipts := w.receipts);
        match w.outcome
        case Failed => Tried(Failed, a, rest)
        case Unfinished => Tried(Unfinished, a, rest)
        case Done(ack) =>
          match MergeLease(c.mac, offer, ack)
          case Error => Tried(Failed, a, rest)
          case Ok(lease) => Tried(Done(lease), a, rest)
  }

  /** One round of the loop of Acquire on values. */
  function Try(c: Client, s: Surroundings, deadline: int, n: nat): Tried {
    var sent := s.(transmits := Rest(s.transmits));
    if !s.Transmits() then Tried(Failed, Attempt(false, [], false, []), sent)
    else
      var w := WaitWithin(c, sent, OFFER, deadline, Patience(n));
      var rest := sent.(clock := w.clock, receipts := w.receipts);
      match w.outcome
      case Failed => Tried(Failed, Attempt(true, w.frames, false, []), rest)
      case Unfinished => Tried(Unfinished, Attempt(true, w.frames, false, []), rest)
      case Done(offer) => TryRequest(c, rest, deadline, w.frames, offer)
  }

  /** The end of a run, and its attempts. */
  datatype Acquired = Acquired(outcome: Outcome<Lease>, attempts: seq<Attempt>, rest: Surroundings)
  {
    function Before(earlier: seq<Attempt>): Acquired { this.(attempts := earlier + attempts) }
  }

  /** The loop of Acquire on values, from attempt n on. */
  function TryAll(c: Client, s: Surroundings, deadline: int, n: nat): Acquired
    decreases MAX_ATTEMPTS - n
  {
    if n >= MAX_ATTEMPTS then Acquired(Failed, [], s)
    else if s.clock == [] then Acquired(Unfinished, [], s)
    else
      var read := s.(clock := s.clock[1..]);
      if s.clock[0] >= deadline then Acquired(Failed, [], read)
      else
        var t := Try(c, read, deadline, n);
        if t.outcome.Failed? then TryAll(c, t.rest, deadline, n + 1).Before([t.attempt])
        else Acquired(t.outcome, [t.attempt], t.rest)
  }

  function AcquireAll(c: Client, s: Surroundings, timeout: int): Acquired {
    if s.clock == [] then Acquired(Unfinished, [], s)
    else
      TryAll(c, s.(clock := s.clock[1..]), s.clock[0] + if timeout <= 0 then DEFAULT_TIMEOUT else timeout, 0)
  }

  /** An attempt is well formed, and a lease that it yields merges what was heard in it. */
  lemma TryOk(c: Client, s: Surroundings, deadline: int, n: nat)
    ensures
      var t := Try(c, s, deadline, n);
      && c.AttemptOk(t.attempt)
      && (t.outcome.Done? ==> c.Leased(t.attempt, t.outcome.value))
    ensures
      var t := Try(c, s, deadline, n);
      var w := WaitWithin(c, s.(transmits := Rest(s.transmits)), OFFER, deadline, Patience(n));
      t.attempt.requested ==> w.outcome.Done? && c.Offer(t.attempt) == Some(Ok(w.outcome.value))
  {
    hide Judge, MergeLease, Wait, BoundedDeadline;
    var sent := s.(transmits := Rest(s.transmits));
    if s.Transmits() {
      WithinJudges(c, sent, OFFER, deadline, Patience(n));
      var w := WaitWithin(c, sent, OFFER, deadline, Patience(n));
      hide WaitWithin;
      if w.outcome.Done? && w.outcome.value.server != NoAddr {
        var rest := sent.(clock := w.clock, receipts := w.receipts);
        WithinJudges(c, rest.(transmits := Rest(rest.transmits)), ACK, deadline, 4 * SECOND);
      }
    }
  }

  lemma WithinJudges(c: Client, s: Surroundings, want: byte, deadline: int, patience: nat)
    ensures
      var w := WaitWithin(c, s, want, deadline, patience);
      w.outcome.Done? ==> Judge(w.frames, c.xid, c.mac, want) == Some(Ok(w.outcome.value))
  {
    hide Wait, Verdict;
    if s.clock != [] {
      WaitJudges(s.clock[1..], s.receipts, c.xid, c.mac, want, BoundedDeadline(s.clock[0], deadline, patience));
    }
  }

  /** At most bound attempts, and a lease comes from the last of them. */
  ghost predicate RunOk(c: Client, r: Acquired, bound: nat) {
    && |r.attempts| <= bound && c.AttemptsOk(r.attempts)
    && (r.outcome.Done? ==> r.attempts != [] && c.Leased(r.attempts[|r.attempts| - 1], r.outcome.value))
  }

  lemma RunOkMore(c: Client, a: Attempt, r: Acquired, bound: nat)
    requires RunOk(c, r, bound) && c.AttemptOk(a)
    ensures RunOk(c, r.Before([a]), bound + 1)
  {
    hide Client.AttemptOk, Client.Leased;
    var all := [a] + r.attempts;
    assert r.attempts != [] ==> all[|all| - 1] == r.attempts[|r.attempts| - 1];
  }

  lemma RunOkLast(c: Client, a: Attempt, outcome: Outcome<Lease>, rest: Surroundings)
    requires c.AttemptOk(a) && (outcome.Done? ==> c.Leased(a, outcome.value))
    ensures RunOk(c, Acquired(outcome, [a], rest), 1)
  {
    hide Client.AttemptOk, Client.Leased;
  }

  lemma {:induction false} TryAllOk(c: Client, s: Surroundings, deadline: int, n: nat)
    requires n <= MAX_ATTEMPTS
    ensures RunOk(c, TryAll(c, s, deadline, n), MAX_ATTEMPTS - n)
    decreases MAX_ATTEMPTS - n
  {
    if n < MAX_ATTEMPTS && s.clock != [] && s.clock[0] < deadline {
      var read := s.(clock := s.clock[1..]);
      var t := Try(c, read, deadline, n);
      TryOk(c, read, deadline, n);
      hide Try, Client.AttemptOk, Client.Leased;
      if t.outcome.Failed? {
        TryAllOk(c, t.rest, deadline, n + 1);
        RunOkMore(c, t.attempt, TryAll(c, t.rest, deadline, n + 1), MAX_ATTEMPTS - n - 1);
      } else {
        RunOkLast(c, t.attempt, t.outcome, t.rest);
      }
    }
  }

  /** A run makes at most four attempts; a lease comes from the last of them. */
  lemma AcquireAllOk(c: Client, s: Surroundings, timeout: int)
    ensures RunOk(c, AcquireAll(c, s, timeout), MAX_ATTEMPTS)
  {
    hide TryAll;
    if s.clock != [] {
      TryAllOk(c, s.(clock := s.clock[1..]), s.clock[0] + if timeout <= 0 then DEFAULT_TIMEOUT else timeout, 0);
    }
  }

  function Earlier(a: int, b: int): int { if a <= b then a else b }

  /** How long attempt n waits for an offer: 2, 4, 8, then 16 seconds, in nanoseconds. */
  function OfferWait(n: nat): nat
    requires n < 4
  {
    [2, 4, 8, 16][n] * 1_000_000_000
  }

  lemma Waits(n: nat, now: int, deadline: int)
    requires n < 4
    ensures BoundedDeadline(now, deadline, Patience(n)) == Earlier(now + OfferWait(n), deadline)
    ensures BoundedDeadline(now, deadline, 4 * SECOND) == Earlier(now + 4_000_000_000, deadline)
  {
    assert Patience(1) == 4 * SECOND && Patience(2) == 8 * SECOND;
  }

  /** What is left after a transmission. */
  function Sending(s: Surroundings): Surroundings { s.(transmits := Rest(s.transmits)) }

  /** What is left after a wait. */
  function Left(s: Surroundings, w: Waited): Surroundings { s.(clock := w.clock, receipts := w.receipts) }

  /** The first half of an attempt: a discover, and a wait for an offer (type 2) until the overall
      deadline or 2, 4, 8 or 16 seconds from now, whichever comes first; a failure of either ends
      the attempt. */
  lemma DiscoverSteps(c: Client, s: Surroundings, deadline: int, n: nat)
    requires n < 4
    ensures
      var t, sent := Try(c, s, deadline, n), Sending(s);
      if !s.Transmits() then t == Tried(Failed, Attempt(false, [], false, []), sent)
      else if s.clock == [] then t == Tried(Unfinished, Attempt(true, [], false, []), sent)
      else
        var w := Wait(s.clock[1..], s.receipts, c.xid, c.mac, 2, Earlier(s.clock[0] + OfferWait(n), deadline));
        var a, rest := Attempt(true, w.frames, false, []), Left(sent, w);
        match w.outcome
        case Failed => t == Tried(Failed, a, rest)
        case Unfinished => t == Tried(Unfinished, a, rest)
        case Done(offer) => t == TryRequest(c, rest, deadline, w.frames, offer)
  {
    hide TryRequest, Wait, Patience, BoundedDeadline, Earlier, OfferWait;
    if s.clock != [] { Waits(n, s.clock[0], deadline); }
  }

  /** The second half: a request, and a wait for an acknowledgement (type 5) until the overall
      deadline or four seconds from now, whichever comes first; a failure of either, or of merging
      the two messages, ends the attempt without a lease. */
  lemma RequestSteps(c: Client, s: Surroundings, deadline: int, first: seq<seq<byte>>, offer: Message)
    ensures
      var t, sent := TryRequest(c, s, deadline, first, offer), Sending(s);
      if offer.server == NoAddr then t == Tried(Failed, Attempt(true, first, false, []), s)
      else if !s.Transmits() then t == Tried(Failed, Attempt(true, first, false, []), sent)
      else if s.clock == [] then t == Tried(Unfinished, Attempt(true, first, true, []), sent)
      else
        var w := Wait(s.clock[1..], s.receipts, c.xid, c.mac, 5, Earlier(s.clock[0] + 4_000_000_000, deadline));
        var a, rest := Attempt(true, first, true, w.frames), Left(sent, w);
        match w.outcome
        case Failed => t == Tried(Failed, a, rest)
        case Unfinished => t == Tried(Unfinished, a, rest)
        case Done(ack) =>
          t == Tried(if MergeLease(c.mac, offer, ack).Ok? then Done(MergeLease(c.mac, offer, ack).value) else Failed,
                     a, rest)
  {
    hide Wait, Patience, BoundedDeadline, MergeLease, Earlier;
    if s.clock != [] { Waits(0, s.clock[0], deadline); }
  }

  /** The run: at most four attempts, each begun only before the deadline, which is the given time
      or 20 seconds after the start; an attempt that fails is followed by the next, a lease ends
      the run, and after the last failure the run fails. */
  lemma RunSteps(c: Client, s: Surroundings, timeout: int, deadline: int, n: nat)
    ensures
      s.clock != [] ==>
        AcquireAll(c, s, timeout)
        == TryAll(c, s.(clock := s.clock[1..]), s.clock[0] + (if timeout <= 0 then 20_000_000_000 else timeout), 0)
    ensures
      var r := TryAll(c, s, deadline, n);
      if n >= 4 then r == Acquired(Failed, [], s)
      else if s.clock == [] then r == Acquired(Unfinished, [], s)
      else
        var now := s.(clock := s.clock[1..]);
        var t := Try(c, now, deadline, n);
        if s.clock[0] >= deadline then r == Acquired(Failed, [], now)
        else if t.outcome == Failed then
          var later := TryAll(c, t.rest, deadline, n + 1);
          r == later.(attempts := [t.attempt] + later.attempts)
        else r == Acquired(t.outcome, [t.attempt], t.rest)
  {
    hide Try;
  }

  // ---------------------------------------------------------------------- the methods

  /** boundedDeadline, which reads the clock, and waitFor. */
  method WaitBounded(link: Link, c: Client, want: byte, deadline: int, patience: nat)
    returns (r: Outcome<Message>, ghost frames: seq<seq<byte>>)
    modifies link`clock, link`receipts, link`log
    ensures Waited(r, frames, link.clock, link.receipts) == WaitWithin(c, old(link.Around()), want, deadline, patience)
    ensures link.log == old(link.log) + AllReceived(frames)
  {
    hide Wait;
    var now := link.Now();
    if now.None? {
      frames := [];
      Empty(link.log);
      NoneReceived();
      return Unfinished, frames;
    }
    r, frames := WaitFor(link, c.xid, c.mac, want, BoundedDeadline(now.value, deadline, patience));
  }

  method RequestLease(link: Link, c: Client, deadline: int, ghost first: seq<seq<byte>>, offer: Message)
    returns (r: Outcome<Lease>, ghost a: Attempt)
    modifies link
    ensures Tried(r, a, link.Around()) == TryRequest(c, old(link.Around()), deadline, first, offer)
    ensures link.log == old(link.log) + (if a.requested then [Sent(c.RequestFrame(offer))] else [])
            + AllReceived(a.second)
  {
    hide ClientFrame, WaitWithin, MergeLease, AllReceived;
    NoneReceived();
    Empty(link.log);
    a := Attempt(true, first, false, []);
    if offer.server == NoAddr { return Failed, a; }
    var request := BuildClientFrame(c.mac, c.xid, REQUEST, offer.address, offer.server, c.hostname);
    var ok := link.Transmit(request[..]);
    if !ok { return Failed, a; }
    var second, frames := WaitBounded(link, c, ACK, deadline, 4 * SECOND);
    a := Attempt(true, first, true, frames);
    match second
    case Failed => r := Failed;
    case Unfinished => r := Unfinished;
    case Done(ack) =>
      var lease := MergeLease(c.mac, offer, ack);
      r := if lease.Ok? then Done(lease.value) else Failed;
  }

  /** The log of an attempt from its beginning. */
  lemma AttemptLogIs(c: Client, a: Attempt, start: seq<Event>, offer: Option<Message>)
    requires c.AttemptOk(a) && a.discovered && (a.requested ==> offer.Some? && c.Offer(a) == Some(Ok(offer.value)))
    ensures
      start + [Sent(c.DiscoverFrame())] + AllReceived(a.first)
      + (if a.requested then [Sent(c.RequestFrame(offer.value))] else []) + AllReceived(a.second) == start
          + c.AttemptLog(a)
  {
    hide ClientFrame, AllReceived, Judge;
  }

  /** One round of the loop of Acquire. */
  method TryOnce(link: Link, c: Client, deadline: int, n: nat) returns (r: Outcome<Lease>, ghost a: Attempt)
    modifies link
    ensures Tried(r, a, link.Around()) == Try(c, old(link.Around()), deadline, n)
    ensures c.AttemptOk(a) && link.log == old(link.log) + c.AttemptLog(a)
  {
    TryOk(c, link.Around(), deadline, n);
    hide ClientFrame, WaitWithin, MergeLease, AllReceived, TryRequest, Judge, Client.AttemptLog, Patience,
        Client.Leased, Client.AttemptOk, Client.Offer;
    NoneReceived();
    ghost var start, silence := link.log, Attempt(false, [], false, []);
    a := silence;
    Silent(c, start);
    var discover := BuildClientFrame(c.mac, c.xid, DISCOVER, NoAddr, NoAddr, c.hostname);
    var ok := link.Transmit(discover[..]);
    Empty(link.log);
    if !ok { return Failed, a; }
    var first, frames := WaitBounded(link, c, OFFER, deadline, Patience(n));
    a := Attempt(true, frames, false, []);
    if !first.Done? {
      Empty(link.log);
      AttemptLogIs(c, a, start, None);
      return if first.Failed? then Failed else Unfinished, a;
    }
    r, a := RequestLease(link, c, deadline, frames, first.value);
    AttemptLogIs(c, a, start, Some(first.value));
  }

  lemma Silent(c: Client, start: seq<Event>)
    ensures start + c.AttemptLog(Attempt(false, [], false, [])) == start
  {
  }

  /** One round of TryAll, behind earlier attempts. */
  lemma TryAllOnce(c: Client, s: Surroundings, deadline: int, n: nat, earlier: seq<Attempt>)
    ensures
      var r := TryAll(c, s, deadline, n).Before(earlier);
      && (n >= MAX_ATTEMPTS ==> r == Acquired(Failed, earlier, s))
      && (n < MAX_ATTEMPTS && s.clock == [] ==> r == Acquired(Unfinished, earlier, s))
      && (n < MAX_ATTEMPTS && s.clock != [] ==>
            var read := s.(clock := s.clock[1..]);
            var t := Try(c, read, deadline, n);
            r == if s.clock[0] >= deadline then Acquired(Failed, earlier, read)
                 else if t.outcome.Failed? then TryAll(c, t.rest, deadline, n + 1).Before(earlier + [t.attempt])
                 else Acquired(t.outcome, earlier + [t.attempt], t.rest))
  {
    hide Try;
    Empty(earlier);
    if n < MAX_ATTEMPTS && s.clock != [] {
      var t := Try(c, s.(clock := s.clock[1..]), deadline, n);
      Assoc(earlier, [t.attempt], TryAll(c, t.rest, deadline, n + 1).attempts);
    }
  }

  lemma LogMore(c: Client, start: seq<Event>, attempts: seq<Attempt>, a: Attempt)
    requires c.AttemptsOk(attempts) && c.AttemptOk(a)
    ensures c.AttemptsOk(attempts + [a]) && start + c.Log(attempts) + c.AttemptLog(a) == start + c.Log(attempts + [a])
  {
    hide Client.AttemptOk, Client.AttemptLog;
    Last(attempts, a);
    Assoc(start, c.Log(attempts), c.AttemptLog(a));
  }

  /** Acquire. The wire carries at most four attempts, each a discover, then perhaps a request
      for an offer heard in it. */
  method Acquire(link: Link, c: Client, timeout: int) returns (r: Outcome<Lease>, ghost attempts: seq<Attempt>)
    modifies link
    ensures Acquired(r, attempts, link.Around()) == AcquireAll(c, old(link.Around()), timeout)
    ensures c.AttemptsOk(attempts) && link.log == old(link.log) + c.Log(attempts)
  {
    hide Try, TryAll, Client.AttemptOk, Client.AttemptLog;
    attempts := [];
    Empty(link.log);
    ghost var goal := AcquireAll(c, link.Around(), timeout);
    var start := link.Now();
    if start.None? { return Unfinished, attempts; }
    var deadline := start.value + if timeout <= 0 then DEFAULT_TIMEOUT else timeout;
    var attempt := 0;
    while attempt < MAX_ATTEMPTS
      invariant attempt <= MAX_ATTEMPTS && c.AttemptsOk(attempts)
      invariant link.log == old(link.log) + c.Log(attempts)
      invariant goal == TryAll(c, link.Around(), deadline, attempt).Before(attempts)
    {
      TryAllOnce(c, link.Around(), deadline, attempt, attempts);
      var now := link.Now();
      if now.None? { return Unfinished, attempts; }
      if now.value >= deadline { return Failed, attempts; }
      var outcome, a := TryOnce(link, c, deadline, attempt);
      LogMore(c, old(link.log), attempts, a);
      attempts := attempts + [a];
      if !outcome.Failed? { return outcome, attempts; }
      attempt := attempt + 1;
    }
    TryAllOnce(c, link.Around(), deadline, attempt, attempts);
    r := Failed;
  }

  // ------------------------------------------------------------------- provenance

  /** A transmitted frame whose options give it the message type t. */
  predicate IsMessage(e: Event, t: byte) {
    && e.Sent? && |e.frame| >= 282
    && var parsed := Options.Parse(e.frame[282..], map[]);
       parsed.Ok? && 53 in parsed.value && parsed.value[53] == [t]
  }

  function Count(events: seq<Event>, t: byte): nat {
    if events == [] then 0 else (if IsMessage(events[0], t) then 1 else 0) + Count(events[1..], t)
  }

  lemma {:induction false} CountConcat(a: seq<Event>, b: seq<Event>, t: byte)
    ensures Count(a + b, t) == Count(a, t) + Count(b, t)
  {
    hide IsMessage;
    if a == [] { Empty(b); } else { Tail(a, b); CountConcat(a[1..], b, t); }
  }

  lemma {:induction false} CountReceived(frames: seq<seq<byte>>, t: byte)
    ensures Count(AllReceived(frames), t) == 0
  {
    if frames != [] {
      assert AllReceived(frames)[1..] == AllReceived(frames[1..]);
      CountReceived(frames[1..], t);
    }
  }

  lemma CountOne(e: Event, t: byte)
    ensures Count([e], t) == if IsMessage(e, t) then 1 else 0
  {
    hide IsMessage;
    assert [e][1..] == [];
  }

  lemma MessageTypes(c: Client, offer: Message, t: byte)
    ensures IsMessage(Sent(c.DiscoverFrame()), t) <==> t == 1
    ensures IsMessage(Sent(c.RequestFrame(offer)), t) <==> t == 3
  {
    hide Options.Parse, ClientFrame;
    ClientFrames.ClientOptionsRecovered(c.mac, c.xid, DISCOVER, NoAddr, NoAddr, c.hostname);
    ClientFrames.ClientOptionsRecovered(c.mac, c.xid, REQUEST, offer.address, offer.server, c.hostname);
  }

  /** An attempt sends at most one message of each type. */
  lemma AttemptCount(c: Client, a: Attempt, t: byte)
    requires c.AttemptOk(a)
    ensures Count(c.AttemptLog(a), t) <= 1
  {
    hide IsMessage, AllReceived, Judge, ClientFrame, Count;
    var discover := if a.discovered then [Sent(c.DiscoverFrame())] else [];
    var request := if a.requested then [Sent(c.RequestFrame(c.Offer(a).value.value))] else [];
    CountConcat(discover + AllReceived(a.first) + request, AllReceived(a.second), t);
    CountConcat(discover + AllReceived(a.first), request, t);
    CountConcat(discover, AllReceived(a.first), t);
    CountReceived(a.first, t);
    CountReceived(a.second, t);
    CountReceived([], t);
    NoneReceived();
    if a.discovered { CountOne(discover[0], t); }
    if a.requested {
      CountOne(request[0], t);
      MessageTypes(c, c.Offer(a).value.value, t);
    }
  }

  lemma NoneReceived()
    ensures AllReceived([]) == []
  {
  }

  /** A run sends at most as many discovers, and at most as many requests, as it has attempts... */
  lemma {:induction false} RunCount(c: Client, attempts: seq<Attempt>, t: byte)
    requires c.AttemptsOk(attempts)
    ensures Count(c.Log(attempts), t) <= |attempts|
    decreases |attempts|
  {
    hide Count, Judge, ClientFrame;
    if attempts == [] {
      CountReceived([], t);
      NoneReceived();
    } else {
      var before := attempts[..|attempts| - 1];
      RunCount(c, before, t);
      AttemptCount(c, attempts[|attempts| - 1], t);
      CountConcat(c.Log(before), c.AttemptLog(attempts[|attempts| - 1]), t);
    }
  }

  /** ... and so at most four of each, against every device and every clock. */
  lemma AtMostFour(c: Client, s: Surroundings, timeout: int, t: byte)
    ensures
      var r := AcquireAll(c, s, timeout);
      c.AttemptsOk(r.attempts) && Count(c.Log(r.attempts), t) <= 4
  {
    hide AcquireAll, Count;
    AcquireAllOk(c, s, timeout);
    RunCount(c, AcquireAll(c, s, timeout).attempts, t);
  }

  /** A frame in which the client requests what was offered. */
  ghost predicate Requests(c: Client, frame: seq<byte>, offer: Message) {
    && |frame| >= 282 && Is4(offer.address) && Is4(offer.server)
    && var parsed := Options.Parse(frame[282..], map[]);
       && parsed.Ok?
       && 53 in parsed.value && parsed.value[53] == [REQUEST]
       && 61 in parsed.value && parsed.value[61] == [1] + c.mac
       && 50 in parsed.value && parsed.value[50] == offer.address.bytes
       && 54 in parsed.value && parsed.value[54] == offer.server.bytes
  }

  /** Every field of a lease is the acknowledgement's or, where that has none, the offer's; the
      prefix length is the number of leading ones of the mask, which has zeros behind them. */
  ghost predicate Merges(lease: Lease, offer: Message, ack: Message, mac: seq<byte>) {
    && Is4(lease.address)
    && lease.address == LeaseAddress(offer, ack)
    && lease.gateway == (if ack.router != NoAddr then ack.router else offer.router)
    && lease.dns == (if ack.dns != [] then ack.dns else offer.dns)
    && lease.server == (if ack.server != NoAddr then ack.server else offer.server)
    && lease.duration == (if ack.lease != 0 then ack.lease else offer.lease)
    && lease.mac == mac
    && var mask := if ack.mask == [0, 0, 0, 0] then offer.mask else ack.mask;
       |mask| == 4 && lease.prefixLen <= 32 && MaskValue(mask) == Pow256(4) - Pow2(32 - lease.prefixLen)
  }

  lemma RequestsOffer(c: Client, frame: seq<byte>, offer: Message)
    requires ServerFrame(frame) == Ok(Reply(offer, c.xid, c.mac))
    ensures Requests(c, c.RequestFrame(offer), offer)
  {
    ServerNeverMissing(frame);
    ClientFrames.ClientOptionsRecovered(c.mac, c.xid, REQUEST, offer.address, offer.server, c.hostname);
    hide ServerFrame, ClientFrame, Options.Parse;
  }

  lemma LeaseMerges(mac: seq<byte>, offer: Message, ack: Message)
    requires MergeLease(mac, offer, ack).Ok?
    ensures Merges(MergeLease(mac, offer, ack).value, offer, ack, mac)
  {
    LeaseIsSound(mac, offer, ack);
    hide MaskSize, MaskValue, Pow256, Pow2;
  }

  /** Every request of every attempt of every run asks for exactly the address and the server of
      an offer that was heard in that attempt, and is on the wire. */
  lemma RequestsOffers(c: Client, s: Surroundings, timeout: int, i: nat)
    requires i < |AcquireAll(c, s, timeout).attempts| && AcquireAll(c, s, timeout).attempts[i].requested
    ensures RequestsHeard(c, AcquireAll(c, s, timeout).attempts[i])
  {
    hide AcquireAll, RequestsHeard;
    AcquireAllOk(c, s, timeout);
    AttemptRequests(c, AcquireAll(c, s, timeout).attempts[i]);
  }

  ghost predicate RequestsHeard(c: Client, a: Attempt) {
    && c.AttemptOk(a) && a.requested
    && var offer := c.Offer(a).value.value;
       && offer.messageType == OFFER
       && (exists i :: 0 <= i < |a.first| && ServerFrame(a.first[i]) == Ok(Reply(offer, c.xid, c.mac)))
       && Requests(c, c.RequestFrame(offer), offer) && Sent(c.RequestFrame(offer)) in c.AttemptLog(a)
  }

  lemma AttemptRequests(c: Client, a: Attempt)
    requires c.AttemptOk(a) && a.requested
    ensures RequestsHeard(c, a)
  {
    hide ServerFrame, ClientFrame, Judge, Requests;
    JudgedFrame(a.first, c.xid, c.mac, OFFER);
    var offer := c.Offer(a).value.value;
    var i :| 0 <= i < |a.first| && ServerFrame(a.first[i]) == Ok(Reply(offer, c.xid, c.mac));
    RequestsOffer(c, a.first[i], offer);
    var l := AllReceived(a.first);
    assert c.AttemptLog(a)[1 + |l|] == Sent(c.RequestFrame(offer));
  }

  /** In attempt a, a server frame for this client and transaction offered and another
      acknowledged, the request in between asked for exactly the address and the server of the
      offer, and the lease is the acknowledgement with the gaps filled from that offer. */
  ghost predicate Obtained(c: Client, a: Attempt, lease: Lease) {
    && c.AttemptOk(a) && a.requested && c.Ack(a).Some? && c.Ack(a).value.Ok?
    && var offer, ack := c.Offer(a).value.value, c.Ack(a).value.value;
       && (exists i :: 0 <= i < |a.first| && ServerFrame(a.first[i]) == Ok(Reply(offer, c.xid, c.mac)))
       && (exists i :: 0 <= i < |a.second| && ServerFrame(a.second[i]) == Ok(Reply(ack, c.xid, c.mac)))
       && offer.messageType == OFFER && ack.messageType == ACK
       && Requests(c, c.RequestFrame(offer), offer) && Sent(c.RequestFrame(offer)) in c.AttemptLog(a)
       && Merges(lease, offer, ack, c.mac)
  }

  lemma AttemptProvenance(c: Client, a: Attempt, lease: Lease)
    requires c.Leased(a, lease)
    ensures Obtained(c, a, lease)
  {
    hide ServerFrame, ClientFrame, Judge, MergeLease, Merges, Requests;
    JudgedFrame(a.first, c.xid, c.mac, OFFER);
    JudgedFrame(a.second, c.xid, c.mac, ACK);
    var offer, ack := c.Offer(a).value.value, c.Ack(a).value.value;
    var i :| 0 <= i < |a.first| && ServerFrame(a.first[i]) == Ok(Reply(offer, c.xid, c.mac));
    RequestsOffer(c, a.first[i], offer);
    LeaseMerges(c.mac, offer, ack);
    var l := AllReceived(a.first);
    assert c.AttemptLog(a)[1 + |l|] == Sent(c.RequestFrame(offer));
  }

  /** Where a lease comes from, in every run that yields one: from its last attempt. */
  lemma LeaseProvenance(c: Client, s: Surroundings, timeout: int)
    requires AcquireAll(c, s, timeout).outcome.Done?
    ensures
      var r := AcquireAll(c, s, timeout);
      r.attempts != [] && Obtained(c, r.attempts[|r.attempts| - 1], r.outcome.value)
  {
    hide AcquireAll, Obtained, Client.AttemptOk, Client.Leased;
    AcquireAllOk(c, s, timeout);
    var r := AcquireAll(c, s, timeout);
    AttemptProvenance(c, r.attempts[|r.attempts| - 1], r.outcome.value);
  }

  // ------------------------------------------------------------------ completeness

  /** From clock reading at on, the k-th look at the device brings the message that is wanted, in
      time; looks before it bring nothing decisive. */
  ghost predicate Answered(c: Client, clock: seq<int>, receipts: seq<Receipt>, want: byte, deadline: int, k: nat,
      message: Message) {
    && k < |clock| && k < |receipts|
    && (forall i :: 0 <= i <= k ==> clock[i] < deadline)
    && (forall i :: 0 <= i < k ==> Idle(receipts[i], c.xid, c.mac, want))
    && Carries(receipts[k], c.xid, c.mac, want, message)
  }

  /** In the surroundings s of attempt n, the device transmits, an offer comes within the client's
      patience, and an acknowledgement that completes it to the lease within four seconds. */
  ghost predicate Prompt(c: Client, s: Surroundings, deadline: int, n: nat, k: nat, l: nat, offer: Message,
      ack: Message, lease: Lease)
    requires n < 4
  {
    && |s.clock| > k + 4 && |s.receipts| > k && s.clock[0] < deadline
    && s.Transmits() && s.(transmits := Rest(s.transmits)).Transmits()
    && Answered(c, s.clock[2..], s.receipts, 2, Earlier(s.clock[1] + OfferWait(n), deadline), k, offer)
    && Answered(c, s.clock[k + 4..], s.receipts[k + 1..], 5, Earlier(s.clock[k + 3] + 4_000_000_000, deadline), l, ack)
    && MergeLease(c.mac, offer, ack) == Ok(lease)
  }

  lemma PromptTry(c: Client, s: Surroundings, deadline: int, n: nat, k: nat, l: nat, offer: Message, ack: Message,
      lease: Lease)
    requires n < 4 && Prompt(c, s, deadline, n, k, l, offer, ack, lease)
    ensures Try(c, s.(clock := s.clock[1..]), deadline, n).outcome == Done(lease)
  {
    hide Wait, MergeLease, BoundedDeadline, Patience, Idle, Carries, ServerFrame, Earlier, OfferWait;
    var clock := s.clock[1..];
    assert clock[1..] == s.clock[2..] && clock[0] == s.clock[1];
    assert s.clock[2..][k + 1..] == s.clock[k + 3..] && s.clock[k + 3..][1..] == s.clock[k + 4..];
    assert s.clock[k + 3..][0] == s.clock[k + 3];
    Waits(n, s.clock[1], deadline);
    Waits(n, s.clock[k + 3], deadline);
    WaitHears(s.clock[2..], s.receipts, c.xid, c.mac, 2, Earlier(s.clock[1] + OfferWait(n), deadline), k, offer);
    WaitHears(s.clock[k + 4..], s.receipts[k + 1..], c.xid, c.mac, 5,
        Earlier(s.clock[k + 3] + 4_000_000_000, deadline), l, ack);
    HeardServer(c, s.receipts[k], offer);
  }

  /** In the surroundings s of attempt n, the device transmits, an offer comes in time, and then
      the server rejects the request within four seconds. */
  ghost predicate Refuses(c: Client, s: Surroundings, deadline: int, n: nat, k: nat, l: nat, offer: Message,
      nak: Message)
    requires n < 4
  {
    && |s.clock| > k + 4 && |s.receipts| > k && s.clock[0] < deadline
    && s.Transmits() && s.(transmits := Rest(s.transmits)).Transmits()
    && Answered(c, s.clock[2..], s.receipts, 2, Earlier(s.clock[1] + OfferWait(n), deadline), k, offer)
    && var clock, receipts := s.clock[k + 4..], s.receipts[k + 1..];
       && l < |clock| && l < |receipts| && Carries(receipts[l], c.xid, c.mac, 6, nak)
       && (forall i :: 0 <= i <= l ==> clock[i] < Earlier(s.clock[k + 3] + 4_000_000_000, deadline))
       && (forall i :: 0 <= i < l ==> Idle(receipts[i], c.xid, c.mac, 5))
  }

  /** A rejection ends the attempt without a lease, whatever the device would give next. */
  lemma RejectedTry(c: Client, s: Surroundings, deadline: int, n: nat, k: nat, l: nat, offer: Message, nak: Message)
    requires n < 4 && Refuses(c, s, deadline, n, k, l, offer, nak)
    ensures
      var t := Try(c, s.(clock := s.clock[1..]), deadline, n);
      && t.outcome == Failed && t.attempt.requested
      && t.rest.clock == s.clock[k + 4..][l + 1..] && t.rest.receipts == s.receipts[k + 1..][l + 1..]
  {
    hide Wait, MergeLease, BoundedDeadline, Patience, Idle, Carries, ServerFrame, Earlier, OfferWait;
    var clock := s.clock[1..];
    assert clock[1..] == s.clock[2..] && clock[0] == s.clock[1];
    assert s.clock[2..][k + 1..] == s.clock[k + 3..] && s.clock[k + 3..][1..] == s.clock[k + 4..];
    assert s.clock[k + 3..][0] == s.clock[k + 3];
    Waits(n, s.clock[1], deadline);
    Waits(n, s.clock[k + 3], deadline);
    WaitHears(s.clock[2..], s.receipts, c.xid, c.mac, 2, Earlier(s.clock[1] + OfferWait(n), deadline), k, offer);
    Rejected(s.clock[k + 4..], s.receipts[k + 1..], c.xid, c.mac, 5,
        Earlier(s.clock[k + 3] + 4_000_000_000, deadline), l, nak);
    HeardServer(c, s.receipts[k], offer);
  }

  /** What is left of the surroundings after n attempts that fail. */
  function AfterFailures(c: Client, s: Surroundings, deadline: int, n: nat): Option<Surroundings> {
    if n == 0 then Some(s)
    else
      match AfterFailures(c, s, deadline, n - 1)
      case None => None
      case Some(t) =>
        if t.clock == [] || t.clock[0] >= deadline then None
        else
          var a := Try(c, t.(clock := t.clock[1..]), deadline, n - 1);
          if a.outcome.Failed? then Some(a.rest) else None
  }

  lemma {:induction false} FailuresGoOn(c: Client, s: Surroundings, deadline: int, n: nat)
    requires n <= MAX_ATTEMPTS && AfterFailures(c, s, deadline, n).Some?
    ensures
      var all, rest := TryAll(c, s, deadline, 0), TryAll(c, AfterFailures(c, s, deadline, n).value, deadline, n);
      all.outcome == rest.outcome && |all.attempts| == n + |rest.attempts|
    decreases n
  {
    hide Try;
    if n > 0 { FailuresGoOn(c, s, deadline, n - 1); }
  }

  /** A server that answers in time is rewarded: the first attempt in which it does so, whatever
      went wrong in those before, yields the lease. */
  lemma PromptServer(c: Client, s: Surroundings, timeout: int, n: nat, k: nat, l: nat, offer: Message, ack: Message,
      lease: Lease)
    requires n < MAX_ATTEMPTS && s.clock != []
    requires
      var deadline := s.clock[0] + if timeout <= 0 then 20_000_000_000 else timeout;
      var now := AfterFailures(c, s.(clock := s.clock[1..]), deadline, n);
      now.Some? && Prompt(c, now.value, deadline, n, k, l, offer, ack, lease)
    ensures AcquireAll(c, s, timeout).outcome == Done(lease) && |AcquireAll(c, s, timeout).attempts| == n + 1
  {
    hide TryAll, Prompt, AfterFailures;
    var deadline := s.clock[0] + if timeout <= 0 then DEFAULT_TIMEOUT else timeout;
    var start := s.(clock := s.clock[1..]);
    FailuresGoOn(c, start, deadline, n);
    PromptAll(c, AfterFailures(c, start, deadline, n).value, deadline, n, k, l, offer, ack, lease);
    assert AcquireAll(c, s, timeout) == TryAll(c, start, deadline, 0);
  }

  lemma PromptAll(c: Client, s: Surroundings, deadline: int, n: nat, k: nat, l: nat, offer: Message, ack: Message,
      lease: Lease)
    requires n < MAX_ATTEMPTS && Prompt(c, s, deadline, n, k, l, offer, ack, lease)
    ensures TryAll(c, s, deadline, n).outcome == Done(lease) && |TryAll(c, s, deadline, n).attempts| == 1
  {
    PromptTry(c, s, deadline, n, k, l, offer, ack, lease);
    hide Try, Answered, BoundedDeadline, MergeLease;
  }

  lemma HeardServer(c: Client, r: Receipt, offer: Message)
    requires Carries(r, c.xid, c.mac, 2, offer)
    ensures offer.server != NoAddr
  {
    ServerNeverMissing(r.frame);
    hide ServerFrame;
  }
}
