/** The sending goroutines of one side. Each runs `iperfSend`: wait for a tick, write a block if the stream may send,
    add to the test's counters, check the rate, and stop at the end of the test or at a limit. The streams, the
    throttling ticker, the clock and the end of the test interleave; each statement on shared state is one event. */
module SendLoop {
  import opened Wrappers
  import opened Arithmetic
  import opened Rates
  import opened Words
  import opened Sums

  /** Test duration in seconds, rate in bits per second, block size in bytes, and the limits on bytes and blocks (zero
      for none). */
  datatype Settings = Settings(duration: nat, burst: bool, rate: nat, blksize: nat, bytes: nat, blocks: nat)

  datatype Place = Waiting | AddingBytes(n: nat) | AddingBlock | Checking | Testing | Posted | Closed

  datatype Sender = Sender(place: Place, bytes: nat, writes: nat, canSend: bool)

  /** `now` is the time since `start_time` in nanoseconds. */
  datatype Test = Test(now: nat, done: bool, bytesSent: nat, blocksSent: nat, streams: seq<Sender>)

  /** `Tick` is a tick of stream `i`'s own ticker; `n` is what the write returns if there is one. `Go` is the next
      statement of stream `i`; `Throttled` is a tick of the throttling ticker. */
  datatype Event = Advance(dt: nat) | EndTest | Tick(i: nat, n: int) | Go(i: nat) | Throttled(i: nat)

  /** `checkThrottle`, with the quotient multiplied out; no time elapsed counts as an infinite rate once a byte is sent,
      and as no comparison before. */
  function Throttle(cfg: Settings, s: Sender, now: nat, done: bool): Sender {
    if done then s
    else if SCALE * s.bytes < cfg.rate * now && !s.canSend then s.(canSend := true)
    else if SCALE * s.bytes > cfg.rate * now && s.canSend then s.(canSend := false)
    else s
  }

  /** The conditions of `iperfSend`'s last test. */
  predicate Over(cfg: Settings, t: Test) {
    || (cfg.duration != 0 && t.done)
    || (cfg.bytes != 0 && t.bytesSent >= cfg.bytes)
    || (cfg.blocks != 0 && t.blocksSent >= cfg.blocks)
  }

  function With(t: Test, i: nat, s: Sender): Test
    requires i < |t.streams|
  {
    t.(streams := t.streams[i := s])
  }

  function TickNext(cfg: Settings, t: Test, i: nat, n: int): Option<Test>
    requires i < |t.streams|
  {
    var s := t.streams[i];
    if !s.place.Waiting? then None
    else if !s.canSend then Some(With(t, i, s.(place := Checking)))
    else if n < 0 then Some(With(t, i, s.(place := Closed)))
    else if n <= cfg.blksize then
      Some(With(t, i, s.(place := AddingBytes(n), bytes := s.bytes + n, writes := s.writes + 1)))
    else None
  }

  function GoNext(cfg: Settings, t: Test, i: nat): Option<Test>
    requires i < |t.streams|
  {
    var s := t.streams[i];
    match s.place
    case AddingBytes(n) => Some(With(t, i, s.(place := AddingBlock)).(bytesSent := t.bytesSent + n))
    case AddingBlock => Some(With(t, i, s.(place := Checking)).(blocksSent := t.blocksSent + 1))
    case Checking =>
      var checked := if cfg.burst then s else Throttle(cfg, s, t.now, t.done);
      Some(With(t, i, checked.(place := Testing)))
    case Testing => Some(With(t, i, s.(place := if Over(cfg, t) then Posted else Waiting)))
    case _ => None
  }

  /** The loop is reached: its ticker starts. */
  predicate Ticks(cfg: Settings) { Paces(cfg.burst, cfg.rate, cfg.blksize) }

  function Next(cfg: Settings, t: Test, e: Event): Option<Test> {
    match e
    case Advance(dt) => Some(t.(now := t.now + dt))
    case EndTest => Some(t.(done := true))
    case Tick(i, n) => if i < |t.streams| && Ticks(cfg) then TickNext(cfg, t, i, n) else None
    case Go(i) => if i < |t.streams| then GoNext(cfg, t, i) else None
    case Throttled(i) =>
      if i < |t.streams| && cfg.rate != 0 then Some(With(t, i, Throttle(cfg, t.streams[i], t.now, t.done))) else None
  }

  function Run(cfg: Settings, t: Test, events: seq<Event>): Option<Test>
    decreases |events|
  {
    if events == [] then Some(t)
    else
      match Next(cfg, t, events[0])
      case None => None
      case Some(next) => Run(cfg, next, events[1..])
  }

  /** `createSenderTicker` has let every stream send. */
  function Start(n: nat): Test { Test(0, false, 0, 0, seq(n, i => Sender(Waiting, 0, 0, true))) }

  /** A write that succeeds is of a whole block, as Go's `io.Writer` promises, if `whole` is set; of any part of it
      otherwise. */
  predicate Fits(cfg: Settings, whole: bool, e: Event) { e.Tick? && whole ==> e.n < 0 || e.n == cfg.blksize }

  predicate AllFit(cfg: Settings, whole: bool, events: seq<Event>) {
    forall k :: 0 <= k < |events| ==> Fits(cfg, whole, events[k])
  }

  ghost predicate Reachable(cfg: Settings, whole: bool, n: nat, t: Test) {
    exists events :: AllFit(cfg, whole, events) && Run(cfg, Start(n), events) == Some(t)
  }

  // ---------- pacing, from above ----------

  /** The stream is at most one block ahead of the requested rate. */
  predicate Paced(cfg: Settings, s: Sender, now: nat) { SCALE * s.bytes <= cfg.rate * now + SCALE * cfg.blksize }

  predicate OnTime(cfg: Settings, s: Sender, now: nat) { SCALE * s.bytes <= cfg.rate * now }

  /** A stream about to send is not ahead at all: its own check comes after each write, and is skipped only on a test
      that is over. */
  predicate Held(cfg: Settings, s: Sender, now: nat, done: bool) {
    && Paced(cfg, s, now)
    && (s.place.Waiting? && s.canSend ==> OnTime(cfg, s, now))
    && (s.place.Testing? && s.canSend && !done ==> OnTime(cfg, s, now))
  }

  ghost predicate AllHeld(cfg: Settings, t: Test) {
    forall i :: 0 <= i < |t.streams| ==> Held(cfg, t.streams[i], t.now, t.done)
  }

  /** Time only helps. */
  lemma HeldLater(cfg: Settings, s: Sender, now: nat, later: nat, done: bool)
    requires Held(cfg, s, now, done) && now <= later
    ensures Held(cfg, s, later, done)
  {
    MulMonotone(now, later, cfg.rate);
  }

  lemma HeldTick(cfg: Settings, t: Test, i: nat, n: int, next: Test)
    requires i < |t.streams| && Held(cfg, t.streams[i], t.now, t.done) && TickNext(cfg, t, i, n) == Some(next)
    ensures Held(cfg, next.streams[i], next.now, next.done)
  {
    var s := t.streams[i];
    if s.canSend && n >= 0 {
      MulMonotone(n, cfg.blksize, SCALE);
      assert SCALE * (s.bytes + n) == SCALE * s.bytes + SCALE * n;
    }
  }

  lemma HeldGo(cfg: Settings, t: Test, i: nat, next: Test)
    requires !cfg.burst && cfg.duration != 0
    requires i < |t.streams| && Held(cfg, t.streams[i], t.now, t.done) && GoNext(cfg, t, i) == Some(next)
    ensures Held(cfg, next.streams[i], next.now, next.done)
  {
  }

  lemma HeldStep(cfg: Settings, t: Test, e: Event, next: Test)
    requires !cfg.burst && cfg.duration != 0 && AllHeld(cfg, t) && Next(cfg, t, e) == Some(next)
    ensures AllHeld(cfg, next)
  {
    match e
    case Advance(dt) =>
      forall i | 0 <= i < |t.streams| ensures Held(cfg, t.streams[i], next.now, t.done) {
        HeldLater(cfg, t.streams[i], t.now, next.now, t.done);
      }
    case Tick(i, n) => HeldTick(cfg, t, i, n, next);
    case Go(i) => HeldGo(cfg, t, i, next);
    case Throttled(i) =>
      assert Held(cfg, t.streams[i], t.now, t.done);
      assert Held(cfg, next.streams[i], t.now, t.done);
    case EndTest =>
  }

  // ---------- settings under which a stream writes once at most ----------

  /** A limit on bytes that the first write reaches, if it writes anything. */
  predicate OneWriteReaches(cfg: Settings, whole: bool) {
    if whole then 1 <= cfg.bytes <= cfg.blksize else cfg.bytes == 1
  }

  predicate OneWrite(cfg: Settings, whole: bool) { cfg.blocks == 1 || OneWriteReaches(cfg, whole) }

  /** With such a limit a stream that has written goes on to the last test and finds it true. */
  predicate Spent(cfg: Settings, whole: bool, t: Test, s: Sender) {
    && (s.writes == 0 ==> s.bytes == 0)
    && (cfg.blksize == 0 || !Ticks(cfg) ==> s.bytes == 0)
    && (OneWriteReaches(cfg, whole) ==>
          && s.bytes <= cfg.blksize
          && (s.place.Waiting? ==> s.bytes == 0)
          && (s.place.AddingBytes? ==> s.bytes == s.place.n && (whole ==> s.place.n == cfg.blksize))
          && (s.bytes > 0 && (s.place.AddingBlock? || s.place.Checking? || s.place.Testing?) ==>
                t.bytesSent >= cfg.bytes))
    && (cfg.blocks == 1 ==>
          && s.bytes <= cfg.blksize
          && (s.place.Waiting? ==> s.writes == 0)
          && (s.writes > 0 && (s.place.Checking? || s.place.Testing?) ==> t.blocksSent >= 1))
  }

  ghost predicate AllSpent(cfg: Settings, whole: bool, t: Test) {
    forall i :: 0 <= i < |t.streams| ==> Spent(cfg, whole, t, t.streams[i])
  }

  lemma SpentMove(cfg: Settings, whole: bool, t: Test, e: Event, next: Test)
    requires (e.Tick? || e.Go? || e.Throttled?) && e.i < |t.streams| && Spent(cfg, whole, t, t.streams[e.i])
    requires Next(cfg, t, e) == Some(next) && Fits(cfg, whole, e)
    ensures next.streams == t.streams[e.i := next.streams[e.i]] && Spent(cfg, whole, next, next.streams[e.i])
  {
    match e
    case Tick(_, _) =>
    case Go(_) =>
    case Throttled(_) =>
  }

  /** The counters of the test only grow, so the other streams stay as spent as they were. */
  lemma SpentStep(cfg: Settings, whole: bool, t: Test, e: Event, next: Test)
    requires AllSpent(cfg, whole, t) && Next(cfg, t, e) == Some(next) && Fits(cfg, whole, e)
    ensures AllSpent(cfg, whole, next)
  {
    assert next.bytesSent >= t.bytesSent && next.blocksSent >= t.blocksSent;
    if e.Tick? || e.Go? || e.Throttled? {
      assert Spent(cfg, whole, t, t.streams[e.i]);
      SpentMove(cfg, whole, t, e, next);
    }
    forall k | 0 <= k < |next.streams| ensures Spent(cfg, whole, next, next.streams[k]) {
      assert Spent(cfg, whole, t, t.streams[k]);
    }
  }

  /** The settings that hold a stream to its rate: its ticker does not start, so that it sends nothing; or it cannot
      write more than one block; or it checks its rate after every block and stops when checks are skipped. */
  predicate Governed(cfg: Settings, whole: bool) {
    !Ticks(cfg) || cfg.blksize == 0 || OneWrite(cfg, whole) || (!cfg.burst && cfg.duration != 0)
  }

  lemma {:induction false} GovernedRun(cfg: Settings, whole: bool, t: Test, events: seq<Event>, last: Test)
    requires Run(cfg, t, events) == Some(last) && AllFit(cfg, whole, events) && AllSpent(cfg, whole, t)
    requires !cfg.burst && cfg.duration != 0 ==> AllHeld(cfg, t)
    ensures AllSpent(cfg, whole, last) && |last.streams| == |t.streams|
    ensures !cfg.burst && cfg.duration != 0 ==> AllHeld(cfg, last)
    decreases |events|
  {
    if events != [] {
      var next := Next(cfg, t, events[0]).value;
      SpentStep(cfg, whole, t, events[0], next);
      if !cfg.burst && cfg.duration != 0 {
        HeldStep(cfg, t, events[0], next);
      }
      GovernedRun(cfg, whole, next, events[1..], last);
    }
  }

  /** Whatever the ticks, the sizes of the writes and the interleaving, a governed stream is never more than one block
      ahead of its rate. */
  lemma NeverAhead(cfg: Settings, whole: bool, n: nat, t: Test, i: nat)
    requires Governed(cfg, whole) && Reachable(cfg, whole, n, t) && i < |t.streams|
    ensures Paced(cfg, t.streams[i], t.now)
  {
    var events :| AllFit(cfg, whole, events) && Run(cfg, Start(n), events) == Some(t);
    GovernedRun(cfg, whole, Start(n), events, t);
    var s := t.streams[i];
    assert Spent(cfg, whole, t, s);
    if cfg.burst || cfg.duration == 0 {
      MulMonotone(s.bytes, cfg.blksize, SCALE);
      MulMonotone(0, t.now, cfg.rate);
    }
  }

  lemma {:induction false} RunAppends(cfg: Settings, t: Test, events: seq<Event>, mid: Test, more: seq<Event>)
    requires Run(cfg, t, events) == Some(mid)
    ensures Run(cfg, t, events + more) == Run(cfg, mid, more)
    decreases |events|
  {
    if events == [] {
      assert events + more == more;
    } else {
      RunAppends(cfg, Next(cfg, t, events[0]).value, events[1..], mid, more);
      assert (events + more)[1..] == events[1..] + more;
    }
  }

  /** A step extends a run. */
  lemma After(cfg: Settings, whole: bool, n: nat, t: Test, e: Event) returns (next: Test)
    requires Reachable(cfg, whole, n, t) && Next(cfg, t, e).Some? && Fits(cfg, whole, e)
    ensures Reachable(cfg, whole, n, next) && Some(next) == Next(cfg, t, e)
  {
    next := Next(cfg, t, e).value;
    var events :| AllFit(cfg, whole, events) && Run(cfg, Start(n), events) == Some(t);
    assert Run(cfg, next, []) == Some(next);
    assert Run(cfg, t, [e]) == Some(next);
    RunAppends(cfg, Start(n), events, t, [e]);
    assert AllFit(cfg, whole, events + [e]);
  }

  lemma StartReachable(cfg: Settings, whole: bool, n: nat)
    ensures Reachable(cfg, whole, n, Start(n))
  {
    assert AllFit(cfg, whole, []) && Run(cfg, Start(n), []) == Some(Start(n));
  }

  /** A write by stream 0 and its way around the loop, when no limit is reached. */
  lemma WriteOnce(cfg: Settings, whole: bool, n: nat, t: Test, size: nat) returns (next: Test)
    requires n >= 1 && Reachable(cfg, whole, n, t) && |t.streams| == n && t.now == 0
    requires t.streams[0] == Sender(Waiting, 0, 0, true) && t.bytesSent == t.blocksSent == 0
    requires Ticks(cfg) && 1 <= size <= cfg.blksize && (whole ==> size == cfg.blksize)
    requires cfg.blocks != 1 && (cfg.bytes == 0 || size < cfg.bytes) && (t.done ==> cfg.duration == 0)
    ensures Reachable(cfg, whole, n, next) && |next.streams| == n && next.now == 0 && next.done == t.done
    ensures next.streams[0] == Sender(Waiting, size, 1, cfg.burst || t.done)
  {
    next := After(cfg, whole, n, t, Tick(0, size));
    next := After(cfg, whole, n, next, Go(0));
    next := After(cfg, whole, n, next, Go(0));
    next := After(cfg, whole, n, next, Go(0));
    next := After(cfg, whole, n, next, Go(0));
  }

  /** The smallest first write. */
  function FirstWrite(cfg: Settings, whole: bool): nat { if whole then cfg.blksize else 1 }

  /** Without a check in between a stream writes again at once. */
  lemma TwoWrites(cfg: Settings, whole: bool, n: nat) returns (t: Test)
    requires n >= 1 && !Governed(cfg, whole)
    ensures Reachable(cfg, whole, n, t) && |t.streams| == n
    ensures !Paced(cfg, t.streams[0], t.now) && t.streams[0].bytes > cfg.blksize
  {
    t := Start(n);
    StartReachable(cfg, whole, n);
    if !cfg.burst {
      t := After(cfg, whole, n, t, EndTest);
    }
    t := WriteOnce(cfg, whole, n, t, FirstWrite(cfg, whole));
    t := After(cfg, whole, n, t, Tick(0, cfg.blksize));
  }

  /** The one-block bound holds in every run exactly for the governed settings, with writes of whole blocks and with
      writes of any size. */
  lemma PacedIffGoverned(cfg: Settings, whole: bool, n: nat)
    requires n >= 1
    ensures (forall t, i: nat :: Reachable(cfg, whole, n, t) && i < |t.streams| ==>
               Paced(cfg, t.streams[i], t.now)) <==>
            Governed(cfg, whole)
  {
    if Governed(cfg, whole) {
      forall t, i: nat | Reachable(cfg, whole, n, t) && i < |t.streams| ensures Paced(cfg, t.streams[i], t.now) {
        NeverAhead(cfg, whole, n, t, i);
      }
    } else {
      var t := TwoWrites(cfg, whole, n);
    }
  }

  /** The settings under which no stream ever sends more than one block: a ticker that does not start, nothing to send,
      a limit of one write, or a rate of zero that is checked. */
  predicate Stalls(cfg: Settings, whole: bool) {
    !Ticks(cfg) || cfg.blksize == 0 || OneWrite(cfg, whole) || (cfg.rate == 0 && !cfg.burst && cfg.duration != 0)
  }

  lemma StalledStream(cfg: Settings, whole: bool, n: nat, t: Test, i: nat)
    requires Stalls(cfg, whole) && Reachable(cfg, whole, n, t) && i < |t.streams|
    ensures t.streams[i].bytes <= cfg.blksize
  {
    var events :| AllFit(cfg, whole, events) && Run(cfg, Start(n), events) == Some(t);
    GovernedRun(cfg, whole, Start(n), events, t);
    assert Spent(cfg, whole, t, t.streams[i]);
    if cfg.rate == 0 && !cfg.burst && cfg.duration != 0 {
      assert Held(cfg, t.streams[i], t.now, t.done);
    }
  }

  /** With a rate the throttle opens again once enough time has passed. */
  lemma WritesAgain(cfg: Settings, whole: bool, n: nat) returns (t: Test)
    requires n >= 1 && !Stalls(cfg, whole) && Governed(cfg, whole)
    ensures Reachable(cfg, whole, n, t) && |t.streams| == n && t.streams[0].bytes > cfg.blksize
  {
    var size := FirstWrite(cfg, whole);
    var dt := SCALE * size + 1;
    StartReachable(cfg, whole, n);
    t := WriteOnce(cfg, whole, n, Start(n), size);
    t := After(cfg, whole, n, t, Advance(dt));
    MulMonotone(1, cfg.rate, dt);
    t := After(cfg, whole, n, t, Throttled(0));
    t := After(cfg, whole, n, t, Tick(0, cfg.blksize));
  }

  /** In every run every stream sends at most one block if and only if the settings stall it: a bandwidth of zero is
      no limit on paper, and lets a stream send one block and never again. */
  lemma OneBlockIffStalls(cfg: Settings, whole: bool, n: nat)
    requires n >= 1
    ensures (forall t, i: nat :: Reachable(cfg, whole, n, t) && i < |t.streams| ==>
               t.streams[i].bytes <= cfg.blksize) <==>
            Stalls(cfg, whole)
  {
    if Stalls(cfg, whole) {
      forall t, i: nat | Reachable(cfg, whole, n, t) && i < |t.streams| ensures t.streams[i].bytes <= cfg.blksize {
        StalledStream(cfg, whole, n, t, i);
      }
    } else if Governed(cfg, whole) {
      var t := WritesAgain(cfg, whole, n);
    } else {
      var t := TwoWrites(cfg, whole, n);
    }
  }

  // ---------- pacing with ideal ticks, from both sides ----------

  function SendInterval(cfg: Settings): nat { SendPeriod(cfg.burst, cfg.rate, cfg.blksize) }

  /** One tick on time, a write of a full block if the stream may send, and the statements up to the next tick. */
  function IdealTurn(cfg: Settings, period: nat, t: Test, i: nat): seq<Event> {
    [Advance(period)]
    + if i < |t.streams| && t.streams[i].canSend then [Tick(i, cfg.blksize), Go(i), Go(i), Go(i), Go(i)]
      else [Tick(i, cfg.blksize), Go(i), Go(i)]
  }

  /** The run of `k` ideal ticks. */
  function IdealRun(cfg: Settings, period: nat, t: Test, i: nat, k: nat): Option<Test> {
    if k == 0 then Some(t)
    else
      match IdealRun(cfg, period, t, i, k - 1)
      case None => None
      case Some(last) => Run(cfg, last, IdealTurn(cfg, period, last, i))
  }

  /** What is due by now and not yet sent, in bits times 10^9; negative when the stream is ahead. */
  function Deficit(cfg: Settings, s: Sender, now: nat): int { cfg.rate * now - SCALE * s.bytes }

  /** After a tick: a stream that may send is late by at most one interval, one that may not is early by less than one
      nanosecond's worth. */
  predicate Tracking(cfg: Settings, period: nat, t: Test, i: nat) {
    && i < |t.streams| && !t.done
    && var s := t.streams[i];
       && s.place.Waiting?
       && (if s.canSend then 0 <= Deficit(cfg, s, t.now) <= cfg.rate * period
           else 0 - cfg.rate < Deficit(cfg, s, t.now) < 0)
  }

  /** A rate, no limits, and a period whose bits are those of a block, up to rounding down. */
  predicate Ideal(cfg: Settings, period: nat) {
    && Ticks(cfg) && !cfg.burst && cfg.rate != 0 && cfg.bytes == 0 && cfg.blocks == 0
    && cfg.rate <= cfg.rate * period <= SCALE * cfg.blksize < cfg.rate * period + cfg.rate
  }

  /** The ticker's period is such a period, if the ticker starts and the period is computed without wrap-around. */
  lemma IntervalFits(cfg: Settings)
    requires !cfg.burst && cfg.rate != 0 && cfg.bytes == 0 && cfg.blocks == 0
    requires cfg.blksize * SCALE < UINT64 && Ticks(cfg)
    ensures Ideal(cfg, SendInterval(cfg))
  {
    var b := cfg.blksize * SCALE;
    PacesIffTickerStarts(cfg.burst, cfg.rate, cfg.blksize);
    QuotientAtLeast(b, cfg.rate, 0);
    assert b == cfg.rate * (b / cfg.rate) + b % cfg.rate;
    MulMonotone(1, SendInterval(cfg), cfg.rate);
  }

  /** The state at the end of a turn whose tick came at `t.now`. */
  function TurnEnd(cfg: Settings, t: Test, i: nat): Test
    requires i < |t.streams|
  {
    var s := t.streams[i];
    if s.canSend then
      var sent := s.(bytes := s.bytes + cfg.blksize, writes := s.writes + 1);
      With(t, i, Throttle(cfg, sent, t.now, false).(place := Waiting))
      .(bytesSent := t.bytesSent + cfg.blksize, blocksSent := t.blocksSent + 1)
    else
      With(t, i, Throttle(cfg, s, t.now, false).(place := Waiting))
  }

  function Later(t: Test, period: nat): Test { t.(now := t.now + period) }

  lemma Overwritten<T>(s: seq<T>, i: nat, x: T, y: T)
    requires i < |s|
    ensures s[i := x][i := y] == s[i := y]
  {
  }

  lemma Unroll(cfg: Settings, t: Test, events: seq<Event>, next: Test)
    requires events != [] && Next(cfg, t, events[0]) == Some(next)
    ensures Run(cfg, t, events) == Run(cfg, next, events[1..])
  {
  }

  /** The check and the last test, when no limit is set and the test goes on. */
  lemma FinishTurn(cfg: Settings, period: nat, t: Test, i: nat)
    requires Ideal(cfg, period) && i < |t.streams| && t.streams[i].place.Checking? && !t.done
    ensures Run(cfg, t, [Go(i), Go(i)])
            == Some(With(t, i, Throttle(cfg, t.streams[i], t.now, false).(place := Waiting)))
  {
    var t1 := Next(cfg, t, Go(i)).value;
    var t2 := Next(cfg, t1, Go(i)).value;
    Unroll(cfg, t, [Go(i), Go(i)], t1);
    assert [Go(i), Go(i)][1..] == [Go(i)];
    Unroll(cfg, t1, [Go(i)], t2);
    assert [Go(i)][1..] == [];
    assert t.streams[i := t1.streams[i]][i := t2.streams[i]] == t.streams[i := t2.streams[i]];
  }

  lemma AdvanceFirst(cfg: Settings, t: Test, dt: nat, events: seq<Event>)
    ensures Run(cfg, t, [Advance(dt)] + events) == Run(cfg, Later(t, dt), events)
  {
    Unroll(cfg, t, [Advance(dt)] + events, Later(t, dt));
    assert ([Advance(dt)] + events)[1..] == events;
  }

  lemma IdleTurn(cfg: Settings, period: nat, t: Test, i: nat)
    requires Ideal(cfg, period) && i < |t.streams| && t.streams[i].place.Waiting? && !t.done && !t.streams[i].canSend
    ensures Run(cfg, t, [Tick(i, cfg.blksize), Go(i), Go(i)]) == Some(TurnEnd(cfg, t, i))
  {
    var t1 := Next(cfg, t, Tick(i, cfg.blksize)).value;
    Unroll(cfg, t, [Tick(i, cfg.blksize), Go(i), Go(i)], t1);
    assert [Tick(i, cfg.blksize), Go(i), Go(i)][1..] == [Go(i), Go(i)];
    FinishTurn(cfg, period, t1, i);
    Overwritten(t.streams, i, t1.streams[i], Throttle(cfg, t1.streams[i], t.now, false).(place := Waiting));
  }

  lemma SendingTurn(cfg: Settings, period: nat, t: Test, i: nat)
    requires Ideal(cfg, period) && i < |t.streams| && t.streams[i].place.Waiting? && !t.done && t.streams[i].canSend
    ensures Run(cfg, t, [Tick(i, cfg.blksize), Go(i), Go(i), Go(i), Go(i)]) == Some(TurnEnd(cfg, t, i))
  {
    var t1 := Next(cfg, t, Tick(i, cfg.blksize)).value;
    var t2 := Next(cfg, t1, Go(i)).value;
    var t3 := Next(cfg, t2, Go(i)).value;
    Unroll(cfg, t, [Tick(i, cfg.blksize), Go(i), Go(i), Go(i), Go(i)], t1);
    assert [Tick(i, cfg.blksize), Go(i), Go(i), Go(i), Go(i)][1..] == [Go(i), Go(i), Go(i), Go(i)];
    Unroll(cfg, t1, [Go(i), Go(i), Go(i), Go(i)], t2);
    assert [Go(i), Go(i), Go(i), Go(i)][1..] == [Go(i), Go(i), Go(i)];
    Unroll(cfg, t2, [Go(i), Go(i), Go(i)], t3);
    assert [Go(i), Go(i), Go(i)][1..] == [Go(i), Go(i)];
    FinishTurn(cfg, period, t3, i);
    Overwritten(t.streams, i, t1.streams[i], t2.streams[i]);
    Overwritten(t.streams, i, t2.streams[i], t3.streams[i]);
    Overwritten(t.streams, i, t3.streams[i], Throttle(cfg, t3.streams[i], t.now, false).(place := Waiting));
  }

  lemma TurnEnds(cfg: Settings, period: nat, t: Test, i: nat)
    requires Ideal(cfg, period) && i < |t.streams| && t.streams[i].place.Waiting? && !t.done
    ensures Run(cfg, t, IdealTurn(cfg, period, t, i)) == Some(TurnEnd(cfg, Later(t, period), i))
  {
    var t1 := Later(t, period);
    if t.streams[i].canSend {
      AdvanceFirst(cfg, t, period, [Tick(i, cfg.blksize), Go(i), Go(i), Go(i), Go(i)]);
      SendingTurn(cfg, period, t1, i);
    } else {
      AdvanceFirst(cfg, t, period, [Tick(i, cfg.blksize), Go(i), Go(i)]);
      IdleTurn(cfg, period, t1, i);
    }
  }

  lemma TurnTracks(cfg: Settings, period: nat, t: Test, i: nat)
    requires Ideal(cfg, period) && Tracking(cfg, period, t, i)
    ensures Tracking(cfg, period, TurnEnd(cfg, Later(t, period), i), i)
  {
    var s := t.streams[i];
    assert cfg.rate * (t.now + period) == cfg.rate * t.now + cfg.rate * period;
    assert SCALE * (s.bytes + cfg.blksize) == SCALE * s.bytes + SCALE * cfg.blksize;
  }

  /** Forever within one block of the requested rate: after every ideal tick the deficit is above minus the rate (the
      bits of one nanosecond, scaled) and at most one interval's worth, whatever the other streams have done before. */
  lemma {:induction false} IdealTicksTrack(cfg: Settings, period: nat, t: Test, i: nat, k: nat)
    requires Ideal(cfg, period) && Tracking(cfg, period, t, i)
    ensures IdealRun(cfg, period, t, i, k).Some?
    ensures var last := IdealRun(cfg, period, t, i, k).value;
            && last.now == t.now + k * period && Tracking(cfg, period, last, i)
            && 0 - cfg.rate < Deficit(cfg, last.streams[i], last.now) <= cfg.rate * period <= SCALE * cfg.blksize
  {
    hide Run, IdealTurn;
    if k > 0 {
      IdealTicksTrack(cfg, period, t, i, k - 1);
      var last := IdealRun(cfg, period, t, i, k - 1).value;
      TurnEnds(cfg, period, last, i);
      TurnTracks(cfg, period, last, i);
    }
  }

  /** From the start of the test on, with the ticker's own period. */
  lemma TracksTheRate(cfg: Settings, n: nat, i: nat, k: nat)
    requires !cfg.burst && cfg.rate != 0 && cfg.bytes == 0 && cfg.blocks == 0 && i < n
    requires cfg.blksize * SCALE < UINT64 && Ticks(cfg)
    ensures var run := IdealRun(cfg, SendInterval(cfg), Start(n), i, k);
            && run.Some? && i < |run.value.streams| && run.value.now == k * SendInterval(cfg)
            && 0 - cfg.rate < Deficit(cfg, run.value.streams[i], run.value.now) <= SCALE * cfg.blksize
  {
    IntervalFits(cfg);
    IdealTicksTrack(cfg, SendInterval(cfg), Start(n), i, k);
  }

  // ---------- the test's counters under concurrency ----------

  function Bytes(s: Sender): nat { s.bytes }

  function Writes(s: Sender): nat { s.writes }

  /** Bytes of the stream that are not yet in the test's counter. */
  function Unadded(s: Sender): nat { if s.place.AddingBytes? then s.place.n else 0 }

  function Uncounted(s: Sender): nat { if s.place.AddingBytes? || s.place.AddingBlock? then 1 else 0 }

  /** The test's counters are the streams' totals, up to what is on its way. */
  predicate Tallied(t: Test) {
    && t.bytesSent + Total(t.streams, Unadded) == Total(t.streams, Bytes)
    && t.blocksSent + Total(t.streams, Uncounted) == Total(t.streams, Writes)
  }

  /** How one event of stream `i` moves the counters. */
  lemma Moves(cfg: Settings, t: Test, e: Event, next: Test)
    requires (e.Tick? || e.Go? || e.Throttled?) && Next(cfg, t, e) == Some(next)
    ensures e.i < |t.streams| && next.streams == t.streams[e.i := next.streams[e.i]]
    ensures var s, r := t.streams[e.i], next.streams[e.i];
            && next.bytesSent - t.bytesSent + Unadded(r) - Unadded(s) == Bytes(r) - Bytes(s)
            && next.blocksSent - t.blocksSent + Uncounted(r) - Uncounted(s) == Writes(r) - Writes(s)
  {
  }

  lemma TalliedStep(cfg: Settings, t: Test, e: Event, next: Test)
    requires Tallied(t) && Next(cfg, t, e) == Some(next)
    ensures Tallied(next)
  {
    if e.Tick? || e.Go? || e.Throttled? {
      TotalUpdate(t.streams, e.i, next.streams[e.i], Unadded);
      TotalUpdate(t.streams, e.i, next.streams[e.i], Bytes);
      TotalUpdate(t.streams, e.i, next.streams[e.i], Uncounted);
      TotalUpdate(t.streams, e.i, next.streams[e.i], Writes);
      Moves(cfg, t, e, next);
    }
  }

  // ---------- limits ----------

  /** A stream that can still add to the byte counter before it reaches the last test. */
  function Eager(s: Sender): nat { if s.place.Waiting? || s.place.AddingBytes? then 1 else 0 }

  /** A stream that can still add to the block counter before it reaches the last test. */
  function BlockEager(s: Sender): nat { if Eager(s) == 1 || s.place.AddingBlock? then 1 else 0 }

  /** Past a limit every stream adds at most once more. */
  predicate Limited(cfg: Settings, t: Test) {
    && (cfg.bytes != 0 && t.bytesSent >= cfg.bytes ==>
          t.bytesSent + cfg.blksize * Total(t.streams, Eager) < cfg.bytes + cfg.blksize * |t.streams|)
    && (cfg.blocks != 0 && t.blocksSent >= cfg.blocks ==>
          t.blocksSent + Total(t.streams, BlockEager) < cfg.blocks + |t.streams|)
  }

  predicate Sized(cfg: Settings, t: Test) {
    forall i :: 0 <= i < |t.streams| && t.streams[i].place.AddingBytes? ==> t.streams[i].place.n <= cfg.blksize
  }

  lemma LimitedBytes(cfg: Settings, t: Test, i: nat, next: Test)
    requires Limited(cfg, t) && Sized(cfg, t) && i < |t.streams| && t.streams[i].place.AddingBytes?
    requires GoNext(cfg, t, i) == Some(next)
    ensures Limited(cfg, next)
  {
    var k, n := Total(t.streams, Eager), |t.streams|;
    TotalUpdate(t.streams, i, next.streams[i], Eager);
    TotalUpdate(t.streams, i, next.streams[i], BlockEager);
    TotalUpToAtMost(t.streams, Eager, 1, n);
    MulMonotone(k, n, cfg.blksize);
    assert cfg.blksize * (k - 1) == cfg.blksize * k - cfg.blksize;
  }

  lemma LimitedBlocks(cfg: Settings, t: Test, i: nat, next: Test)
    requires Limited(cfg, t) && i < |t.streams| && t.streams[i].place.AddingBlock?
    requires GoNext(cfg, t, i) == Some(next)
    ensures Limited(cfg, next)
  {
    TotalUpdate(t.streams, i, next.streams[i], Eager);
    TotalUpdate(t.streams, i, next.streams[i], BlockEager);
    TotalUpToAtMost(t.streams, BlockEager, 1, |t.streams|);
  }

  /** Events that leave the counters alone make no stream eager once a limit is reached. */
  lemma LimitedOtherwise(cfg: Settings, t: Test, e: Event, next: Test)
    requires Limited(cfg, t) && (e.Tick? || e.Go? || e.Throttled?) && Next(cfg, t, e) == Some(next)
    requires e.Go? ==> !t.streams[e.i].place.AddingBytes? && !t.streams[e.i].place.AddingBlock?
    ensures Limited(cfg, next)
  {
    var i := e.i;
    TotalUpdate(t.streams, i, next.streams[i], Eager);
    TotalUpdate(t.streams, i, next.streams[i], BlockEager);
    if Eager(next.streams[i]) <= Eager(t.streams[i]) {
      MulMonotone(Total(next.streams, Eager), Total(t.streams, Eager), cfg.blksize);
    }
  }

  lemma LimitedStep(cfg: Settings, t: Test, e: Event, next: Test)
    requires Limited(cfg, t) && Sized(cfg, t) && Next(cfg, t, e) == Some(next)
    ensures Limited(cfg, next) && Sized(cfg, next)
  {
    if e.Go? && t.streams[e.i].place.AddingBytes? {
      LimitedBytes(cfg, t, e.i, next);
    } else if e.Go? && t.streams[e.i].place.AddingBlock? {
      LimitedBlocks(cfg, t, e.i, next);
    } else if e.Tick? || e.Go? || e.Throttled? {
      LimitedOtherwise(cfg, t, e, next);
    }
  }

  lemma {:induction false} CountersRun(cfg: Settings, t: Test, events: seq<Event>, last: Test)
    requires Run(cfg, t, events) == Some(last) && Tallied(t) && Limited(cfg, t) && Sized(cfg, t)
    ensures Tallied(last) && Limited(cfg, last) && Sized(cfg, last) && |last.streams| == |t.streams|
    decreases |events|
  {
    if events != [] {
      var next := Next(cfg, t, events[0]).value;
      TalliedStep(cfg, t, events[0], next);
      LimitedStep(cfg, t, events[0], next);
      CountersRun(cfg, next, events[1..], last);
    }
  }

  lemma StartCounts(cfg: Settings, n: nat)
    ensures Tallied(Start(n)) && Limited(cfg, Start(n)) && Sized(cfg, Start(n))
  {
    var s := Start(n).streams;
    TotalUpToZero(s, Unadded, n);
    TotalUpToZero(s, Bytes, n);
    TotalUpToZero(s, Uncounted, n);
    TotalUpToZero(s, Writes, n);
  }

  /** In every run `test.bytesSent` and `test.blocksSent` are what the streams have sent, less what they have not added
      yet. */
  lemma CountersAddUp(cfg: Settings, whole: bool, n: nat, t: Test)
    requires Reachable(cfg, whole, n, t)
    ensures t.bytesSent + Total(t.streams, Unadded) == Total(t.streams, Bytes)
    ensures t.blocksSent + Total(t.streams, Uncounted) == Total(t.streams, Writes)
    ensures t.bytesSent <= Total(t.streams, Bytes) <= t.bytesSent + cfg.blksize * n
  {
    var events :| AllFit(cfg, whole, events) && Run(cfg, Start(n), events) == Some(t);
    StartCounts(cfg, n);
    CountersRun(cfg, Start(n), events, t);
    TotalUpToAtMost(t.streams, Unadded, cfg.blksize, n);
  }

  /** `n` concurrent senders overshoot a limit by less than one block each. */
  lemma OvershootBounded(cfg: Settings, whole: bool, n: nat, t: Test)
    requires Reachable(cfg, whole, n, t)
    ensures cfg.bytes > 0 ==> t.bytesSent < cfg.bytes + cfg.blksize * n
    ensures cfg.blocks > 0 ==> t.blocksSent < cfg.blocks + n
  {
    var events :| AllFit(cfg, whole, events) && Run(cfg, Start(n), events) == Some(t);
    StartCounts(cfg, n);
    CountersRun(cfg, Start(n), events, t);
    MulMonotone(0, n, cfg.blksize);
    MulMonotone(0, Total(t.streams, Eager), cfg.blksize);
  }

  // ---------- the end of the test ----------

  /** The test has ended and has a length, or a limit has been reached. */
  predicate MustStop(cfg: Settings, done: bool, bytesSent: nat, blocksSent: nat) {
    || (cfg.duration > 0 && done)
    || (cfg.bytes > 0 && bytesSent >= cfg.bytes)
    || (cfg.blocks > 0 && blocksSent >= cfg.blocks)
  }

  ghost predicate PostsWhenOver(cfg: Settings, t: Test) {
    forall i :: 0 <= i < |t.streams| && t.streams[i].place.Posted? ==>
      MustStop(cfg, t.done, t.bytesSent, t.blocksSent)
  }

  lemma {:induction false} PostsRun(cfg: Settings, t: Test, events: seq<Event>, last: Test)
    requires Run(cfg, t, events) == Some(last) && PostsWhenOver(cfg, t)
    ensures PostsWhenOver(cfg, last)
    decreases |events|
  {
    if events != [] {
      PostsRun(cfg, Next(cfg, t, events[0]).value, events[1..], last);
    }
  }

  /** In every run a stream has posted its TEST_END only in a test with a length that is done, or at a limit. */
  lemma PostedIsOver(cfg: Settings, whole: bool, n: nat, t: Test, i: nat)
    requires Reachable(cfg, whole, n, t) && i < |t.streams| && t.streams[i].place.Posted?
    ensures || (t.done && cfg.duration != 0)
            || (cfg.bytes != 0 && t.bytesSent >= cfg.bytes)
            || (cfg.blocks != 0 && t.blocksSent >= cfg.blocks)
  {
    var events :| AllFit(cfg, whole, events) && Run(cfg, Start(n), events) == Some(t);
    PostsRun(cfg, Start(n), events, t);
  }

  /** The ticks of stream `i` in a run. */
  function TicksIn(events: seq<Event>, i: nat): nat {
    if events == [] then 0 else (if events[0].Tick? && events[0].i == i then 1 else 0) + TicksIn(events[1..], i)
  }

  /** Once a test with a length is done a stream takes at most one more tick, in burst mode or not, and none if it is
      past its tick; and after it the stream does not wait for another. */
  lemma {:induction false} OneMoreTick(cfg: Settings, t: Test, events: seq<Event>, last: Test, i: nat)
    requires t.done && cfg.duration != 0 && i < |t.streams| && Run(cfg, t, events) == Some(last)
    ensures i < |last.streams|
    ensures TicksIn(events, i) + (if last.streams[i].place.Waiting? then 1 else 0)
            <= if t.streams[i].place.Waiting? then 1 else 0
    decreases |events|
  {
    if events != [] {
      OneMoreTick(cfg, Next(cfg, t, events[0]).value, events[1..], last, i);
    }
  }

  // ---------- the loop itself ----------

  /** What the world does before a tick reaches the loop: time passes, the test may end, and the write, if there is one,
      returns `n`. */
  datatype Moment = Moment(dt: nat, ended: bool, n: int)

  /** The events of stream `i` from a tick to the last test. */
  function TurnEvents(s: Sender, i: nat, n: int): seq<Event> {
    if !s.canSend then [Tick(i, n), Go(i), Go(i)]
    else if n < 0 then [Tick(i, n)]
    else [Tick(i, n), Go(i), Go(i), Go(i), Go(i)]
  }

  function MomentEvents(t: Test, i: nat, m: Moment): seq<Event>
    requires i < |t.streams|
  {
    [Advance(m.dt)] + (if m.ended then [EndTest] else []) + TurnEvents(t.streams[i], i, m.n)
  }

  /** Stream `i` goes around its loop until it stops or the world is over. */
  function Loop(cfg: Settings, t: Test, i: nat, world: seq<Moment>): Option<Test>
    decreases |world|
  {
    if world == [] || !Ticks(cfg) || i >= |t.streams| || !t.streams[i].place.Waiting? then Some(t)
    else
      match Run(cfg, t, MomentEvents(t, i, world[0]))
      case None => None
      case Some(next) => Loop(cfg, next, i, world[1..])
  }

  /** What the loop does, the machine does. */
  lemma {:induction false} LoopIsRun(cfg: Settings, whole: bool, n: nat, t: Test, i: nat, world: seq<Moment>)
    requires Reachable(cfg, whole, n, t) && Loop(cfg, t, i, world).Some?
    requires whole ==> forall k :: 0 <= k < |world| ==> world[k].n < 0 || world[k].n == cfg.blksize
    ensures Reachable(cfg, whole, n, Loop(cfg, t, i, world).value)
    decreases |world|
  {
    if !(world == [] || !Ticks(cfg) || i >= |t.streams| || !t.streams[i].place.Waiting?) {
      var events :| AllFit(cfg, whole, events) && Run(cfg, Start(n), events) == Some(t);
      assert AllFit(cfg, whole, events + MomentEvents(t, i, world[0]));
      RunAppends(cfg, Start(n), events, t, MomentEvents(t, i, world[0]));
      LoopIsRun(cfg, whole, n, Run(cfg, t, MomentEvents(t, i, world[0])).value, i, world[1..]);
    }
  }

  /** One more event at the end of a trace. */
  lemma Traced(cfg: Settings, start: Test, trace: seq<Event>, mid: Test, e: Event, next: Test)
    requires Run(cfg, start, trace) == Some(mid) && Next(cfg, mid, e) == Some(next)
    ensures Run(cfg, start, trace + [e]) == Some(next)
    ensures trace == [] ==> Run(cfg, start, [e]) == Some(next)
  {
    RunAppends(cfg, start, trace, mid, [e]);
    assert Run(cfg, next, []) == Some(next);
    Unroll(cfg, mid, [e], next);
    assert [e][1..] == [];
    assert [] + [e] == [e];
  }

  class SendingTest {
    var now: nat
    var done: bool
    var bytesSent: nat
    var blocksSent: nat
    var streams: seq<Sender>

    function Value(): Test
      reads this
    {
      Test(now, done, bytesSent, blocksSent, streams)
    }

    method CheckThrottle(cfg: Settings, i: nat)
      requires i < |streams|
      modifies this`streams
      ensures Value() == With(old(Value()), i, Throttle(cfg, old(streams[i]), now, done))
      ensures var s := old(streams[i]);
              var sent, due := 8_000_000_000 * s.bytes, cfg.rate * now;
              streams == old(streams)[i := s.(canSend := if done || sent == due then s.canSend else sent < due)]
    {
      if done {
        return;
      }
      var bits, due := SCALE * streams[i].bytes, cfg.rate * now;
      if bits < due && !streams[i].canSend {
        streams := streams[i := streams[i].(canSend := true)];
      } else if bits > due && streams[i].canSend {
        streams := streams[i := streams[i].(canSend := false)];
      }
    }

    /** The part of `iperfSend`'s loop from a tick to the last test. */
    method SendOnce(cfg: Settings, i: nat, n: int) returns (stop: bool)
      requires Ticks(cfg) && i < |streams| && streams[i].place.Waiting? && n <= cfg.blksize
      modifies this`bytesSent, this`blocksSent, this`streams
      ensures Run(cfg, old(Value()), TurnEvents(old(streams[i]), i, n)) == Some(Value())
      ensures |streams| == old(|streams|) && (stop <==> !streams[i].place.Waiting?)
      ensures streams[i].place.Closed? ==> n < 0
      ensures !streams[i].place.Closed? ==>
                streams[i].place == if MustStop(cfg, done, bytesSent, blocksSent) then Posted else Waiting
    {
      ghost var start, trace := Value(), [Tick(i, n)];
      if streams[i].canSend {
        if n < 0 {
          streams := streams[i := streams[i].(place := Closed)];
          Traced(cfg, start, [], start, Tick(i, n), Value());
          return true;
        }
        var s := streams[i];
        streams := streams[i := s.(place := AddingBytes(n), bytes := s.bytes + n, writes := s.writes + 1)];
        Traced(cfg, start, [], start, Tick(i, n), Value());
        ghost var added := Value();
        bytesSent := bytesSent + n;
        streams := streams[i := streams[i].(place := AddingBlock)];
        Traced(cfg, start, trace, added, Go(i), Value());
        added, trace := Value(), trace + [Go(i)];
        blocksSent := blocksSent + 1;
        streams := streams[i := streams[i].(place := Checking)];
        Traced(cfg, start, trace, added, Go(i), Value());
        trace := trace + [Go(i)];
      } else {
        streams := streams[i := streams[i].(place := Checking)];
        Traced(cfg, start, [], start, Tick(i, n), Value());
      }
      stop := EndTurn(cfg, i, start, trace);
      assert trace + [Go(i), Go(i)] == TurnEvents(start.streams[i], i, n);
    }

    method EndTurn(cfg: Settings, i: nat, ghost start: Test, ghost trace: seq<Event>) returns (stop: bool)
      requires i < |streams| && streams[i].place.Checking? && Run(cfg, start, trace) == Some(Value())
      modifies this`streams
      ensures Run(cfg, start, trace + [Go(i), Go(i)]) == Some(Value())
      ensures |streams| == old(|streams|) && stop == MustStop(cfg, done, bytesSent, blocksSent)
      ensures streams[i].place == if stop then Posted else Waiting
    {
      ghost var before := Value();
      if !cfg.burst {
        CheckThrottle(cfg, i);
      }
      Overwritten(before.streams, i, streams[i], streams[i].(place := Testing));
      streams := streams[i := streams[i].(place := Testing)];
      Traced(cfg, start, trace, before, Go(i), Value());
      before := Value();
      stop := || (cfg.duration != 0 && done)
              || (cfg.bytes != 0 && bytesSent >= cfg.bytes)
              || (cfg.blocks != 0 && blocksSent >= cfg.blocks);
      streams := streams[i := streams[i].(place := if stop then Posted else Waiting)];
      Traced(cfg, start, trace + [Go(i)], before, Go(i), Value());
      assert trace + [Go(i), Go(i)] == (trace + [Go(i)]) + [Go(i)];
    }

    /** What happens between two ticks of a stream. */
    method Wait(cfg: Settings, m: Moment) returns (ghost trace: seq<Event>)
      modifies this`now, this`done
      ensures trace == [Advance(m.dt)] + if m.ended then [EndTest] else []
      ensures Run(cfg, old(Value()), trace) == Some(Value()) && done == (old(done) || m.ended)
    {
      ghost var start := Value();
      trace := [Advance(m.dt)];
      now := now + m.dt;
      Traced(cfg, start, [], start, Advance(m.dt), Value());
      if m.ended {
        ghost var later := Value();
        done := true;
        Traced(cfg, start, trace, later, EndTest, Value());
        trace := trace + [EndTest];
      }
    }

    /** `iperfSend` of one stream, whatever happens between its ticks. A ticker that does not start panics before the
        loop. Otherwise the loop ends with a write that fails, or by posting, after the first tick at which it must
        stop. In a test without limits whose writes succeed that is the first tick of a test with a length that is done
        by then, in burst mode or not and at any rate. */
    method IperfSend(cfg: Settings, i: nat, world: seq<Moment>) returns (stopped: bool)
      requires i < |streams| && streams[i].place.Waiting?
      requires forall k :: 0 <= k < |world| ==> world[k].n <= cfg.blksize
      modifies this
      ensures Loop(cfg, old(Value()), i, world) == Some(Value())
      ensures i < |streams| && (stopped <==> !streams[i].place.Waiting?)
      ensures Ticks(cfg) && world != [] && !stopped ==> !MustStop(cfg, done, bytesSent, blocksSent)
      ensures stopped ==> Ticks(cfg) && world != [] && (streams[i].place.Posted? || streams[i].place.Closed?)
      ensures streams[i].place.Posted? ==> MustStop(cfg, done, bytesSent, blocksSent)
      ensures streams[i].place.Closed? ==> exists k :: 0 <= k < |world| && world[k].n < 0
      ensures cfg.bytes == cfg.blocks == 0 && (forall k :: 0 <= k < |world| ==> world[k].n >= 0) ==>
                (stopped <==> Ticks(cfg) && world != [] && cfg.duration != 0
                              && (old(done) || exists k :: 0 <= k < |world| && world[k].ended))
    {
      stopped := false;
      if !Ticks(cfg) {
        return;
      }
      ghost var start := Value();
      var k := 0;
      while k < |world| && !stopped
        invariant k <= |world| && i < |streams| && (stopped <==> !streams[i].place.Waiting?)
        invariant Loop(cfg, start, i, world) == Loop(cfg, Value(), i, world[k..])
        invariant stopped ==> k > 0 && (streams[i].place.Posted? || streams[i].place.Closed?)
        invariant k > 0 && !streams[i].place.Closed? ==> (stopped <==> MustStop(cfg, done, bytesSent, blocksSent))
        invariant streams[i].place.Closed? ==> exists j :: 0 <= j < k && world[j].n < 0
        invariant done <==> old(done) || exists j :: 0 <= j < k && world[j].ended
      {
        var m := world[k];
        ghost var turn := Value();
        ghost var trace := Wait(cfg, m);
        ghost var ticked := Value();
        stopped := SendOnce(cfg, i, m.n);
        RunAppends(cfg, turn, trace, ticked, TurnEvents(ticked.streams[i], i, m.n));
        assert MomentEvents(turn, i, m) == trace + TurnEvents(ticked.streams[i], i, m.n);
        assert world[k..][0] == m && world[k..][1..] == world[k + 1..];
        k := k + 1;
      }
    }
  }
}
