/** Runs into each of the traps: where the settings allow it, a session can be driven into a state it never leaves. */
module SessionHanging {
  import opened States
  import opened Wrappers
  import opened Session
  import opened SessionInvariant
  import opened SessionSteps
  import opened SessionProgress
  import opened SessionStreams
  import opened SessionTraps
  import opened Sums

  // ---------- up to the start of the streams ----------

  predicate Untouched(pcs: seq<StreamPc>) { forall i :: 0 <= i < |pcs| ==> pcs[i].Fresh? || pcs[i].Running? }

  predicate AllTrue(b: seq<bool>) { forall i :: 0 <= i < |b| ==> b[i] }

  /** No byte has moved and no throttle has shut; the streams of a server whose senders panic have not been started. */
  predicate Pristine(cfg: Config, w: World) {
    && Untouched(w.server.pcs) && Untouched(w.client.pcs)
    && AllTrue(w.server.data.canSend) && AllTrue(w.client.data.canSend) && AllZero(w.flight)
    && !w.client.done && !w.client.timer.Fired? && !w.client.timer.Lost? && !w.client.exited
    && (cfg.params.reverse && !cfg.Paced() ==> AllFresh(w.server.pcs))
  }

  /** No stream has posted, so nothing later has happened. */
  lemma NothingLater(cfg: Config, st: State)
    requires Sane(cfg, st) && Untouched(st.world.client.pcs)
    ensures !Complete(st) && st.toServer.taken <= 1 && !st.world.client.main.CMarkDone?
    ensures !st.world.client.main.CReturned? && !st.world.client.main.CStats? && st.toClient.taken <= 4
  {
    CountBounds(st.world.client.pcs, Finished, |st.world.client.pcs|);
    Causality(cfg, st);
  }

  lemma PristineServerMain(cfg: Config, s: Server, connected: nat, input: Input, o: ServerOutcome)
    requires ServerMainNext(s, connected, input) == Some(o) && Untouched(s.pcs) && AllTrue(s.data.canSend)
    ensures Untouched(o.side.pcs) && AllTrue(o.side.data.canSend)
    ensures AllFresh(s.pcs) && !(s.main.SLaunch? && s.main.next < |s.pcs|) ==> AllFresh(o.side.pcs)
  {
    if s.main.SGetParams? {
    } else if s.main.SAccept? && |s.pcs| < s.settings.streamNum {
    } else if s.main.SLaunch? && s.main.next < |s.pcs| {
    } else {
      ServerMainLeavesStreams(s, connected, input, o);
    }
  }

  lemma PristineClientMain(cfg: Config, c: Client, o: ClientOutcome)
    requires ClientMainNext(cfg, c) == Some(o) && Untouched(c.pcs) && !c.main.CMarkDone?
    ensures Untouched(o.side.pcs) && o.side.done == c.done && o.side.timer == c.timer && o.side.exited == c.exited
    ensures o.side.data.canSend == c.data.canSend
  {
    match c.main
    case CLoop =>
    case CSend(_) =>
    case _ =>
  }

  lemma PristineKeeper(cfg: Config, c: Client, input: Input, o: ClientOutcome)
    requires ClientHandlerNext(cfg, c, input) == Some(o) && Untouched(c.pcs) && AllTrue(c.data.canSend)
    ensures Untouched(o.side.pcs) && AllTrue(o.side.data.canSend) && o.side.done == c.done && o.side.exited == c.exited
    ensures o.side.timer == if c.handler.KStart? then Armed else c.timer
  {
    KeeperStreams(cfg, c, input, o);
    KeeperOpens(cfg, c, input, o);
    KeeperFrame(cfg, c, input, o);
    KeeperClock(cfg, c, input, o);
  }

  lemma PristineServerStep(cfg: Config, st: State, a: Action, next: State)
    requires Sane(cfg, st) && Pristine(cfg, st.world) && !Panics(cfg, st) && Step(cfg, st, a) == Some(next)
    requires a.ServerMainStep? || a.ServerHandlerStep? || a.ServerMainLeave? || a.ServerHandlerBroken?
    ensures Pristine(cfg, next.world) && next.world.client == st.world.client
  {
    NoGarbage(cfg, st, a);
    var s := st.world.server;
    if a.ServerMainStep? {
      var o, read := ServerStep(cfg, st, a, next);
      PristineServerMain(cfg, s, |st.world.client.pcs|, InputOf(cfg, st, a), o);
    } else if a.ServerHandlerStep? {
      var o, read := ServerStep(cfg, st, a, next);
      HandlerFrame(cfg, s, InputOf(cfg, st, a), o);
    } else {
      var o := ServerQuietStep(cfg, st, a, next);
    }
  }

  lemma PristineClientStep(cfg: Config, st: State, a: Action, next: State)
    requires Sane(cfg, st) && Pristine(cfg, st.world) && Step(cfg, st, a) == Some(next)
    requires a.ClientMainStep? || a.ClientHandlerStep?
    ensures Pristine(cfg, next.world)
    ensures !st.world.client.handler.KStart? ==> next.world.client.timer == st.world.client.timer
  {
    NoGarbage(cfg, st, a);
    NothingLater(cfg, st);
    var o, read := ClientStep(cfg, st, a, next);
    if a.ClientMainStep? {
      PristineClientMain(cfg, st.world.client, o);
    } else {
      PristineKeeper(cfg, st.world.client, InputOf(cfg, st, a), o);
    }
  }

  lemma PristineGoesOn(cfg: Config, st: State) returns (next: State)
    requires Sane(cfg, st) && Pristine(cfg, st.world) && !StreamsDue(cfg, st) && !Panics(cfg, st)
    ensures Sane(cfg, next) && Pristine(cfg, next.world) && Leads(cfg, st, next)
    ensures WorkDone(cfg, st) < WorkDone(cfg, next) <= WorkLimit(cfg)
    ensures !st.world.client.handler.KStart? ==> next.world.client.timer == st.world.client.timer
  {
    hide WorkDone, Wired, StreamsDue;
    CountBounds(st.world.server.pcs, Finished, |st.world.server.pcs|);
    NothingLater(cfg, st);
    var a := SomeoneGoesOn(cfg, st);
    next := ControlGoes(cfg, st, a);
    if a.ClientMainStep? || a.ClientHandlerStep? {
      PristineClientStep(cfg, st, a, next);
    } else {
      PristineServerStep(cfg, st, a, next);
    }
  }

  /** Without the timer and the streams, a session comes to the point where its streams are due, or where something
      panics. */
  lemma {:induction false} ToStreams(cfg: Config, st: State) returns (target: State)
    requires Sane(cfg, st) && Pristine(cfg, st.world)
    ensures Sane(cfg, target) && Pristine(cfg, target.world) && Leads(cfg, st, target)
    ensures StreamsDue(cfg, target) || Panics(cfg, target)
    decreases WorkLimit(cfg) - WorkDone(cfg, st)
  {
    WorkBounded(cfg, st);
    if StreamsDue(cfg, st) || Panics(cfg, st) {
      LeadsHere(cfg, st);
      target := st;
    } else {
      var next := PristineGoesOn(cfg, st);
      target := ToStreams(cfg, next);
      LeadsOn(cfg, st, next, target);
    }
  }

  /** Nothing panics before the streams are started. */
  predicate Launches(cfg: Config) { cfg.Named() && Allocates(cfg.params) && cfg.Ticks() }

  /** Until the timer is started no stream is due. */
  lemma UnarmedIsEarly(cfg: Config, st: State)
    requires Inv(cfg, st) && st.world.client.timer.Unarmed?
    ensures !StreamsDue(cfg, st)
  {
  }

  /** And on the way it comes to the point where the client starts its timer. */
  lemma {:induction false} ToTimer(cfg: Config, st: State) returns (target: State)
    requires Sane(cfg, st) && Pristine(cfg, st.world) && Launches(cfg) && cfg.Paced() && st.world.client.timer.Unarmed?
    ensures Sane(cfg, target) && Pristine(cfg, target.world) && Leads(cfg, st, target)
    ensures target.world.client.handler.KStart?
    decreases WorkLimit(cfg) - WorkDone(cfg, st)
  {
    WorkBounded(cfg, st);
    if st.world.client.handler.KStart? {
      LeadsHere(cfg, st);
      target := st;
    } else {
      UnarmedIsEarly(cfg, st);
      var next := PristineGoesOn(cfg, st);
      target := ToTimer(cfg, next);
      LeadsOn(cfg, st, next, target);
    }
  }

  /** The streams have just been started on both sides. */
  predicate Started(cfg: Config, st: State) {
    var s, c := st.world.server, st.world.client;
    && StreamsDue(cfg, st) && Pristine(cfg, st.world) && c.timer.Armed?
    && |s.pcs| == |c.pcs| == cfg.N() == |st.world.flight|
    && forall i :: 0 <= i < cfg.N() ==> s.pcs[i].Running? && c.pcs[i].Running?
  }

  lemma StartPoint(cfg: Config) returns (st: State)
    requires cfg.Valid()
    ensures Sane(cfg, st) && Pristine(cfg, st.world) && Reachable(cfg, st) && st.world.client.timer.Unarmed?
  {
    st := Initial(cfg, cfg.params, false);
    InitialSane(cfg, cfg.params, false);
    assert Run(cfg, st, []) == Some(st);
  }

  lemma DueIsStarted(cfg: Config, st: State)
    requires Sane(cfg, st) && Pristine(cfg, st.world) && StreamsDue(cfg, st)
    ensures Started(cfg, st)
  {
  }

  lemma ReachStarted(cfg: Config) returns (st: State)
    requires cfg.Valid() && Launches(cfg) && cfg.Paced()
    ensures Sane(cfg, st) && Started(cfg, st) && Reachable(cfg, st)
  {
    hide Sane, Pristine, StreamsDue, Started;
    var start := StartPoint(cfg);
    st := ToStreams(cfg, start);
    ReachableOn(cfg, start, st);
    DueIsStarted(cfg, st);
  }

  // ---------- a timer that is lost ----------

  lemma RaceEnabled(cfg: Config, st: State) returns (next: State)
    requires !st.world.client.exited && TimerRaces(cfg, st.world.client).Some?
    ensures next == st.(world := st.world.(client := st.world.client.(timer := Lost, handler := KCheck)))
    ensures Step(cfg, st, TimerLost) == Some(next)
  {
    next := st.(world := st.world.(client := st.world.client.(timer := Lost, handler := KCheck)));
    assert st.toServer.frames + [] == st.toServer.frames;
  }

  /** The timer of a test without length fires before it has been assigned, and `done` is never set. */
  lemma ReachUndone(cfg: Config) returns (st: State)
    requires cfg.Valid() && Launches(cfg) && cfg.Paced() && !cfg.Timed() && !cfg.limits
    ensures Reachable(cfg, st) && Caught(cfg, st, Undone)
  {
    var start := StartPoint(cfg);
    var timing := ToTimer(cfg, start);
    st := RaceEnabled(cfg, timing);
    Goes(cfg, timing, TimerLost, st);
    LeadsOn(cfg, start, timing, st);
    ReachableOn(cfg, start, st);
  }

  // ---------- a server that panics when it starts its streams ----------

  lemma ReachServerPanics(cfg: Config) returns (st: State)
    requires cfg.Valid() && Launches(cfg) && !cfg.Paced() && cfg.params.reverse
    ensures Reachable(cfg, st) && Caught(cfg, st, ServerPanics)
  {
    var start := StartPoint(cfg);
    st := ToStreams(cfg, start);
    ReachableOn(cfg, start, st);
    if StreamsDue(cfg, st) {
      assert false;
    }
  }

  // ---------- a receiver that starves ----------

  lemma ClientReadsFrame(cfg: Config, w: World, i: nat, n: nat) returns (after: World)
    requires Live(w, w.client.data, w.client.pcs, i, false, Running)
    requires ReadReturns(cfg.params, w.flight[i], n) && n <= w.flight[i]
    ensures DataNext(cfg, w, ClientReceives(i, n)) == Some(after)
    ensures after.server == w.server && after.flight == w.flight[i := w.flight[i] - n]
    ensures after.client == w.client.(pcs := w.client.pcs[i := Testing], data := after.client.data)
  {
    after := DataNext(cfg, w, ClientReceives(i, n)).value;
  }

  lemma ClientReads(cfg: Config, st: State, i: nat, n: nat) returns (next: State)
    requires Sane(cfg, st) && Live(st.world, st.world.client.data, st.world.client.pcs, i, false, Running)
    requires ReadReturns(cfg.params, st.world.flight[i], n) && n <= st.world.flight[i]
    requires !st.world.client.exited
    ensures Sane(cfg, next) && Leads(cfg, st, next) && WorkDone(cfg, next) == WorkDone(cfg, st)
    ensures next.toClient == st.toClient && next.toServer == st.toServer && next.world.server == st.world.server
    ensures next.world.flight == st.world.flight[i := st.world.flight[i] - n]
    ensures var c := st.world.client;
            next.world.client == c.(pcs := c.pcs[i := Testing], data := next.world.client.data)
  {
    var after := ClientReadsFrame(cfg, st.world, i, n);
    next := Moves(cfg, st, ClientReceives(i, n), after);
  }

  /** Before the end of the test a stream of the client goes around its loop. */
  lemma ClientGoesAround(cfg: Config, st: State, i: nat) returns (next: State)
    requires Sane(cfg, st) && !st.world.client.exited && !st.world.client.done
    requires i < |st.world.client.pcs| && st.world.client.pcs[i].Testing?
    ensures Sane(cfg, next) && Leads(cfg, st, next) && WorkDone(cfg, next) == WorkDone(cfg, st)
    ensures var c := st.world.client;
            next == st.(world := st.world.(client := c.(pcs := c.pcs[i := Running])))
  {
    var after := DataNext(cfg, st.world, ClientLoops(i)).value;
    next := Moves(cfg, st, ClientLoops(i), after);
  }

  lemma StartedFacts(cfg: Config, st: State, i: nat)
    requires Sane(cfg, st) && Started(cfg, st) && i < cfg.N()
    ensures Live(st.world, st.world.server.data, st.world.server.pcs, i, cfg.params.reverse, Running)
    ensures Live(st.world, st.world.client.data, st.world.client.pcs, i, !cfg.params.reverse, Running)
    ensures st.world.server.data.canSend[i] && st.world.client.data.canSend[i] && st.world.flight[i] == 0
    ensures st.world.server.settings == cfg.params && !st.world.server.handler.HIdle?
    ensures st.world.server.data.Sized(cfg.N()) && st.world.client.data.Sized(cfg.N())
  {
  }

  /** The server writes its one block, the client reads it before the test is done, and then waits for good. With empty
      blocks it waits from the start. */
  lemma ReachStarved(cfg: Config) returns (st: State)
    requires cfg.Valid() && Launches(cfg) && cfg.Paced() && cfg.params.reverse && !Flows(cfg.params)
    ensures Reachable(cfg, st) && Caught(cfg, st, Starved(0))
  {
    var start := ReachStarted(cfg);
    StartedFacts(cfg, start, 0);
    if cfg.params.blksize == 0 {
      st := start;
    } else {
      var written := ServerWrites(cfg, start, 0);
      var read := ClientReads(cfg, written, 0, cfg.params.blksize);
      st := ClientGoesAround(cfg, read, 0);
      LeadsOn(cfg, start, written, read);
      LeadsOn(cfg, start, read, st);
      ReachableOn(cfg, start, st);
    }
  }

  // ---------- a stream that fails at its deadline ----------

  lemma FailEnabled(cfg: Config, st: State, i: nat) returns (next: State)
    requires !st.world.client.exited && ClientStreamFails(cfg, st.world.client, i).Some?
    ensures next == st.(world := st.world.(client := st.world.client.(pcs := st.world.client.pcs[i := Failed])))
    ensures Step(cfg, st, ClientStreamFail(i)) == Some(next)
  {
    next := st.(world := st.world.(client := st.world.client.(pcs := st.world.client.pcs[i := Failed])));
    assert st.toServer.frames + [] == st.toServer.frames;
  }

  /** The test ends, and the next tick or read of a stream comes after its deadline. */
  lemma ReachLate(cfg: Config) returns (st: State)
    requires cfg.Valid() && Launches(cfg) && cfg.Paced() && !cfg.Timely()
    ensures Reachable(cfg, st) && Caught(cfg, st, Late(0))
  {
    var start := ReachStarted(cfg);
    StartedFacts(cfg, start, 0);
    var ended := TimerGoes(cfg, start);
    st := FailEnabled(cfg, ended, 0);
    Goes(cfg, ended, ClientStreamFail(0), st);
    LeadsOn(cfg, start, ended, st);
    ReachableOn(cfg, start, st);
  }

  // ---------- five late TEST_ENDs ----------

  /** Only loops have been turned and data moved. */
  predicate Shifted(st: State, next: State) {
    var s, c, t, d := st.world.server, st.world.client, next.world.server, next.world.client;
    && next.toClient == st.toClient && next.toServer == st.toServer && |next.world.flight| == |st.world.flight|
    && t == s.(pcs := t.pcs, data := t.data) && Turned(s.pcs, t.pcs)
    && d == c.(pcs := d.pcs, data := d.data) && Turned(c.pcs, d.pcs)
  }

  lemma DueStays(cfg: Config, st: State, next: State)
    requires StreamsDue(cfg, st) && Shifted(st, next)
    ensures StreamsDue(cfg, next)
  {
  }

  /** The streams are due, and the first `k` goroutines of the server are asleep at the last test of their loops; in
      reverse mode they have written a block before. */
  predicate Parked(cfg: Config, st: State, k: nat) {
    var s, c, n := st.world.server, st.world.client, cfg.N();
    && StreamsDue(cfg, st) && c.timer.Armed? && !c.done && k <= n
    && |s.pcs| == |c.pcs| == n == |st.world.flight| && s.data.Sized(n) && c.data.Sized(n)
    && (forall i :: 0 <= i < n ==> c.pcs[i].Running?)
    && (forall i :: 0 <= i < k ==> s.pcs[i].Testing? && (cfg.params.reverse ==> Fed(cfg, st, i)))
    && (forall i :: k <= i < n ==> s.pcs[i].Running? && s.data.canSend[i] && c.data.canSend[i])
  }

  /** A stream of the client at its tick, its throttle open, writes a block. */
  lemma ClientWrites(cfg: Config, st: State, i: nat) returns (next: State)
    requires Sane(cfg, st) && Live(st.world, st.world.client.data, st.world.client.pcs, i, true, Running)
    requires st.world.client.data.canSend[i] && !st.world.client.exited && !st.world.client.done
    ensures Sane(cfg, next) && Leads(cfg, st, next) && WorkDone(cfg, next) == WorkDone(cfg, st)
    ensures next.toClient == st.toClient && next.toServer == st.toServer && next.world.server == st.world.server
    ensures next.world.flight == Add(st.world.flight, i, cfg.params.blksize)
    ensures var c := st.world.client;
            next.world.client == c.(pcs := c.pcs[i := Testing], data := Tick(cfg.params, c.data, i, c.done))
  {
    var after := DataNext(cfg, st.world, ClientSends(i)).value;
    next := Moves(cfg, st, ClientSends(i), after);
  }

  lemma ServerReadsFrame(cfg: Config, w: World, i: nat, n: nat) returns (after: World)
    requires Live(w, w.server.data, w.server.pcs, i, false, Running) && !w.server.closed
    requires ReadReturns(w.server.settings, w.flight[i], n) && n <= w.flight[i]
    ensures DataNext(cfg, w, ServerReceives(i, n)) == Some(after)
    ensures after.client == w.client && after.flight == w.flight[i := w.flight[i] - n]
    ensures after.server == w.server.(pcs := w.server.pcs[i := Testing], data := after.server.data)
    ensures after.server.data.canSend == w.server.data.canSend
  {
    after := DataNext(cfg, w, ServerReceives(i, n)).value;
  }

  lemma ServerReads(cfg: Config, st: State, i: nat, n: nat) returns (next: State)
    requires Sane(cfg, st) && Live(st.world, st.world.server.data, st.world.server.pcs, i, false, Running)
    requires st.world.server.settings == cfg.params && !st.world.server.closed
    requires ReadReturns(cfg.params, st.world.flight[i], n) && n <= st.world.flight[i]
    ensures Sane(cfg, next) && Leads(cfg, st, next) && WorkDone(cfg, next) == WorkDone(cfg, st)
    ensures next.toClient == st.toClient && next.toServer == st.toServer && next.world.client == st.world.client
    ensures next.world.flight == st.world.flight[i := st.world.flight[i] - n]
    ensures var s := st.world.server;
            next.world.server == s.(pcs := s.pcs[i := Testing], data := next.world.server.data)
            && next.world.server.data.canSend == s.data.canSend
  {
    var a := ServerReceives(i, n);
    var after := ServerReadsFrame(cfg, st.world, i, n);
    assert !a.IsControl() && !a.IsClient();
    next := Moves(cfg, st, a, after);
  }

  lemma ParkedFacts(cfg: Config, st: State, k: nat)
    requires Sane(cfg, st) && Parked(cfg, st, k) && k < cfg.N()
    ensures Live(st.world, st.world.server.data, st.world.server.pcs, k, cfg.params.reverse, Running)
    ensures Live(st.world, st.world.client.data, st.world.client.pcs, k, !cfg.params.reverse, Running)
    ensures st.world.server.settings == cfg.params && !st.world.server.closed && !st.world.server.handler.HIdle?
    ensures !st.world.client.exited && !st.world.client.done
  {
  }

  /** What parking stream `k` of the server leaves alone. */
  predicate ParksOne(st: State, next: State, k: nat) {
    && Shifted(st, next) && next.world.client.pcs == st.world.client.pcs
    && k < |st.world.server.pcs| && next.world.server.pcs == st.world.server.pcs[k := Testing]
    && k < |st.world.flight| && next.world.flight == st.world.flight[k := next.world.flight[k]]
    && |next.world.server.data.canSend| == |st.world.server.data.canSend|
    && |next.world.client.data.canSend| == |st.world.client.data.canSend|
    && (forall i :: 0 <= i < |st.world.server.data.canSend| && i != k ==>
          next.world.server.data.canSend[i] == st.world.server.data.canSend[i])
    && (forall i :: 0 <= i < |st.world.client.data.canSend| && i != k ==>
          next.world.client.data.canSend[i] == st.world.client.data.canSend[i])
  }

  lemma ParksOn(cfg: Config, st: State, next: State, k: nat)
    requires Parked(cfg, st, k) && k < cfg.N() && ParksOne(st, next, k) && (cfg.params.reverse ==> Fed(cfg, next, k))
    requires next.world.server.data.Sized(cfg.N()) && next.world.client.data.Sized(cfg.N())
    ensures Parked(cfg, next, k + 1)
  {
    DueStays(cfg, st, next);
  }

  lemma SaneSized(cfg: Config, st: State)
    requires Sane(cfg, st)
    ensures st.world.server.data.Sized(|st.world.server.pcs|) && st.world.client.data.Sized(|st.world.client.pcs|)
    ensures |st.world.flight| == |st.world.lost| == cfg.N()
  {
  }

  lemma ClientDelivers(cfg: Config, st: State, k: nat) returns (next: State)
    requires Sane(cfg, st) && Live(st.world, st.world.client.data, st.world.client.pcs, k, true, Running)
    requires st.world.client.data.canSend[k] && !st.world.client.exited && !st.world.client.done
    ensures Sane(cfg, next) && Leads(cfg, st, next)
    ensures next.toClient == st.toClient && next.toServer == st.toServer && next.world.server == st.world.server
    ensures next.world.flight == Add(st.world.flight, k, cfg.params.blksize)
    ensures next.world.client == st.world.client.(data := Tick(cfg.params, st.world.client.data, k, false))
  {
    var written := ClientWrites(cfg, st, k);
    next := ClientGoesAround(cfg, written, k);
    LeadsOn(cfg, st, written, next);
    assert st.world.client.pcs[k := Testing][k := Running] == st.world.client.pcs;
  }

  /** In forward mode the client writes a block, and the server reads a byte of it. */
  lemma ParkReceiver(cfg: Config, st: State, k: nat) returns (next: State)
    requires Sane(cfg, st) && Parked(cfg, st, k) && k < cfg.N() && !cfg.params.reverse && !Dry(cfg.params)
    ensures Sane(cfg, next) && Leads(cfg, st, next) && ParksOne(st, next, k)
  {
    hide Sane, StreamsDue;
    ParkedFacts(cfg, st, k);
    var sent := ClientDelivers(cfg, st, k);
    SaneSized(cfg, sent);
    next := ServerReads(cfg, sent, k, if ReadsAtOnce(cfg.params) then 0 else 1);
    LeadsOn(cfg, st, sent, next);
  }

  lemma ParkSender(cfg: Config, st: State, k: nat) returns (next: State)
    requires Sane(cfg, st) && Parked(cfg, st, k) && k < cfg.N() && cfg.params.reverse && !Dry(cfg.params)
    ensures Sane(cfg, next) && Leads(cfg, st, next) && ParksOne(st, next, k) && Fed(cfg, next, k)
  {
    ParkedFacts(cfg, st, k);
    next := ServerWrites(cfg, st, k);
  }

  lemma {:induction false} ParkAll(cfg: Config, st: State, k: nat) returns (next: State)
    requires Sane(cfg, st) && Parked(cfg, st, k) && !Dry(cfg.params)
    ensures Sane(cfg, next) && Leads(cfg, st, next) && Parked(cfg, next, cfg.N())
    decreases cfg.N() - k
  {
    if k == cfg.N() {
      LeadsHere(cfg, st);
      next := st;
    } else {
      var mid;
      if cfg.params.reverse {
        mid := ParkSender(cfg, st, k);
      } else {
        mid := ParkReceiver(cfg, st, k);
      }
      SaneSized(cfg, mid);
      ParksOn(cfg, st, mid, k);
      next := ParkAll(cfg, mid, k + 1);
      LeadsOn(cfg, st, mid, next);
    }
  }

  /** The server's streams sleep at the last test of their loops, the client's have been started and can come to their
      end without them. Its handler is about to push its last value only when the main loop no longer drains the
      channel. */
  ghost predicate Asleep(cfg: Config, st: State) {
    var s, c := st.world.server, st.world.client;
    && Sane(cfg, st)
    && |s.pcs| == |c.pcs| == cfg.N() == |st.world.flight|
    && (forall i :: 0 <= i < cfg.N() ==> s.pcs[i].Testing?)
    && NoneFresh(c.pcs)
    && !s.handler.HReturned? && !s.main.SLeft? && !c.exited
    && (s.handler.HPushDone? ==> s.main.SAwaitHandler?)
    && (cfg.params.reverse ==> forall i :: 0 <= i < cfg.N() && c.pcs[i].Running? ==> Fed(cfg, st, i))
  }

  lemma ParkedSleeps(cfg: Config, st: State)
    requires Sane(cfg, st) && Parked(cfg, st, cfg.N())
    ensures Asleep(cfg, st)
  {
  }

  lemma AsleepCounts(cfg: Config, st: State)
    requires Asleep(cfg, st)
    ensures Count(st.world.server.pcs, Finished) == 0 && !Complete(st)
    ensures st.world.client.gone ==> !HandlerBlocked(st)
    ensures ServerMainBlocked(cfg, st) && st.world.server.handler.HRead? && st.toServer.taken == 4 ==>
              st.world.server.main.SAwaitHandler?
  {
    CountBounds(st.world.server.pcs, Finished, |st.world.server.pcs|);
    ServerRoom(cfg, st.world.server, st.toServer.taken, |st.toClient.frames|);
    Causality(cfg, st);
  }

  /** A started main loop starts nothing more. */
  lemma AsleepServerMain(cfg: Config, s: Server, connected: nat, input: Input, o: ServerOutcome, read: nat, sent: nat)
    requires cfg.Valid() && ServerInv(cfg, s, read, sent) && ServerMainNext(s, connected, input) == Some(o)
    requires |s.pcs| == cfg.N() && (forall i :: 0 <= i < |s.pcs| ==> s.pcs[i].Testing?) && !s.handler.HReturned?
    ensures o.side.pcs == s.pcs && o.side.handler == s.handler && !o.side.main.SLeft? && !s.main.SAwaitHandler?
  {
  }

  lemma AsleepHandler(cfg: Config, s: Server, input: Input, o: ServerOutcome, read: nat, sent: nat)
    requires cfg.Valid() && ServerInv(cfg, s, read, sent) && ServerHandlerNext(cfg, s, input) == Some(o)
    requires !s.handler.HPushDone? && (input.Received? ==> ToServerKind(cfg, read, input.frame))
    ensures o.side.pcs == s.pcs && o.side.main == s.main && !o.side.handler.HReturned?
    ensures o.side.handler.HPushDone? ==> s.handler.HRead? && read == 4
  {
    match s.handler
    case HRead =>
    case HSend(_, _) =>
    case _ =>
  }

  lemma AsleepMainStep(cfg: Config, st: State, next: State)
    requires Asleep(cfg, st) && Step(cfg, st, ServerMainStep) == Some(next) && Sane(cfg, next)
    requires !st.world.server.handler.HPushDone?
    ensures Asleep(cfg, next)
  {
    NoGarbage(cfg, st, ServerMainStep);
    var o, read := ServerStep(cfg, st, ServerMainStep, next);
    AsleepServerMain(cfg, st.world.server, |st.world.client.pcs|, InputOf(cfg, st, ServerMainStep), o,
                     st.toServer.taken, |st.toClient.frames|);
  }

  lemma AsleepHandlerStep(cfg: Config, st: State, next: State)
    requires Asleep(cfg, st) && Step(cfg, st, ServerHandlerStep) == Some(next) && Sane(cfg, next)
    requires !st.world.server.handler.HPushDone? && ServerMainBlocked(cfg, st)
    ensures Asleep(cfg, next)
  {
    hide Wired, ServerInv, ClientInv, StreamsKept, Step, ServerHandlerNext, StreamsDue;
    NoGarbage(cfg, st, ServerHandlerStep);
    AsleepCounts(cfg, st);
    var o, read := ServerStep(cfg, st, ServerHandlerStep, next);
    assert next.world == st.world.(server := o.side);
    if read == 1 { HandlerExpects(cfg, st); }
    AsleepHandler(cfg, st.world.server, InputOf(cfg, st, ServerHandlerStep), o, st.toServer.taken,
                  |st.toClient.frames|);
  }

  lemma ClientMainLeavesStreams(cfg: Config, c: Client, o: ClientOutcome)
    requires ClientMainNext(cfg, c) == Some(o) && !(c.main.CLaunch? && c.main.next < |c.pcs|)
    ensures o.side.pcs == c.pcs && o.side.exited == c.exited
  {
    match c.main
    case CLoop =>
    case _ =>
  }

  lemma AsleepClientMain(cfg: Config, c: Client, o: ClientOutcome, read: nat, sent: nat)
    requires cfg.Valid() && ClientInv(cfg, c, read, sent) && ClientMainNext(cfg, c) == Some(o) && NoneFresh(c.pcs)
    ensures o.side.pcs == c.pcs && o.side.exited == c.exited
  {
    hide ClientMainNext, ClientAt;
    ClientMainLeavesStreams(cfg, c, o);
  }

  lemma AsleepClient(cfg: Config, st: State, a: Action, next: State)
    requires Asleep(cfg, st) && Step(cfg, st, a) == Some(next) && Sane(cfg, next)
    requires a.ClientMainStep? || a.ClientHandlerStep?
    ensures Asleep(cfg, next)
  {
    hide Wired, ServerInv, ClientInv, StreamsKept, Step, ClientMainNext, ClientHandlerNext;
    NoGarbage(cfg, st, a);
    var o, read := ClientStep(cfg, st, a, next);
    if a.ClientMainStep? {
      AsleepClientMain(cfg, st.world.client, o, st.toClient.taken, |st.toServer.frames|);
    } else {
      KeeperStreams(cfg, st.world.client, InputOf(cfg, st, a), o);
      KeeperFrame(cfg, st.world.client, InputOf(cfg, st, a), o);
    }
  }

  lemma AsleepStream(cfg: Config, st: State) returns (next: State)
    requires Asleep(cfg, st) && StreamsDue(cfg, st) && cfg.Timed() && cfg.Timely()
    ensures Asleep(cfg, next) && Leads(cfg, st, next) && WorkDone(cfg, st) < WorkDone(cfg, next) <= WorkLimit(cfg)
  {
    hide WorkDone, StreamsDue;
    var i := SomeStreamDue(cfg, st);
    next := StreamGoesOn(cfg, st, i);
  }

  lemma AsleepOther(cfg: Config, st: State) returns (next: State)
    requires Asleep(cfg, st) && Launches(cfg) && cfg.Paced() && !StreamsDue(cfg, st)
    requires !st.world.server.handler.HPushDone?
    ensures Asleep(cfg, next) && Leads(cfg, st, next) && WorkDone(cfg, st) < WorkDone(cfg, next) <= WorkLimit(cfg)
  {
    AsleepCounts(cfg, st);
    var a := SomeoneGoesOn(cfg, st);
    next := ControlGoes(cfg, st, a);
    if a.ServerMainStep? {
      AsleepMainStep(cfg, st, next);
    } else if a.ServerHandlerStep? {
      AsleepHandlerStep(cfg, st, next);
    } else if a.ClientMainStep? || a.ClientHandlerStep? {
      AsleepClient(cfg, st, a, next);
    }
  }

  /** With its streams asleep the server comes to the point where its handler is about to push the last IPERF_DONE and
      its main loop waits for it. */
  lemma {:induction false} SleepsThrough(cfg: Config, st: State) returns (next: State)
    requires Asleep(cfg, st) && Launches(cfg) && cfg.Paced() && cfg.Timed() && cfg.Timely()
    ensures Asleep(cfg, next) && Leads(cfg, st, next) && next.world.server.handler.HPushDone?
    decreases WorkLimit(cfg) - WorkDone(cfg, st)
  {
    WorkBounded(cfg, st);
    if st.world.server.handler.HPushDone? {
      LeadsHere(cfg, st);
      next := st;
    } else {
      var mid;
      if StreamsDue(cfg, st) {
        mid := AsleepStream(cfg, st);
      } else {
        mid := AsleepOther(cfg, st);
      }
      next := SleepsThrough(cfg, mid);
      LeadsOn(cfg, st, mid, next);
    }
  }

  /** The main loop waits for the handler, the handler is about to push, and `k` streams have woken and posted. */
  ghost predicate Woken(cfg: Config, st: State, k: nat) {
    var s := st.world.server;
    && Sane(cfg, st)
    && s.main.SAwaitHandler? && s.handler.HPushDone?
    && |s.pcs| == cfg.N() && k <= CTRL_CHAN_CAPACITY && |s.chan.sent| == s.chan.taken + k
    && forall i :: k <= i < cfg.N() ==> s.pcs[i].Testing? && ServerStops(s, i)
  }

  lemma SleepsOnEmpty(cfg: Config, st: State)
    requires Asleep(cfg, st) && st.world.server.handler.HPushDone? && (cfg.params.reverse ==> cfg.params.duration != 0)
    ensures Woken(cfg, st, 0)
  {
    AsleepCounts(cfg, st);
    ServerRoom(cfg, st.world.server, st.toServer.taken, |st.toClient.frames|);
  }

  /** One control step of a stream of the server. */
  lemma ServerStreamGoes(cfg: Config, st: State, i: nat, side: Server) returns (next: State)
    requires Sane(cfg, st) && ServerStreamNext(st.world.server, i) == Some(ServerOutcome(side, []))
    ensures next == st.(world := st.world.(server := side)) && Sane(cfg, next) && Leads(cfg, st, next)
  {
    hide Sane;
    next := st.(world := st.world.(server := side));
    assert st.toClient.frames + [] == st.toClient.frames;
    Goes(cfg, st, ServerStreamStep(i), next);
  }

  lemma WakeOne(cfg: Config, st: State, k: nat) returns (next: State)
    requires Woken(cfg, st, k) && k < CTRL_CHAN_CAPACITY && k < cfg.N()
    ensures Woken(cfg, next, k + 1) && Leads(cfg, st, next)
  {
    hide Sane;
    SaneSized(cfg, st);
    var s := st.world.server;
    var stopped := s.(pcs := s.pcs[k := Posting]);
    var mid := ServerStreamGoes(cfg, st, k, stopped);
    next := ServerStreamGoes(cfg, mid, k, stopped.(pcs := stopped.pcs[k := Finished], chan := s.chan.Push(TEST_END)));
    LeadsOn(cfg, st, mid, next);
  }

  lemma {:induction false} WakeFive(cfg: Config, st: State, k: nat) returns (next: State)
    requires Woken(cfg, st, k) && cfg.N() >= CTRL_CHAN_CAPACITY
    ensures Woken(cfg, next, CTRL_CHAN_CAPACITY) && Leads(cfg, st, next)
    decreases CTRL_CHAN_CAPACITY - k
  {
    if k == CTRL_CHAN_CAPACITY {
      LeadsHere(cfg, st);
      next := st;
    } else {
      var mid := WakeOne(cfg, st, k);
      next := WakeFive(cfg, mid, k + 1);
      LeadsOn(cfg, st, mid, next);
    }
  }

  lemma StartedParks(cfg: Config, st: State)
    requires Sane(cfg, st) && Started(cfg, st)
    ensures Parked(cfg, st, 0)
  {
  }

  /** Five streams of the server that post late fill its channel, and the handler's last push waits for good. */
  lemma ReachClogged(cfg: Config) returns (st: State)
    requires cfg.Valid() && Launches(cfg) && cfg.Paced() && cfg.Timed() && cfg.Timely()
    requires !Fits(cfg.params) && !Dry(cfg.params)
    ensures Reachable(cfg, st) && Caught(cfg, st, Clogged)
  {
    var start := ReachStarted(cfg);
    StartedParks(cfg, start);
    var parked := ParkAll(cfg, start, 0);
    ParkedSleeps(cfg, parked);
    var asleep := SleepsThrough(cfg, parked);
    LeadsOn(cfg, start, parked, asleep);
    SleepsOnEmpty(cfg, asleep);
    st := WakeFive(cfg, asleep, 0);
    LeadsOn(cfg, start, asleep, st);
    ReachableOn(cfg, start, st);
  }
}
