/** The settings under which every session can be carried to completion from wherever it is, and how. */
module SessionFate {
  import opened States
  import opened Wrappers
  import opened Session
  import opened SessionInvariant
  import opened SessionProgress
  import opened SessionSteps
  import opened SessionStreams
  import opened SessionTraps

  /** At most four server streams have posted. */
  lemma FewPost(cfg: Config, st: State)
    requires Sane(cfg, st) && Fits(cfg.params)
    ensures Count(st.world.server.pcs, Finished) < CTRL_CHAN_CAPACITY
  {
    var s := st.world.server;
    CountBounds(s.pcs, Finished, |s.pcs|);
    if cfg.N() >= CTRL_CHAN_CAPACITY {
      forall i | 0 <= i < |s.pcs| ensures s.pcs[i] != Finished {
        assert StreamKept(s, i);
      }
    }
  }

  // ---------- feeding a receiver in reverse mode ----------

  /** A server stream that is due is in its loop. */
  lemma ServerStreamInLoop(cfg: Config, st: State, i: nat)
    requires Sane(cfg, st) && StreamsDue(cfg, st) && i < cfg.N()
    ensures InLoop(st.world.server.pcs[i]) && st.world.server.data.Sized(cfg.N())
    ensures st.world.server.settings == cfg.params && st.world.server.data.roles[i] == cfg.params.reverse
    ensures cfg.params.burst ==> st.world.server.data.canSend[i]
  {
    assert StreamKept(st.world.server, i);
  }

  /** What feeding may change. */
  predicate OnlyFeeds(st: State, next: State) {
    && next.toClient == st.toClient && next.toServer == st.toServer && next.world.client == st.world.client
    && |next.world.flight| == |st.world.flight|
    && (forall k :: 0 <= k < |st.world.flight| ==> next.world.flight[k] >= st.world.flight[k])
    && next.world.server == st.world.server.(pcs := next.world.server.pcs, data := next.world.server.data)
    && Turned(st.world.server.pcs, next.world.server.pcs)
  }

  lemma StillDue(cfg: Config, st: State, next: State)
    requires StreamsDue(cfg, st) && OnlyFeeds(st, next)
    ensures StreamsDue(cfg, next)
  {
  }

  lemma ServerGoesAround(cfg: Config, w: World, i: nat) returns (after: World)
    requires i < |w.server.pcs| && i < |w.server.data.roles| && w.server.pcs[i].Testing? && !w.server.done
    ensures DataNext(cfg, w, ServerLoops(i)) == Some(after)
    ensures after == w.(server := w.server.(pcs := w.server.pcs[i := Running]))
  {
    after := DataNext(cfg, w, ServerLoops(i)).value;
  }

  lemma BackToTick(cfg: Config, st: State, i: nat) returns (next: State)
    requires Sane(cfg, st) && StreamsDue(cfg, st) && i < cfg.N()
    ensures Sane(cfg, next) && Leads(cfg, st, next) && WorkDone(cfg, next) == WorkDone(cfg, st)
    ensures OnlyFeeds(st, next) && next.world.server.pcs[i].Running?
  {
    ServerStreamInLoop(cfg, st, i);
    if st.world.server.pcs[i].Running? {
      LeadsHere(cfg, st);
      next := st;
    } else {
      var after := ServerGoesAround(cfg, st.world, i);
      next := Moves(cfg, st, ServerLoops(i), after);
    }
  }

  lemma OpenGate(cfg: Config, st: State, i: nat) returns (next: State)
    requires Sane(cfg, st) && StreamsDue(cfg, st) && i < cfg.N() && cfg.params.reverse && !Gated(cfg.params)
    ensures Sane(cfg, next) && Leads(cfg, st, next) && WorkDone(cfg, next) == WorkDone(cfg, st)
    ensures OnlyFeeds(st, next) && next.world.server.pcs == st.world.server.pcs
    ensures next.world.server.data.Sized(cfg.N()) && next.world.server.data.canSend[i]
  {
    ServerStreamInLoop(cfg, st, i);
    if st.world.server.data.canSend[i] {
      LeadsHere(cfg, st);
      next := st;
    } else {
      var after := DataNext(cfg, st.world, ServerGate(i, true)).value;
      next := Moves(cfg, st, ServerGate(i, true), after);
    }
  }

  lemma SendBlock(cfg: Config, st: State, i: nat) returns (next: State)
    requires Sane(cfg, st) && StreamsDue(cfg, st) && i < cfg.N() && cfg.params.reverse && cfg.params.blksize >= 1
    requires st.world.server.pcs[i].Running? && st.world.server.data.Sized(cfg.N()) && st.world.server.data.canSend[i]
    ensures Sane(cfg, next) && Leads(cfg, st, next) && WorkDone(cfg, next) == WorkDone(cfg, st)
    ensures OnlyFeeds(st, next) && Fed(cfg, next, i)
  {
    ServerStreamInLoop(cfg, st, i);
    next := ServerWrites(cfg, st, i);
  }

  lemma ReadyToSend(cfg: Config, st: State, i: nat) returns (next: State)
    requires Sane(cfg, st) && StreamsDue(cfg, st) && i < cfg.N() && cfg.params.reverse && !Gated(cfg.params)
    ensures Sane(cfg, next) && Leads(cfg, st, next) && WorkDone(cfg, next) == WorkDone(cfg, st)
    ensures OnlyFeeds(st, next) && StreamsDue(cfg, next)
    ensures next.world.server.pcs[i].Running? && next.world.server.data.Sized(cfg.N())
    ensures next.world.server.data.canSend[i]
  {
    var ticking := BackToTick(cfg, st, i);
    StillDue(cfg, st, ticking);
    next := OpenGate(cfg, ticking, i);
    StillDue(cfg, ticking, next);
    LeadsOn(cfg, st, ticking, next);
  }

  /** The server can always feed a receiver that waits for it. */
  lemma Feeds(cfg: Config, st: State, i: nat) returns (next: State)
    requires Sane(cfg, st) && StreamsDue(cfg, st) && i < cfg.N() && cfg.params.reverse && Flows(cfg.params)
    ensures Sane(cfg, next) && Leads(cfg, st, next) && WorkDone(cfg, next) == WorkDone(cfg, st)
    ensures next.world.client == st.world.client && Fed(cfg, next, i) && StreamsDue(cfg, next)
  {
    if Fed(cfg, st, i) {
      LeadsHere(cfg, st);
      next := st;
    } else {
      var ready := ReadyToSend(cfg, st, i);
      next := SendBlock(cfg, ready, i);
      StillDue(cfg, ready, next);
      LeadsOn(cfg, st, ready, next);
    }
  }

  // ---------- sessions that can always complete ----------

  /** Nothing can panic or come too late, and everything flows and fits; but the test may lack a length, if its
      senders are the server's or see its end all the same. */
  predicate Sturdy(cfg: Config) {
    && cfg.Named() && Allocates(cfg.params) && cfg.Ticks() && cfg.Paced()
    && cfg.Timely() && Flows(cfg.params) && Fits(cfg.params)
    && (cfg.params.reverse || cfg.params.duration != 0)
  }

  /** The test has a length as well. */
  predicate Healthy(cfg: Config) {
    && cfg.Named() && Allocates(cfg.params) && cfg.Ticks() && cfg.Paced()
    && cfg.Timed() && cfg.Timely() && Flows(cfg.params) && Fits(cfg.params)
  }

  lemma StreamsProgress(cfg: Config, st: State) returns (next: State)
    requires Sane(cfg, st) && Sturdy(cfg) && StreamsDue(cfg, st) && !st.world.client.timer.Lost?
    ensures Sane(cfg, next) && Leads(cfg, st, next) && WorkDone(cfg, st) < WorkDone(cfg, next) <= WorkLimit(cfg)
    ensures !next.world.client.timer.Lost?
  {
    var i := SomeStreamDue(cfg, st);
    if cfg.params.reverse {
      var fed := Feeds(cfg, st, i);
      next := StreamGoesOn(cfg, fed, i);
      LeadsOn(cfg, st, fed, next);
    } else {
      next := StreamGoesOn(cfg, st, i);
    }
  }

  lemma MainKeepsTimer(cfg: Config, c: Client, o: ClientOutcome)
    requires ClientMainNext(cfg, c) == Some(o)
    ensures o.side.timer == c.timer
  {
    match c.main
    case CLoop =>
    case _ =>
  }

  /** Only the race loses the timer. */
  lemma TimerKept(cfg: Config, st: State, a: Action, next: State)
    requires Inv(cfg, st) && Step(cfg, st, a) == Some(next) && !a.TimerLost? && !st.world.client.timer.Lost?
    ensures !next.world.client.timer.Lost?
  {
    hide Wired, ServerAt, ClientAt, Step, ClientMainNext, ClientHandlerNext;
    NoGarbage(cfg, st, a);
    if a.ClientMainStep? {
      var o, read := ClientStep(cfg, st, a, next);
      MainKeepsTimer(cfg, st.world.client, o);
    } else if a.ClientHandlerStep? {
      var o, read := ClientStep(cfg, st, a, next);
      KeeperClock(cfg, st.world.client, InputOf(cfg, st, a), o);
    } else if a.TimerFires? {
      var o := ClientQuietStep(cfg, st, a, next);
    } else {
      ClockStays(cfg, st, a, next);
    }
  }

  /** From any state of a sturdy session that is not complete, and has not lost its timer, some continuation does more
      work. */
  lemma Progresses(cfg: Config, st: State) returns (next: State)
    requires Sane(cfg, st) && Sturdy(cfg) && !Complete(st) && !st.world.client.timer.Lost?
    ensures Sane(cfg, next) && Leads(cfg, st, next) && WorkDone(cfg, st) < WorkDone(cfg, next) <= WorkLimit(cfg)
    ensures !next.world.client.timer.Lost?
  {
    FewPost(cfg, st);
    if StreamsDue(cfg, st) {
      next := StreamsProgress(cfg, st);
    } else {
      var a := SomeoneGoesOn(cfg, st);
      next := ControlGoes(cfg, st, a);
      TimerKept(cfg, st, a, next);
    }
  }

  lemma {:induction false} CompletesUnlessLost(cfg: Config, st: State) returns (target: State)
    requires Sane(cfg, st) && Sturdy(cfg) && !st.world.client.timer.Lost?
    ensures Sane(cfg, target) && Leads(cfg, st, target) && Complete(target)
    decreases WorkLimit(cfg) - WorkDone(cfg, st)
  {
    WorkBounded(cfg, st);
    if Complete(st) {
      LeadsHere(cfg, st);
      target := st;
    } else {
      var next := Progresses(cfg, st);
      target := CompletesUnlessLost(cfg, next);
      LeadsOn(cfg, st, next, target);
    }
  }

  lemma Completes(cfg: Config, st: State) returns (target: State)
    requires Sane(cfg, st) && Healthy(cfg)
    ensures Sane(cfg, target) && Leads(cfg, st, target) && Complete(target)
  {
    target := CompletesUnlessLost(cfg, st);
  }
}
