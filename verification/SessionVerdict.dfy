/** The exact settings under which a session can hang, and what every other session comes to. */
module SessionVerdict {
  import opened States
  import opened Wrappers
  import opened Rates
  import opened Words
  import opened Session
  import opened SessionData
  import opened SessionSafety
  import opened SessionEnding
  import opened SessionInvariant
  import opened SessionSteps
  import opened SessionStreams
  import opened SessionFate
  import opened SessionTraps
  import opened SessionHanging
  import opened SessionIdle

  /** Settings whose session is caught before its first step. */
  lemma CaughtFromTheStart(cfg: Config) returns (trap: Trap)
    requires cfg.Valid() && !cfg.limits
    requires !Launches(cfg) || (!cfg.params.reverse && (!cfg.Paced() || cfg.params.duration == 0))
    ensures Caught(cfg, Initial(cfg, cfg.params, false), trap)
  {
    InitialSane(cfg, cfg.params, false);
    trap :=
      if !cfg.Named() then NoName
      else if !Allocates(cfg.params) then NoBuffer
      else if !cfg.Ticks() then NoTicks
      else if !cfg.Paced() then ClientPanics
      else NoEnd;
  }

  /** Every unhealthy session can be driven into a trap. */
  lemma UnhealthyIsCaught(cfg: Config) returns (st: State, trap: Trap)
    requires cfg.Valid() && !cfg.limits && !Healthy(cfg)
    ensures Reachable(cfg, st) && Caught(cfg, st, trap)
  {
    if !Launches(cfg) || (!cfg.params.reverse && (!cfg.Paced() || cfg.params.duration == 0)) {
      st := Initial(cfg, cfg.params, false);
      assert Run(cfg, st, []) == Some(st);
      trap := CaughtFromTheStart(cfg);
    } else if !cfg.Paced() {
      trap := ServerPanics;
      st := ReachServerPanics(cfg);
    } else if !cfg.Timed() {
      trap := Undone;
      st := ReachUndone(cfg);
    } else if !cfg.Timely() {
      trap := Late(0);
      st := ReachLate(cfg);
    } else if !Flows(cfg.params) {
      trap := Starved(0);
      st := ReachStarved(cfg);
    } else {
      trap := Clogged;
      st := ReachClogged(cfg);
    }
  }

  /** Wherever a healthy session is, it can be carried to completion, and what it then has delivered: one TEST_END,
      from a client whose streams have all returned, and the same counts on both sides. */
  lemma HealthySessionsDeliver(cfg: Config, st: State) returns (target: State)
    requires cfg.Valid() && Healthy(cfg) && Reachable(cfg, st)
    ensures Leads(cfg, st, target) && Complete(target)
    ensures forall k :: 0 <= k < |target.toServer.frames| ==>
              (target.toServer.frames[k] == StateFrame(TEST_END) <==> k == 1)
    ensures |target.toServer.frames| >= 2 && |target.world.client.pcs| == cfg.N()
    ensures forall i :: 0 <= i < cfg.N() ==> target.world.client.pcs[i] == Finished
    ensures Low(target.world.server.data.sent) == Low(target.world.client.data.sent)
    ensures Low(target.world.server.data.received) == Low(target.world.client.data.received)
    ensures AtMost(SessionSafety.Received(cfg, target.world), Sent(cfg, target.world))
  {
    ReachableSane(cfg, st);
    target := Completes(cfg, st);
    ReachableOn(cfg, st, target);
    CompleteSession(cfg, target);
    EndOfTestOnce(cfg, target);
  }

  /** A session can come to a state from which no continuation completes if and only if it has no streams, or its
      protocol has no code, or a buffer or a ticker cannot be had, or the test has no length, or its streams run into
      their deadlines or do not flow, or its late TEST_ENDs do not fit. */
  lemma HangsIffUnhealthy(cfg: Config)
    requires cfg.Sound() && !cfg.limits
    ensures (exists st :: Reachable(cfg, st) && Hung(cfg, st)) <==> cfg.N() == 0 || !Healthy(cfg)
  {
    if cfg.N() == 0 {
      var st := Initial(cfg, cfg.params, false);
      assert Run(cfg, st, []) == Some(st);
      assert Reachable(cfg, st);
      NoStreamsHang(cfg, cfg.params, false);
    } else if !Healthy(cfg) {
      var st, trap := UnhealthyIsCaught(cfg);
      CaughtHangs(cfg, st, trap);
    } else {
      forall st | Reachable(cfg, st) ensures !Hung(cfg, st) {
        var target := HealthySessionsDeliver(cfg, st);
      }
    }
  }

  // ---------- a lost timer ----------

  /** Without limits only the timer ends the test. */
  lemma StepKeepsTimer(cfg: Config, st: State, a: Action, next: State)
    requires Inv(cfg, st) && AllStopped(cfg, st) && !cfg.limits && Step(cfg, st, a) == Some(next)
    requires st.world.client.done ==> st.world.client.timer.Fired?
    ensures next.world.client.done ==> next.world.client.timer.Fired?
  {
    hide Wired, ServerAt, Step, ClientMainNext, ClientHandlerNext;
    NoGarbage(cfg, st, a);
    var c := st.world.client;
    if a.ClientMainStep? {
      var o, read := ClientStep(cfg, st, a, next);
      MainKeepsTimer(cfg, c, o);
      if c.main.CMarkDone? {
        CountBounds(c.pcs, Finished, |c.pcs|);
        assert ClientStopped(cfg, c, 0);
      } else {
        MainKeepsClock(cfg, c, o);
      }
    } else if a.ClientHandlerStep? {
      var o, read := ClientStep(cfg, st, a, next);
      KeeperClock(cfg, c, InputOf(cfg, st, a), o);
    } else if a.TimerFires? || a.TimerLost? {
      var o := ClientQuietStep(cfg, st, a, next);
    } else {
      ClockStays(cfg, st, a, next);
    }
  }

  lemma {:induction false} RunKeepsTimer(cfg: Config, st: State, acts: seq<Action>, target: State)
    requires Inv(cfg, st) && AllStopped(cfg, st) && !cfg.limits && Run(cfg, st, acts) == Some(target)
    requires st.world.client.done ==> st.world.client.timer.Fired?
    ensures target.world.client.done ==> target.world.client.timer.Fired?
    decreases |acts|
  {
    hide Inv, AllStopped, Step;
    if acts != [] {
      var next := Step(cfg, st, acts[0]).value;
      StepKeepsInv(cfg, st, acts[0], next);
      StepStops(cfg, st, acts[0], next);
      StepKeepsTimer(cfg, st, acts[0], next);
      RunKeepsTimer(cfg, next, acts[1..], target);
    }
  }

  /** A session that has lost its timer is caught: no stream ever posts. */
  lemma LostIsUndone(cfg: Config, st: State)
    requires cfg.Valid() && !cfg.limits && Reachable(cfg, st) && st.world.client.timer.Lost?
    ensures Caught(cfg, st, Undone)
  {
    hide Inv;
    var prior, sender, acts :| Run(cfg, Initial(cfg, prior, sender), acts) == Some(st);
    InitialInv(cfg, prior, sender);
    InitialStops(cfg, prior, sender);
    RunKeepsTimer(cfg, Initial(cfg, prior, sender), acts, st);
    ReachableInv(cfg, st);
    ReachableStops(cfg, st);
    forall k | 0 <= k < |st.world.client.pcs|
      ensures st.world.client.pcs[k].Fresh? || InLoop(st.world.client.pcs[k]) || st.world.client.pcs[k].Failed?
    {
      assert ClientStopped(cfg, st.world.client, k);
    }
  }

  /** A session in which nothing panics, comes too late, starves or clogs hangs in exactly those states in which its
      timer has been lost; so a test in reverse mode without length (`-R -d 0`) completes whenever the timer is stored
      in time. */
  lemma HungIffTimerLost(cfg: Config, st: State)
    requires cfg.Valid() && !cfg.limits && Sturdy(cfg) && Reachable(cfg, st)
    ensures Hung(cfg, st) <==> st.world.client.timer.Lost?
  {
    if st.world.client.timer.Lost? {
      LostIsUndone(cfg, st);
      CaughtHangs(cfg, st, Undone);
    } else {
      ReachableSane(cfg, st);
      var target := CompletesUnlessLost(cfg, st);
    }
  }

  // ---------- the verdict in figures ----------

  /** What the names of the protocols, the size of a buffer and the interval have to be. */
  predicate Startable(p: Params) {
    && (p.protoName == "tcp" || p.protoName == "rudp" || p.protoName == "kcp")
    && p.blksize < 281_474_976_710_656
    && 0 < 1_000_000 * p.interval % 0x1_0000_0000_0000_0000 < 0x8000_0000_0000_0000
  }

  lemma LaunchesInFigures(cfg: Config)
    ensures Launches(cfg) <==> Startable(cfg.params)
  {
  }

  lemma HealthyInFigures(cfg: Config)
    requires cfg.params.burst || cfg.params.rate == 0
    requires cfg.params.duration <= LONGEST
    ensures var p := cfg.params;
            var tcp := p.protoName == "tcp";
            Healthy(cfg) <==>
              && Startable(p) && p.duration > 0 && (tcp || p.duration < 60)
              && (p.reverse ==> if p.blksize == 0 then tcp else p.rate != 0 || p.burst)
              && (p.streamNum < 5 || (!p.reverse && p.blksize == 0 && !tcp))
  {
    var p := cfg.params;
    LaunchesInFigures(cfg);
    EndInFigures(p.duration);
    MillisecondsInTime(p.reverse, p.duration, p.burst, p.rate, p.blksize);
    MillisecondsInAMinute(p.reverse, p.duration, p.burst, p.rate, p.blksize);
  }

  /** In burst mode, which is the default, and with a rate of zero: a session can come to a state from which it never
      completes if and only if it has no streams, or a protocol without code, or a block of 2^48 bytes or more, or an
      interval whose nanoseconds are not a positive signed word, or no duration, or a minute or more over RUDP or KCP,
      or receives blocks at rate zero or empty blocks over RUDP or KCP, or has five streams or more that do not send
      empty blocks over RUDP or KCP. */
  lemma BurstVerdict(cfg: Config)
    requires cfg.Sound() && !cfg.limits && (cfg.params.burst || cfg.params.rate == 0)
    requires cfg.params.duration <= 9_223_372_031
    ensures var p := cfg.params;
            var tcp := p.protoName == "tcp";
            (exists st :: Reachable(cfg, st) && Hung(cfg, st)) <==>
              || p.streamNum == 0
              || (!tcp && p.protoName != "rudp" && p.protoName != "kcp")
              || p.blksize >= 281_474_976_710_656
              || !(0 < 1_000_000 * p.interval % 0x1_0000_0000_0000_0000 < 0x8000_0000_0000_0000)
              || p.duration == 0
              || (!tcp && p.duration >= 60)
              || (p.reverse && p.blksize > 0 && p.rate == 0 && !p.burst)
              || (p.reverse && p.blksize == 0 && !tcp)
              || (p.streamNum >= 5 && (p.reverse || p.blksize > 0 || tcp))
  {
    HangsIffUnhealthy(cfg);
    HealthyInFigures(cfg);
  }

  /** With a rate, and blocks whose bits times 10^9 fit a signed word: the same, but that the sender must tick between
      the end of the test and the deadline, and at least every nanosecond. */
  lemma RateVerdict(cfg: Config)
    requires cfg.Sound() && !cfg.limits && cfg.params.rate != 0
    requires cfg.params.duration <= 9_223_372_031 && 8_000_000_000 * cfg.params.blksize < 0x8000_0000_0000_0000
    ensures var p := cfg.params;
            var tcp, bits, end := p.protoName == "tcp", 8_000_000_000 * p.blksize, 1_000_000_000 * p.duration;
            var period := bits / p.rate;
            var deadline := if tcp || (p.reverse && p.duration < 55) then end + 5_000_000_000 else 60_000_000_000;
            (exists st :: Reachable(cfg, st) && Hung(cfg, st)) <==>
              || p.streamNum == 0 || p.streamNum >= 5
              || (!tcp && p.protoName != "rudp" && p.protoName != "kcp")
              || !(0 < 1_000_000 * p.interval % 0x1_0000_0000_0000_0000 < 0x8000_0000_0000_0000)
              || p.duration == 0
              || p.rate > bits
              || !exists k: nat :: k >= 1 && TickWithin(period, k, end, deadline)
  {
    var p := cfg.params;
    HangsIffUnhealthy(cfg);
    LaunchesInFigures(cfg);
    EndInFigures(p.duration);
    WrapNothing(8_000_000_000 * p.blksize);
    if p.rate <= 8_000_000_000 * p.blksize {
      RateInTime(p.protoName == "tcp", p.reverse, p.duration, p.rate, p.blksize);
    }
  }

  /** A test over TCP without length, in reverse mode and burst mode, with one to four streams and blocks that are not
      empty: it hangs in exactly those states in which its timer was lost. */
  lemma WithoutLength(cfg: Config, st: State)
    requires cfg.Valid() && !cfg.limits && Startable(cfg.params) && cfg.params.protoName == "tcp"
    requires cfg.params.reverse && cfg.params.burst && cfg.params.duration == 0
    requires cfg.params.streamNum <= 4 && cfg.params.blksize > 0 && Reachable(cfg, st)
    ensures Hung(cfg, st) <==> st.world.client.timer.Lost?
  {
    var p := cfg.params;
    LaunchesInFigures(cfg);
    MillisecondsInTime(p.reverse, p.duration, p.burst, p.rate, p.blksize);
    HungIffTimerLost(cfg, st);
  }
}
