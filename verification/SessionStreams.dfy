/** The data streams between the start of the test and its end, and when a session can always be carried to
    completion. */
module SessionStreams {
  import opened States
  import opened Wrappers
  import opened Session
  import opened SessionInvariant
  import opened SessionSteps
  import opened SessionProgress

  // ---------- settings ----------

  /** Blocks are empty, and a read of one waits for data that never comes. */
  predicate Dry(p: Params) { p.blksize == 0 && !ReadsAtOnce(p) }

  /** A session that is carried on keeps the client's receivers fed: they read at once, or the server's senders can
      write again. */
  predicate Flows(p: Params) { p.reverse ==> ReadsAtOnce(p) || (p.blksize >= 1 && !Gated(p)) }

  /** The server's late TEST_ENDs fit its channel: there are at most four, or its streams never post one. */
  predicate Fits(p: Params) { p.streamNum < CTRL_CHAN_CAPACITY || (!p.reverse && Dry(p)) }

  // ---------- what the server's streams keep ----------

  /** A server stream has stopped only when its loop lets it: after the end of the test, a sender only in a test with a
      duration; it has failed only after the streams were closed. In burst mode no throttle ever shuts. */
  predicate StreamKept(s: Server, i: nat)
    requires i < |s.pcs| && i < |s.data.roles| && i < |s.data.canSend|
  {
    && (s.pcs[i].Posting? || s.pcs[i].Finished? ==> ServerStops(s, i))
    && (s.pcs[i].Failed? ==> s.closed)
    && (!s.data.roles[i] && Dry(s.settings) ==> !s.pcs[i].Testing? && !s.pcs[i].Posting? && !s.pcs[i].Finished?)
    && (s.settings.burst ==> s.data.canSend[i])
  }

  ghost predicate StreamsKept(s: Server) {
    && s.data.Sized(|s.pcs|)
    && forall i :: 0 <= i < |s.pcs| ==> StreamKept(s, i)
  }

  /** Apart from reading the parameters, accepting and starting streams, the main loop leaves the streams alone. */
  lemma ServerMainLeavesStreams(s: Server, connected: nat, input: Input, o: ServerOutcome)
    requires ServerMainNext(s, connected, input) == Some(o) && !s.main.SGetParams?
    requires !(s.main.SAccept? && |s.pcs| < s.settings.streamNum) && !(s.main.SLaunch? && s.main.next < |s.pcs|)
    ensures o.side == s.(main := o.side.main, chan := o.side.chan, state := o.side.state)
  {
  }

  lemma SameStreamsKept(s: Server, after: Server)
    requires StreamsKept(s) && after.pcs == s.pcs && after.data == s.data && after.settings == s.settings
    requires after.done == s.done && after.closed == s.closed
    ensures StreamsKept(after)
  {
    forall i | 0 <= i < |s.pcs| ensures StreamKept(after, i) { assert StreamKept(s, i); }
  }

  lemma AcceptKeepsStreams(s: Server, after: Server)
    requires StreamsKept(s) && after.pcs == s.pcs + [Fresh] && after.data == s.data.Open(s.sender)
    requires after.settings == s.settings && after.done == s.done && after.closed == s.closed
    ensures StreamsKept(after)
  {
    forall i | 0 <= i < |after.pcs| ensures StreamKept(after, i) {
      if i < |s.pcs| { assert StreamKept(s, i); }
    }
  }

  lemma LaunchKeepsStreams(s: Server, k: nat)
    requires StreamsKept(s) && k < |s.pcs|
    ensures StreamsKept(s.(pcs := s.pcs[k := Running], main := SLaunch(k + 1)))
  {
    var after := s.(pcs := s.pcs[k := Running], main := SLaunch(k + 1));
    forall i | 0 <= i < |s.pcs| ensures StreamKept(after, i) { assert StreamKept(s, i); }
  }

  lemma ServerMainKeepsStreams(s: Server, connected: nat, input: Input, o: ServerOutcome)
    requires StreamsKept(s) && (s.main.SGetParams? ==> |s.pcs| == 0)
    requires ServerMainNext(s, connected, input) == Some(o)
    ensures StreamsKept(o.side)
  {
    if s.main.SGetParams? {
    } else if s.main.SAccept? && |s.pcs| < s.settings.streamNum {
      AcceptKeepsStreams(s, o.side);
    } else if s.main.SLaunch? && s.main.next < |s.pcs| {
      LaunchKeepsStreams(s, s.main.next);
    } else {
      ServerMainLeavesStreams(s, connected, input, o);
      SameStreamsKept(s, o.side);
    }
  }

  /** The handler only ever sets `done` and `closed`, and touches neither roles nor throttles. */
  lemma HandlerFrame(cfg: Config, s: Server, input: Input, o: ServerOutcome)
    requires ServerHandlerNext(cfg, s, input) == Some(o) && s.data.Sized(|s.pcs|)
    ensures o.side.pcs == s.pcs && o.side.settings == s.settings && o.side.data.Sized(|s.pcs|)
    ensures o.side.data.roles == s.data.roles && o.side.data.canSend == s.data.canSend
    ensures (s.done ==> o.side.done) && (s.closed ==> o.side.closed)
  {
    match s.handler
    case HSend(_, _) =>
    case HGetResults(_) =>
    case _ =>
  }

  lemma HandlerKeepsStreams(cfg: Config, s: Server, input: Input, o: ServerOutcome)
    requires StreamsKept(s) && ServerHandlerNext(cfg, s, input) == Some(o)
    ensures StreamsKept(o.side)
  {
    HandlerFrame(cfg, s, input, o);
    forall i | 0 <= i < |s.pcs| ensures StreamKept(o.side, i) { assert StreamKept(s, i); }
  }

  lemma StreamStepKeepsStreams(s: Server, k: nat, o: ServerOutcome)
    requires StreamsKept(s) && (ServerStreamNext(s, k) == Some(o) || ServerStreamFails(s, k) == Some(o))
    ensures StreamsKept(o.side)
  {
    forall i | 0 <= i < |s.pcs| ensures StreamKept(o.side, i) { assert StreamKept(s, i); }
  }

  lemma ClientDataFrame(cfg: Config, w: World, a: Action, after: World)
    requires a.ClientSends? || a.ClientReceives? || a.ClientLoops? || a.ClientGate? || a.ClientStatsPass?
    requires DataNext(cfg, w, a) == Some(after)
    ensures after.server == w.server
  {
  }

  lemma ServerDataFrame(cfg: Config, w: World, a: Action, after: World)
    requires a.ServerSends? || a.ServerReceives? || a.ServerLoops? || a.ServerGate? || a.ServerStatsPass?
    requires StreamsKept(w.server) && DataNext(cfg, w, a) == Some(after)
    ensures var s, t := w.server, after.server;
            && t == s.(pcs := t.pcs, data := t.data) && Turned(s.pcs, t.pcs)
            && t.data.Sized(|s.pcs|) && t.data.roles == s.data.roles
            && forall i :: 0 <= i < |s.pcs| ==> (s.settings.burst && s.data.canSend[i] ==> t.data.canSend[i])
  {
    if a.ServerSends? {
    } else if a.ServerReceives? {
    } else {
    }
  }

  lemma DataKeepsStreams(cfg: Config, w: World, a: Action, after: World)
    requires StreamsKept(w.server) && !a.IsControl() && DataNext(cfg, w, a) == Some(after)
    ensures StreamsKept(after.server)
  {
    var s, t := w.server, after.server;
    if a.ServerSends? || a.ServerReceives? || a.ServerLoops? || a.ServerGate? || a.ServerStatsPass? {
      ServerDataFrame(cfg, w, a, after);
      forall i | 0 <= i < |s.pcs| ensures StreamKept(t, i) { assert StreamKept(s, i); }
    } else {
      ClientDataFrame(cfg, w, a, after);
    }
  }

  lemma QuietKeepsStreams(cfg: Config, st: State, a: Action, next: State)
    requires StreamsKept(st.world.server) && Step(cfg, st, a) == Some(next) && InputOf(cfg, st, a) != Garbage
    requires !a.ServerMainStep? && !a.ServerHandlerStep?
    ensures StreamsKept(next.world.server)
  {
    if a.ServerStreamStep? || a.ServerStreamFail? {
      var o := ServerQuietStep(cfg, st, a, next);
      StreamStepKeepsStreams(st.world.server, a.i, o);
    } else if a.ServerMainLeave? || a.ServerHandlerBroken? {
      var o := ServerQuietStep(cfg, st, a, next);
      forall i | 0 <= i < |o.side.pcs| ensures StreamKept(o.side, i) { assert StreamKept(st.world.server, i); }
    } else if a.ClientMainStep? || a.ClientHandlerStep? {
      var o, read := ClientStep(cfg, st, a, next);
    } else if a.IsControl() {
      var o := ClientQuietStep(cfg, st, a, next);
    } else {
      DataStep(cfg, st, a, next);
      DataKeepsStreams(cfg, st.world, a, next.world);
    }
  }

  lemma StepKeepsStreams(cfg: Config, st: State, a: Action, next: State)
    requires Inv(cfg, st) && StreamsKept(st.world.server) && Step(cfg, st, a) == Some(next)
    ensures StreamsKept(next.world.server)
  {
    NoGarbage(cfg, st, a);
    var s := st.world.server;
    if a.ServerMainStep? {
      var o, read := ServerStep(cfg, st, a, next);
      ServerMainKeepsStreams(s, |st.world.client.pcs|, InputOf(cfg, st, a), o);
    } else if a.ServerHandlerStep? {
      var o, read := ServerStep(cfg, st, a, next);
      HandlerKeepsStreams(cfg, s, InputOf(cfg, st, a), o);
    } else {
      QuietKeepsStreams(cfg, st, a, next);
    }
  }

  // ---------- continuations ----------

  lemma {:induction false} RunAppends(cfg: Config, st: State, acts: seq<Action>, mid: State, more: seq<Action>)
    requires Run(cfg, st, acts) == Some(mid)
    ensures Run(cfg, st, acts + more) == Run(cfg, mid, more)
    decreases |acts|
  {
    hide Step;
    if acts == [] {
      assert acts + more == more;
    } else {
      RunAppends(cfg, Step(cfg, st, acts[0]).value, acts[1..], mid, more);
      assert (acts + more)[1..] == acts[1..] + more;
    }
  }

  lemma LeadsHere(cfg: Config, st: State)
    ensures Leads(cfg, st, st)
  {
    assert Run(cfg, st, []) == Some(st);
  }

  lemma LeadsOn(cfg: Config, st: State, mid: State, target: State)
    requires Leads(cfg, st, mid) && Leads(cfg, mid, target)
    ensures Leads(cfg, st, target)
  {
    hide Step;
    var acts :| Run(cfg, st, acts) == Some(mid);
    var more :| Run(cfg, mid, more) == Some(target);
    RunAppends(cfg, st, acts, mid, more);
  }

  lemma ReachableOn(cfg: Config, st: State, target: State)
    requires Reachable(cfg, st) && Leads(cfg, st, target)
    ensures Reachable(cfg, target)
  {
    var prior, sender, acts :| Run(cfg, Initial(cfg, prior, sender), acts) == Some(st);
    assert Leads(cfg, Initial(cfg, prior, sender), st);
    LeadsOn(cfg, Initial(cfg, prior, sender), st, target);
  }

  /** A state of a session, with what its streams keep. */
  ghost predicate Sane(cfg: Config, st: State) { Inv(cfg, st) && StreamsKept(st.world.server) }

  lemma StepLeads(cfg: Config, st: State, a: Action, next: State)
    requires Step(cfg, st, a) == Some(next)
    ensures Leads(cfg, st, next)
  {
    hide Step;
    assert Run(cfg, st, [a]) == Run(cfg, next, [a][1..]) == Some(next);
  }

  /** A step leads on, keeps what is kept, and does work if it is a control step. */
  lemma Goes(cfg: Config, st: State, a: Action, next: State)
    requires Sane(cfg, st) && Step(cfg, st, a) == Some(next)
    ensures Sane(cfg, next) && Leads(cfg, st, next)
    ensures if a.IsControl() then WorkDone(cfg, st) < WorkDone(cfg, next) <= WorkLimit(cfg)
            else WorkDone(cfg, next) == WorkDone(cfg, st)
  {
    StepKeepsInv(cfg, st, a, next);
    StepKeepsStreams(cfg, st, a, next);
    StepWorks(cfg, st, a, next);
    WorkBounded(cfg, next);
    StepLeads(cfg, st, a, next);
  }

  lemma {:induction false} RunStaysSane(cfg: Config, st: State, acts: seq<Action>, target: State)
    requires Sane(cfg, st) && Run(cfg, st, acts) == Some(target)
    ensures Sane(cfg, target)
    decreases |acts|
  {
    hide Inv, StreamsKept, Step;
    if acts != [] {
      var next := Step(cfg, st, acts[0]).value;
      StepKeepsInv(cfg, st, acts[0], next);
      StepKeepsStreams(cfg, st, acts[0], next);
      RunStaysSane(cfg, next, acts[1..], target);
    }
  }

  lemma InitialSane(cfg: Config, prior: Params, sender: bool)
    requires cfg.Valid()
    ensures Sane(cfg, Initial(cfg, prior, sender))
  {
    InitialInv(cfg, prior, sender);
  }

  lemma ReachableSane(cfg: Config, st: State)
    requires cfg.Valid() && Reachable(cfg, st)
    ensures Sane(cfg, st)
  {
    var prior, sender, acts :| Run(cfg, Initial(cfg, prior, sender), acts) == Some(st);
    InitialSane(cfg, prior, sender);
    RunStaysSane(cfg, Initial(cfg, prior, sender), acts, st);
  }

  // ---------- carrying the client's streams on ----------

  lemma DataEnabled(cfg: Config, st: State, a: Action, after: World)
    requires !a.IsControl() && (a.IsClient() ==> !st.world.client.exited) && DataNext(cfg, st.world, a) == Some(after)
    ensures Step(cfg, st, a) == Some(st.(world := after))
  {
    assert st.toServer.frames + [] == st.toServer.frames && st.toClient.frames + [] == st.toClient.frames;
  }

  /** A data step, from what it does to the world. */
  lemma Moves(cfg: Config, st: State, a: Action, after: World) returns (next: State)
    requires Sane(cfg, st) && !a.IsControl() && (a.IsClient() ==> !st.world.client.exited)
    requires DataNext(cfg, st.world, a) == Some(after)
    ensures next == st.(world := after) && Sane(cfg, next) && Leads(cfg, st, next)
    ensures WorkDone(cfg, next) == WorkDone(cfg, st)
  {
    next := st.(world := after);
    DataEnabled(cfg, st, a, after);
    Goes(cfg, st, a, next);
  }

  /** A stream of the server at its tick, its throttle open, writes a block. */
  lemma ServerWrites(cfg: Config, st: State, i: nat) returns (next: State)
    requires Sane(cfg, st) && Live(st.world, st.world.server.data, st.world.server.pcs, i, true, Running)
    requires st.world.server.data.canSend[i] && !st.world.server.closed && !st.world.server.handler.HIdle?
    ensures Sane(cfg, next) && Leads(cfg, st, next) && WorkDone(cfg, next) == WorkDone(cfg, st)
    ensures next.toClient == st.toClient && next.toServer == st.toServer && next.world.client == st.world.client
    ensures next.world.flight == Add(st.world.flight, i, cfg.params.blksize)
    ensures var s := st.world.server;
            next.world.server == s.(pcs := s.pcs[i := Testing], data := Tick(cfg.params, s.data, i, s.done))
  {
    var after := DataNext(cfg, st.world, ServerSends(i)).value;
    next := Moves(cfg, st, ServerSends(i), after);
  }

  lemma StreamEnabled(cfg: Config, st: State, i: nat, o: ClientOutcome)
    requires !st.world.client.exited && ClientStreamNext(cfg, st.world.client, i) == Some(o)
    ensures Step(cfg, st, ClientStreamStep(i)) == Some(st.(world := st.world.(client := o.side)))
  {
    assert st.toServer.frames + [] == st.toServer.frames;
  }

  /** What the end of a stream's loop does to the client. */
  lemma StreamEnds(cfg: Config, c: Client, i: nat) returns (o: ClientOutcome)
    requires i < |c.pcs| && c.data.Sized(|c.pcs|) && !c.chan.Full()
    requires c.pcs[i].Posting? || (c.pcs[i].Testing? && ClientMayStop(cfg, c, i))
    ensures ClientStreamNext(cfg, c, i) == Some(o)
    ensures o.side == c.(pcs := o.side.pcs, chan := o.side.chan) && |o.side.pcs| == |c.pcs|
    ensures forall k :: 0 <= k < |c.pcs| && o.side.pcs[k].Running? ==> c.pcs[k].Running?
    ensures NoneFresh(c.pcs) ==> NoneFresh(o.side.pcs)
  {
    o := ClientStreamNext(cfg, c, i).value;
  }

  /** A stream of a test that is done takes its last steps: it stops at its last test or posts its TEST_END. */
  lemma StreamSteps(cfg: Config, st: State, i: nat) returns (next: State)
    requires Sane(cfg, st) && !st.world.client.exited && i < |st.world.client.pcs|
    requires st.world.client.chan.Empty()
    requires st.world.client.pcs[i].Posting?
             || (st.world.client.pcs[i].Testing? && ClientMayStop(cfg, st.world.client, i))
    ensures Sane(cfg, next) && Leads(cfg, st, next) && WorkDone(cfg, st) < WorkDone(cfg, next) <= WorkLimit(cfg)
    ensures next == st.(world := st.world.(client := next.world.client))
    ensures next.world.client.exited == st.world.client.exited && next.world.client.timer == st.world.client.timer
    ensures |next.world.client.pcs| == |st.world.client.pcs|
    ensures forall k :: 0 <= k < |next.world.client.pcs| && next.world.client.pcs[k].Running? ==>
              st.world.client.pcs[k].Running?
    ensures NoneFresh(st.world.client.pcs) ==> NoneFresh(next.world.client.pcs)
  {
    var o := StreamEnds(cfg, st.world.client, i);
    next := st.(world := st.world.(client := o.side));
    StreamEnabled(cfg, st, i, o);
    Goes(cfg, st, ClientStreamStep(i), next);
  }

  /** A receiver has something to read, or needs nothing. */
  predicate Fed(cfg: Config, st: State, i: nat) {
    ReadsAtOnce(cfg.params) || (i < |st.world.flight| && st.world.flight[i] >= 1 && cfg.params.blksize >= 1)
  }

  /** One tick of a sender or one read of a receiver of the client, from what the world holds. */
  lemma ClientTurns(cfg: Config, w: World, i: nat) returns (a: Action, after: World)
    requires Live(w, w.client.data, w.client.pcs, i, !cfg.params.reverse, Running)
    requires cfg.params.reverse ==> ReadsAtOnce(cfg.params) || (w.flight[i] >= 1 && cfg.params.blksize >= 1)
    requires cfg.Timely()
    ensures !a.IsControl() && a.IsClient() && DataNext(cfg, w, a) == Some(after)
    ensures after == w.(client := after.client, flight := after.flight, lost := after.lost)
    ensures var c, d := w.client, after.client;
            d == c.(pcs := c.pcs[i := Testing], data := d.data) && d.data.roles == c.data.roles
    ensures |after.flight| == |w.flight| && forall k :: 0 <= k < |w.flight| && k != i ==> after.flight[k] == w.flight[k]
  {
    a := if cfg.params.reverse then ClientReceives(i, if ReadsAtOnce(cfg.params) then 0 else 1) else ClientSends(i);
    after := DataNext(cfg, w, a).value;
  }

  /** A client stream in its loop, where it is and in which role. */
  lemma ClientLive(cfg: Config, st: State, i: nat)
    requires Sane(cfg, st) && i < |st.world.client.pcs|
    ensures Live(st.world, st.world.client.data, st.world.client.pcs, i, !cfg.params.reverse, st.world.client.pcs[i])
  {
  }

  /** A stream in its loop gets to its last test. */
  lemma StreamTurns(cfg: Config, st: State, i: nat) returns (next: State)
    requires Sane(cfg, st) && !st.world.client.exited && i < |st.world.client.pcs| && st.world.client.pcs[i].Running?
    requires cfg.Timely() && (cfg.params.reverse ==> Fed(cfg, st, i))
    ensures Sane(cfg, next) && Leads(cfg, st, next) && WorkDone(cfg, next) == WorkDone(cfg, st)
    ensures next.toClient == st.toClient && next.toServer == st.toServer && next.world.server == st.world.server
    ensures var c, d := st.world.client, next.world.client;
            d == c.(pcs := c.pcs[i := Testing], data := d.data) && d.data.roles == c.data.roles
    ensures |next.world.flight| == |st.world.flight|
    ensures forall k :: 0 <= k < |st.world.flight| && k != i ==> next.world.flight[k] == st.world.flight[k]
  {
    ClientLive(cfg, st, i);
    var a, after := ClientTurns(cfg, st.world, i);
    next := Moves(cfg, st, a, after);
  }

  /** Some stream has not posted while the client waits for its streams. */
  lemma SomeStreamDue(cfg: Config, st: State) returns (i: nat)
    requires Sane(cfg, st) && StreamsDue(cfg, st)
    ensures i < |st.world.client.pcs| && !st.world.client.pcs[i].Finished? && !st.world.client.pcs[i].Fresh?
    ensures cfg.Timely() ==> !st.world.client.pcs[i].Failed?
    ensures cfg.Timed() || !st.world.client.timer.Lost? ==> st.world.client.timer.Armed? || st.world.client.done
  {
    var c := st.world.client;
    ClientRoom(cfg, c, st.toClient.taken, |st.toServer.frames|);
    ClientFacts(cfg, c, st.toClient.taken, |st.toServer.frames|);
    CountBounds(c.pcs, Finished, |c.pcs|);
    i :| i < |c.pcs| && c.pcs[i] != Finished;
  }

  lemma TimerEnabled(cfg: Config, st: State)
    requires !st.world.client.exited && st.world.client.timer.Armed?
    ensures Step(cfg, st, TimerFires)
            == Some(st.(world := st.world.(client := st.world.client.(timer := Fired, done := true))))
  {
    assert st.toServer.frames + [] == st.toServer.frames;
  }

  lemma TimerGoes(cfg: Config, st: State) returns (next: State)
    requires Sane(cfg, st) && !st.world.client.exited && st.world.client.timer.Armed?
    ensures Sane(cfg, next) && Leads(cfg, st, next) && WorkDone(cfg, st) < WorkDone(cfg, next) <= WorkLimit(cfg)
    ensures next == st.(world := st.world.(client := st.world.client.(timer := Fired, done := true)))
  {
    next := st.(world := st.world.(client := st.world.client.(timer := Fired, done := true)));
    TimerEnabled(cfg, st);
    Goes(cfg, st, TimerFires, next);
  }

  /** A due stream comes to its end while the server's do nothing: a sender takes one more tick, a receiver one more
      read, of what is already there; and the timer goes first. */
  lemma StreamGoesOn(cfg: Config, st: State, i: nat) returns (next: State)
    requires Sane(cfg, st) && StreamsDue(cfg, st)
    requires st.world.client.timer.Armed? || st.world.client.done
    requires i < |st.world.client.pcs| && !st.world.client.pcs[i].Finished?
    requires cfg.Timely() && (cfg.params.reverse || cfg.params.duration != 0)
    requires cfg.params.reverse && st.world.client.done && st.world.client.pcs[i].Running? ==> Fed(cfg, st, i)
    ensures Sane(cfg, next) && Leads(cfg, st, next) && WorkDone(cfg, st) < WorkDone(cfg, next) <= WorkLimit(cfg)
    ensures next.world.server == st.world.server && !next.world.client.exited
    ensures next.world.client.timer.Lost? ==> st.world.client.timer.Lost?
    ensures |next.world.flight| == |st.world.flight| && |next.world.client.pcs| == |st.world.client.pcs|
    ensures forall k :: 0 <= k < |next.world.client.pcs| && next.world.client.pcs[k].Running? ==>
              st.world.client.pcs[k].Running? && (k < |st.world.flight| ==> next.world.flight[k] == st.world.flight[k])
    ensures NoneFresh(next.world.client.pcs)
  {
    hide Wired, ServerInv, StreamsKept, AllBlocked, WorkDone;
    var c := st.world.client;
    if !c.done {
      next := TimerGoes(cfg, st);
    } else if c.pcs[i].Running? {
      var mid := StreamTurns(cfg, st, i);
      next := StreamSteps(cfg, mid, i);
      LeadsOn(cfg, st, mid, next);
    } else {
      next := StreamSteps(cfg, st, i);
    }
  }

  /** One control step. */
  lemma ControlGoes(cfg: Config, st: State, a: Action) returns (next: State)
    requires Sane(cfg, st) && a.IsControl() && Step(cfg, st, a).Some?
    ensures Step(cfg, st, a) == Some(next) && Sane(cfg, next) && Leads(cfg, st, next)
    ensures WorkDone(cfg, st) < WorkDone(cfg, next) <= WorkLimit(cfg)
  {
    next := Step(cfg, st, a).value;
    Goes(cfg, st, a, next);
  }
}
