/** The end of the test, stream by stream: when a stream stops, how much it still moves, which of its bytes are lost,
    and from when on its counts are final. And what the two sides have said to each other by then. */
module SessionEnding {
  import opened States
  import opened Wrappers
  import opened Rates
  import opened Session
  import opened SessionInvariant
  import opened SessionSteps
  import opened SessionData
  import opened SessionSafety
  import SessionStreams
  import opened SessionTraps

  // ---------- one action and one stream ----------

  /** Where an action may take the goroutine of a stream: `moves` if the action is the stream's own tick or read, and by
      what its last test and its deadline say. */
  predicate Turns(p: StreamPc, q: StreamPc, moves: bool, must: bool, may: bool, fails: bool) {
    if moves then p.Running? && q.Testing?
    else
      || q == p
      || (p.Fresh? && q.Running?)
      || (p.Testing? && q.Running? && !must)
      || (p.Testing? && q.Posting? && may)
      || (p.Posting? && q.Finished?)
      || (p.Running? && q.Failed? && fails)
  }

  /** The end of the test as a stream sees it: a sender of a test without duration does not. */
  predicate EndsFor(p: Params, sender: bool, done: bool) { done && (sender ==> p.duration != 0) }

  predicate MovesClient(a: Action, i: nat) { (a.ClientSends? || a.ClientReceives?) && a.i == i }

  predicate MovesServer(a: Action, i: nat) { (a.ServerSends? || a.ServerReceives?) && a.i == i }

  predicate ClientTurns(cfg: Config, c: Client, d: Client, a: Action, i: nat) {
    && i < |c.pcs| && i < |d.pcs| && (c.done ==> d.done)
    && var sender := !cfg.params.reverse;
       Turns(c.pcs[i], d.pcs[i], MovesClient(a, i), EndsFor(cfg.params, sender, c.done),
             EndsFor(cfg.params, sender, c.done) || (cfg.limits && sender), cfg.Expires(c.done))
  }

  predicate ServerTurns(cfg: Config, s: Server, t: Server, a: Action, i: nat) {
    && i < |s.pcs| && i < |t.pcs| && (s.done ==> t.done) && (s.closed ==> t.closed)
    && var over := EndsFor(cfg.params, cfg.params.reverse, s.done);
       Turns(s.pcs[i], t.pcs[i], MovesServer(a, i), over, over, s.closed)
  }

  lemma ClientMainTurns(cfg: Config, st: State, next: State, i: nat)
    requires Inv(cfg, st) && Step(cfg, st, ClientMainStep) == Some(next) && i < |st.world.client.pcs|
    ensures ClientTurns(cfg, st.world.client, next.world.client, ClientMainStep, i)
  {
    hide Wired, ServerInv, ClientInv, Step;
    var c := st.world.client;
    var o, read := ClientStep(cfg, st, ClientMainStep, next);
    MainStartsFresh(cfg, c, o, st.toClient.taken, |st.toServer.frames|);
    MainStarts(cfg, c, o);
    if !c.main.CMarkDone? {
      MainKeepsClock(cfg, c, o);
    }
  }

  lemma KeeperTurns(cfg: Config, st: State, next: State, i: nat)
    requires Inv(cfg, st) && Step(cfg, st, ClientHandlerStep) == Some(next) && i < |st.world.client.pcs|
    ensures ClientTurns(cfg, st.world.client, next.world.client, ClientHandlerStep, i)
  {
    hide Inv, Step, ClientHandlerNext;
    NoGarbage(cfg, st, ClientHandlerStep);
    var o, read := ClientStep(cfg, st, ClientHandlerStep, next);
    KeeperStreams(cfg, st.world.client, InputOf(cfg, st, ClientHandlerStep), o);
    KeeperClock(cfg, st.world.client, InputOf(cfg, st, ClientHandlerStep), o);
  }

  lemma ClientQuietTurns(cfg: Config, c: Client, a: Action, o: ClientOutcome, i: nat)
    requires a.IsClientQuiet() && i < |c.pcs|
    requires forall k :: 0 <= k < |c.data.roles| ==> c.data.roles[k] == !cfg.params.reverse
    requires a.ClientStreamStep? ==> ClientStreamNext(cfg, c, a.i) == Some(o)
    requires a.ClientStreamFail? ==> ClientStreamFails(cfg, c, a.i) == Some(o)
    requires a.TimerFires? ==> TimerNext(c) == Some(o)
    requires a.TimerLost? ==> TimerRaces(cfg, c) == Some(o)
    requires a.ClientExits? ==> ExitNext(c) == Some(o)
    ensures ClientTurns(cfg, c, o.side, a, i)
  {
  }

  lemma ClientDataTurns(cfg: Config, w: World, a: Action, after: World, i: nat)
    requires !a.IsControl() && DataNext(cfg, w, a) == Some(after) && i < |w.client.pcs|
    requires forall k :: 0 <= k < |w.client.data.roles| ==> w.client.data.roles[k] == !cfg.params.reverse
    ensures ClientTurns(cfg, w.client, after.client, a, i)
  {
    if a.ClientReceives? {
      ClientReceivesFrame(cfg, w, a.i, a.n, after);
    }
  }

  lemma RolesAre(cfg: Config, st: State)
    requires Inv(cfg, st)
    ensures var s, c := st.world.server, st.world.client;
            && s.data.Sized(|s.pcs|) && c.data.Sized(|c.pcs|)
            && (forall k :: 0 <= k < |c.data.roles| ==> c.data.roles[k] == !cfg.params.reverse)
            && (forall k :: 0 <= k < |s.data.roles| ==> s.data.roles[k] == cfg.params.reverse)
            && (!s.handler.HIdle? ==> s.settings == cfg.params && s.sender == cfg.params.reverse)
            && (s.handler.HIdle? ==> |s.pcs| == 0)
  {
  }

  lemma StepTurnsClient(cfg: Config, st: State, a: Action, next: State, i: nat)
    requires Inv(cfg, st) && Step(cfg, st, a) == Some(next) && i < |st.world.client.pcs|
    ensures ClientTurns(cfg, st.world.client, next.world.client, a, i)
  {
    hide Inv, Step, DataNext;
    NoGarbage(cfg, st, a);
    RolesAre(cfg, st);
    if a.ClientMainStep? {
      ClientMainTurns(cfg, st, next, i);
    } else if a.ClientHandlerStep? {
      KeeperTurns(cfg, st, next, i);
    } else if a.IsClientQuiet() {
      var o := ClientQuietStep(cfg, st, a, next);
      ClientQuietTurns(cfg, st.world.client, a, o, i);
    } else if a.ServerMainStep? || a.ServerHandlerStep? {
      var o, read := ServerStep(cfg, st, a, next);
    } else if a.IsControl() {
      var o := ServerQuietStep(cfg, st, a, next);
    } else {
      DataStep(cfg, st, a, next);
      ClientDataTurns(cfg, st.world, a, next.world, i);
    }
  }

  lemma ServerMainTurns(cfg: Config, s: Server, connected: nat, input: Input, o: ServerOutcome, i: nat)
    requires ServerMainNext(s, connected, input) == Some(o) && i < |s.pcs|
    requires s.main.SLaunch? && s.main.next < |s.pcs| ==> s.pcs[s.main.next].Fresh?
    ensures ServerTurns(cfg, s, o.side, ServerMainStep, i)
  {
    if s.main.SLaunch? && s.main.next < |s.pcs| {
    } else {
    }
  }

  lemma ServerQuietTurns(cfg: Config, s: Server, gone: bool, a: Action, o: ServerOutcome, i: nat)
    requires i < |s.pcs| && s.settings == cfg.params
    requires forall k :: 0 <= k < |s.data.roles| ==> s.data.roles[k] == cfg.params.reverse
    requires a.ServerStreamStep? || a.ServerStreamFail? || a.ServerMainLeave? || a.ServerHandlerBroken?
    requires a.ServerStreamStep? ==> ServerStreamNext(s, a.i) == Some(o)
    requires a.ServerStreamFail? ==> ServerStreamFails(s, a.i) == Some(o)
    requires a.ServerMainLeave? ==> ServerLeaves(s) == Some(o)
    requires a.ServerHandlerBroken? ==> ServerHandlerBreaks(s, gone) == Some(o)
    ensures ServerTurns(cfg, s, o.side, a, i)
  {
  }

  lemma ServerDataTurns(cfg: Config, w: World, a: Action, after: World, i: nat)
    requires !a.IsControl() && DataNext(cfg, w, a) == Some(after) && i < |w.server.pcs|
    requires w.server.settings == cfg.params
    requires forall k :: 0 <= k < |w.server.data.roles| ==> w.server.data.roles[k] == cfg.params.reverse
    ensures ServerTurns(cfg, w.server, after.server, a, i)
  {
    if a.ServerReceives? {
      ServerReceivesFrame(cfg, w, a.i, a.n, after);
    }
  }

  lemma LaunchesFresh(cfg: Config, s: Server, read: nat, sent: nat)
    requires ServerInv(cfg, s, read, sent) && s.main.SLaunch? && s.main.next < |s.pcs|
    ensures s.pcs[s.main.next].Fresh?
  {
  }

  lemma ServerOwnTurns(cfg: Config, st: State, a: Action, next: State, i: nat)
    requires Inv(cfg, st) && Step(cfg, st, a) == Some(next) && i < |st.world.server.pcs|
    requires a.ServerMainStep? || a.ServerHandlerStep?
    ensures ServerTurns(cfg, st.world.server, next.world.server, a, i)
  {
    hide Wired, ServerInv, ClientInv, Step, ServerMainNext, ServerHandlerNext;
    NoGarbage(cfg, st, a);
    RolesAre(cfg, st);
    var s := st.world.server;
    var o, read := ServerStep(cfg, st, a, next);
    if a.ServerMainStep? {
      if s.main.SLaunch? && s.main.next < |s.pcs| {
        LaunchesFresh(cfg, s, st.toServer.taken, |st.toClient.frames|);
      }
      ServerMainTurns(cfg, s, |st.world.client.pcs|, InputOf(cfg, st, a), o, i);
    } else {
      SessionStreams.HandlerFrame(cfg, s, InputOf(cfg, st, a), o);
    }
  }

  lemma StepTurnsServer(cfg: Config, st: State, a: Action, next: State, i: nat)
    requires Inv(cfg, st) && Step(cfg, st, a) == Some(next) && i < |st.world.server.pcs|
    ensures ServerTurns(cfg, st.world.server, next.world.server, a, i)
  {
    hide Inv, Step, DataNext;
    NoGarbage(cfg, st, a);
    RolesAre(cfg, st);
    if a.ServerMainStep? || a.ServerHandlerStep? {
      ServerOwnTurns(cfg, st, a, next, i);
    } else if a.ClientMainStep? || a.ClientHandlerStep? {
      var o, read := ClientStep(cfg, st, a, next);
    } else if a.IsClientQuiet() {
      var o := ClientQuietStep(cfg, st, a, next);
    } else if a.IsControl() {
      var o := ServerQuietStep(cfg, st, a, next);
      ServerQuietTurns(cfg, st.world.server, st.world.client.gone, a, o, i);
    } else {
      DataStep(cfg, st, a, next);
      ServerDataTurns(cfg, st.world, a, next.world, i);
    }
  }

  // ---------- streams stop at the end of the test, and not before ----------

  /** Why a stream of the client has stopped. */
  predicate ClientStopped(cfg: Config, c: Client, i: nat)
    requires i < |c.pcs|
  {
    && (c.pcs[i].Posting? || c.pcs[i].Finished? ==>
          EndsFor(cfg.params, !cfg.params.reverse, c.done) || (cfg.limits && !cfg.params.reverse))
    && (c.pcs[i].Failed? ==> cfg.Expires(c.done))
  }

  predicate ServerStopped(cfg: Config, s: Server, i: nat)
    requires i < |s.pcs|
  {
    && (s.pcs[i].Posting? || s.pcs[i].Finished? ==> EndsFor(cfg.params, cfg.params.reverse, s.done))
    && (s.pcs[i].Failed? ==> s.closed)
  }

  ghost predicate AllStopped(cfg: Config, st: State) {
    && (forall i :: 0 <= i < |st.world.client.pcs| ==> ClientStopped(cfg, st.world.client, i))
    && (forall i :: 0 <= i < |st.world.server.pcs| ==> ServerStopped(cfg, st.world.server, i))
  }

  lemma ClientGrows(cfg: Config, st: State, a: Action, next: State)
    requires Inv(cfg, st) && Step(cfg, st, a) == Some(next)
    ensures |next.world.client.pcs| <= |st.world.client.pcs|
            || next.world.client.pcs == st.world.client.pcs + [Fresh]
  {
    hide Wired, ServerAt, ClientAt, Step, DataNext, ClientHandlerNext, ServerMainNext, ServerHandlerNext;
    NoGarbage(cfg, st, a);
    var c := st.world.client;
    if a.ClientHandlerStep? {
      var o, read := ClientStep(cfg, st, a, next);
      KeeperStreams(cfg, c, InputOf(cfg, st, a), o);
    } else if a.ClientMainStep? {
      var o, read := ClientStep(cfg, st, a, next);
      MainStarts(cfg, c, o);
    } else if a.ClientStreamStep? || a.ClientStreamFail? {
      var o := ClientQuietStep(cfg, st, a, next);
    } else {
      StreamsStay(cfg, st, a, next);
    }
  }

  lemma MainAccepts(s: Server, connected: nat, input: Input, o: ServerOutcome)
    requires ServerMainNext(s, connected, input) == Some(o)
    ensures |o.side.pcs| <= |s.pcs| || o.side.pcs == s.pcs + [Fresh]
  {
  }

  lemma ServerGrows(cfg: Config, st: State, a: Action, next: State)
    requires Inv(cfg, st) && Step(cfg, st, a) == Some(next)
    ensures |next.world.server.pcs| <= |st.world.server.pcs|
            || next.world.server.pcs == st.world.server.pcs + [Fresh]
  {
    hide Wired, ServerAt, ClientAt, Step;
    NoGarbage(cfg, st, a);
    if a.ServerMainStep? {
      var o, read := ServerStep(cfg, st, a, next);
      MainAccepts(st.world.server, |st.world.client.pcs|, InputOf(cfg, st, a), o);
    } else {
      ServerMainStays(cfg, st, a, next);
    }
  }

  /** New streams are fresh. */
  lemma NewStreamsFresh(cfg: Config, st: State, a: Action, next: State)
    requires Inv(cfg, st) && Step(cfg, st, a) == Some(next) && Inv(cfg, next)
    ensures forall k :: |st.world.client.pcs| <= k < |next.world.client.pcs| ==> next.world.client.pcs[k].Fresh?
    ensures forall k :: |st.world.server.pcs| <= k < |next.world.server.pcs| ==> next.world.server.pcs[k].Fresh?
  {
    if |st.world.client.pcs| < |next.world.client.pcs| {
      ClientGrows(cfg, st, a, next);
    }
    if |st.world.server.pcs| < |next.world.server.pcs| {
      ServerGrows(cfg, st, a, next);
    }
  }

  lemma StepStops(cfg: Config, st: State, a: Action, next: State)
    requires Inv(cfg, st) && AllStopped(cfg, st) && Step(cfg, st, a) == Some(next) && Inv(cfg, next)
    ensures AllStopped(cfg, next)
  {
    hide Inv, Step;
    NewStreamsFresh(cfg, st, a, next);
    forall i | 0 <= i < |next.world.client.pcs| ensures ClientStopped(cfg, next.world.client, i) {
      if i < |st.world.client.pcs| {
        assert ClientStopped(cfg, st.world.client, i);
        StepTurnsClient(cfg, st, a, next, i);
      }
    }
    forall i | 0 <= i < |next.world.server.pcs| ensures ServerStopped(cfg, next.world.server, i) {
      if i < |st.world.server.pcs| {
        assert ServerStopped(cfg, st.world.server, i);
        StepTurnsServer(cfg, st, a, next, i);
      }
    }
  }

  lemma {:induction false} RunStops(cfg: Config, st: State, acts: seq<Action>, target: State)
    requires Inv(cfg, st) && AllStopped(cfg, st) && Run(cfg, st, acts) == Some(target)
    ensures AllStopped(cfg, target)
    decreases |acts|
  {
    hide Inv, AllStopped, Step;
    if acts != [] {
      var next := Step(cfg, st, acts[0]).value;
      StepKeepsInv(cfg, st, acts[0], next);
      StepStops(cfg, st, acts[0], next);
      RunStops(cfg, next, acts[1..], target);
    }
  }

  lemma InitialStops(cfg: Config, prior: Params, sender: bool)
    ensures AllStopped(cfg, Initial(cfg, prior, sender))
  {
  }

  lemma ReachableStops(cfg: Config, st: State)
    requires cfg.Valid() && Reachable(cfg, st)
    ensures AllStopped(cfg, st)
  {
    var prior, sender, acts :| Run(cfg, Initial(cfg, prior, sender), acts) == Some(st);
    hide Inv, AllStopped, Initial, Step;
    InitialInv(cfg, prior, sender);
    InitialStops(cfg, prior, sender);
    RunStops(cfg, Initial(cfg, prior, sender), acts, st);
  }

  /** In every reachable state a stream of either side that posts or has posted its TEST_END belongs to a side whose
      test is done, and if it is a sender to a test with a duration; a client's sender may also have met a limit. A
      stream has failed only once the server closed it, or the client's deadline passed; over TCP that is after the
      end. */
  lemma StopsAtTheEnd(cfg: Config, st: State, i: nat)
    requires cfg.Valid() && Reachable(cfg, st) && i < |st.world.client.pcs|
    ensures var c, p := st.world.client, cfg.params;
            && (c.pcs[i].Posting? || c.pcs[i].Finished? ==>
                  (c.done && (p.reverse || p.duration != 0)) || (cfg.limits && !p.reverse))
            && (c.pcs[i].Failed? ==> !cfg.Timely())
            && (c.pcs[i].Failed? && p.protoName == "tcp" && p.duration <= 9_223_372_031 ==> c.done)
    ensures i < |st.world.server.pcs| ==>
              var s, p := st.world.server, cfg.params;
              && (s.pcs[i].Posting? || s.pcs[i].Finished? ==> s.done && (!p.reverse || p.duration != 0))
              && (s.pcs[i].Failed? ==> s.closed)
  {
    hide Inv;
    ReachableStops(cfg, st);
    assert ClientStopped(cfg, st.world.client, i);
    if i < |st.world.server.pcs| {
      assert ServerStopped(cfg, st.world.server, i);
    }
    if cfg.params.duration <= LONGEST {
      EndInFigures(cfg.params.duration);
    }
  }

  // ---------- one more block ----------

  /** The ticks and reads of stream `i` of a side in a run. */
  function ClientTurnsIn(acts: seq<Action>, i: nat): nat {
    if acts == [] then 0 else (if MovesClient(acts[0], i) then 1 else 0) + ClientTurnsIn(acts[1..], i)
  }

  function ServerTurnsIn(acts: seq<Action>, i: nat): nat {
    if acts == [] then 0 else (if MovesServer(acts[0], i) then 1 else 0) + ServerTurnsIn(acts[1..], i)
  }

  /** One while the stream may still tick or read after the end. */
  function StillToMove(p: StreamPc): nat { if p.Fresh? || p.Running? then 1 else 0 }

  lemma {:induction false} ClientMovesOnce(cfg: Config, st: State, acts: seq<Action>, later: State, i: nat)
    requires Inv(cfg, st) && Run(cfg, st, acts) == Some(later) && i < |st.world.client.pcs|
    requires EndsFor(cfg.params, !cfg.params.reverse, st.world.client.done)
    ensures i < |later.world.client.pcs|
    ensures ClientTurnsIn(acts, i) + StillToMove(later.world.client.pcs[i]) <= StillToMove(st.world.client.pcs[i])
    decreases |acts|
  {
    hide Inv, Step;
    if acts != [] {
      var next := Step(cfg, st, acts[0]).value;
      StepKeepsInv(cfg, st, acts[0], next);
      StepTurnsClient(cfg, st, acts[0], next, i);
      ClientMovesOnce(cfg, next, acts[1..], later, i);
    }
  }

  lemma {:induction false} ServerMovesOnce(cfg: Config, st: State, acts: seq<Action>, later: State, i: nat)
    requires Inv(cfg, st) && Run(cfg, st, acts) == Some(later) && i < |st.world.server.pcs|
    requires EndsFor(cfg.params, cfg.params.reverse, st.world.server.done)
    ensures i < |later.world.server.pcs|
    ensures ServerTurnsIn(acts, i) + StillToMove(later.world.server.pcs[i]) <= StillToMove(st.world.server.pcs[i])
    decreases |acts|
  {
    hide Inv, Step;
    if acts != [] {
      var next := Step(cfg, st, acts[0]).value;
      StepKeepsInv(cfg, st, acts[0], next);
      StepTurnsServer(cfg, st, acts[0], next, i);
      ServerMovesOnce(cfg, next, acts[1..], later, i);
    }
  }

  /** Once a side's test is done each of its streams ticks or reads at most once more, whatever happens; senders only
      in a test with a duration. */
  lemma OneMoreBlock(cfg: Config, st: State, acts: seq<Action>, later: State, i: nat)
    requires cfg.Valid() && Reachable(cfg, st) && Run(cfg, st, acts) == Some(later)
    ensures i < |st.world.client.pcs| && st.world.client.done && (cfg.params.reverse || cfg.params.duration != 0) ==>
              ClientTurnsIn(acts, i) <= 1
    ensures i < |st.world.server.pcs| && st.world.server.done && (!cfg.params.reverse || cfg.params.duration != 0) ==>
              ServerTurnsIn(acts, i) <= 1
  {
    ReachableInv(cfg, st);
    if i < |st.world.client.pcs| && EndsFor(cfg.params, !cfg.params.reverse, st.world.client.done) {
      ClientMovesOnce(cfg, st, acts, later, i);
    }
    if i < |st.world.server.pcs| && EndsFor(cfg.params, cfg.params.reverse, st.world.server.done) {
      ServerMovesOnce(cfg, st, acts, later, i);
    }
  }

  // ---------- the throttle ----------

  /** The throttles there are stay as they are. */
  predicate SameThrottle(d: Counters, e: Counters) {
    |d.canSend| <= |e.canSend| && forall i :: 0 <= i < |d.canSend| ==> e.canSend[i] == d.canSend[i]
  }

  lemma DataKeepsThrottle(cfg: Config, w: World, a: Action, after: World)
    requires !a.IsControl() && DataNext(cfg, w, a) == Some(after)
    ensures w.client.done ==> SameThrottle(w.client.data, after.client.data)
    ensures w.server.done ==> SameThrottle(w.server.data, after.server.data)
  {
    if a.ClientReceives? {
      ClientReceivesFrame(cfg, w, a.i, a.n, after);
    } else if a.ServerReceives? {
      ServerReceivesFrame(cfg, w, a.i, a.n, after);
    } else {
    }
  }

  lemma ServerMainKeepsThrottle(s: Server, connected: nat, input: Input, o: ServerOutcome)
    requires ServerMainNext(s, connected, input) == Some(o)
    ensures SameThrottle(s.data, o.side.data) && o.side.done == s.done
  {
  }

  lemma ClientMainKeepsThrottle(cfg: Config, c: Client, o: ClientOutcome)
    requires ClientMainNext(cfg, c) == Some(o)
    ensures SameThrottle(c.data, o.side.data) && (c.done ==> o.side.done)
  {
    match c.main
    case CLoop =>
    case _ =>
  }

  lemma StepKeepsThrottle(cfg: Config, st: State, a: Action, next: State)
    requires Inv(cfg, st) && Step(cfg, st, a) == Some(next)
    ensures st.world.client.done ==>
              next.world.client.done && SameThrottle(st.world.client.data, next.world.client.data)
    ensures st.world.server.done ==>
              next.world.server.done && SameThrottle(st.world.server.data, next.world.server.data)
  {
    hide Inv, Step, DataNext, ServerMainNext, ServerHandlerNext, ClientMainNext, ClientHandlerNext;
    NoGarbage(cfg, st, a);
    RolesAre(cfg, st);
    var s, c, input := st.world.server, st.world.client, InputOf(cfg, st, a);
    if a.ServerMainStep? {
      var o, read := ServerStep(cfg, st, a, next);
      ServerMainKeepsThrottle(s, |c.pcs|, input, o);
    } else if a.ServerHandlerStep? {
      var o, read := ServerStep(cfg, st, a, next);
      SessionStreams.HandlerFrame(cfg, s, input, o);
    } else if a.ClientMainStep? {
      var o, read := ClientStep(cfg, st, a, next);
      ClientMainKeepsThrottle(cfg, c, o);
    } else if a.ClientHandlerStep? {
      var o, read := ClientStep(cfg, st, a, next);
      KeeperOpens(cfg, c, input, o);
      KeeperClock(cfg, c, input, o);
    } else if a.IsClientQuiet() {
      var o := ClientQuietStep(cfg, st, a, next);
    } else if a.IsControl() {
      var o := ServerQuietStep(cfg, st, a, next);
    } else {
      DataStep(cfg, st, a, next);
      DataInv(cfg, st.world, a, next.world);
      DataKeepsThrottle(cfg, st.world, a, next.world);
    }
  }

  /** Once a side's test is done its throttles do not move any more, on any schedule. */
  lemma {:induction false} ThrottleRests(cfg: Config, st: State, acts: seq<Action>, later: State)
    requires Inv(cfg, st) && Run(cfg, st, acts) == Some(later)
    ensures st.world.client.done ==> SameThrottle(st.world.client.data, later.world.client.data)
    ensures st.world.server.done ==> SameThrottle(st.world.server.data, later.world.server.data)
    decreases |acts|
  {
    hide Inv, Step;
    if acts != [] {
      var next := Step(cfg, st, acts[0]).value;
      StepKeepsInv(cfg, st, acts[0], next);
      StepKeepsThrottle(cfg, st, acts[0], next);
      ThrottleRests(cfg, next, acts[1..], later);
    }
  }

  // ---------- writes after the deadline ----------

  predicate SameSent(d: Counters, e: Counters) {
    |d.sent| <= |e.sent| && forall i :: 0 <= i < |d.sent| ==> e.sent[i] == d.sent[i]
  }

  lemma KeeperKeepsSent(cfg: Config, c: Client, input: Input, o: ClientOutcome)
    requires ClientHandlerNext(cfg, c, input) == Some(o) && c.sender
    ensures SameSent(c.data, o.side.data)
  {
    match c.handler
    case KRead =>
    case _ =>
  }

  lemma ClientMainKeepsSent(cfg: Config, c: Client, o: ClientOutcome)
    requires ClientMainNext(cfg, c) == Some(o)
    ensures o.side.data.sent == c.data.sent
  {
    match c.main
    case CLoop =>
    case _ =>
  }

  lemma DataKeepsSent(cfg: Config, w: World, a: Action, after: World)
    requires !a.IsControl() && DataNext(cfg, w, a) == Some(after) && cfg.Refuses(w.client.done)
    ensures SameSent(w.client.data, after.client.data)
  {
    if a.ClientReceives? {
      ClientReceivesFrame(cfg, w, a.i, a.n, after);
    } else if a.ServerReceives? {
      ServerReceivesFrame(cfg, w, a.i, a.n, after);
    } else {
    }
  }

  lemma MainKeepsSender(cfg: Config, c: Client, o: ClientOutcome)
    requires ClientMainNext(cfg, c) == Some(o)
    ensures o.side.sender == c.sender
  {
    match c.main
    case CLoop =>
    case _ =>
  }

  lemma StepRefuses(cfg: Config, st: State, a: Action, next: State)
    requires Inv(cfg, st) && Step(cfg, st, a) == Some(next)
    requires cfg.Refuses(st.world.client.done) && st.world.client.sender
    ensures next.world.client.sender && SameSent(st.world.client.data, next.world.client.data)
  {
    hide Inv, Step, DataNext, ServerMainNext, ServerHandlerNext, ClientMainNext, ClientHandlerNext;
    NoGarbage(cfg, st, a);
    RolesAre(cfg, st);
    if a.ServerMainStep? || a.ServerHandlerStep? {
      var o, read := ServerStep(cfg, st, a, next);
    } else if a.ClientMainStep? {
      var o, read := ClientStep(cfg, st, a, next);
      ClientMainKeepsSent(cfg, st.world.client, o);
      MainKeepsSender(cfg, st.world.client, o);
    } else if a.ClientHandlerStep? {
      var o, read := ClientStep(cfg, st, a, next);
      KeeperKeepsSent(cfg, st.world.client, InputOf(cfg, st, a), o);
      KeeperFrame(cfg, st.world.client, InputOf(cfg, st, a), o);
    } else if a.IsClientQuiet() {
      var o := ClientQuietStep(cfg, st, a, next);
    } else if a.IsControl() {
      var o := ServerQuietStep(cfg, st, a, next);
    } else {
      DataStep(cfg, st, a, next);
      DataInv(cfg, st.world, a, next.world);
      DataKeepsSent(cfg, st.world, a, next.world);
    }
  }

  lemma {:induction false} RunRefuses(cfg: Config, st: State, acts: seq<Action>, later: State)
    requires Inv(cfg, st) && Run(cfg, st, acts) == Some(later)
    requires cfg.Refuses(st.world.client.done) && st.world.client.sender
    ensures SameSent(st.world.client.data, later.world.client.data)
    decreases |acts|
  {
    hide Inv, Step;
    if acts != [] {
      var next := Step(cfg, st, acts[0]).value;
      StepKeepsInv(cfg, st, acts[0], next);
      StepRefuses(cfg, st, acts[0], next);
      StepKeepsThrottle(cfg, st, acts[0], next);
      RunRefuses(cfg, next, acts[1..], later);
    }
  }

  /** Over TCP in forward mode, when no tick falls between the end of the test and the deadline, nothing the client
      writes after the end of the test goes out, on any schedule. */
  lemma LateWritesFail(cfg: Config, st: State, acts: seq<Action>, later: State, i: nat)
    requires cfg.Valid() && Reachable(cfg, st) && Run(cfg, st, acts) == Some(later)
    requires cfg.params.protoName == "tcp" && !cfg.params.reverse && !cfg.Timely()
    requires st.world.client.done && i < |st.world.client.data.sent|
    ensures i < |later.world.client.data.sent|
    ensures later.world.client.data.sent[i] == st.world.client.data.sent[i]
  {
    ReachableInv(cfg, st);
    RunRefuses(cfg, st, acts, later);
  }

  // ---------- lost bytes ----------

  /** Until the end of the test has reached a reader it is in TEST_RUNNING whenever it reads. */
  lemma ReadersRun(cfg: Config, st: State, i: nat)
    requires Inv(cfg, st)
    ensures i < |st.world.server.pcs| && st.world.server.pcs[i].Running? && st.toServer.taken <= 1 ==>
              st.world.server.state == TEST_RUNNING
    ensures i < |st.world.client.pcs| && st.world.client.pcs[i].Running? ==> st.world.client.state == TEST_RUNNING
  {
    ClientFacts(cfg, st.world.client, st.toClient.taken, |st.toServer.frames|);
    ClientIsThrough(cfg, st);
  }

  lemma DataLoses(cfg: Config, st: State, a: Action, next: State)
    requires Inv(cfg, st) && !a.IsControl() && DataNext(cfg, st.world, a) == Some(next.world)
    requires cfg.params.reverse || st.toServer.taken <= 1
    ensures next.world.lost == st.world.lost
  {
    hide Inv;
    RolesAre(cfg, st);
    if a.ServerReceives? {
      ServerReceivesFrame(cfg, st.world, a.i, a.n, next.world);
      ReadersRun(cfg, st, a.i);
    } else if a.ClientReceives? {
      ClientReceivesFrame(cfg, st.world, a.i, a.n, next.world);
      ReadersRun(cfg, st, a.i);
    }
  }

  lemma StepLoses(cfg: Config, st: State, a: Action, next: State)
    requires Inv(cfg, st) && Step(cfg, st, a) == Some(next)
    ensures st.toServer.taken <= next.toServer.taken
    ensures cfg.params.reverse || st.toServer.taken <= 1 ==> next.world.lost == st.world.lost
  {
    hide Inv, Step, DataNext, ServerMainNext, ServerHandlerNext, ClientMainNext, ClientHandlerNext;
    NoGarbage(cfg, st, a);
    if a.ServerMainStep? || a.ServerHandlerStep? {
      var o, read := ServerStep(cfg, st, a, next);
    } else if a.ClientMainStep? || a.ClientHandlerStep? {
      var o, read := ClientStep(cfg, st, a, next);
    } else if a.IsClientQuiet() {
      var o := ClientQuietStep(cfg, st, a, next);
    } else if a.IsControl() {
      var o := ServerQuietStep(cfg, st, a, next);
    } else {
      DataStep(cfg, st, a, next);
      if cfg.params.reverse || st.toServer.taken <= 1 {
        DataLoses(cfg, st, a, next);
      }
    }
  }

  lemma {:induction false} RunLoses(cfg: Config, st: State, acts: seq<Action>, later: State)
    requires Inv(cfg, st) && Run(cfg, st, acts) == Some(later)
    ensures st.toServer.taken <= later.toServer.taken
    ensures cfg.params.reverse || later.toServer.taken <= 1 ==> later.world.lost == st.world.lost
    decreases |acts|
  {
    hide Inv, Step;
    if acts != [] {
      var next := Step(cfg, st, acts[0]).value;
      StepKeepsInv(cfg, st, acts[0], next);
      StepLoses(cfg, st, acts[0], next);
      RunLoses(cfg, next, acts[1..], later);
    }
  }

  /** Bytes are lost to the counts only in forward mode, and only once the server has read TEST_END: until then, and in
      reverse mode for good, every byte written is in flight or counted. */
  lemma NothingLostBefore(cfg: Config, st: State, i: nat)
    requires cfg.Valid() && Reachable(cfg, st) && i < cfg.N() && (cfg.params.reverse || st.toServer.taken <= 1)
    ensures Sizes(cfg, st.world) && st.world.lost[i] == 0
    ensures Written(cfg, st.world, i) == st.world.flight[i] + Counted(cfg, st.world, i)
  {
    BytesConserved(cfg, st, i);
    var prior, sender, acts :| Run(cfg, Initial(cfg, prior, sender), acts) == Some(st);
    InitialInv(cfg, prior, sender);
    RunLoses(cfg, Initial(cfg, prior, sender), acts, st);
  }

  // ---------- final counts ----------

  lemma KeeperTakesOther(cfg: Config, c: Client, input: Input, o: ClientOutcome)
    requires ClientHandlerNext(cfg, c, input) == Some(o) && c.handler.KGetResults?
    ensures o.side.data.Active(c.sender) == c.data.Active(c.sender)
  {
  }

  /** Only the counts the peer is the authority for are ever taken from it. */
  lemma KeeperKeepsOwn(cfg: Config, c: Client, input: Input, o: ClientOutcome)
    requires ClientHandlerNext(cfg, c, input) == Some(o) && |c.pcs| >= cfg.N()
    ensures o.side.data.Active(c.sender) == c.data.Active(c.sender)
  {
    hide ClientHandlerNext;
    if c.handler.KGetResults? {
      KeeperTakesOther(cfg, c, input, o);
    } else {
      KeeperOpens(cfg, c, input, o);
    }
  }

  lemma HandlerKeepsOwn(cfg: Config, s: Server, input: Input, o: ServerOutcome)
    requires ServerHandlerNext(cfg, s, input) == Some(o)
    ensures o.side.data.Active(s.sender) == s.data.Active(s.sender) && o.side.sender == s.sender
  {
    match s.handler
    case HSend(_, _) =>
    case _ =>
  }

  /** The streams of the client have all posted, and it has assigned its TEST_END. */
  ghost predicate ClientFinal(cfg: Config, st: State) { EndAssigned(cfg, st.world.client) }

  lemma EndStaysAssigned(cfg: Config, c: Client, o: ClientOutcome)
    requires ClientMainNext(cfg, c) == Some(o) && EndAssigned(cfg, c) && c.ends >= cfg.N() >= 1
    requires !c.main.CLaunch?
    requires c.main.CLoop? && c.chan.Head() != TEST_END ==> c.chan.Head() != TEST_RUNNING
    ensures EndAssigned(cfg, o.side)
  {
  }

  /** A client that has assigned its TEST_END has done so for good. */
  lemma EndIsSent(cfg: Config, st: State, a: Action, next: State)
    requires Inv(cfg, st) && Step(cfg, st, a) == Some(next) && EndAssigned(cfg, st.world.client)
    requires a.ClientMainStep? || a.ClientHandlerStep?
    ensures EndAssigned(cfg, next.world.client)
  {
    hide Wired, ServerInv, ClientTables, Step, ClientHandlerNext;
    NoGarbage(cfg, st, a);
    var c := st.world.client;
    var o, read := ClientStep(cfg, st, a, next);
    if a.ClientMainStep? {
      ClientFacts(cfg, c, st.toClient.taken, |st.toServer.frames|);
      EndStaysAssigned(cfg, c, o);
    } else {
      KeeperFrame(cfg, c, InputOf(cfg, st, a), o);
    }
  }

  lemma ClientFinalStep(cfg: Config, st: State, a: Action, next: State)
    requires Inv(cfg, st) && Step(cfg, st, a) == Some(next) && ClientFinal(cfg, st)
    requires a.ClientMainStep? || a.ClientHandlerStep?
    ensures ClientFinal(cfg, next) && next.world.client.sender == st.world.client.sender
    ensures next.world.client.data.Active(st.world.client.sender)
            == st.world.client.data.Active(st.world.client.sender)
  {
    hide Inv, Step, ClientHandlerNext;
    NoGarbage(cfg, st, a);
    ClientIsThrough(cfg, st);
    EndIsSent(cfg, st, a, next);
    var c := st.world.client;
    var o, read := ClientStep(cfg, st, a, next);
    if a.ClientMainStep? {
      ClientMainFrame(cfg, c, o);
    } else {
      KeeperKeepsOwn(cfg, c, InputOf(cfg, st, a), o);
      KeeperFrame(cfg, c, InputOf(cfg, st, a), o);
    }
  }

  /** Streams that have returned move nothing. */
  lemma FinishedMoveNothing(cfg: Config, w: World, a: Action, after: World)
    requires !a.IsControl() && DataNext(cfg, w, a) == Some(after)
    requires forall i :: 0 <= i < |w.client.pcs| ==> w.client.pcs[i] == Finished
    ensures after.client.data.sent == w.client.data.sent && after.client.data.received == w.client.data.received
  {
    if a.ClientReceives? {
      ClientReceivesFrame(cfg, w, a.i, a.n, after);
    } else if a.ServerReceives? {
      ServerReceivesFrame(cfg, w, a.i, a.n, after);
    }
  }

  /** Neither do closed ones. */
  lemma ClosedMoveNothing(cfg: Config, w: World, a: Action, after: World)
    requires !a.IsControl() && DataNext(cfg, w, a) == Some(after) && w.server.closed
    ensures after.server.data.sent == w.server.data.sent && after.server.data.received == w.server.data.received
    ensures !a.ClientReceives? ==> after.lost == w.lost
  {
    if a.ClientReceives? {
      ClientReceivesFrame(cfg, w, a.i, a.n, after);
    } else if a.ServerReceives? {
    } else {
    }
  }

  lemma DataIsFinal(cfg: Config, st: State, a: Action, next: State)
    requires Inv(cfg, st) && !a.IsControl() && DataNext(cfg, st.world, a) == Some(next.world)
    ensures ClientFinal(cfg, st) ==>
              next.world.client.data.Active(st.world.client.sender)
              == st.world.client.data.Active(st.world.client.sender)
    ensures st.world.server.closed ==>
              next.world.server.data.Active(st.world.server.sender)
              == st.world.server.data.Active(st.world.server.sender)
              && next.world.lost == st.world.lost
    ensures CountersOnly(st.world, next.world)
  {
    hide Inv, DataNext;
    RolesAre(cfg, st);
    DataInv(cfg, st.world, a, next.world);
    if ClientFinal(cfg, st) {
      ClientIsThrough(cfg, st);
      FinishedMoveNothing(cfg, st.world, a, next.world);
    }
    if st.world.server.closed {
      ClosedMoveNothing(cfg, st.world, a, next.world);
    }
    if a.ClientReceives? {
      ClientReceivesFrame(cfg, st.world, a.i, a.n, next.world);
      ReadersRun(cfg, st, a.i);
    }
  }

  lemma ClosedStays(s: Server, connected: nat, input: Input, o: ServerOutcome)
    requires ServerMainNext(s, connected, input) == Some(o)
    ensures o.side.closed == s.closed
  {
  }

  lemma ServerFinalStep(cfg: Config, st: State, a: Action, next: State)
    requires Inv(cfg, st) && Step(cfg, st, a) == Some(next) && st.world.server.closed
    requires a.ServerMainStep? || a.ServerHandlerStep?
    ensures next.world.server.closed && next.world.server.sender == st.world.server.sender
    ensures next.world.server.data.Active(st.world.server.sender)
            == st.world.server.data.Active(st.world.server.sender)
  {
    hide Wired, ServerTables, ClientInv, Step, ServerHandlerNext;
    NoGarbage(cfg, st, a);
    var s := st.world.server;
    var o, read := ServerStep(cfg, st, a, next);
    if a.ServerMainStep? {
      ServerMainFrame(s, |st.world.client.pcs|, InputOf(cfg, st, a), o);
      ClosedStays(s, |st.world.client.pcs|, InputOf(cfg, st, a), o);
    } else {
      HandlerKeepsOwn(cfg, s, InputOf(cfg, st, a), o);
      RolesAre(cfg, st);
      SessionStreams.HandlerFrame(cfg, s, InputOf(cfg, st, a), o);
    }
  }

  lemma StepIsFinal(cfg: Config, st: State, a: Action, next: State)
    requires Inv(cfg, st) && Step(cfg, st, a) == Some(next)
    ensures ClientFinal(cfg, st) ==>
              ClientFinal(cfg, next) && next.world.client.sender == st.world.client.sender
              && next.world.client.data.Active(st.world.client.sender)
                 == st.world.client.data.Active(st.world.client.sender)
    ensures st.world.server.closed ==>
              next.world.server.closed && next.world.server.sender == st.world.server.sender
              && next.world.server.data.Active(st.world.server.sender)
                 == st.world.server.data.Active(st.world.server.sender)
              && next.world.lost == st.world.lost
  {
    hide Inv, Step, DataNext, ServerMainNext, ServerHandlerNext, ClientMainNext, ClientHandlerNext;
    NoGarbage(cfg, st, a);
    if a.ServerMainStep? || a.ServerHandlerStep? {
      if st.world.server.closed { ServerFinalStep(cfg, st, a, next); }
      var o, read := ServerStep(cfg, st, a, next);
    } else if a.ClientMainStep? || a.ClientHandlerStep? {
      if ClientFinal(cfg, st) { ClientFinalStep(cfg, st, a, next); }
      var o, read := ClientStep(cfg, st, a, next);
    } else if a.IsClientQuiet() {
      var o := ClientQuietStep(cfg, st, a, next);
    } else if a.IsControl() {
      var o := ServerQuietStep(cfg, st, a, next);
    } else {
      DataStep(cfg, st, a, next);
      DataIsFinal(cfg, st, a, next);
    }
  }

  lemma {:induction false} RunIsFinal(cfg: Config, st: State, acts: seq<Action>, later: State)
    requires Inv(cfg, st) && Run(cfg, st, acts) == Some(later)
    ensures ClientFinal(cfg, st) ==>
              later.world.client.data.Active(st.world.client.sender)
              == st.world.client.data.Active(st.world.client.sender)
    ensures st.world.server.closed ==>
              later.world.server.data.Active(st.world.server.sender)
              == st.world.server.data.Active(st.world.server.sender)
              && later.world.lost == st.world.lost
    decreases |acts|
  {
    hide Inv, Step, ClientFinal;
    if acts != [] {
      var next := Step(cfg, st, acts[0]).value;
      StepKeepsInv(cfg, st, acts[0], next);
      StepIsFinal(cfg, st, acts[0], next);
      RunIsFinal(cfg, next, acts[1..], later);
    }
  }

  /** What a side counts itself is final, on every schedule: on the client from the moment it assigns its TEST_END, on
      the server once it has closed its streams; and from then on no byte is lost either. */
  lemma CountsAreFinal(cfg: Config, st: State, acts: seq<Action>, later: State)
    requires cfg.Valid() && Reachable(cfg, st) && Run(cfg, st, acts) == Some(later)
    ensures st.world.client.state == TEST_END ==>
              if cfg.params.reverse then later.world.client.data.received == st.world.client.data.received
              else later.world.client.data.sent == st.world.client.data.sent
    ensures st.world.server.closed ==>
              && later.world.lost == st.world.lost
              && if cfg.params.reverse then later.world.server.data.sent == st.world.server.data.sent
                 else later.world.server.data.received == st.world.server.data.received
  {
    ReachableInv(cfg, st);
    RunIsFinal(cfg, st, acts, later);
  }

  // ---------- the transcript ----------

  /** Whatever the schedule, the messages of a session are these, in this order: the server tells the states 4, 3, 31,
      32 and 5, the length and its results, and 6 and 2; the client sends the parameters, 34, the length and its
      results, and 2. */
  lemma Transcript(cfg: Config, st: State)
    requires cfg.Valid() && Reachable(cfg, st)
    ensures |st.toClient.frames| <= 9 && |st.toServer.frames| <= 5
    ensures forall k :: 0 <= k < |st.toClient.frames| ==>
              var f := st.toClient.frames[k];
              if k == 5 then f.LengthFrame?
              else if k == 6 then f.ResultsFrame?
                                  && st.toClient.frames[5] == LengthFrame(|cfg.codec.encodeResults(f.bytes)|)
              else f == StateFrame([4, 3, 31, 32, 5, 0, 0, 6, 2][k])
    ensures forall k :: 0 <= k < |st.toServer.frames| ==>
              var f := st.toServer.frames[k];
              if k == 0 then f == ParamsFrame(cfg.params)
              else if k == 2 then f.LengthFrame?
              else if k == 3 then f.ResultsFrame?
                                  && st.toServer.frames[2] == LengthFrame(|cfg.codec.encodeResults(f.bytes)|)
              else f == StateFrame(if k == 1 then 34 else 2)
  {
    hide ServerInv, ClientInv, Reachable;
    ReachableInv(cfg, st);
  }
}
