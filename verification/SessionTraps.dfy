/** States no session ever gets out of, and what keeps it there. */
module SessionTraps {
  import opened States
  import opened Wrappers
  import opened Session
  import opened SessionInvariant
  import opened SessionSteps
  import opened SessionStreams

  /** `NoName`: the client panics before it sends its parameters. `NoBuffer`: it panics before it has a stream.
      `NoTicks`: the server panics before TEST_RUNNING. `Undone`: the client's timer was lost, and nothing else ends
      the test. `ClientPanics`, `ServerPanics`: the sending side panics when it starts its streams. `NoEnd`: the
      client's senders take no notice of the end of the test. `Late(i)`: a stream of the client has failed at its
      deadline. `Starved(i)`: a receiver of the client waits for a server stream that sends nothing any more.
      `Clogged`: the server's main loop waits for its handler, the handler for a slot in the channel the main loop no
      longer drains. */
  datatype Trap =
    | NoName | NoBuffer | NoTicks | Undone | ClientPanics | ServerPanics | NoEnd | Late(i: nat) | Starved(i: nat)
    | Clogged

  predicate BeforeRunning(s: Server) {
    match s.main
    case SSend(v, _) => v != TEST_RUNNING
    case SGetParams => true
    case SLoop => |s.pcs| == 0
    case SAccept => true
    case SInit => true
    case _ => false
  }

  predicate Looping(pcs: seq<StreamPc>) {
    forall k :: 0 <= k < |pcs| ==> pcs[k].Fresh? || InLoop(pcs[k]) || pcs[k].Failed?
  }

  /** What starves stream `i`. */
  predicate Starves(cfg: Config, w: World, i: nat) {
    var s, c := w.server, w.client;
    && i < |c.pcs| && |c.pcs| == |s.pcs| == |s.data.canSend| == cfg.N() == |w.flight|
    && (c.pcs[i].Running? || c.pcs[i].Failed?)
    && w.flight[i] == 0 && (!s.data.canSend[i] || cfg.params.blksize == 0) && !s.handler.HIdle?
  }

  predicate Clogs(s: Server) { s.main.SAwaitHandler? && s.handler.HPushDone? && s.chan.Full() }

  ghost predicate Caught(cfg: Config, st: State, trap: Trap) {
    var s, c := st.world.server, st.world.client;
    && Inv(cfg, st)
    && match trap
       case NoName => !cfg.Named() && |st.toServer.frames| == 0
       case NoBuffer => !Allocates(cfg.params) && |c.pcs| == 0
       case NoTicks => !cfg.Ticks() && BeforeRunning(s)
       case Undone => !cfg.limits && c.timer.Lost? && !c.done && Looping(c.pcs)
       case ClientPanics =>
         !cfg.params.reverse && !cfg.Paced() && (c.main == CLaunch(0) || (c.main.CLoop? && c.chan.Popped() == 0))
       case ServerPanics => cfg.params.reverse && !cfg.Paced() && s.main.SLaunch? && s.main.next < |s.pcs|
       case NoEnd =>
         !cfg.params.reverse && cfg.params.duration == 0 && !cfg.limits
         && Looping(c.pcs)
       case Late(i) => i < |c.pcs| && c.pcs[i].Failed?
       case Starved(i) => cfg.params.reverse && !Flows(cfg.params) && Starves(cfg, st.world, i)
       case Clogged => Clogs(s)
  }

  // ---------- no way out ----------

  /** Without a name for its protocol the client writes nothing. */
  lemma NoNameStays(cfg: Config, st: State, a: Action, next: State)
    requires Caught(cfg, st, NoName) && Step(cfg, st, a) == Some(next)
    ensures |next.toServer.frames| == 0
  {
    hide Step;
    NoGarbage(cfg, st, a);
    if a.ClientMainStep? || a.ClientHandlerStep? {
      CountBounds(st.world.client.pcs, Finished, |st.world.client.pcs|);
      var o, read := ClientStep(cfg, st, a, next);
    } else if a.ServerMainStep? || a.ServerHandlerStep? {
      var o, read := ServerStep(cfg, st, a, next);
    } else if a.IsClientQuiet() {
      var o := ClientQuietStep(cfg, st, a, next);
    } else if a.IsControl() {
      var o := ServerQuietStep(cfg, st, a, next);
    } else {
      DataStep(cfg, st, a, next);
    }
  }

  lemma NoTicksMain(cfg: Config, s: Server, connected: nat, input: Input, o: ServerOutcome, read: nat, sent: nat)
    requires cfg.Valid() && ServerInv(cfg, s, read, sent) && !cfg.Ticks() && BeforeRunning(s)
    requires ServerMainNext(s, connected, input) == Some(o)
    ensures BeforeRunning(o.side)
  {
    if s.main.SLoop? && s.chan.Head() != TEST_END {
      ServerHead(cfg, s, read, sent);
    }
  }

  lemma HandlerLeavesMain(cfg: Config, s: Server, input: Input, o: ServerOutcome)
    requires ServerHandlerNext(cfg, s, input) == Some(o)
    ensures o.side.main == s.main && o.side.sender == s.sender
  {
    match s.handler
    case HSend(_, _) =>
    case _ =>
  }

  /** Only the main loop moves the main loop, and only data steps and the streams' own move the streams; a server
      leaves its loop only when its handler has returned. */
  lemma ServerMainStays(cfg: Config, st: State, a: Action, next: State)
    requires Step(cfg, st, a) == Some(next) && InputOf(cfg, st, a) != Garbage && !a.ServerMainStep?
    requires st.world.server.data.Sized(|st.world.server.pcs|) && st.world.client.data.Sized(|st.world.client.pcs|)
    ensures next.world.server.main == st.world.server.main
            || (a.ServerMainLeave? && st.world.server.main.SLoop? && st.world.server.handler.HReturned?)
    ensures |next.world.server.pcs| == |st.world.server.pcs| && next.world.server.settings == st.world.server.settings
    ensures next.world.server.sender == st.world.server.sender
  {
    hide Step;
    var s := st.world.server;
    if a.ServerHandlerStep? {
      var o, read := ServerStep(cfg, st, a, next);
      HandlerFrame(cfg, s, InputOf(cfg, st, a), o);
      HandlerLeavesMain(cfg, s, InputOf(cfg, st, a), o);
    } else if a.ServerMainLeave? || a.ServerHandlerBroken? || a.ServerStreamStep? || a.ServerStreamFail? {
      var o := ServerQuietStep(cfg, st, a, next);
    } else if a.ClientMainStep? || a.ClientHandlerStep? {
      var o, read := ClientStep(cfg, st, a, next);
    } else if a.IsControl() {
      var o := ClientQuietStep(cfg, st, a, next);
    } else {
      DataStep(cfg, st, a, next);
      DataInv(cfg, st.world, a, next.world);
    }
  }

  lemma NoTicksStays(cfg: Config, st: State, a: Action, next: State)
    requires Caught(cfg, st, NoTicks) && Step(cfg, st, a) == Some(next)
    ensures BeforeRunning(next.world.server)
  {
    NoGarbage(cfg, st, a);
    var s := st.world.server;
    if a.ServerMainStep? {
      var o, read := ServerStep(cfg, st, a, next);
      NoTicksMain(cfg, s, |st.world.client.pcs|, InputOf(cfg, st, a), o, st.toServer.taken, |st.toClient.frames|);
    } else {
      ServerMainStays(cfg, st, a, next);
    }
  }

  lemma ClientPanicsMain(cfg: Config, c: Client, o: ClientOutcome, read: nat, sent: nat)
    requires cfg.Valid() && ClientInv(cfg, c, read, sent) && !cfg.params.reverse && !cfg.Paced()
    requires c.main == CLaunch(0) || (c.main.CLoop? && c.chan.Popped() == 0)
    requires ClientMainNext(cfg, c) == Some(o)
    ensures o.side.main == CLaunch(0)
  {
    ClientFacts(cfg, c, read, sent);
  }

  lemma KeeperLeavesMain(cfg: Config, c: Client, input: Input, o: ClientOutcome) returns (v: nat)
    requires ClientHandlerNext(cfg, c, input) == Some(o)
    ensures o.side.main == c.main
    ensures o.side.chan == c.chan || (!c.chan.Full() && o.side.chan == c.chan.Push(v))
  {
    v := if c.handler.KPushRunning? then TEST_RUNNING else if c.handler.KSend? then c.state else IPERF_DONE;
    match c.handler
    case KRead =>
    case KSend(_) =>
    case _ =>
  }

  lemma QuietLeavesMain(cfg: Config, c: Client, i: nat, o: ClientOutcome)
    requires ClientStreamNext(cfg, c, i) == Some(o) || ClientStreamFails(cfg, c, i) == Some(o)
             || TimerNext(c) == Some(o) || TimerRaces(cfg, c) == Some(o) || ExitNext(c) == Some(o)
    ensures o.side.main == c.main
    ensures o.side.chan == c.chan || (!c.chan.Full() && o.side.chan == c.chan.Push(TEST_END))
  {
  }

  /** Only the main loop moves the client's main loop and takes from its channel. */
  lemma ClientMainStays(cfg: Config, st: State, a: Action, next: State)
    requires Step(cfg, st, a) == Some(next) && InputOf(cfg, st, a) != Garbage && !a.ClientMainStep?
    requires st.world.server.data.Sized(|st.world.server.pcs|) && st.world.client.data.Sized(|st.world.client.pcs|)
    requires st.world.client.chan.Valid()
    ensures next.world.client.main == st.world.client.main
    ensures next.world.client.chan.Valid() && next.world.client.chan.Popped() == st.world.client.chan.Popped()
  {
    hide Step, ClientHandlerNext, ClientMainNext, ClientStreamNext, DataNext;
    var c := st.world.client;
    if a.ClientHandlerStep? {
      var o, read := ClientStep(cfg, st, a, next);
      var v := KeeperLeavesMain(cfg, c, InputOf(cfg, st, a), o);
      ClientPushes(c.chan, v);
    } else if a.ServerMainStep? || a.ServerHandlerStep? {
      var o, read := ServerStep(cfg, st, a, next);
    } else if a.IsClientQuiet() {
      var o := ClientQuietStep(cfg, st, a, next);
      QuietLeavesMain(cfg, c, if a.ClientStreamStep? || a.ClientStreamFail? then a.i else 0, o);
      ClientPushes(c.chan, TEST_END);
    } else if a.IsControl() {
      var o := ServerQuietStep(cfg, st, a, next);
    } else {
      DataStep(cfg, st, a, next);
      DataInv(cfg, st.world, a, next.world);
    }
  }

  lemma ClientPanicsStays(cfg: Config, st: State, a: Action, next: State)
    requires Caught(cfg, st, ClientPanics) && Step(cfg, st, a) == Some(next)
    ensures next.world.client.main == CLaunch(0)
            || (next.world.client.main.CLoop? && next.world.client.chan.Valid() && next.world.client.chan.Popped() == 0)
  {
    NoGarbage(cfg, st, a);
    if a.ClientMainStep? {
      var o, read := ClientStep(cfg, st, a, next);
      ClientPanicsMain(cfg, st.world.client, o, st.toClient.taken, |st.toServer.frames|);
    } else {
      ClientMainStays(cfg, st, a, next);
    }
  }

  lemma ServerPanicsStays(cfg: Config, st: State, a: Action, next: State)
    requires Caught(cfg, st, ServerPanics) && Step(cfg, st, a) == Some(next)
    ensures next.world.server.main == st.world.server.main && |next.world.server.pcs| == |st.world.server.pcs|
  {
    NoGarbage(cfg, st, a);
    if a.ServerMainStep? {
      var o, read := ServerStep(cfg, st, a, next);
      assert false;
    } else {
      ServerMainStays(cfg, st, a, next);
    }
  }

  /** A sender without a duration and without limits does not stop at its last test. */
  lemma NoEndStream(cfg: Config, c: Client, i: nat)
    requires cfg.params.duration == 0 && !cfg.limits && Looping(c.pcs)
    requires forall k :: 0 <= k < |c.data.roles| ==> c.data.roles[k]
    ensures ClientStreamNext(cfg, c, i).None?
  {
  }

  /** The main loop starts only streams that have not been started. */
  lemma MainStartsFresh(cfg: Config, c: Client, o: ClientOutcome, read: nat, sent: nat)
    requires ClientMainNext(cfg, c) == Some(o) && ClientInv(cfg, c, read, sent)
    ensures |o.side.pcs| == |c.pcs|
    ensures forall k :: 0 <= k < |c.pcs| ==> o.side.pcs[k] == c.pcs[k] || c.pcs[k].Fresh?
  {
    match c.main
    case CLoop =>
    case CLaunch(_) =>
    case _ =>
  }

  lemma NoEndClient(cfg: Config, st: State, a: Action, next: State)
    requires Step(cfg, st, a) == Some(next) && InputOf(cfg, st, a) != Garbage
    requires (a.ClientMainStep? || a.ClientHandlerStep?)
    requires Looping(st.world.client.pcs)
    ensures Looping(next.world.client.pcs)
  {
    var o, read := ClientStep(cfg, st, a, next);
    if a.ClientHandlerStep? {
      KeeperStreams(cfg, st.world.client, InputOf(cfg, st, a), o);
    }
  }

  /** Without a step of the client's main loop, handler or stream goroutines its streams only turn their loops. */
  lemma StreamsStay(cfg: Config, st: State, a: Action, next: State)
    requires Step(cfg, st, a) == Some(next) && InputOf(cfg, st, a) != Garbage
    requires !a.ClientMainStep? && !a.ClientHandlerStep? && !a.ClientStreamStep? && !a.ClientStreamFail?
    requires st.world.server.data.Sized(|st.world.server.pcs|) && st.world.client.data.Sized(|st.world.client.pcs|)
    ensures Turned(st.world.client.pcs, next.world.client.pcs)
  {
    hide Step, ServerMainNext, ServerHandlerNext, DataNext;
    if a.ServerMainStep? || a.ServerHandlerStep? {
      var o, read := ServerStep(cfg, st, a, next);
    } else if a.IsClientQuiet() {
      var o := ClientQuietStep(cfg, st, a, next);
    } else if a.IsControl() {
      var o := ServerQuietStep(cfg, st, a, next);
    } else {
      DataStep(cfg, st, a, next);
      DataInv(cfg, st.world, a, next.world);
    }
  }

  lemma NoEndStays(cfg: Config, st: State, a: Action, next: State)
    requires Caught(cfg, st, NoEnd) && Step(cfg, st, a) == Some(next)
    ensures Looping(next.world.client.pcs)
  {
    hide Wired, Step;
    NoGarbage(cfg, st, a);
    if a.ClientMainStep? || a.ClientHandlerStep? {
      NoEndClient(cfg, st, a, next);
    } else if a.ClientStreamStep? || a.ClientStreamFail? {
      var o := ClientQuietStep(cfg, st, a, next);
      NoEndStream(cfg, st.world.client, a.i);
    } else {
      StreamsStay(cfg, st, a, next);
    }
  }

  /** Only the timer and the end of the streams set `done`. */
  lemma ClockStays(cfg: Config, st: State, a: Action, next: State)
    requires Step(cfg, st, a) == Some(next) && InputOf(cfg, st, a) != Garbage
    requires !a.ClientMainStep? && !a.ClientHandlerStep? && !a.TimerFires? && !a.TimerLost?
    requires st.world.server.data.Sized(|st.world.server.pcs|) && st.world.client.data.Sized(|st.world.client.pcs|)
    ensures next.world.client.done == st.world.client.done && next.world.client.timer == st.world.client.timer
  {
    hide Step, ServerMainNext, ServerHandlerNext, DataNext;
    if a.ServerMainStep? || a.ServerHandlerStep? {
      var o, read := ServerStep(cfg, st, a, next);
    } else if a.IsClientQuiet() {
      var o := ClientQuietStep(cfg, st, a, next);
    } else if a.IsControl() {
      var o := ServerQuietStep(cfg, st, a, next);
    } else {
      DataStep(cfg, st, a, next);
      DataInv(cfg, st.world, a, next.world);
    }
  }

  lemma MainKeepsClock(cfg: Config, c: Client, o: ClientOutcome)
    requires ClientMainNext(cfg, c) == Some(o) && !c.main.CMarkDone?
    ensures o.side.done == c.done && o.side.timer == c.timer
  {
    match c.main
    case CLoop =>
    case _ =>
  }

  /** Streams that only go around have not all posted. */
  lemma LoopingIsEarly(cfg: Config, c: Client, read: nat, sent: nat)
    requires cfg.Valid() && ClientInv(cfg, c, read, sent) && Looping(c.pcs)
    ensures !c.main.CMarkDone? && !c.main.CReturned? && (c.timer.Lost? ==> !c.handler.KStart?)
  {
    CountBounds(c.pcs, Finished, |c.pcs|);
  }

  lemma UndoneClock(cfg: Config, st: State, a: Action, next: State)
    requires Caught(cfg, st, Undone) && Step(cfg, st, a) == Some(next)
    ensures next.world.client.timer.Lost? && !next.world.client.done
  {
    hide Wired, Step;
    NoGarbage(cfg, st, a);
    LoopingIsEarly(cfg, st.world.client, st.toClient.taken, |st.toServer.frames|);
    if a.ClientMainStep? {
      var o, read := ClientStep(cfg, st, a, next);
      MainKeepsClock(cfg, st.world.client, o);
    } else if a.ClientHandlerStep? {
      var o, read := ClientStep(cfg, st, a, next);
      KeeperClock(cfg, st.world.client, InputOf(cfg, st, a), o);
    } else if a.TimerFires? || a.TimerLost? {
      var o := ClientQuietStep(cfg, st, a, next);
    } else {
      ClockStays(cfg, st, a, next);
    }
  }

  lemma UndoneStream(cfg: Config, c: Client, i: nat)
    requires !cfg.limits && !c.done && Looping(c.pcs)
    ensures ClientStreamNext(cfg, c, i).None?
  {
  }

  lemma UndoneStays(cfg: Config, st: State, a: Action, next: State)
    requires Caught(cfg, st, Undone) && Step(cfg, st, a) == Some(next)
    ensures Looping(next.world.client.pcs) && next.world.client.timer.Lost? && !next.world.client.done
  {
    hide Wired, Step;
    UndoneClock(cfg, st, a, next);
    NoGarbage(cfg, st, a);
    if a.ClientMainStep? || a.ClientHandlerStep? {
      NoEndClient(cfg, st, a, next);
    } else if a.ClientStreamStep? || a.ClientStreamFail? {
      var o := ClientQuietStep(cfg, st, a, next);
      UndoneStream(cfg, st.world.client, a.i);
    } else {
      StreamsStay(cfg, st, a, next);
    }
  }

  lemma NoBufferStays(cfg: Config, st: State, a: Action, next: State)
    requires Caught(cfg, st, NoBuffer) && Step(cfg, st, a) == Some(next)
    ensures |next.world.client.pcs| == 0
  {
    hide Wired, Step;
    NoGarbage(cfg, st, a);
    if a.ClientMainStep? || a.ClientHandlerStep? {
      var o, read := ClientStep(cfg, st, a, next);
      if a.ClientHandlerStep? {
        KeeperStreams(cfg, st.world.client, InputOf(cfg, st, a), o);
      }
    } else if a.ClientStreamStep? || a.ClientStreamFail? {
      var o := ClientQuietStep(cfg, st, a, next);
    } else {
      StreamsStay(cfg, st, a, next);
    }
  }

  lemma LateClient(cfg: Config, st: State, i: nat, a: Action, next: State)
    requires Inv(cfg, st) && Step(cfg, st, a) == Some(next) && InputOf(cfg, st, a) != Garbage
    requires a.ClientMainStep? || a.ClientHandlerStep?
    requires i < |st.world.client.pcs| && st.world.client.pcs[i].Failed?
    ensures i < |next.world.client.pcs| && next.world.client.pcs[i].Failed?
  {
    hide Wired, ServerInv, ClientInv, Step, ClientMainNext, ClientHandlerNext;
    var o, read := ClientStep(cfg, st, a, next);
    if a.ClientHandlerStep? {
      KeeperStreams(cfg, st.world.client, InputOf(cfg, st, a), o);
    } else {
      MainStartsFresh(cfg, st.world.client, o, st.toClient.taken, |st.toServer.frames|);
    }
  }

  lemma LateStream(cfg: Config, c: Client, i: nat, k: nat, o: ClientOutcome)
    requires ClientStreamNext(cfg, c, k) == Some(o) || ClientStreamFails(cfg, c, k) == Some(o)
    requires i < |c.pcs| && c.pcs[i].Failed?
    ensures i < |o.side.pcs| && o.side.pcs[i].Failed?
  {
  }

  /** A failed stream stays failed. */
  lemma LateStays(cfg: Config, st: State, i: nat, a: Action, next: State)
    requires Caught(cfg, st, Late(i)) && Step(cfg, st, a) == Some(next)
    ensures i < |next.world.client.pcs| && next.world.client.pcs[i].Failed?
  {
    hide Wired, Step;
    NoGarbage(cfg, st, a);
    if a.ClientMainStep? || a.ClientHandlerStep? {
      LateClient(cfg, st, i, a, next);
    } else if a.ClientStreamStep? || a.ClientStreamFail? {
      var o := ClientQuietStep(cfg, st, a, next);
      LateStream(cfg, st.world.client, i, a.i, o);
    } else {
      StreamsStay(cfg, st, a, next);
    }
  }

  lemma StarvedData(cfg: Config, w: World, i: nat, a: Action, after: World)
    requires Starves(cfg, w, i) && cfg.params.reverse && !Flows(cfg.params) && w.server.settings == cfg.params
    requires !a.IsControl() && DataNext(cfg, w, a) == Some(after)
    requires forall k :: 0 <= k < |w.client.data.roles| ==> !w.client.data.roles[k]
    requires forall k :: 0 <= k < |w.server.data.roles| ==> w.server.data.roles[k]
    ensures Starves(cfg, after, i)
  {
    match a
    case ServerSends(_) =>
    case ClientReceives(_, _) =>
    case _ =>
  }

  lemma StarvedMain(s: Server, connected: nat, input: Input, o: ServerOutcome)
    requires ServerMainNext(s, connected, input) == Some(o) && !s.main.SGetParams? && |s.pcs| >= s.settings.streamNum
    ensures |o.side.pcs| == |s.pcs| && o.side.data == s.data && o.side.handler == s.handler
  {
  }

  lemma HandlerAwake(cfg: Config, s: Server, input: Input, o: ServerOutcome)
    requires ServerHandlerNext(cfg, s, input) == Some(o)
    ensures !o.side.handler.HIdle?
  {
    match s.handler
    case HSend(_, _) =>
    case _ =>
  }

  lemma StarvedServer(cfg: Config, st: State, i: nat, a: Action, next: State)
    requires Caught(cfg, st, Starved(i)) && Step(cfg, st, a) == Some(next) && InputOf(cfg, st, a) != Garbage
    requires a.ServerMainStep? || a.ServerHandlerStep?
    ensures Starves(cfg, next.world, i)
  {
    var o, read := ServerStep(cfg, st, a, next);
    if a.ServerMainStep? {
      StarvedMain(st.world.server, |st.world.client.pcs|, InputOf(cfg, st, a), o);
    } else {
      HandlerFrame(cfg, st.world.server, InputOf(cfg, st, a), o);
      HandlerAwake(cfg, st.world.server, InputOf(cfg, st, a), o);
    }
  }

  lemma MainStarts(cfg: Config, c: Client, o: ClientOutcome)
    requires ClientMainNext(cfg, c) == Some(o)
    ensures |o.side.pcs| == |c.pcs|
    ensures forall k :: 0 <= k < |c.pcs| ==> o.side.pcs[k] == c.pcs[k] || o.side.pcs[k].Running?
  {
    match c.main
    case CLoop =>
    case CLaunch(_) =>
    case _ =>
  }

  lemma StarvedClient(cfg: Config, st: State, i: nat, a: Action, next: State)
    requires Caught(cfg, st, Starved(i)) && Step(cfg, st, a) == Some(next) && InputOf(cfg, st, a) != Garbage
    requires a.ClientMainStep? || a.ClientHandlerStep?
    ensures Starves(cfg, next.world, i)
  {
    var o, read := ClientStep(cfg, st, a, next);
    if a.ClientHandlerStep? {
      KeeperStreams(cfg, st.world.client, InputOf(cfg, st, a), o);
    } else {
      MainStarts(cfg, st.world.client, o);
    }
  }

  lemma StarvedQuiet(cfg: Config, st: State, i: nat, a: Action, next: State)
    requires Starves(cfg, st.world, i) && Step(cfg, st, a) == Some(next) && a.IsControl()
    requires !a.ServerMainStep? && !a.ServerHandlerStep? && !a.ClientMainStep? && !a.ClientHandlerStep?
    ensures Starves(cfg, next.world, i)
  {
    if a.IsClientQuiet() {
      var o := ClientQuietStep(cfg, st, a, next);
    } else {
      var o := ServerQuietStep(cfg, st, a, next);
    }
  }

  lemma StarvedStays(cfg: Config, st: State, i: nat, a: Action, next: State)
    requires Caught(cfg, st, Starved(i)) && Step(cfg, st, a) == Some(next)
    ensures Starves(cfg, next.world, i)
  {
    NoGarbage(cfg, st, a);
    if a.ServerMainStep? || a.ServerHandlerStep? {
      StarvedServer(cfg, st, i, a, next);
    } else if a.ClientMainStep? || a.ClientHandlerStep? {
      StarvedClient(cfg, st, i, a, next);
    } else if a.IsControl() {
      StarvedQuiet(cfg, st, i, a, next);
    } else {
      DataStep(cfg, st, a, next);
      StarvedData(cfg, st.world, i, a, next.world);
    }
  }

  lemma CloggedServer(s: Server, i: nat, gone: bool, o: ServerOutcome)
    requires Clogs(s)
    requires ServerStreamNext(s, i) == Some(o) || ServerStreamFails(s, i) == Some(o)
             || ServerLeaves(s) == Some(o) || ServerHandlerBreaks(s, gone) == Some(o)
    ensures Clogs(o.side)
  {
  }

  /** Neither the main loop nor the handler of a server that is clogged has a next step. */
  lemma CloggedStuck(cfg: Config, s: Server, connected: nat, input: Input)
    requires Clogs(s)
    ensures ServerMainNext(s, connected, input).None? && ServerHandlerNext(cfg, s, input).None?
  {
  }

  lemma CloggedData(s: Server, after: Server)
    requires Clogs(s) && after.main == s.main && after.handler == s.handler && after.chan == s.chan
    ensures Clogs(after)
  {
  }

  lemma CloggedStays(cfg: Config, st: State, a: Action, next: State)
    requires Caught(cfg, st, Clogged) && Step(cfg, st, a) == Some(next)
    ensures Clogs(next.world.server)
  {
    hide Step, Clogs, Wired, ServerAt, ClientAt, ServerMainNext, ServerHandlerNext;
    NoGarbage(cfg, st, a);
    if a.ServerMainStep? || a.ServerHandlerStep? {
      CloggedStuck(cfg, st.world.server, |st.world.client.pcs|, InputOf(cfg, st, a));
      var o, read := ServerStep(cfg, st, a, next);
      assert false;
    } else if a.ClientMainStep? || a.ClientHandlerStep? {
      var o, read := ClientStep(cfg, st, a, next);
    } else if a.IsClientQuiet() {
      var o := ClientQuietStep(cfg, st, a, next);
    } else if a.IsControl() {
      var o := ServerQuietStep(cfg, st, a, next);
      var i := if a.ServerStreamStep? || a.ServerStreamFail? then a.i else 0;
      CloggedServer(st.world.server, i, st.world.client.gone, o);
    } else {
      DataStep(cfg, st, a, next);
      DataInv(cfg, st.world, a, next.world);
      CloggedData(st.world.server, next.world.server);
    }
  }

  lemma StepStaysCaught(cfg: Config, st: State, trap: Trap, a: Action, next: State)
    requires Caught(cfg, st, trap) && Step(cfg, st, a) == Some(next)
    ensures Caught(cfg, next, trap)
  {
    hide Inv, Step;
    StepKeepsInv(cfg, st, a, next);
    match trap
    case NoName => NoNameStays(cfg, st, a, next);
    case NoBuffer => NoBufferStays(cfg, st, a, next);
    case NoTicks => NoTicksStays(cfg, st, a, next);
    case Undone => UndoneStays(cfg, st, a, next);
    case ClientPanics => ClientPanicsStays(cfg, st, a, next);
    case ServerPanics => ServerPanicsStays(cfg, st, a, next);
    case NoEnd => NoEndStays(cfg, st, a, next);
    case Late(i) => LateStays(cfg, st, i, a, next);
    case Starved(i) => StarvedStays(cfg, st, i, a, next);
    case Clogged => CloggedStays(cfg, st, a, next);
  }

  lemma {:induction false} RunStaysCaught(cfg: Config, st: State, trap: Trap, acts: seq<Action>, target: State)
    requires Caught(cfg, st, trap) && Run(cfg, st, acts) == Some(target)
    ensures Caught(cfg, target, trap)
    decreases |acts|
  {
    hide Caught, Step;
    if acts != [] {
      var next := Step(cfg, st, acts[0]).value;
      StepStaysCaught(cfg, st, trap, acts[0], next);
      RunStaysCaught(cfg, next, trap, acts[1..], target);
    }
  }

  /** A client that has returned has counted a TEST_END from every stream. */
  lemma CaughtIncomplete(cfg: Config, st: State, trap: Trap)
    requires Caught(cfg, st, trap)
    ensures !Complete(st)
  {
    CountBounds(st.world.client.pcs, Finished, |st.world.client.pcs|);
  }

  /** A session that is caught hangs. */
  lemma CaughtHangs(cfg: Config, st: State, trap: Trap)
    requires Caught(cfg, st, trap)
    ensures Hung(cfg, st)
  {
    forall target | Leads(cfg, st, target) ensures !Complete(target) {
      var acts :| Run(cfg, st, acts) == Some(target);
      RunStaysCaught(cfg, st, trap, acts, target);
      CaughtIncomplete(cfg, target, trap);
    }
  }
}
