/** Every step of every goroutine keeps the session's invariant. */
module SessionSteps {
  import opened States
  import opened Channels
  import opened Wrappers
  import opened Session
  import opened SessionInvariant

  function InputOf(cfg: Config, st: State, a: Action): Input {
    var want := Wants(st.world, a);
    if want.NoRead? then Nothing else Take(cfg.codec, want, Inbox(st, a))
  }

  /** A step that read no garbage is the action of one goroutine, its output appended to the connection. */
  lemma Unfold(cfg: Config, st: State, a: Action, next: State) returns (e: Effect, read: nat)
    requires Step(cfg, st, a) == Some(next) && InputOf(cfg, st, a) != Garbage
    ensures read == if Wants(st.world, a).NoRead? then 0 else 1
    ensures read == 1 ==> InputOf(cfg, st, a).Received?
    ensures Act(cfg, st.world, a, InputOf(cfg, st, a)) == Some(e) && next == Deliver(st, a, e, read)
  {
    read := if Wants(st.world, a).NoRead? then 0 else 1;
    e := Act(cfg, st.world, a, InputOf(cfg, st, a)).value;
  }

  // ---------- the server's goroutines keep the invariant, program point by program point ----------

  /** Enqueueing the next value of the script, or a TEST_END, keeps the server's channel in order. */
  lemma ServerPushes(c: Chan, v: nat)
    requires c.Valid()
    ensures c.Push(v).Pushed() == c.Pushed() + (if v == TEST_END then 0 else 1)
    ensures c.Push(v).EndsPushed() == c.EndsPushed() + (if v == TEST_END then 1 else 0)
    ensures !c.Full() ==> c.Push(v).Valid() && c.Push(v).Popped() == c.Popped()
    ensures ServerScripted(c.sent) && (v == TEST_END || v == ServerValue(c.Pushed())) ==>
              ServerScripted(c.Push(v).sent)
  {
    PushFacts(c, v);
  }

  lemma ClientPushes(c: Chan, v: nat)
    requires c.Valid()
    ensures c.Push(v).Pushed() == c.Pushed() + (if v == TEST_END then 0 else 1)
    ensures c.Push(v).EndsPushed() == c.EndsPushed() + (if v == TEST_END then 1 else 0)
    ensures !c.Full() ==>
              c.Push(v).Valid() && c.Push(v).Popped() == c.Popped() && c.Push(v).EndsPopped() == c.EndsPopped()
    ensures c.Popped() <= c.Pushed() && 0 <= c.EndsPopped() <= c.EndsPushed()
    ensures ClientScripted(c.sent) && (v == TEST_END || v == ClientValue(c.Pushed())) ==>
              ClientScripted(c.Push(v).sent)
  {
    PushFacts(c, v);
  }

  /** The next control value in the server's channel is the one its script calls for. */
  lemma ServerHead(cfg: Config, s: Server, read: nat, sent: nat)
    requires ServerInv(cfg, s, read, sent) && !s.chan.Empty() && s.chan.Head() != TEST_END
    ensures s.chan.Head() == ServerValue(s.chan.Popped())
  {
  }

  lemma ServerEnqueues(cfg: Config, s: Server, connected: nat, input: Input, o: ServerOutcome, read: nat, sent: nat)
    requires cfg.Valid() && ServerInv(cfg, s, read, sent) && s.main.SSend? && s.main.at.Enqueue?
    requires ServerMainNext(s, connected, input) == Some(o)
    ensures ServerInv(cfg, o.side, read, sent + |o.output|)
  {
    ServerPushes(s.chan, s.state);
  }

  lemma ServerAssigns(cfg: Config, s: Server, connected: nat, input: Input, o: ServerOutcome, read: nat, sent: nat)
    requires cfg.Valid() && ServerInv(cfg, s, read, sent) && s.main.SSend? && s.main.at.Assign?
    requires ServerMainNext(s, connected, input) == Some(o)
    ensures ServerInv(cfg, o.side, read, sent + |o.output|)
  {
  }

  lemma ServerTransmits(cfg: Config, s: Server, connected: nat, input: Input, o: ServerOutcome, read: nat, sent: nat)
    requires cfg.Valid() && ServerInv(cfg, s, read, sent) && s.main.SSend? && s.main.at.Transmit?
    requires ServerMainNext(s, connected, input) == Some(o)
    ensures ServerInv(cfg, o.side, read, sent + |o.output|)
  {
  }

  lemma ServerGetsParams(cfg: Config, s: Server, connected: nat, input: Input, o: ServerOutcome, read: nat, sent: nat)
    requires cfg.Valid() && ServerInv(cfg, s, read, sent) && s.main.SGetParams?
    requires input.Received? ==> input.frame == ParamsFrame(cfg.params)
    requires ServerMainNext(s, connected, input) == Some(o)
    ensures ServerInv(cfg, o.side, read + 1, sent + |o.output|)
  {
  }

  /** Taking a TEST_END changes nothing but the channel, taking a control value moves the main loop to its case. */
  lemma ServerTakesAt(cfg: Config, s: Server, after: Server, read: nat, sent: nat, pushed: nat, popped: nat, value: nat)
    requires ServerAt(cfg, s, read, sent, pushed, popped) && s.main.SLoop? && cfg.Valid()
    requires after == s.(chan := s.chan.Pop(), main := Dispatch(value))
    requires value == TEST_END || value == ServerValue(popped)
    ensures ServerAt(cfg, after, read, sent, pushed, if value == TEST_END then popped else popped + 1)
  {
  }

  lemma ServerTakesTables(cfg: Config, s: Server, after: Server, popped: nat, value: nat)
    requires ServerTables(cfg, s, popped) && s.main.SLoop? && !s.chan.Empty()
    requires after == s.(chan := s.chan.Pop(), main := Dispatch(value))
    requires value == TEST_END || value == ServerValue(popped)
    ensures ServerTables(cfg, after, if value == TEST_END then popped else popped + 1)
  {
  }

  lemma ServerTakes(cfg: Config, s: Server, connected: nat, input: Input, o: ServerOutcome, read: nat, sent: nat)
    requires cfg.Valid() && ServerInv(cfg, s, read, sent) && s.main.SLoop? && !s.chan.Empty()
    requires ServerMainNext(s, connected, input) == Some(o)
    ensures ServerInv(cfg, o.side, read, sent + |o.output|)
  {
    hide ServerAt, ServerTables;
    PopFacts(s.chan);
    if s.chan.Head() != TEST_END {
      ServerHead(cfg, s, read, sent);
    }
    ServerTakesAt(cfg, s, o.side, read, sent, s.chan.Pushed(), s.chan.Popped(), s.chan.Head());
    ServerTakesTables(cfg, s, o.side, s.chan.Popped(), s.chan.Head());
  }

  lemma ServerAccepts(cfg: Config, s: Server, connected: nat, input: Input, o: ServerOutcome, read: nat, sent: nat)
    requires cfg.Valid() && ServerInv(cfg, s, read, sent) && s.main.SAccept?
    requires ServerMainNext(s, connected, input) == Some(o)
    ensures ServerInv(cfg, o.side, read, sent + |o.output|)
  {
    CountAppend(s.pcs, Fresh, Finished);
  }

  lemma ServerLaunches(cfg: Config, s: Server, connected: nat, input: Input, o: ServerOutcome, read: nat, sent: nat)
    requires cfg.Valid() && ServerInv(cfg, s, read, sent) && s.main.SLaunch? && s.main.next < |s.pcs|
    requires ServerMainNext(s, connected, input) == Some(o)
    ensures ServerInv(cfg, o.side, read, sent + |o.output|)
  {
    CountUpdate(s.pcs, s.main.next, Running, Finished);
  }

  lemma ServerGoesOnTables(cfg: Config, s: Server, after: Server, popped: nat)
    requires ServerTables(cfg, s, popped) && after == s.(main := after.main) && !after.main.SLaunch?
    requires s.main.SLaunch? ==> s.main.next >= |s.pcs|
    ensures ServerTables(cfg, after, popped)
  {
  }

  lemma ServerGoesOn(cfg: Config, s: Server, connected: nat, input: Input, o: ServerOutcome, read: nat, sent: nat)
    requires cfg.Valid() && ServerInv(cfg, s, read, sent)
             && (s.main.SInit? || s.main.SAwaitHandler? || (s.main.SLaunch? && s.main.next >= |s.pcs|))
    requires ServerMainNext(s, connected, input) == Some(o)
    ensures ServerInv(cfg, o.side, read, sent + |o.output|)
  {
    hide ServerTables;
    ServerGoesOnTables(cfg, s, o.side, s.chan.Popped());
  }

  lemma HandlerEnqueues(cfg: Config, s: Server, input: Input, o: ServerOutcome, read: nat, sent: nat)
    requires cfg.Valid() && ServerInv(cfg, s, read, sent) && s.handler.HSend? && s.handler.at.Enqueue?
    requires ServerHandlerNext(cfg, s, input) == Some(o)
    ensures ServerInv(cfg, o.side, read, sent + |o.output|)
  {
    ServerPushes(s.chan, s.state);
  }

  lemma HandlerTables(cfg: Config, s: Server, after: Server, popped: nat)
    requires ServerTables(cfg, s, popped) && after == s.(handler := after.handler, state := after.state)
    ensures ServerTables(cfg, after, popped)
  {
  }

  lemma HandlerSends(cfg: Config, s: Server, input: Input, o: ServerOutcome, read: nat, sent: nat)
    requires cfg.Valid() && ServerInv(cfg, s, read, sent) && s.handler.HSend? && !s.handler.at.Enqueue?
    requires ServerHandlerNext(cfg, s, input) == Some(o)
    ensures ServerInv(cfg, o.side, read, sent + |o.output|)
  {
    hide ServerTables;
    HandlerTables(cfg, s, o.side, s.chan.Popped());
  }

  lemma HandlerPushesDone(cfg: Config, s: Server, input: Input, o: ServerOutcome, read: nat, sent: nat)
    requires cfg.Valid() && ServerInv(cfg, s, read, sent) && s.handler.HPushDone?
    requires ServerHandlerNext(cfg, s, input) == Some(o)
    ensures ServerInv(cfg, o.side, read, sent + |o.output|)
  {
    ServerPushes(s.chan, IPERF_DONE);
  }

  lemma HandlerReads(cfg: Config, s: Server, input: Input, o: ServerOutcome, read: nat, sent: nat)
    requires cfg.Valid() && ServerInv(cfg, s, read, sent) && s.handler.HRead?
    requires input.Received? && ToServerKind(cfg, read, input.frame)
    requires read == 1 ==> sent >= 4
    requires ServerHandlerNext(cfg, s, input) == Some(o)
    ensures ServerInv(cfg, o.side, read + 1, sent + |o.output|)
  {
    hide ServerTables;
    HandlerTables(cfg, s, o.side, s.chan.Popped());
  }

  lemma HandlerGets(cfg: Config, s: Server, input: Input, o: ServerOutcome, read: nat, sent: nat)
    requires cfg.Valid() && ServerInv(cfg, s, read, sent) && (s.handler.HGetLength? || s.handler.HGetResults?)
    requires input.Received? && ToServerKind(cfg, read, input.frame)
    requires input.frame.ResultsFrame? ==> |input.frame.bytes| <= |s.pcs|
    requires ServerHandlerNext(cfg, s, input) == Some(o)
    ensures ServerInv(cfg, o.side, read + 1, sent + |o.output|)
  {
  }

  lemma HandlerPuts(cfg: Config, s: Server, input: Input, o: ServerOutcome, read: nat, sent: nat)
    requires cfg.Valid() && ServerInv(cfg, s, read, sent) && (s.handler.HPutLength? || s.handler.HPutResults?)
    requires ServerHandlerNext(cfg, s, input) == Some(o)
    ensures ServerInv(cfg, o.side, read, sent + |o.output|)
  {
    hide ServerTables;
    HandlerTables(cfg, s, o.side, s.chan.Popped());
  }

  lemma HandlerEnds(cfg: Config, s: Server, input: Input, o: ServerOutcome, read: nat, sent: nat)
    requires cfg.Valid() && ServerInv(cfg, s, read, sent)
             && (s.handler.HMarkDone? || s.handler.HStats? || s.handler.HCloseStreams?)
    requires ServerHandlerNext(cfg, s, input) == Some(o)
    ensures ServerInv(cfg, o.side, read, sent + |o.output|)
  {
  }

  /** The handler returns when the client has gone: by then the server has written all but its last message. */
  lemma HandlerBreaks(cfg: Config, s: Server, gone: bool, o: ServerOutcome, read: nat, sent: nat)
    requires cfg.Valid() && ServerInv(cfg, s, read, sent) && sent >= 8
    requires ServerHandlerBreaks(s, gone) == Some(o)
    ensures ServerInv(cfg, o.side, read, sent)
  {
  }

  /** A step of a stream moves no other goroutine. */
  lemma ServerStreamAt(cfg: Config, s: Server, after: Server, read: nat, sent: nat, pushed: nat, popped: nat)
    requires ServerAt(cfg, s, read, sent, pushed, popped)
    requires after == s.(pcs := after.pcs, chan := after.chan) && |after.pcs| == |s.pcs|
    ensures ServerAt(cfg, after, read, sent, pushed, popped)
  {
  }

  lemma ServerStreamPosts(cfg: Config, s: Server, i: nat, o: ServerOutcome, read: nat, sent: nat)
    requires cfg.Valid() && ServerInv(cfg, s, read, sent)
    requires ServerStreamNext(s, i) == Some(o) && s.pcs[i].Posting?
    ensures ServerInv(cfg, o.side, read, sent)
  {
    hide ServerAt;
    ServerPushes(s.chan, TEST_END);
    CountUpdate(s.pcs, i, Finished, Finished);
    ServerStreamAt(cfg, s, o.side, read, sent, s.chan.Pushed(), s.chan.Popped());
  }

  lemma ServerStreamSeesDone(cfg: Config, s: Server, i: nat, o: ServerOutcome, read: nat, sent: nat)
    requires cfg.Valid() && ServerInv(cfg, s, read, sent)
    requires ServerStreamNext(s, i) == Some(o) && s.pcs[i].Testing?
    ensures ServerInv(cfg, o.side, read, sent)
  {
    hide ServerAt;
    CountUpdate(s.pcs, i, Posting, Finished);
    ServerStreamAt(cfg, s, o.side, read, sent, s.chan.Pushed(), s.chan.Popped());
  }

  lemma ServerStreamFailInv(cfg: Config, s: Server, i: nat, o: ServerOutcome, read: nat, sent: nat)
    requires cfg.Valid() && ServerInv(cfg, s, read, sent)
    requires ServerStreamFails(s, i) == Some(o)
    ensures ServerInv(cfg, o.side, read, sent)
  {
    hide ServerAt;
    CountUpdate(s.pcs, i, Failed, Finished);
    ServerStreamAt(cfg, s, o.side, read, sent, s.chan.Pushed(), s.chan.Popped());
  }

  // ---------- the client's goroutines ----------

  /** Until TEST_RUNNING has been taken no stream has posted; a TEST_END in the channel is at most the last of N + 1. */
  lemma ClientFacts(cfg: Config, c: Client, read: nat, sent: nat)
    requires cfg.Valid() && ClientInv(cfg, c, read, sent)
    ensures c.chan.Popped() == 0 ==> c.ends == 0
    ensures c.chan.Popped() <= c.chan.Pushed() && (c.main.CLoop? ==> c.chan.Popped() <= 1)
    ensures !c.chan.Empty() && c.chan.Head() != TEST_END ==> c.chan.Head() == ClientValue(c.chan.Popped())
    ensures !c.chan.Empty() && c.chan.Head() == TEST_END ==> c.ends <= cfg.N() && c.chan.Popped() >= 1
    ensures !c.chan.Empty() && c.chan.Head() == TEST_END && c.ends + 1 == cfg.N() ==>
              Count(c.pcs, Finished) == cfg.N()
  {
    ClientPushes(c.chan, TEST_END);
    if !c.chan.Empty() { PopFacts(c.chan); }
    CountBounds(c.pcs, Finished, |c.pcs|);
  }

  lemma ClientTakes(cfg: Config, c: Client, o: ClientOutcome, read: nat, sent: nat)
    requires cfg.Valid() && ClientInv(cfg, c, read, sent) && c.main.CLoop? && !c.chan.Empty()
    requires c.chan.Head() != TEST_END
    requires ClientMainNext(cfg, c) == Some(o)
    ensures ClientInv(cfg, o.side, read, sent + |o.output|)
  {
    ClientFacts(cfg, c, read, sent);
    PopFacts(c.chan);
  }

  lemma ClientTakesEnd(cfg: Config, c: Client, o: ClientOutcome, read: nat, sent: nat)
    requires cfg.Valid() && ClientInv(cfg, c, read, sent) && c.main.CLoop? && !c.chan.Empty()
    requires c.chan.Head() == TEST_END
    requires ClientMainNext(cfg, c) == Some(o)
    ensures ClientInv(cfg, o.side, read, sent + |o.output|)
  {
    ClientFacts(cfg, c, read, sent);
    PopFacts(c.chan);
  }

  lemma ClientLaunches(cfg: Config, c: Client, o: ClientOutcome, read: nat, sent: nat)
    requires cfg.Valid() && ClientInv(cfg, c, read, sent) && c.main.CLaunch? && c.main.next < |c.pcs|
    requires ClientMainNext(cfg, c) == Some(o)
    ensures ClientInv(cfg, o.side, read, sent + |o.output|)
  {
    CountUpdate(c.pcs, c.main.next, Running, Finished);
  }

  lemma ClientEnqueuesEnd(cfg: Config, c: Client, o: ClientOutcome, read: nat, sent: nat)
    requires cfg.Valid() && ClientInv(cfg, c, read, sent) && c.main == CSend(Enqueue)
    requires ClientMainNext(cfg, c) == Some(o)
    ensures ClientInv(cfg, o.side, read, sent + |o.output|)
  {
    ClientPushes(c.chan, c.state);
  }

  lemma ClientSendsEnd(cfg: Config, c: Client, o: ClientOutcome, read: nat, sent: nat)
    requires cfg.Valid() && ClientInv(cfg, c, read, sent) && c.main.CSend? && !c.main.at.Enqueue?
    requires ClientMainNext(cfg, c) == Some(o)
    ensures ClientInv(cfg, o.side, read, sent + |o.output|)
  {
    ClientFacts(cfg, c, read, sent);
  }

  lemma ClientMarks(cfg: Config, c: Client, o: ClientOutcome, read: nat, sent: nat)
    requires cfg.Valid() && ClientInv(cfg, c, read, sent)
             && (c.main.CMarkDone? || c.main.CStats? || (c.main.CLaunch? && c.main.next >= |c.pcs|))
    requires ClientMainNext(cfg, c) == Some(o)
    ensures ClientInv(cfg, o.side, read, sent + |o.output|)
  {
  }

  /** What the client's handler never touches. */
  lemma KeeperFrame(cfg: Config, c: Client, input: Input, o: ClientOutcome)
    requires ClientHandlerNext(cfg, c, input) == Some(o)
    ensures o.side.main == c.main && o.side.ends == c.ends && o.side.sender == c.sender && o.side.exited == c.exited
  {
    match c.handler
    case KRead =>
    case _ =>
  }

  lemma KeeperClock(cfg: Config, c: Client, input: Input, o: ClientOutcome)
    requires ClientHandlerNext(cfg, c, input) == Some(o)
    ensures o.side.done == c.done && o.side.timer == if c.handler.KStart? then Armed else c.timer
  {
    match c.handler
    case KRead =>
    case _ =>
  }

  /** What it does to the counters, and to the streams. */
  lemma KeeperOpens(cfg: Config, c: Client, input: Input, o: ClientOutcome)
    requires ClientHandlerNext(cfg, c, input) == Some(o)
    ensures if c.handler.KConnect? && |c.pcs| < cfg.N() then o.side.data == c.data.Open(c.sender)
            else o.side.data.canSend == c.data.canSend && (c.handler.KGetResults? || o.side.data == c.data)
  {
    match c.handler
    case KRead =>
    case _ =>
  }

  lemma KeeperStreams(cfg: Config, c: Client, input: Input, o: ClientOutcome)
    requires ClientHandlerNext(cfg, c, input) == Some(o)
    ensures if c.handler.KConnect? && |c.pcs| < cfg.N() then Allocates(cfg.params) && o.side.pcs == c.pcs + [Fresh]
            else o.side.pcs == c.pcs
  {
    match c.handler
    case KRead =>
    case _ =>
  }

  /** The handler that touches neither channel nor streams leaves the tables alone. */
  lemma KeeperTables(cfg: Config, c: Client, after: Client, popped: nat)
    requires ClientTables(cfg, c, popped)
    requires after == c.(handler := after.handler, state := after.state, timer := after.timer, gone := after.gone)
    ensures ClientTables(cfg, after, popped)
  {
    assert EndPushed(cfg, after) == EndPushed(cfg, c);
  }

  lemma KeeperReads(cfg: Config, c: Client, input: Input, o: ClientOutcome, read: nat, sent: nat)
    requires cfg.Valid() && ClientInv(cfg, c, read, sent) && c.handler.KRead?
    requires input.Received? && ToClientKind(read, input.frame) && !c.exited
    requires read == 4 ==> EndSent(cfg, c)
    requires ClientHandlerNext(cfg, c, input) == Some(o)
    ensures ClientInv(cfg, o.side, read + 1, sent + |o.output|)
  {
    hide ClientTables;
    ClientFacts(cfg, c, read, sent);
    KeeperTables(cfg, c, o.side, c.chan.Popped());
  }

  lemma KeeperGets(cfg: Config, c: Client, input: Input, o: ClientOutcome, read: nat, sent: nat)
    requires cfg.Valid() && ClientInv(cfg, c, read, sent) && (c.handler.KGetLength? || c.handler.KGetResults?)
    requires input.Received? && ToClientKind(read, input.frame) && !c.exited
    requires input.frame.ResultsFrame? ==> |input.frame.bytes| <= |c.pcs|
    requires ClientHandlerNext(cfg, c, input) == Some(o)
    ensures ClientInv(cfg, o.side, read + 1, sent + |o.output|)
  {
  }

  lemma KeeperConnectsTables(cfg: Config, c: Client, after: Client)
    requires ClientTables(cfg, c, 0) && after == c.(pcs := c.pcs + [Fresh], data := c.data.Open(c.sender))
    requires !c.main.CLaunch? && c.ends < cfg.N() && c.sender == !cfg.params.reverse
    ensures ClientTables(cfg, after, 0)
  {
    CountAppend(c.pcs, Fresh, Finished);
  }

  lemma KeeperConnects(cfg: Config, c: Client, input: Input, o: ClientOutcome, read: nat, sent: nat)
    requires cfg.Valid() && ClientInv(cfg, c, read, sent) && c.handler.KConnect?
    requires !c.exited
    requires ClientHandlerNext(cfg, c, input) == Some(o)
    ensures ClientInv(cfg, o.side, read, sent + |o.output|)
  {
    hide ClientTables;
    ClientFacts(cfg, c, read, sent);
    if |c.pcs| < cfg.N() {
      KeeperConnectsTables(cfg, c, o.side);
    } else {
      KeeperTables(cfg, c, o.side, c.chan.Popped());
    }
  }

  lemma KeeperEnqueues(cfg: Config, c: Client, input: Input, o: ClientOutcome, read: nat, sent: nat)
    requires cfg.Valid() && ClientInv(cfg, c, read, sent) && c.handler.KSend? && c.handler.at.Enqueue?
    requires !c.exited
    requires ClientHandlerNext(cfg, c, input) == Some(o)
    ensures ClientInv(cfg, o.side, read, sent + |o.output|)
  {
    ClientPushes(c.chan, c.state);
  }

  lemma KeeperSends(cfg: Config, c: Client, input: Input, o: ClientOutcome, read: nat, sent: nat)
    requires cfg.Valid() && ClientInv(cfg, c, read, sent) && c.handler.KSend? && !c.handler.at.Enqueue?
    requires !c.exited
    requires ClientHandlerNext(cfg, c, input) == Some(o)
    ensures ClientInv(cfg, o.side, read, sent + |o.output|)
  {
    hide ClientTables;
    KeeperTables(cfg, c, o.side, c.chan.Popped());
  }

  lemma KeeperPushesRunning(cfg: Config, c: Client, input: Input, o: ClientOutcome, read: nat, sent: nat)
    requires cfg.Valid() && ClientInv(cfg, c, read, sent) && c.handler.KPushRunning?
    requires !c.exited
    requires ClientHandlerNext(cfg, c, input) == Some(o)
    ensures ClientInv(cfg, o.side, read, sent + |o.output|)
  {
    ClientPushes(c.chan, TEST_RUNNING);
  }

  lemma KeeperPushesDone(cfg: Config, c: Client, input: Input, o: ClientOutcome, read: nat, sent: nat)
    requires cfg.Valid() && ClientInv(cfg, c, read, sent) && (c.handler.KPushClosed? || c.handler.KPushExit?)
    requires !c.exited
    requires ClientHandlerNext(cfg, c, input) == Some(o)
    ensures ClientInv(cfg, o.side, read, sent + |o.output|)
  {
    ClientPushes(c.chan, IPERF_DONE);
  }

  lemma KeeperPuts(cfg: Config, c: Client, input: Input, o: ClientOutcome, read: nat, sent: nat)
    requires cfg.Valid() && ClientInv(cfg, c, read, sent)
             && (c.handler.KPutParams? || c.handler.KPutLength? || c.handler.KPutResults?)
    requires !c.exited
    requires ClientHandlerNext(cfg, c, input) == Some(o)
    ensures ClientInv(cfg, o.side, read, sent + |o.output|)
  {
    hide ClientTables;
    KeeperTables(cfg, c, o.side, c.chan.Popped());
  }

  lemma KeeperChecks(cfg: Config, c: Client, input: Input, o: ClientOutcome, read: nat, sent: nat)
    requires cfg.Valid() && ClientInv(cfg, c, read, sent) && c.handler.KCheck?
    requires !c.exited
    requires ClientHandlerNext(cfg, c, input) == Some(o)
    ensures ClientInv(cfg, o.side, read, sent + |o.output|)
  {
    hide ClientTables;
    KeeperTables(cfg, c, o.side, c.chan.Popped());
  }

  lemma KeeperGoesOn(cfg: Config, c: Client, input: Input, o: ClientOutcome, read: nat, sent: nat)
    requires cfg.Valid() && ClientInv(cfg, c, read, sent)
             && (c.handler.KStart? || c.handler.KCloseStreams? || c.handler.KCloseConn?)
    requires !c.exited
    requires ClientHandlerNext(cfg, c, input) == Some(o)
    ensures ClientInv(cfg, o.side, read, sent + |o.output|)
  {
    hide ClientTables;
    KeeperTables(cfg, c, o.side, c.chan.Popped());
  }

  lemma ClientStreamAt(cfg: Config, c: Client, after: Client, read: nat, sent: nat, pushed: nat, popped: nat)
    requires ClientAt(cfg, c, read, sent, pushed, popped)
    requires after == c.(pcs := after.pcs, chan := after.chan) && |after.pcs| == |c.pcs|
    ensures ClientAt(cfg, after, read, sent, pushed, popped)
  {
    assert EndSent(cfg, after) == EndSent(cfg, c);
  }

  lemma ClientStreamPosts(cfg: Config, c: Client, i: nat, o: ClientOutcome, read: nat, sent: nat)
    requires cfg.Valid() && ClientInv(cfg, c, read, sent)
    requires ClientStreamNext(cfg, c, i) == Some(o) && c.pcs[i].Posting?
    ensures ClientInv(cfg, o.side, read, sent)
  {
    hide ClientAt;
    ClientPushes(c.chan, TEST_END);
    CountUpdate(c.pcs, i, Finished, Finished);
    CountBounds(c.pcs, Finished, |c.pcs|);
    ClientStreamAt(cfg, c, o.side, read, sent, c.chan.Pushed(), c.chan.Popped());
  }

  lemma ClientStreamStops(cfg: Config, c: Client, i: nat, o: ClientOutcome, read: nat, sent: nat)
    requires cfg.Valid() && ClientInv(cfg, c, read, sent)
    requires ClientStreamNext(cfg, c, i) == Some(o) && c.pcs[i].Testing?
    ensures ClientInv(cfg, o.side, read, sent)
  {
    hide ClientAt;
    CountUpdate(c.pcs, i, Posting, Finished);
    ClientStreamAt(cfg, c, o.side, read, sent, c.chan.Pushed(), c.chan.Popped());
  }

  lemma ClientStreamFailInv(cfg: Config, c: Client, i: nat, o: ClientOutcome, read: nat, sent: nat)
    requires cfg.Valid() && ClientInv(cfg, c, read, sent) && ClientStreamFails(cfg, c, i) == Some(o)
    ensures ClientInv(cfg, o.side, read, sent)
  {
    hide ClientAt;
    CountUpdate(c.pcs, i, Failed, Finished);
    ClientStreamAt(cfg, c, o.side, read, sent, c.chan.Pushed(), c.chan.Popped());
  }

  lemma TimerRaceInv(cfg: Config, c: Client, o: ClientOutcome, read: nat, sent: nat)
    requires cfg.Valid() && ClientInv(cfg, c, read, sent) && TimerRaces(cfg, c) == Some(o)
    ensures ClientInv(cfg, o.side, read, sent)
  {
  }

  /** What the client's invariant does not look at: counts, and where a stream is in its loop; and `done` may be set. */
  predicate OnlyCounts(c: Client, after: Client) {
    && after == c.(timer := after.timer, done := after.done, data := after.data, pcs := after.pcs)
    && after.data.roles == c.data.roles && after.data.Sized(|c.pcs|) && Turned(c.pcs, after.pcs)
    && (after.timer == c.timer || (c.timer.Armed? && after.timer.Fired?)) && (after.timer.Fired? ==> after.done)
  }

  lemma ClientCountsAt(cfg: Config, c: Client, after: Client, read: nat, sent: nat, pushed: nat, popped: nat)
    requires ClientAt(cfg, c, read, sent, pushed, popped) && OnlyCounts(c, after)
    ensures ClientAt(cfg, after, read, sent, pushed, popped)
  {
    assert EndSent(cfg, after) == EndSent(cfg, c);
  }

  lemma ClientCountsTables(cfg: Config, c: Client, after: Client, popped: nat)
    requires ClientTables(cfg, c, popped) && OnlyCounts(c, after)
    ensures ClientTables(cfg, after, popped)
  {
    assert EndPushed(cfg, after) == EndPushed(cfg, c);
    TurnedCount(c.pcs, after.pcs, |c.pcs|);
  }

  lemma ClientCounts(cfg: Config, c: Client, after: Client, read: nat, sent: nat)
    requires ClientInv(cfg, c, read, sent) && OnlyCounts(c, after)
    ensures ClientInv(cfg, after, read, sent)
  {
    hide ClientAt, ClientTables;
    ClientCountsAt(cfg, c, after, read, sent, c.chan.Pushed(), c.chan.Popped());
    ClientCountsTables(cfg, c, after, c.chan.Popped());
  }

  lemma ServerCounts(cfg: Config, s: Server, after: Server, read: nat, sent: nat)
    requires ServerInv(cfg, s, read, sent) && after == s.(data := after.data, pcs := after.pcs)
    requires after.data.roles == s.data.roles && after.data.Sized(|s.pcs|) && Turned(s.pcs, after.pcs)
    ensures ServerInv(cfg, after, read, sent)
  {
    assert ServerAt(cfg, after, read, sent, s.chan.Pushed(), s.chan.Popped());
    TurnedCount(s.pcs, after.pcs, |s.pcs|);
  }

  lemma ClientExitInv(cfg: Config, c: Client, o: ClientOutcome, read: nat, sent: nat)
    requires cfg.Valid() && ClientInv(cfg, c, read, sent)
    requires ExitNext(c) == Some(o)
    ensures ClientInv(cfg, o.side, read, sent)
  {
    ClientPushes(c.chan, TEST_END);
  }

  lemma ServerLeaveInv(cfg: Config, s: Server, o: ServerOutcome, read: nat, sent: nat)
    requires cfg.Valid() && ServerInv(cfg, s, read, sent)
    requires ServerLeaves(s) == Some(o)
    ensures ServerInv(cfg, o.side, read, sent)
  {
    ServerPushes(s.chan, TEST_END);
  }

  /** What moving data, turning loops and taking statistics may change. */
  predicate CountersOnly(w: World, after: World) {
    && after.garbled == w.garbled && |after.flight| == |w.flight| && |after.lost| == |w.lost|
    && after.server == w.server.(data := after.server.data, pcs := after.server.pcs)
    && after.client == w.client.(data := after.client.data, pcs := after.client.pcs)
    && after.server.data.roles == w.server.data.roles && after.server.data.Sized(|w.server.pcs|)
    && after.client.data.roles == w.client.data.roles && after.client.data.Sized(|w.client.pcs|)
    && Turned(w.server.pcs, after.server.pcs) && Turned(w.client.pcs, after.client.pcs)
  }

  lemma SendsInv(cfg: Config, w: World, a: Action, after: World)
    requires (a.ClientSends? || a.ServerSends?) && DataNext(cfg, w, a) == Some(after)
    requires w.server.data.Sized(|w.server.pcs|) && w.client.data.Sized(|w.client.pcs|)
    ensures CountersOnly(w, after)
  {
  }

  /** What a read of the client changes: it moves bytes out of flight, and counts them or loses them. */
  lemma ClientReceivesFrame(cfg: Config, w: World, i: nat, n: nat, after: World)
    requires DataNext(cfg, w, ClientReceives(i, n)) == Some(after)
    ensures Live(w, w.client.data, w.client.pcs, i, false, Running) && n <= w.flight[i]
    ensures after.server == w.server && after.flight == w.flight[i := w.flight[i] - n] && after.garbled == w.garbled
    ensures after.client == w.client.(pcs := w.client.pcs[i := Testing], data := after.client.data)
    ensures w.client.state == TEST_RUNNING ==> after.client.data == Collect(w.client.data, i, n) && after.lost == w.lost
    ensures w.client.state != TEST_RUNNING ==> after.client.data == w.client.data && after.lost == Add(w.lost, i, n)
  {
  }

  lemma ClientReceivesInv(cfg: Config, w: World, i: nat, n: nat, after: World)
    requires DataNext(cfg, w, ClientReceives(i, n)) == Some(after)
    requires w.server.data.Sized(|w.server.pcs|) && w.client.data.Sized(|w.client.pcs|)
    ensures CountersOnly(w, after)
  {
    hide DataNext;
    ClientReceivesFrame(cfg, w, i, n, after);
  }

  lemma ServerReceivesFrame(cfg: Config, w: World, i: nat, n: nat, after: World)
    requires DataNext(cfg, w, ServerReceives(i, n)) == Some(after)
    ensures Live(w, w.server.data, w.server.pcs, i, false, Running) && n <= w.flight[i]
    ensures after.client == w.client && after.flight == w.flight[i := w.flight[i] - n] && after.garbled == w.garbled
    ensures after.server == w.server.(pcs := w.server.pcs[i := Testing], data := after.server.data)
    ensures w.server.state == TEST_RUNNING ==> after.server.data == Collect(w.server.data, i, n) && after.lost == w.lost
    ensures w.server.state != TEST_RUNNING ==> after.server.data == w.server.data && after.lost == Add(w.lost, i, n)
  {
  }

  lemma ServerReceivesInv(cfg: Config, w: World, i: nat, n: nat, after: World)
    requires DataNext(cfg, w, ServerReceives(i, n)) == Some(after)
    requires w.server.data.Sized(|w.server.pcs|) && w.client.data.Sized(|w.client.pcs|)
    ensures CountersOnly(w, after)
  {
    hide DataNext;
    ServerReceivesFrame(cfg, w, i, n, after);
  }

  lemma TurnsInv(cfg: Config, w: World, a: Action, after: World)
    requires a.ClientLoops? || a.ServerLoops? || a.ClientGate? || a.ServerGate?
             || a.ClientStatsPass? || a.ServerStatsPass?
    requires DataNext(cfg, w, a) == Some(after)
    requires w.server.data.Sized(|w.server.pcs|) && w.client.data.Sized(|w.client.pcs|)
    ensures CountersOnly(w, after)
  {
  }

  lemma DataInv(cfg: Config, w: World, a: Action, after: World)
    requires !a.IsControl() && DataNext(cfg, w, a) == Some(after)
    requires w.server.data.Sized(|w.server.pcs|) && w.client.data.Sized(|w.client.pcs|)
    ensures CountersOnly(w, after)
  {
    if a.ClientSends? || a.ServerSends? {
      SendsInv(cfg, w, a, after);
    } else if a.ClientReceives? {
      ClientReceivesInv(cfg, w, a.i, a.n, after);
    } else if a.ServerReceives? {
      ServerReceivesInv(cfg, w, a.i, a.n, after);
    } else {
      TurnsInv(cfg, w, a, after);
    }
  }

  // ---------- by goroutine ----------

  lemma ServerMainInv(cfg: Config, s: Server, connected: nat, input: Input, o: ServerOutcome, read: nat, sent: nat)
    requires cfg.Valid() && ServerInv(cfg, s, read, sent)
    requires s.main.SGetParams? && input.Received? ==> input.frame == ParamsFrame(cfg.params)
    requires ServerMainNext(s, connected, input) == Some(o)
    ensures ServerInv(cfg, o.side, read + (if s.main.SGetParams? then 1 else 0), sent + |o.output|)
  {
    if s.main.SSend? {
      if s.main.at.Assign? {
        ServerAssigns(cfg, s, connected, input, o, read, sent);
      } else if s.main.at.Enqueue? {
        ServerEnqueues(cfg, s, connected, input, o, read, sent);
      } else {
        ServerTransmits(cfg, s, connected, input, o, read, sent);
      }
    } else if s.main.SGetParams? {
      ServerGetsParams(cfg, s, connected, input, o, read, sent);
    } else if s.main.SLoop? {
      ServerTakes(cfg, s, connected, input, o, read, sent);
    } else if s.main.SAccept? {
      ServerAccepts(cfg, s, connected, input, o, read, sent);
    } else if s.main.SLaunch? && s.main.next < |s.pcs| {
      ServerLaunches(cfg, s, connected, input, o, read, sent);
    } else {
      ServerGoesOn(cfg, s, connected, input, o, read, sent);
    }
  }

  lemma ServerHandlerInv(cfg: Config, s: Server, input: Input, o: ServerOutcome, read: nat, sent: nat)
    requires cfg.Valid() && ServerInv(cfg, s, read, sent)
    requires input.Received? <==> !HandlerWants(s).NoRead?
    requires input.Received? ==> ToServerKind(cfg, read, input.frame) && (read == 1 ==> sent >= 4)
    requires input.Received? && input.frame.ResultsFrame? ==> |input.frame.bytes| <= |s.pcs|
    requires ServerHandlerNext(cfg, s, input) == Some(o)
    ensures ServerInv(cfg, o.side, read + (if input.Received? then 1 else 0), sent + |o.output|)
  {
    var h := s.handler;
    if h.HSend? && h.at.Enqueue? {
      HandlerEnqueues(cfg, s, input, o, read, sent);
    } else if h.HSend? {
      HandlerSends(cfg, s, input, o, read, sent);
    } else if h.HPushDone? {
      HandlerPushesDone(cfg, s, input, o, read, sent);
    } else if h.HRead? {
      HandlerReads(cfg, s, input, o, read, sent);
    } else if h.HGetLength? || h.HGetResults? {
      HandlerGets(cfg, s, input, o, read, sent);
    } else if h.HPutLength? || h.HPutResults? {
      HandlerPuts(cfg, s, input, o, read, sent);
    } else {
      HandlerEnds(cfg, s, input, o, read, sent);
    }
  }

  lemma ClientMainInv(cfg: Config, c: Client, o: ClientOutcome, read: nat, sent: nat)
    requires cfg.Valid() && ClientInv(cfg, c, read, sent)
    requires ClientMainNext(cfg, c) == Some(o)
    ensures ClientInv(cfg, o.side, read, sent + |o.output|)
  {
    if c.main.CLoop? {
      if c.chan.Head() == TEST_END {
        ClientTakesEnd(cfg, c, o, read, sent);
      } else {
        ClientTakes(cfg, c, o, read, sent);
      }
    } else if c.main.CLaunch? && c.main.next < |c.pcs| {
      ClientLaunches(cfg, c, o, read, sent);
    } else if c.main == CSend(Enqueue) {
      ClientEnqueuesEnd(cfg, c, o, read, sent);
    } else if c.main.CSend? {
      ClientSendsEnd(cfg, c, o, read, sent);
    } else {
      ClientMarks(cfg, c, o, read, sent);
    }
  }

  lemma KeeperReadingInv(cfg: Config, c: Client, input: Input, o: ClientOutcome, read: nat, sent: nat)
    requires cfg.Valid() && ClientInv(cfg, c, read, sent) && !c.exited
    requires c.handler.KRead? || c.handler.KGetLength? || c.handler.KGetResults?
    requires input.Received? <==> !KeeperWants(c).NoRead?
    requires input.Received? ==> ToClientKind(read, input.frame) && (read == 4 ==> EndSent(cfg, c))
    requires input.Received? && input.frame.ResultsFrame? ==> |input.frame.bytes| <= |c.pcs|
    requires ClientHandlerNext(cfg, c, input) == Some(o)
    ensures ClientInv(cfg, o.side, read + (if input.Received? then 1 else 0), sent + |o.output|)
  {
    if c.handler.KRead? {
      KeeperReads(cfg, c, input, o, read, sent);
    } else {
      KeeperGets(cfg, c, input, o, read, sent);
    }
  }

  lemma KeeperPushingInv(cfg: Config, c: Client, input: Input, o: ClientOutcome, read: nat, sent: nat)
    requires cfg.Valid() && ClientInv(cfg, c, read, sent) && !c.exited
    requires c.handler.KPushRunning? || c.handler.KPushClosed? || c.handler.KPushExit?
             || c.handler.KSend?
    requires input.Received? <==> !KeeperWants(c).NoRead?
    requires input.Received? ==> ToClientKind(read, input.frame) && (read == 4 ==> EndSent(cfg, c))
    requires input.Received? && input.frame.ResultsFrame? ==> |input.frame.bytes| <= |c.pcs|
    requires ClientHandlerNext(cfg, c, input) == Some(o)
    ensures ClientInv(cfg, o.side, read + (if input.Received? then 1 else 0), sent + |o.output|)
  {
    if c.handler.KSend? && c.handler.at.Enqueue? {
      KeeperEnqueues(cfg, c, input, o, read, sent);
    } else if c.handler.KSend? {
      KeeperSends(cfg, c, input, o, read, sent);
    } else if c.handler.KPushRunning? {
      KeeperPushesRunning(cfg, c, input, o, read, sent);
    } else {
      KeeperPushesDone(cfg, c, input, o, read, sent);
    }
  }

  lemma KeeperWorkingInv(cfg: Config, c: Client, input: Input, o: ClientOutcome, read: nat, sent: nat)
    requires cfg.Valid() && ClientInv(cfg, c, read, sent) && !c.exited
    requires KeeperWants(c).NoRead? && input == Nothing
    requires !c.handler.KPushRunning? && !c.handler.KPushClosed? && !c.handler.KPushExit?
             && !c.handler.KSend?
    requires ClientHandlerNext(cfg, c, input) == Some(o)
    ensures ClientInv(cfg, o.side, read, sent + |o.output|)
  {
    var h := c.handler;
    if h.KPutParams? || h.KPutLength? || h.KPutResults? {
      KeeperPuts(cfg, c, input, o, read, sent);
    } else if h.KConnect? {
      KeeperConnects(cfg, c, input, o, read, sent);
    } else if h.KCheck? {
      KeeperChecks(cfg, c, input, o, read, sent);
    } else {
      KeeperGoesOn(cfg, c, input, o, read, sent);
    }
  }

  lemma KeeperInv(cfg: Config, c: Client, input: Input, o: ClientOutcome, read: nat, sent: nat)
    requires cfg.Valid() && ClientInv(cfg, c, read, sent) && !c.exited
    requires KeeperWants(c).NoRead? && input == Nothing
    requires ClientHandlerNext(cfg, c, input) == Some(o)
    ensures ClientInv(cfg, o.side, read, sent + |o.output|)
  {
    var h := c.handler;
    if h.KPushRunning? || h.KPushClosed? || h.KPushExit? || h.KSend? {
      KeeperPushingInv(cfg, c, input, o, read, sent);
    } else {
      KeeperWorkingInv(cfg, c, input, o, read, sent);
    }
  }

  // ---------- across the connection ----------

  /** What the two sides have done bounds each other, across the connection. */
  lemma Causality(cfg: Config, st: State)
    requires Inv(cfg, st)
    ensures |st.toServer.frames| >= 2 ==> st.toClient.taken >= 4 && EndSent(cfg, st.world.client)
    ensures st.toServer.taken >= 2 ==> |st.toClient.frames| >= 4
    ensures st.toClient.taken >= 5 ==> st.toServer.taken >= 2
    ensures |st.toClient.frames| >= 5 ==> st.toServer.taken >= 2 && EndSent(cfg, st.world.client)
    ensures st.world.client.gone ==> |st.toClient.frames| >= 8
    ensures |st.toClient.frames| >= 3 ==> |st.world.server.pcs| == |st.world.client.pcs| == cfg.N()
    ensures |st.toServer.frames| >= 4 ==> st.toClient.taken >= 5
  {
    ClientFacts(cfg, st.world.client, st.toClient.taken, |st.toServer.frames|);
  }

  /** The frame the server's main loop waits for is the parameters. */
  lemma ParamsFirst(cfg: Config, st: State)
    requires Inv(cfg, st) && st.world.server.main.SGetParams? && st.toServer.taken < |st.toServer.frames|
    ensures st.toServer.frames[st.toServer.taken] == ParamsFrame(cfg.params)
  {
  }

  lemma HandlerInbox(cfg: Config, st: State)
    requires Inv(cfg, st) && !HandlerWants(st.world.server).NoRead? && st.toServer.taken < |st.toServer.frames|
    ensures Take(cfg.codec, HandlerWants(st.world.server), st.toServer)
            == Received(st.toServer.frames[st.toServer.taken])
  {
  }

  lemma KeeperInbox(cfg: Config, st: State)
    requires Inv(cfg, st) && !KeeperWants(st.world.client).NoRead? && st.toClient.taken < |st.toClient.frames|
    ensures Take(cfg.codec, KeeperWants(st.world.client), st.toClient)
            == Received(st.toClient.frames[st.toClient.taken])
  {
  }

  /** No reader ever finds anything but what it waits for. */
  lemma NoGarbage(cfg: Config, st: State, a: Action)
    requires Inv(cfg, st)
    ensures InputOf(cfg, st, a) != Garbage
    ensures InputOf(cfg, st, a).Received? ==>
              InputOf(cfg, st, a).frame == Inbox(st, a).frames[Inbox(st, a).taken]
              && Inbox(st, a).taken < |Inbox(st, a).frames|
  {
    hide Inv;
    if !Wants(st.world, a).NoRead? && Inbox(st, a).taken < |Inbox(st, a).frames| {
      if a.ServerMainStep? {
        ParamsFirst(cfg, st);
      } else if a.ServerHandlerStep? {
        HandlerInbox(cfg, st);
      } else {
        KeeperInbox(cfg, st);
      }
    }
  }

  /** What the server's main loop writes is the frame due at its place. */
  lemma ServerMainOutput(cfg: Config, s: Server, connected: nat, input: Input, o: ServerOutcome, read: nat, sent: nat)
    requires cfg.Valid() && ServerInv(cfg, s, read, sent)
    requires ServerMainNext(s, connected, input) == Some(o)
    ensures |o.output| <= 1
    ensures |o.output| == 1 ==> sent <= 3 && ToClientKind(sent, o.output[0])
    ensures o.side.handler == s.handler || (s.main.SGetParams? && o.side.handler.HRead?)
    ensures |s.pcs| <= connected ==> |o.side.pcs| <= connected
  {
    hide ServerTables;
  }

  /** What the handler announces, writes and expects of the results. */
  lemma HandlerTransfer(cfg: Config, s: Server, input: Input, o: ServerOutcome, read: nat, sent: nat)
    requires cfg.Valid() && ServerInv(cfg, s, read, sent)
    requires ServerHandlerNext(cfg, s, input) == Some(o) && (read >= 2 ==> sent >= 4)
    ensures o.side.handler.HPutResults? ==>
              sent == 5 && o.output == [LengthFrame(|cfg.codec.encodeResults(o.side.handler.results)|)]
              && |o.side.handler.results| == cfg.N()
    ensures s.handler.HPutResults? ==> o.output == [ResultsFrame(s.handler.results)]
    ensures o.side.handler.HGetResults? ==> read == 2 && input == Received(LengthFrame(o.side.handler.length))
  {
    hide ServerTables;
    match s.handler
    case HSend(_, _) =>
    case HPutLength =>
    case _ =>
  }

  lemma ServerHandlerOutput(cfg: Config, s: Server, input: Input, o: ServerOutcome, read: nat, sent: nat)
    requires cfg.Valid() && ServerInv(cfg, s, read, sent)
    requires ServerHandlerNext(cfg, s, input) == Some(o) && (read >= 2 ==> sent >= 4)
    ensures |o.output| <= 1 && o.side.pcs == s.pcs
    ensures |o.output| == 1 ==> 4 <= sent <= 8 && ToClientKind(sent, o.output[0])
    ensures !s.handler.HPutResults? && |o.output| == 1 ==> sent != 6
  {
    hide ServerTables;
    match s.handler
    case HSend(_, _) =>
    case HPutLength =>
    case _ =>
  }

  lemma ClientMainOutput(cfg: Config, c: Client, o: ClientOutcome, read: nat, sent: nat)
    requires cfg.Valid() && ClientInv(cfg, c, read, sent)
    requires ClientMainNext(cfg, c) == Some(o)
    ensures |o.output| <= 1
    ensures |o.output| == 1 ==> sent == 1 && o.output[0] == StateFrame(TEST_END)
    ensures |o.side.pcs| == |c.pcs| && o.side.handler == c.handler
  {
    ClientFacts(cfg, c, read, sent);
  }

  lemma KeeperOutput(cfg: Config, c: Client, input: Input, o: ClientOutcome, read: nat, sent: nat)
    requires cfg.Valid() && ClientInv(cfg, c, read, sent)
    requires ClientHandlerNext(cfg, c, input) == Some(o) && !c.exited
    ensures |o.output| <= 1 && |c.pcs| <= |o.side.pcs|
    ensures |o.output| == 1 ==> sent != 1 && ToServerKind(cfg, sent, o.output[0])
  {
    if c.handler.KPutParams? {
      ClientFacts(cfg, c, read, sent);
    }
  }

  /** The results a client writes follow the length it wrote for them; the results it waits for, the length it read. */
  lemma KeeperTransfer(cfg: Config, c: Client, input: Input, o: ClientOutcome, read: nat, sent: nat, pushed: nat,
      popped: nat)
    requires cfg.Valid() && ClientAt(cfg, c, read, sent, pushed, popped)
    requires ClientHandlerNext(cfg, c, input) == Some(o) && !c.exited
    ensures o.side.handler.KPutResults? ==>
              sent == 2 && o.output == [LengthFrame(|cfg.codec.encodeResults(o.side.handler.results)|)]
              && |o.side.handler.results| == cfg.N()
    ensures c.handler.KPutResults? ==> o.output == [ResultsFrame(c.handler.results)]
    ensures !c.handler.KPutResults? && |o.output| == 1 ==> sent != 3
    ensures o.side.handler.KGetResults? ==> read == 5 && input == Received(LengthFrame(o.side.handler.length))
  {
  }

  function AfterServer(st: State, o: ServerOutcome, read: nat): State {
    State(st.world.(server := o.side), st.toServer.(taken := st.toServer.taken + read),
          st.toClient.(frames := st.toClient.frames + o.output))
  }

  function AfterClient(st: State, o: ClientOutcome, read: nat): State {
    State(st.world.(client := o.side), st.toServer.(frames := st.toServer.frames + o.output),
          st.toClient.(taken := st.toClient.taken + read))
  }

  /** A server frame written in its place, and the read that goes with it, keep the connection in order. */
  lemma ServerDelivers(cfg: Config, st: State, o: ServerOutcome, read: nat)
    requires Wired(cfg, st)
    requires |o.side.pcs| <= |st.world.client.pcs| && st.toServer.taken + read <= |st.toServer.frames|
    requires |o.output| <= 1 && |st.toClient.frames| + |o.output| <= 9
    requires |o.output| == 1 ==> ToClientKind(|st.toClient.frames|, o.output[0])
    requires o.side.handler.HPutResults? ==>
               && (o.side.handler == st.world.server.handler ==> o.output == [])
               && (o.side.handler != st.world.server.handler ==>
                     |st.toClient.frames| == 5 && |o.side.handler.results| == cfg.N()
                     && o.output == [LengthFrame(|cfg.codec.encodeResults(o.side.handler.results)|)])
    requires |o.output| == 1 && |st.toClient.frames| == 6 ==>
               st.world.server.handler.HPutResults? && o.output == [ResultsFrame(st.world.server.handler.results)]
    requires o.side.handler.HGetResults? ==>
               || o.side.handler == st.world.server.handler
               || (st.toServer.taken == 2 && |st.toServer.frames| > 2
                   && st.toServer.frames[2] == LengthFrame(o.side.handler.length))
    ensures Wired(cfg, AfterServer(st, o, read))
  {
  }

  lemma ClientDelivers(cfg: Config, st: State, o: ClientOutcome, read: nat)
    requires Wired(cfg, st)
    requires |st.world.client.pcs| <= |o.side.pcs| && st.toClient.taken + read <= |st.toClient.frames|
    requires |o.output| <= 1 && |st.toServer.frames| + |o.output| <= 5
    requires |o.output| == 1 ==> ToServerKind(cfg, |st.toServer.frames|, o.output[0])
    requires o.side.handler.KPutResults? ==>
               && (o.side.handler == st.world.client.handler ==> o.output == [])
               && (o.side.handler != st.world.client.handler ==>
                     |st.toServer.frames| == 2 && |o.side.handler.results| == cfg.N()
                     && o.output == [LengthFrame(|cfg.codec.encodeResults(o.side.handler.results)|)])
    requires |o.output| == 1 && |st.toServer.frames| == 3 ==>
               st.world.client.handler.KPutResults? && o.output == [ResultsFrame(st.world.client.handler.results)]
    requires o.side.handler.KGetResults? ==>
               || o.side.handler == st.world.client.handler
               || (st.toClient.taken == 5 && |st.toClient.frames| > 5
                   && st.toClient.frames[5] == LengthFrame(o.side.handler.length))
    ensures Wired(cfg, AfterClient(st, o, read))
  {
  }

  lemma ServerMainWires(cfg: Config, st: State, input: Input, o: ServerOutcome, read: nat)
    requires cfg.Valid() && Wired(cfg, st) && read <= 1 && (read == 1 ==> st.toServer.taken < |st.toServer.frames|)
    requires ServerInv(cfg, st.world.server, st.toServer.taken, |st.toClient.frames|)
    requires ServerMainNext(st.world.server, |st.world.client.pcs|, input) == Some(o)
    ensures Wired(cfg, AfterServer(st, o, read))
  {
    ServerMainOutput(cfg, st.world.server, |st.world.client.pcs|, input, o, st.toServer.taken, |st.toClient.frames|);
    ServerDelivers(cfg, st, o, read);
  }

  lemma ServerHandlerWires(cfg: Config, st: State, input: Input, o: ServerOutcome, read: nat)
    requires cfg.Valid() && Wired(cfg, st) && read <= 1
    requires ServerInv(cfg, st.world.server, st.toServer.taken, |st.toClient.frames|)
    requires ServerHandlerNext(cfg, st.world.server, input) == Some(o)
    requires read == 0 ==> input == Nothing
    requires read == 1 ==> st.toServer.taken < |st.toServer.frames|
                           && input == Received(st.toServer.frames[st.toServer.taken])
    requires st.toServer.taken >= 2 ==> |st.toClient.frames| >= 4
    ensures Wired(cfg, AfterServer(st, o, read))
  {
    ServerHandlerOutput(cfg, st.world.server, input, o, st.toServer.taken, |st.toClient.frames|);
    HandlerTransfer(cfg, st.world.server, input, o, st.toServer.taken, |st.toClient.frames|);
    ServerDelivers(cfg, st, o, read);
  }

  lemma ClientMainWires(cfg: Config, st: State, o: ClientOutcome)
    requires cfg.Valid() && Wired(cfg, st)
    requires ClientInv(cfg, st.world.client, st.toClient.taken, |st.toServer.frames|)
    requires ClientMainNext(cfg, st.world.client) == Some(o)
    ensures Wired(cfg, AfterClient(st, o, 0))
  {
    ClientMainOutput(cfg, st.world.client, o, st.toClient.taken, |st.toServer.frames|);
    ClientDelivers(cfg, st, o, 0);
  }

  lemma KeeperWires(cfg: Config, st: State, input: Input, o: ClientOutcome, read: nat)
    requires cfg.Valid() && Wired(cfg, st) && read <= 1
    requires ClientInv(cfg, st.world.client, st.toClient.taken, |st.toServer.frames|)
    requires ClientHandlerNext(cfg, st.world.client, input) == Some(o) && !st.world.client.exited
    requires read == 0 ==> input == Nothing
    requires read == 1 ==> st.toClient.taken < |st.toClient.frames|
                           && input == Received(st.toClient.frames[st.toClient.taken])
    ensures Wired(cfg, AfterClient(st, o, read))
  {
    var c := st.world.client;
    KeeperOutput(cfg, c, input, o, st.toClient.taken, |st.toServer.frames|);
    KeeperTransfer(cfg, c, input, o, st.toClient.taken, |st.toServer.frames|, c.chan.Pushed(), c.chan.Popped());
    ClientDelivers(cfg, st, o, read);
  }

  /** A step that neither reads nor writes, and starts no transfer of results, leaves the connection in order. */
  lemma QuietWires(cfg: Config, st: State, after: World)
    requires Wired(cfg, st) && after.garbled == st.world.garbled
    requires after.server.handler == st.world.server.handler
             || (!after.server.handler.HPutResults? && !after.server.handler.HGetResults?)
    requires after.client.handler == st.world.client.handler
             || (!after.client.handler.KPutResults? && !after.client.handler.KGetResults?)
    requires |after.server.pcs| == |st.world.server.pcs| && |after.client.pcs| == |st.world.client.pcs|
    requires |after.flight| == |st.world.flight| && |after.lost| == |st.world.lost|
    ensures Wired(cfg, st.(world := after))
  {
  }

  // ---------- every step of the session keeps the invariant ----------

  /** A server step in terms of its outcome. */
  lemma ServerStep(cfg: Config, st: State, a: Action, next: State) returns (o: ServerOutcome, read: nat)
    requires Step(cfg, st, a) == Some(next) && InputOf(cfg, st, a) != Garbage
    requires a.ServerMainStep? || a.ServerHandlerStep?
    ensures read == if Wants(st.world, a).NoRead? then 0 else 1
    ensures read == 1 ==> InputOf(cfg, st, a).Received?
    ensures next == AfterServer(st, o, read)
    ensures a.ServerMainStep? ==>
              ServerMainNext(st.world.server, |st.world.client.pcs|, InputOf(cfg, st, a)) == Some(o)
    ensures a.ServerHandlerStep? ==> ServerHandlerNext(cfg, st.world.server, InputOf(cfg, st, a)) == Some(o)
  {
    var e;
    e, read := Unfold(cfg, st, a, next);
    o := ServerOutcome(e.world.server, e.output);
  }

  lemma ClientStep(cfg: Config, st: State, a: Action, next: State) returns (o: ClientOutcome, read: nat)
    requires Step(cfg, st, a) == Some(next) && InputOf(cfg, st, a) != Garbage
    requires a.ClientMainStep? || a.ClientHandlerStep?
    ensures read == if Wants(st.world, a).NoRead? then 0 else 1
    ensures read == 1 ==> InputOf(cfg, st, a).Received?
    ensures next == AfterClient(st, o, read) && !st.world.client.exited
    ensures a.ClientMainStep? ==> ClientMainNext(cfg, st.world.client) == Some(o)
    ensures a.ClientHandlerStep? ==> ClientHandlerNext(cfg, st.world.client, InputOf(cfg, st, a)) == Some(o)
  {
    var e;
    e, read := Unfold(cfg, st, a, next);
    o := ClientOutcome(e.world.client, e.output);
  }

  /** A step that does not touch the connection. */
  lemma ServerQuietStep(cfg: Config, st: State, a: Action, next: State) returns (o: ServerOutcome)
    requires Step(cfg, st, a) == Some(next)
    requires a.ServerStreamStep? || a.ServerStreamFail? || a.ServerMainLeave? || a.ServerHandlerBroken?
    ensures next == st.(world := st.world.(server := o.side)) && o.output == []
    ensures a.ServerStreamStep? ==> ServerStreamNext(st.world.server, a.i) == Some(o)
    ensures a.ServerStreamFail? ==> ServerStreamFails(st.world.server, a.i) == Some(o)
    ensures a.ServerMainLeave? ==> ServerLeaves(st.world.server) == Some(o)
    ensures a.ServerHandlerBroken? ==> ServerHandlerBreaks(st.world.server, st.world.client.gone) == Some(o)
  {
    var e, read := Unfold(cfg, st, a, next);
    o := ServerOutcome(e.world.server, e.output);
  }

  lemma ClientQuietStep(cfg: Config, st: State, a: Action, next: State) returns (o: ClientOutcome)
    requires Step(cfg, st, a) == Some(next) && a.IsClientQuiet()
    ensures next == st.(world := st.world.(client := o.side)) && o.output == []
    ensures a.ClientStreamStep? ==> ClientStreamNext(cfg, st.world.client, a.i) == Some(o)
    ensures a.ClientStreamFail? ==> ClientStreamFails(cfg, st.world.client, a.i) == Some(o)
    ensures a.TimerFires? ==> TimerNext(st.world.client) == Some(o)
    ensures a.TimerLost? ==> TimerRaces(cfg, st.world.client) == Some(o)
    ensures a.ClientExits? ==> ExitNext(st.world.client) == Some(o)
  {
    var e, read := Unfold(cfg, st, a, next);
    o := ClientOutcome(e.world.client, e.output);
  }

  lemma DataStep(cfg: Config, st: State, a: Action, next: State)
    requires Step(cfg, st, a) == Some(next) && !a.IsControl()
    ensures next == st.(world := next.world) && DataNext(cfg, st.world, a) == Some(next.world)
  {
    var e, read := Unfold(cfg, st, a, next);
    assert e.output == [];
  }

  lemma ServerMainEffect(cfg: Config, st: State, input: Input, o: ServerOutcome, read: nat)
    requires Inv(cfg, st) && ServerMainNext(st.world.server, |st.world.client.pcs|, input) == Some(o)
    requires read == if st.world.server.main.SGetParams? then 1 else 0
    requires read == 1 ==> st.toServer.taken < |st.toServer.frames|
                           && input == Received(st.toServer.frames[st.toServer.taken])
    ensures Inv(cfg, AfterServer(st, o, read))
  {
    hide Wired, ServerInv, ClientInv, ServerMainNext;
    if read == 1 { ParamsFirst(cfg, st); }
    ServerMainWires(cfg, st, input, o, read);
    ServerMainInv(cfg, st.world.server, |st.world.client.pcs|, input, o, st.toServer.taken, |st.toClient.frames|);
  }

  lemma ServerMainKeeps(cfg: Config, st: State, next: State)
    requires Inv(cfg, st) && Step(cfg, st, ServerMainStep) == Some(next)
    ensures Inv(cfg, next)
  {
    hide Inv, Step, ServerMainNext;
    NoGarbage(cfg, st, ServerMainStep);
    var o, read := ServerStep(cfg, st, ServerMainStep, next);
    ServerMainEffect(cfg, st, InputOf(cfg, st, ServerMainStep), o, read);
  }

  /** What the server's handler finds when it reads. */
  lemma HandlerExpects(cfg: Config, st: State)
    requires Inv(cfg, st) && !HandlerWants(st.world.server).NoRead? && st.toServer.taken < |st.toServer.frames|
    ensures var f := st.toServer.frames[st.toServer.taken];
            ToServerKind(cfg, st.toServer.taken, f) && (f.ResultsFrame? ==> |f.bytes| <= |st.world.server.pcs|)
    ensures st.toServer.taken == 1 ==> |st.toClient.frames| >= 4
    ensures st.toServer.taken >= 2 ==> |st.toClient.frames| >= 4
  {
    Causality(cfg, st);
  }

  lemma HandlerReadEffect(cfg: Config, st: State, input: Input, o: ServerOutcome)
    requires Inv(cfg, st) && ServerHandlerNext(cfg, st.world.server, input) == Some(o)
    requires !HandlerWants(st.world.server).NoRead? && st.toServer.taken < |st.toServer.frames|
    requires input == Received(st.toServer.frames[st.toServer.taken])
    ensures Inv(cfg, AfterServer(st, o, 1))
  {
    hide Wired, ServerInv, ClientInv, ServerHandlerNext;
    HandlerExpects(cfg, st);
    ServerHandlerWires(cfg, st, input, o, 1);
    ServerHandlerInv(cfg, st.world.server, input, o, st.toServer.taken, |st.toClient.frames|);
  }

  lemma HandlerQuietEffect(cfg: Config, st: State, o: ServerOutcome)
    requires Inv(cfg, st) && ServerHandlerNext(cfg, st.world.server, Nothing) == Some(o)
    requires HandlerWants(st.world.server).NoRead?
    ensures Inv(cfg, AfterServer(st, o, 0))
  {
    hide Wired, ServerInv, ClientInv, ServerHandlerNext;
    Causality(cfg, st);
    ServerHandlerWires(cfg, st, Nothing, o, 0);
    ServerHandlerInv(cfg, st.world.server, Nothing, o, st.toServer.taken, |st.toClient.frames|);
  }

  lemma ServerHandlerEffect(cfg: Config, st: State, input: Input, o: ServerOutcome, read: nat)
    requires Inv(cfg, st) && ServerHandlerNext(cfg, st.world.server, input) == Some(o)
    requires read == if HandlerWants(st.world.server).NoRead? then 0 else 1
    requires read == 0 ==> input == Nothing
    requires read == 1 ==> st.toServer.taken < |st.toServer.frames|
                           && input == Received(st.toServer.frames[st.toServer.taken])
    ensures Inv(cfg, AfterServer(st, o, read))
  {
    if read == 0 {
      HandlerQuietEffect(cfg, st, o);
    } else {
      HandlerReadEffect(cfg, st, input, o);
    }
  }

  lemma ServerHandlerKeeps(cfg: Config, st: State, next: State)
    requires Inv(cfg, st) && Step(cfg, st, ServerHandlerStep) == Some(next)
    ensures Inv(cfg, next)
  {
    hide Inv, Step, ServerHandlerNext;
    NoGarbage(cfg, st, ServerHandlerStep);
    var o, read := ServerStep(cfg, st, ServerHandlerStep, next);
    ServerHandlerEffect(cfg, st, InputOf(cfg, st, ServerHandlerStep), o, read);
  }

  lemma ClientMainKeeps(cfg: Config, st: State, next: State)
    requires Inv(cfg, st) && Step(cfg, st, ClientMainStep) == Some(next)
    ensures Inv(cfg, next)
  {
    hide Wired, ServerInv, ClientInv, Step, ClientMainNext;
    var o, read := ClientStep(cfg, st, ClientMainStep, next);
    ClientMainWires(cfg, st, o);
    ClientMainInv(cfg, st.world.client, o, st.toClient.taken, |st.toServer.frames|);
  }

  /** What the client's handler finds when it reads. */
  lemma KeeperExpects(cfg: Config, st: State)
    requires Inv(cfg, st) && !KeeperWants(st.world.client).NoRead? && st.toClient.taken < |st.toClient.frames|
    ensures var f := st.toClient.frames[st.toClient.taken];
            ToClientKind(st.toClient.taken, f) && (f.ResultsFrame? ==> |f.bytes| <= |st.world.client.pcs|)
    ensures st.toClient.taken == 4 ==> EndSent(cfg, st.world.client)
  {
    Causality(cfg, st);
  }

  lemma KeeperReadKeeps(cfg: Config, st: State, input: Input, o: ClientOutcome)
    requires Inv(cfg, st) && ClientHandlerNext(cfg, st.world.client, input) == Some(o) && !st.world.client.exited
    requires !KeeperWants(st.world.client).NoRead? && st.toClient.taken < |st.toClient.frames|
    requires input == Received(st.toClient.frames[st.toClient.taken])
    ensures ClientInv(cfg, o.side, st.toClient.taken + 1, |st.toServer.frames| + |o.output|)
  {
    hide Wired, ServerInv, ClientInv, ClientHandlerNext;
    KeeperExpects(cfg, st);
    KeeperReadingInv(cfg, st.world.client, input, o, st.toClient.taken, |st.toServer.frames|);
  }

  /** A step of the client's handler that reads the frame it waits for. */
  lemma KeeperReadEffect(cfg: Config, st: State, input: Input, o: ClientOutcome)
    requires Inv(cfg, st) && ClientHandlerNext(cfg, st.world.client, input) == Some(o) && !st.world.client.exited
    requires !KeeperWants(st.world.client).NoRead? && st.toClient.taken < |st.toClient.frames|
    requires input == Received(st.toClient.frames[st.toClient.taken])
    ensures Inv(cfg, AfterClient(st, o, 1))
  {
    hide Wired, ServerInv, ClientInv, ClientHandlerNext;
    KeeperWires(cfg, st, input, o, 1);
    KeeperReadKeeps(cfg, st, input, o);
  }

  lemma KeeperQuietEffect(cfg: Config, st: State, o: ClientOutcome)
    requires Inv(cfg, st) && ClientHandlerNext(cfg, st.world.client, Nothing) == Some(o) && !st.world.client.exited
    requires KeeperWants(st.world.client).NoRead?
    ensures Inv(cfg, AfterClient(st, o, 0))
  {
    hide Wired, ServerInv, ClientInv, ClientHandlerNext;
    KeeperWires(cfg, st, Nothing, o, 0);
    KeeperInv(cfg, st.world.client, Nothing, o, st.toClient.taken, |st.toServer.frames|);
  }

  /** A step of the client's handler that reads nothing, or the frame it waits for. */
  lemma KeeperEffect(cfg: Config, st: State, input: Input, o: ClientOutcome, read: nat)
    requires Inv(cfg, st) && ClientHandlerNext(cfg, st.world.client, input) == Some(o) && !st.world.client.exited
    requires read == if KeeperWants(st.world.client).NoRead? then 0 else 1
    requires read == 0 ==> input == Nothing
    requires read == 1 ==> st.toClient.taken < |st.toClient.frames|
                           && input == Received(st.toClient.frames[st.toClient.taken])
    ensures Inv(cfg, AfterClient(st, o, read))
  {
    if read == 0 {
      KeeperQuietEffect(cfg, st, o);
    } else {
      KeeperReadEffect(cfg, st, input, o);
    }
  }

  lemma KeeperKeeps(cfg: Config, st: State, next: State)
    requires Inv(cfg, st) && Step(cfg, st, ClientHandlerStep) == Some(next)
    ensures Inv(cfg, next)
  {
    hide Inv, Step, ClientHandlerNext;
    NoGarbage(cfg, st, ClientHandlerStep);
    var o, read := ClientStep(cfg, st, ClientHandlerStep, next);
    KeeperEffect(cfg, st, InputOf(cfg, st, ClientHandlerStep), o, read);
  }

  lemma ServerStreamKeeps(cfg: Config, st: State, i: nat, o: ServerOutcome)
    requires cfg.Valid() && ServerInv(cfg, st.world.server, st.toServer.taken, |st.toClient.frames|)
    requires ServerStreamNext(st.world.server, i) == Some(o)
    ensures ServerInv(cfg, o.side, st.toServer.taken, |st.toClient.frames|)
    ensures |o.side.pcs| == |st.world.server.pcs| && o.side.handler == st.world.server.handler
  {
    if st.world.server.pcs[i].Testing? {
      ServerStreamSeesDone(cfg, st.world.server, i, o, st.toServer.taken, |st.toClient.frames|);
    } else {
      ServerStreamPosts(cfg, st.world.server, i, o, st.toServer.taken, |st.toClient.frames|);
    }
  }

  lemma ServerQuietKeeps(cfg: Config, st: State, a: Action, next: State)
    requires Inv(cfg, st) && Step(cfg, st, a) == Some(next)
    requires a.ServerStreamStep? || a.ServerStreamFail? || a.ServerMainLeave? || a.ServerHandlerBroken?
    ensures Inv(cfg, next)
  {
    hide Wired, ServerInv, ClientInv, Step;
    var o := ServerQuietStep(cfg, st, a, next);
    var s, read, sent := st.world.server, st.toServer.taken, |st.toClient.frames|;
    QuietWires(cfg, st, next.world);
    if a.ServerStreamStep? {
      ServerStreamKeeps(cfg, st, a.i, o);
    } else if a.ServerStreamFail? {
      ServerStreamFailInv(cfg, s, a.i, o, read, sent);
    } else if a.ServerMainLeave? {
      ServerLeaveInv(cfg, s, o, read, sent);
    } else {
      Causality(cfg, st);
      HandlerBreaks(cfg, s, st.world.client.gone, o, read, sent);
    }
  }

  lemma ClientStreamKeeps(cfg: Config, st: State, i: nat, o: ClientOutcome)
    requires cfg.Valid() && ClientInv(cfg, st.world.client, st.toClient.taken, |st.toServer.frames|)
    requires ClientStreamNext(cfg, st.world.client, i) == Some(o)
    ensures ClientInv(cfg, o.side, st.toClient.taken, |st.toServer.frames|)
    ensures |o.side.pcs| == |st.world.client.pcs| && o.side.handler == st.world.client.handler
  {
    if st.world.client.pcs[i].Testing? {
      ClientStreamStops(cfg, st.world.client, i, o, st.toClient.taken, |st.toServer.frames|);
    } else {
      ClientStreamPosts(cfg, st.world.client, i, o, st.toClient.taken, |st.toServer.frames|);
    }
  }

  lemma TimerInv(cfg: Config, c: Client, o: ClientOutcome, read: nat, sent: nat)
    requires ClientInv(cfg, c, read, sent) && TimerNext(c) == Some(o)
    ensures ClientInv(cfg, o.side, read, sent)
  {
    ClientCounts(cfg, c, o.side, read, sent);
  }

  lemma ClientQuietKeeps(cfg: Config, st: State, a: Action, next: State)
    requires Inv(cfg, st) && Step(cfg, st, a) == Some(next)
    requires a.IsClientQuiet()
    ensures Inv(cfg, next)
  {
    hide Wired, ServerInv, ClientInv, Step;
    var o := ClientQuietStep(cfg, st, a, next);
    var c, read, sent := st.world.client, st.toClient.taken, |st.toServer.frames|;
    QuietWires(cfg, st, next.world);
    if a.ClientStreamStep? {
      ClientStreamKeeps(cfg, st, a.i, o);
    } else if a.ClientStreamFail? {
      ClientStreamFailInv(cfg, c, a.i, o, read, sent);
    } else if a.TimerFires? {
      TimerInv(cfg, c, o, read, sent);
    } else if a.TimerLost? {
      TimerRaceInv(cfg, c, o, read, sent);
    } else {
      ClientExitInv(cfg, c, o, read, sent);
    }
  }

  lemma DataKeeps(cfg: Config, st: State, a: Action, next: State)
    requires Inv(cfg, st) && !a.IsControl() && Step(cfg, st, a) == Some(next)
    ensures Inv(cfg, next)
  {
    hide Wired, Step;
    DataStep(cfg, st, a, next);
    var w := next.world;
    DataInv(cfg, st.world, a, w);
    ClientCounts(cfg, st.world.client, w.client, st.toClient.taken, |st.toServer.frames|);
    ServerCounts(cfg, st.world.server, w.server, st.toServer.taken, |st.toClient.frames|);
    QuietWires(cfg, st, w);
  }

  lemma ClientStepKeeps(cfg: Config, st: State, a: Action, next: State)
    requires Inv(cfg, st) && Step(cfg, st, a) == Some(next)
    requires a.ClientMainStep? || a.ClientHandlerStep? || a.IsClientQuiet()
    ensures Inv(cfg, next)
  {
    if a.ClientMainStep? {
      ClientMainKeeps(cfg, st, next);
    } else if a.ClientHandlerStep? {
      KeeperKeeps(cfg, st, next);
    } else {
      ClientQuietKeeps(cfg, st, a, next);
    }
  }

  lemma ServerStepKeeps(cfg: Config, st: State, a: Action, next: State)
    requires Inv(cfg, st) && Step(cfg, st, a) == Some(next)
    requires a.ServerMainStep? || a.ServerHandlerStep? || a.ServerStreamStep? || a.ServerStreamFail?
             || a.ServerMainLeave? || a.ServerHandlerBroken?
    ensures Inv(cfg, next)
  {
    if a.ServerMainStep? {
      ServerMainKeeps(cfg, st, next);
    } else if a.ServerHandlerStep? {
      ServerHandlerKeeps(cfg, st, next);
    } else {
      ServerQuietKeeps(cfg, st, a, next);
    }
  }

  /** The invariant is inductive. */
  lemma StepKeepsInv(cfg: Config, st: State, a: Action, next: State)
    requires Inv(cfg, st) && Step(cfg, st, a) == Some(next)
    ensures Inv(cfg, next)
  {
    if !a.IsControl() {
      DataKeeps(cfg, st, a, next);
    } else if a.IsClient() || a.ClientExits? {
      ClientStepKeeps(cfg, st, a, next);
    } else {
      ServerStepKeeps(cfg, st, a, next);
    }
  }

  lemma {:induction false} RunKeepsInv(cfg: Config, st: State, acts: seq<Action>, target: State)
    requires Inv(cfg, st) && Run(cfg, st, acts) == Some(target)
    ensures Inv(cfg, target)
    decreases |acts|
  {
    hide Inv, Step;
    if acts != [] {
      var next := Step(cfg, st, acts[0]).value;
      StepKeepsInv(cfg, st, acts[0], next);
      RunKeepsInv(cfg, next, acts[1..], target);
    }
  }

  /** The invariant holds in every reachable state. */
  lemma ReachableInv(cfg: Config, st: State)
    requires cfg.Valid() && Reachable(cfg, st)
    ensures Inv(cfg, st)
  {
    var prior, sender, acts :| Run(cfg, Initial(cfg, prior, sender), acts) == Some(st);
    InitialInv(cfg, prior, sender);
    RunKeepsInv(cfg, Initial(cfg, prior, sender), acts, st);
  }
}
