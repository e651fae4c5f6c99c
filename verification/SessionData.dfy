/** The data plane of a session: no byte is lost between the counters of the two sides, and the counts each side
    reports at the result exchange are final. */
module SessionData {
  import opened States
  import opened Wrappers
  import opened Words
  import opened Session
  import opened SessionInvariant
  import opened SessionSteps
  import opened Sums

  /** Bytes written on stream `i`: by the client, or by the server in reverse mode. */
  function Written(cfg: Config, w: World, i: nat): nat
    requires w.server.data.Sized(|w.server.pcs|) && w.client.data.Sized(|w.client.pcs|)
  {
    if cfg.params.reverse then (if i < |w.server.pcs| then w.server.data.sent[i] else 0)
    else (if i < |w.client.pcs| then w.client.data.sent[i] else 0)
  }

  /** Bytes of stream `i` read while the reader was in TEST_RUNNING. */
  function Counted(cfg: Config, w: World, i: nat): nat
    requires w.server.data.Sized(|w.server.pcs|) && w.client.data.Sized(|w.client.pcs|)
  {
    if cfg.params.reverse then (if i < |w.client.pcs| then w.client.data.received[i] else 0)
    else (if i < |w.server.pcs| then w.server.data.received[i] else 0)
  }

  ghost predicate Sizes(cfg: Config, w: World) {
    && w.server.data.Sized(|w.server.pcs|) && w.client.data.Sized(|w.client.pcs|)
    && |w.flight| == |w.lost| == cfg.N() && |w.server.pcs| <= |w.client.pcs| <= cfg.N()
  }

  /** Every byte written is in flight, counted, or was read too late to be counted. */
  ghost predicate Balanced(cfg: Config, w: World) {
    && Sizes(cfg, w)
    && forall i: nat :: i < cfg.N() ==> Written(cfg, w, i) == w.flight[i] + Counted(cfg, w, i) + w.lost[i]
  }

  /** The results a side is about to write, or has written, are the words of its current counts. */
  ghost predicate Reported(cfg: Config, st: State) {
    var s, c := st.world.server, st.world.client;
    && (s.handler.HPutResults? ==> s.handler.results == Low(s.data.Active(s.sender)))
    && (|st.toClient.frames| >= 7 ==> st.toClient.frames[6] == ResultsFrame(Low(s.data.Active(s.sender))))
    && (c.handler.KPutResults? ==> c.handler.results == Low(c.data.Active(c.sender)))
    && (|st.toServer.frames| >= 4 ==> st.toServer.frames[3] == ResultsFrame(Low(c.data.Active(c.sender))))
  }

  /** A side that has read its peer's results holds the words of the peer's counts. */
  ghost predicate Imported(cfg: Config, st: State) {
    var s, c := st.world.server, st.world.client;
    && (st.toServer.taken >= 4 ==> s.data.Active(!s.sender) == Low(c.data.Active(c.sender)))
    && (st.toClient.taken >= 7 ==> c.data.Active(!c.sender) == Low(s.data.Active(s.sender)))
  }

  predicate AtMost(a: seq<nat>, b: seq<nat>) { |a| == |b| && forall i :: 0 <= i < |a| ==> a[i] <= b[i] }

  /** The bytes of a side's intervals and of the one under way are what it has moved. */
  ghost predicate Summed(intervals: seq<seq<nat>>, interval: seq<nat>, active: seq<nat>) {
    && |intervals| == |interval| == |active|
    && forall i :: 0 <= i < |active| ==> Sum(intervals[i]) + interval[i] == active[i]
  }

  /** The bytes of each stream's intervals. */
  function IntervalSums(intervals: seq<seq<nat>>): seq<nat> {
    seq(|intervals|, i requires 0 <= i < |intervals| => Sum(intervals[i]))
  }

  /** Once a side has made its last statistics pass, nothing moves any more; but in reverse mode the server may still
      write between that pass and the closing of its streams. */
  ghost predicate Recorded(cfg: Config, st: State) {
    var s, c := st.world.server, st.world.client;
    && Summed(s.data.intervals, s.data.interval, s.data.Active(cfg.params.reverse))
    && Summed(c.data.intervals, c.data.interval, c.data.Active(c.sender))
    && (EndAssigned(cfg, c) || c.main == CSend(Assign) ==> AllZero(c.data.interval))
    && (st.toServer.taken >= 2 && !s.handler.HMarkDone? && !s.handler.HStats? && !cfg.params.reverse ==>
          AllZero(s.data.interval))
  }

  ghost predicate Accounts(cfg: Config, st: State) {
    Balanced(cfg, st.world) && Reported(cfg, st) && Imported(cfg, st) && Recorded(cfg, st)
  }

  /** What the accounts need to know of the protocol: who can still move data, and who is where. */
  ghost predicate Frozen(cfg: Config, st: State) {
    var s, c := st.world.server, st.world.client;
    && Sizes(cfg, st.world)
    && c.sender == !cfg.params.reverse
    && (st.toServer.taken >= 1 ==> s.sender == cfg.params.reverse && s.settings == cfg.params)
    && (s.handler.HIdle? <==> st.toServer.taken == 0) && (st.toServer.taken == 0 ==> |s.pcs| == 0)
    && (forall i :: 0 <= i < |s.pcs| ==> s.data.roles[i] == cfg.params.reverse)
    && (forall i :: 0 <= i < |c.pcs| ==> c.data.roles[i] == !cfg.params.reverse)
    && (|st.toServer.frames| >= 4 || c.handler.KPutLength? || c.handler.KPutResults? || EndAssigned(cfg, c)
        || c.main == CSend(Assign) ==>
          |c.pcs| == cfg.N() && forall i :: 0 <= i < |c.pcs| ==> c.pcs[i] == Finished)
    && (|st.toClient.frames| >= 6 || s.handler.HPutLength? || s.handler.HPutResults? || st.toServer.taken >= 3 ==>
          s.closed && |s.pcs| == cfg.N())
    && (st.toServer.taken >= 2 ==> s.state != TEST_RUNNING && |s.pcs| == cfg.N())
    && st.toServer.taken <= |st.toServer.frames| && st.toClient.taken <= |st.toClient.frames|
    && (s.handler.HRead? ==> st.toServer.taken == 1 || st.toServer.taken == 4)
  }

  /** The client reports, and assigns its TEST_END, when its streams have all posted theirs. */
  lemma ClientIsThrough(cfg: Config, st: State)
    requires Inv(cfg, st)
    ensures var c := st.world.client;
            |st.toServer.frames| >= 4 || c.handler.KPutLength? || c.handler.KPutResults? || EndAssigned(cfg, c)
            || c.main == CSend(Assign) ==>
              |c.pcs| == cfg.N() && forall i :: 0 <= i < |c.pcs| ==> c.pcs[i] == Finished
  {
    Causality(cfg, st);
    ClientFacts(cfg, st.world.client, st.toClient.taken, |st.toServer.frames|);
    CountBounds(st.world.client.pcs, Finished, |st.world.client.pcs|);
  }

  lemma InvFreezes(cfg: Config, st: State)
    requires Inv(cfg, st)
    ensures Frozen(cfg, st) && cfg.N() >= 1
  {
    ClientIsThrough(cfg, st);
    Causality(cfg, st);
  }

  // ---------- data actions ----------

  lemma SendsBalance(cfg: Config, w: World, a: Action, after: World)
    requires Balanced(cfg, w) && (a.ClientSends? || a.ServerSends?) && DataNext(cfg, w, a) == Some(after)
    requires forall i :: 0 <= i < |w.server.pcs| ==> w.server.data.roles[i] == cfg.params.reverse
    requires forall i :: 0 <= i < |w.client.pcs| ==> w.client.data.roles[i] == !cfg.params.reverse
    ensures Balanced(cfg, after)
  {
  }

  lemma ServerReceivesBalance(cfg: Config, w: World, i: nat, n: nat, after: World)
    requires Balanced(cfg, w) && DataNext(cfg, w, ServerReceives(i, n)) == Some(after)
    requires forall k :: 0 <= k < |w.server.pcs| ==> w.server.data.roles[k] == cfg.params.reverse
    ensures Balanced(cfg, after)
  {
    hide DataNext;
    ServerReceivesFrame(cfg, w, i, n, after);
    forall k: nat | k < cfg.N()
      ensures Written(cfg, after, k) == after.flight[k] + Counted(cfg, after, k) + after.lost[k]
    {
      assert Written(cfg, w, k) == w.flight[k] + Counted(cfg, w, k) + w.lost[k];
    }
  }

  lemma ClientReceivesBalance(cfg: Config, w: World, i: nat, n: nat, after: World)
    requires Balanced(cfg, w) && DataNext(cfg, w, ClientReceives(i, n)) == Some(after)
    requires forall k :: 0 <= k < |w.client.pcs| ==> w.client.data.roles[k] == !cfg.params.reverse
    ensures Balanced(cfg, after)
  {
    hide DataNext;
    ClientReceivesFrame(cfg, w, i, n, after);
    forall k: nat | k < cfg.N()
      ensures Written(cfg, after, k) == after.flight[k] + Counted(cfg, after, k) + after.lost[k]
    {
      assert Written(cfg, w, k) == w.flight[k] + Counted(cfg, w, k) + w.lost[k];
    }
  }

  /** Nothing moves any more on a side that has reported; before that, its interval sums only fall behind. */
  lemma ClientMoves(cfg: Config, st: State, a: Action, next: State)
    requires Frozen(cfg, st) && Accounts(cfg, st)
    requires a.ClientSends? && DataNext(cfg, st.world, a) == Some(next.world)
    requires next == st.(world := next.world)
    ensures Reported(cfg, next) && Imported(cfg, next) && Recorded(cfg, next)
  {
  }

  lemma ClientCollects(cfg: Config, st: State, i: nat, n: nat, next: State)
    requires Frozen(cfg, st) && Accounts(cfg, st)
    requires DataNext(cfg, st.world, ClientReceives(i, n)) == Some(next.world)
    requires next == st.(world := next.world)
    ensures Reported(cfg, next) && Imported(cfg, next) && Recorded(cfg, next)
  {
    hide DataNext, Balanced;
    ClientReceivesFrame(cfg, st.world, i, n, next.world);
  }

  lemma ServerMoves(cfg: Config, st: State, a: Action, next: State)
    requires Frozen(cfg, st) && Accounts(cfg, st)
    requires (a.ServerSends? || a.ServerReceives?) && DataNext(cfg, st.world, a) == Some(next.world)
    requires next == st.(world := next.world)
    ensures Reported(cfg, next) && Imported(cfg, next) && Recorded(cfg, next)
  {
  }

  /** A statistics pass moves the bytes of the interval under way into the results. */
  lemma RecordSums(d: Counters, active: seq<nat>)
    requires Summed(d.intervals, d.interval, active)
    ensures Summed(d.Record().intervals, d.Record().interval, active) && AllZero(d.Record().interval)
    ensures d.Record() == d.(intervals := d.Record().intervals, interval := d.Record().interval)
  {
    forall i | 0 <= i < |active| ensures Sum(d.Record().intervals[i]) + d.Record().interval[i] == active[i] {
      SumAppend(d.intervals[i], d.interval[i]);
      assert Sum(d.intervals[i]) + d.interval[i] == active[i];
    }
  }

  lemma ClientStatsPasses(cfg: Config, st: State, next: State)
    requires Accounts(cfg, st)
    requires next == st.(world := st.world.(client := st.world.client.(data := st.world.client.data.Record())))
    ensures Accounts(cfg, next)
  {
    RecordSums(st.world.client.data, st.world.client.data.Active(st.world.client.sender));
  }

  lemma ServerStatsPasses(cfg: Config, st: State, next: State)
    requires Accounts(cfg, st)
    requires next == st.(world := st.world.(server := st.world.server.(data := st.world.server.data.Record())))
    ensures Accounts(cfg, next)
  {
    RecordSums(st.world.server.data, st.world.server.data.Active(cfg.params.reverse));
  }

  /** Going around a loop and moving the throttle count nothing. */
  lemma TurnsAccounts(cfg: Config, st: State, a: Action, next: State)
    requires Frozen(cfg, st) && Accounts(cfg, st)
    requires (a.ClientLoops? || a.ServerLoops? || a.ClientGate? || a.ServerGate?)
    requires DataNext(cfg, st.world, a) == Some(next.world) && next == st.(world := next.world)
    ensures Accounts(cfg, next)
  {
    assert forall i: nat | i < cfg.N() ::
        Written(cfg, next.world, i) == Written(cfg, st.world, i)
        && Counted(cfg, next.world, i) == Counted(cfg, st.world, i);
  }

  lemma DataAccounts(cfg: Config, st: State, a: Action, next: State)
    requires Frozen(cfg, st) && Accounts(cfg, st) && !a.IsControl() && Step(cfg, st, a) == Some(next)
    ensures Accounts(cfg, next)
  {
    hide Step, Balanced, Reported, Imported, Recorded;
    DataStep(cfg, st, a, next);
    if a.ClientSends? {
      SendsBalance(cfg, st.world, a, next.world);
      ClientMoves(cfg, st, a, next);
    } else if a.ClientReceives? {
      ClientReceivesBalance(cfg, st.world, a.i, a.n, next.world);
      ClientCollects(cfg, st, a.i, a.n, next);
    } else if a.ServerSends? {
      SendsBalance(cfg, st.world, a, next.world);
      ServerMoves(cfg, st, a, next);
    } else if a.ServerReceives? {
      ServerReceivesBalance(cfg, st.world, a.i, a.n, next.world);
      ServerMoves(cfg, st, a, next);
    } else if a.ClientStatsPass? {
      ClientStatsPasses(cfg, st, next);
    } else if a.ServerStatsPass? {
      ServerStatsPasses(cfg, st, next);
    } else {
      TurnsAccounts(cfg, st, a, next);
    }
  }

  // ---------- control actions ----------

  /** A server step that leaves the counters alone and neither starts nor ends a transfer of results. */
  lemma ServerSame(cfg: Config, st: State, o: ServerOutcome, read: nat)
    requires Accounts(cfg, st)
    requires o.side.data == st.world.server.data && |o.side.pcs| == |st.world.server.pcs|
    requires o.side.sender == st.world.server.sender || (|o.side.pcs| == 0 && |st.toClient.frames| <= 5)
    requires o.side.handler == st.world.server.handler || !o.side.handler.HPutResults?
    requires o.side.handler.HPutResults? ==> o.side.sender == st.world.server.sender
    requires |o.output| <= 1 && (|o.output| == 1 ==> |st.toClient.frames| != 6)
    requires st.toServer.taken + read >= 4 ==> st.toServer.taken >= 4 && o.side.sender == st.world.server.sender
    requires st.toServer.taken + read >= 2 && !o.side.handler.HMarkDone? && !o.side.handler.HStats? ==>
               st.toServer.taken >= 2 && !st.world.server.handler.HMarkDone? && !st.world.server.handler.HStats?
    requires st.toClient.taken >= 7 ==> o.side.sender == st.world.server.sender
    ensures Accounts(cfg, AfterServer(st, o, read))
  {
    var next := AfterServer(st, o, read);
    assert forall i: nat | i < cfg.N() ::
        Written(cfg, next.world, i) == Written(cfg, st.world, i)
        && Counted(cfg, next.world, i) == Counted(cfg, st.world, i);
  }

  lemma ClientSame(cfg: Config, st: State, o: ClientOutcome, read: nat)
    requires Accounts(cfg, st)
    requires o.side.data == st.world.client.data && |o.side.pcs| == |st.world.client.pcs|
    requires o.side.sender == st.world.client.sender
    requires o.side.handler == st.world.client.handler || !o.side.handler.KPutResults?
    requires |o.output| <= 1 && (|o.output| == 1 ==> |st.toServer.frames| != 3)
    requires st.toClient.taken + read >= 7 ==> st.toClient.taken >= 7
    requires EndAssigned(cfg, o.side) || o.side.main == CSend(Assign) ==>
               EndAssigned(cfg, st.world.client) || st.world.client.main == CSend(Assign)
    ensures Accounts(cfg, AfterClient(st, o, read))
  {
    var next := AfterClient(st, o, read);
    assert forall i: nat | i < cfg.N() ::
        Written(cfg, next.world, i) == Written(cfg, st.world, i)
        && Counted(cfg, next.world, i) == Counted(cfg, st.world, i);
  }

  lemma ServerAccepted(cfg: Config, st: State, input: Input, o: ServerOutcome)
    requires Frozen(cfg, st) && Accounts(cfg, st) && |o.side.pcs| <= cfg.N() && st.toServer.taken == 1
    requires st.world.server.main.SAccept? && |o.side.pcs| == |st.world.server.pcs| + 1 && |st.toClient.frames| <= 5
    requires ServerMainNext(st.world.server, |st.world.client.pcs|, input) == Some(o)
    ensures Accounts(cfg, AfterServer(st, o, 0))
  {
  }

  lemma ServerMainFrame(s: Server, connected: nat, input: Input, o: ServerOutcome)
    requires ServerMainNext(s, connected, input) == Some(o)
    ensures |o.side.pcs| == |s.pcs| || (s.main.SAccept? && |o.side.pcs| == |s.pcs| + 1)
    ensures |o.side.pcs| == |s.pcs| ==> o.side.data == s.data
    ensures !s.main.SGetParams? ==> o.side.sender == s.sender && o.side.handler == s.handler
    ensures s.main.SGetParams? ==> o.side.handler.HRead?
  {
  }

  lemma ServerMainMoves(cfg: Config, st: State, input: Input, o: ServerOutcome, read: nat)
    requires Frozen(cfg, st) && Accounts(cfg, st) && |o.output| <= 1 && (|o.output| == 1 ==> |st.toClient.frames| <= 3)
    requires read == if st.world.server.main.SGetParams? then 1 else 0
    requires st.world.server.main.SGetParams? ==>
               st.world.server.handler.HIdle? && |st.toClient.frames| == 1 && st.toClient.taken <= 1
    requires st.world.server.main.SAccept? ==>
               |o.side.pcs| <= cfg.N() && st.toServer.taken == 1 && |st.toClient.frames| == 2
    requires ServerMainNext(st.world.server, |st.world.client.pcs|, input) == Some(o)
    ensures Accounts(cfg, AfterServer(st, o, read))
  {
    ServerMainFrame(st.world.server, |st.world.client.pcs|, input, o);
    if |o.side.pcs| == |st.world.server.pcs| {
      ServerSame(cfg, st, o, read);
    } else {
      ServerAccepted(cfg, st, input, o);
    }
  }

  /** The handler's last statistics pass. */
  lemma HandlerRecords(cfg: Config, st: State, o: ServerOutcome)
    requires Frozen(cfg, st) && Accounts(cfg, st) && st.world.server.handler.HStats? && st.toServer.taken == 2
    requires ServerHandlerNext(cfg, st.world.server, Nothing) == Some(o)
    ensures Accounts(cfg, AfterServer(st, o, 0))
  {
  }

  lemma HandlerImports(cfg: Config, st: State, o: ServerOutcome)
    requires Frozen(cfg, st) && Accounts(cfg, st) && st.world.server.handler.HGetResults?
    requires st.toServer.taken == 3 < |st.toServer.frames| && |st.toClient.frames| <= 5
    requires ServerHandlerNext(cfg, st.world.server, Received(st.toServer.frames[3])) == Some(o)
    ensures Accounts(cfg, AfterServer(st, o, 1))
  {
    var s := st.world.server;
    assert |s.data.sent| == |st.world.client.data.sent|;
  }

  lemma HandlerReports(cfg: Config, st: State, o: ServerOutcome)
    requires Frozen(cfg, st) && Accounts(cfg, st)
             && (st.world.server.handler.HPutLength? || st.world.server.handler.HPutResults?)
    requires |st.toClient.frames| == (if st.world.server.handler.HPutLength? then 5 else 6) && st.toServer.taken == 4
    requires ServerHandlerNext(cfg, st.world.server, Nothing) == Some(o)
    ensures Accounts(cfg, AfterServer(st, o, 0))
  {
    var a := st.world.server.data.Active(st.world.server.sender);
    assert |a| == cfg.N() && Report(cfg.N(), a) == Low(a);
  }

  lemma HandlerFrame(cfg: Config, s: Server, input: Input, o: ServerOutcome)
    requires ServerHandlerNext(cfg, s, input) == Some(o)
    requires !s.handler.HStats? && !s.handler.HGetResults? && !s.handler.HPutLength? && !s.handler.HPutResults?
    ensures o.side.data == s.data && o.side.pcs == s.pcs && o.side.sender == s.sender && !o.side.handler.HPutResults?
    ensures o.side.handler.HMarkDone? ==> s.handler.HRead?
    ensures o.side.handler.HStats? ==> s.handler.HMarkDone?
    ensures s.handler.HMarkDone? ==> o.side.handler.HStats?
  {
    match s.handler
    case HRead =>
    case HSend(_, _) =>
    case _ =>
  }

  lemma HandlerMoves(cfg: Config, st: State, input: Input, o: ServerOutcome, read: nat)
    requires Frozen(cfg, st) && Accounts(cfg, st) && read <= 1
    requires |o.output| <= 1 && (|o.output| == 1 ==> |st.toClient.frames| != 6)
    requires !st.world.server.handler.HStats? && !st.world.server.handler.HGetResults?
             && !st.world.server.handler.HPutLength? && !st.world.server.handler.HPutResults?
    requires st.world.server.handler.HGetLength? ==> st.toServer.taken == 2
    requires read == 1 ==> st.world.server.handler.HRead? || st.world.server.handler.HGetLength?
    requires read == 1 && st.world.server.handler.HRead? ==>
               input.Received? && ToServerKind(cfg, st.toServer.taken, input.frame)
    requires st.world.server.handler.HRead? ==> read == 1
    requires ServerHandlerNext(cfg, st.world.server, input) == Some(o)
    ensures Accounts(cfg, AfterServer(st, o, read))
  {
    hide Accounts;
    HandlerFrame(cfg, st.world.server, input, o);
    ServerSame(cfg, st, o, read);
  }

  lemma ServerMainAccounts(cfg: Config, st: State, next: State)
    requires Inv(cfg, st) && Accounts(cfg, st) && Step(cfg, st, ServerMainStep) == Some(next)
    ensures Accounts(cfg, next)
  {
    hide Accounts, Step, ServerMainNext;
    InvFreezes(cfg, st);
    NoGarbage(cfg, st, ServerMainStep);
    var input := InputOf(cfg, st, ServerMainStep);
    var o, read := ServerStep(cfg, st, ServerMainStep, next);
    ServerMainOutput(cfg, st.world.server, |st.world.client.pcs|, input, o, st.toServer.taken, |st.toClient.frames|);
    ServerMainMoves(cfg, st, input, o, read);
  }

  lemma HandlerEffectAccounts(cfg: Config, st: State, input: Input, o: ServerOutcome, read: nat)
    requires Inv(cfg, st) && Accounts(cfg, st) && ServerHandlerNext(cfg, st.world.server, input) == Some(o)
    requires read == if HandlerWants(st.world.server).NoRead? then 0 else 1
    requires read == 0 ==> input == Nothing
    requires read == 1 ==> st.toServer.taken < |st.toServer.frames|
                           && input == Received(st.toServer.frames[st.toServer.taken])
    ensures Accounts(cfg, AfterServer(st, o, read))
  {
    hide Accounts, ServerHandlerNext;
    InvFreezes(cfg, st);
    Causality(cfg, st);
    ServerHandlerOutput(cfg, st.world.server, input, o, st.toServer.taken, |st.toClient.frames|);
    var h := st.world.server.handler;
    if h.HStats? {
      HandlerRecords(cfg, st, o);
    } else if h.HGetResults? {
      HandlerImports(cfg, st, o);
    } else if h.HPutLength? || h.HPutResults? {
      HandlerReports(cfg, st, o);
    } else {
      HandlerMoves(cfg, st, input, o, read);
    }
  }

  lemma ServerHandlerAccounts(cfg: Config, st: State, next: State)
    requires Inv(cfg, st) && Accounts(cfg, st) && Step(cfg, st, ServerHandlerStep) == Some(next)
    ensures Accounts(cfg, next)
  {
    hide Inv, Accounts, Step, ServerHandlerNext;
    NoGarbage(cfg, st, ServerHandlerStep);
    var o, read := ServerStep(cfg, st, ServerHandlerStep, next);
    HandlerEffectAccounts(cfg, st, InputOf(cfg, st, ServerHandlerStep), o, read);
  }

  /** The client's last statistics pass. */
  lemma ClientRecords(cfg: Config, st: State, o: ClientOutcome)
    requires Frozen(cfg, st) && Accounts(cfg, st) && st.world.client.main.CStats?
    requires ClientMainNext(cfg, st.world.client) == Some(o) && cfg.N() >= 1
    ensures Accounts(cfg, AfterClient(st, o, 0))
  {
    var next := AfterClient(st, o, 0);
    assert forall i: nat | i < cfg.N() ::
        Written(cfg, next.world, i) == Written(cfg, st.world, i)
        && Counted(cfg, next.world, i) == Counted(cfg, st.world, i);
  }

  lemma ClientMainFrame(cfg: Config, c: Client, o: ClientOutcome)
    requires ClientMainNext(cfg, c) == Some(o) && !c.main.CStats?
    ensures |o.side.pcs| == |c.pcs| && o.side.data == c.data && o.side.sender == c.sender && o.side.handler == c.handler
  {
    match c.main
    case CLoop =>
    case _ =>
  }

  /** Only the last statistics pass leads to the assignment of TEST_END. */
  lemma ClientEndFrame(cfg: Config, c: Client, o: ClientOutcome)
    requires ClientMainNext(cfg, c) == Some(o) && !c.main.CStats?
    ensures EndAssigned(cfg, o.side) || o.side.main == CSend(Assign) ==> EndAssigned(cfg, c) || c.main == CSend(Assign)
  {
  }

  lemma ClientMainMoves(cfg: Config, st: State, o: ClientOutcome)
    requires Frozen(cfg, st) && Accounts(cfg, st) && |o.output| <= 1 && (|o.output| == 1 ==> |st.toServer.frames| == 1)
    requires ClientMainNext(cfg, st.world.client) == Some(o) && cfg.N() >= 1
    ensures Accounts(cfg, AfterClient(st, o, 0))
  {
    if st.world.client.main.CStats? {
      ClientRecords(cfg, st, o);
    } else {
      ClientMainFrame(cfg, st.world.client, o);
      ClientEndFrame(cfg, st.world.client, o);
      ClientSame(cfg, st, o, 0);
    }
  }

  lemma KeeperConnectsAccounts(cfg: Config, st: State, o: ClientOutcome)
    requires Frozen(cfg, st) && Accounts(cfg, st) && st.world.client.handler.KConnect?
            && |st.world.client.pcs| < cfg.N()
    requires st.toClient.taken == 2 && |st.toServer.frames| == 1 && |st.toClient.frames| <= 2
    requires ClientHandlerNext(cfg, st.world.client, Nothing) == Some(o)
    ensures Accounts(cfg, AfterClient(st, o, 0))
  {
  }

  lemma KeeperImportFrame(cfg: Config, c: Client, r: seq<uint64>, o: ClientOutcome)
    requires c.handler.KGetResults? && ClientHandlerNext(cfg, c, Received(ResultsFrame(r))) == Some(o) && |r| <= |c.pcs|
    ensures o == ClientOutcome(c.(data := c.data.Import(c.sender, r), handler := KCheck), [])
  {
  }

  /** What is imported is not what a side counts itself. */
  lemma KeeperImportBalance(cfg: Config, w: World, r: seq<uint64>, side: Client)
    requires Balanced(cfg, w) && w.client.sender == !cfg.params.reverse
    requires side == w.client.(data := w.client.data.Import(w.client.sender, r), handler := KCheck)
    ensures Balanced(cfg, w.(client := side))
  {
    forall i: nat | i < cfg.N()
      ensures var after := w.(client := side);
              Written(cfg, after, i) == after.flight[i] + Counted(cfg, after, i) + after.lost[i]
    {
      assert Written(cfg, w, i) == w.flight[i] + Counted(cfg, w, i) + w.lost[i];
    }
  }

  lemma KeeperImports(cfg: Config, st: State, o: ClientOutcome)
    requires Frozen(cfg, st) && Accounts(cfg, st) && st.world.client.handler.KGetResults?
    requires st.toClient.taken == 6 < |st.toClient.frames| && |st.toServer.frames| == 4
    requires ClientHandlerNext(cfg, st.world.client, Received(st.toClient.frames[6])) == Some(o)
    ensures Accounts(cfg, AfterClient(st, o, 1))
  {
    hide ClientHandlerNext, Balanced;
    KeeperImportFrame(cfg, st.world.client, st.toClient.frames[6].bytes, o);
    KeeperImportBalance(cfg, st.world, st.toClient.frames[6].bytes, o.side);
  }

  lemma KeeperReports(cfg: Config, st: State, o: ClientOutcome)
    requires Frozen(cfg, st) && Accounts(cfg, st)
             && (st.world.client.handler.KPutLength? || st.world.client.handler.KPutResults?)
    requires |st.toServer.frames| == (if st.world.client.handler.KPutLength? then 2 else 3) && st.toClient.taken == 5
    requires ClientHandlerNext(cfg, st.world.client, Nothing) == Some(o)
    ensures Accounts(cfg, AfterClient(st, o, 0))
  {
    var a := st.world.client.data.Active(st.world.client.sender);
    assert |a| == cfg.N() && Report(cfg.N(), a) == Low(a);
  }

  lemma KeeperMoves(cfg: Config, st: State, input: Input, o: ClientOutcome, read: nat)
    requires Frozen(cfg, st) && Accounts(cfg, st) && read <= 1
    requires |o.output| <= 1 && (|o.output| == 1 ==> |st.toServer.frames| != 3)
    requires st.world.client.handler.KConnect? ==> |st.world.client.pcs| >= cfg.N()
    requires !st.world.client.handler.KGetResults? && !st.world.client.handler.KPutLength?
             && !st.world.client.handler.KPutResults?
    requires read == 1 ==> st.toClient.taken != 6
    requires ClientHandlerNext(cfg, st.world.client, input) == Some(o)
    ensures Accounts(cfg, AfterClient(st, o, read))
  {
    hide Accounts, Frozen;
    KeeperFrame(cfg, st.world.client, input, o);
    KeeperStreams(cfg, st.world.client, input, o);
    KeeperOpens(cfg, st.world.client, input, o);
    ClientSame(cfg, st, o, read);
  }

  lemma ClientMainAccounts(cfg: Config, st: State, next: State)
    requires Inv(cfg, st) && Accounts(cfg, st) && Step(cfg, st, ClientMainStep) == Some(next)
    ensures Accounts(cfg, next)
  {
    hide Wired, ServerInv, Accounts, Step, ClientMainNext;
    InvFreezes(cfg, st);
    var o, read := ClientStep(cfg, st, ClientMainStep, next);
    ClientMainOutput(cfg, st.world.client, o, st.toClient.taken, |st.toServer.frames|);
    ClientMainMoves(cfg, st, o);
  }

  predicate Transfers(h: ClientHandler) { h.KGetResults? || h.KPutLength? || h.KPutResults? }

  /** A step of the client's handler that writes or reads results. */
  lemma KeeperTransferAccounts(cfg: Config, st: State, input: Input, o: ClientOutcome, read: nat)
    requires Inv(cfg, st) && Accounts(cfg, st) && !st.world.client.exited && Transfers(st.world.client.handler)
    requires ClientHandlerNext(cfg, st.world.client, input) == Some(o)
    requires read == if KeeperWants(st.world.client).NoRead? then 0 else 1
    requires read == 0 ==> input == Nothing
    requires read == 1 ==> st.toClient.taken < |st.toClient.frames|
                           && input == Received(st.toClient.frames[st.toClient.taken])
    ensures Accounts(cfg, AfterClient(st, o, read))
  {
    var c := st.world.client;
    InvFreezes(cfg, st);
    Causality(cfg, st);
    KeeperTransfer(cfg, c, input, o, st.toClient.taken, |st.toServer.frames|, c.chan.Pushed(), c.chan.Popped());
    if c.handler.KGetResults? {
      KeeperImports(cfg, st, o);
    } else {
      KeeperReports(cfg, st, o);
    }
  }

  lemma KeeperEffectAccounts(cfg: Config, st: State, input: Input, o: ClientOutcome, read: nat)
    requires Inv(cfg, st) && Accounts(cfg, st) && !st.world.client.exited
    requires ClientHandlerNext(cfg, st.world.client, input) == Some(o)
    requires read == if KeeperWants(st.world.client).NoRead? then 0 else 1
    requires read == 0 ==> input == Nothing
    requires read == 1 ==> st.toClient.taken < |st.toClient.frames|
                           && input == Received(st.toClient.frames[st.toClient.taken])
    ensures Accounts(cfg, AfterClient(st, o, read))
  {
    var c := st.world.client;
    if Transfers(c.handler) {
      KeeperTransferAccounts(cfg, st, input, o, read);
    } else {
      InvFreezes(cfg, st);
      Causality(cfg, st);
      KeeperOutput(cfg, c, input, o, st.toClient.taken, |st.toServer.frames|);
      if c.handler.KConnect? && |c.pcs| < cfg.N() {
        KeeperConnectsAccounts(cfg, st, o);
      } else {
        KeeperMoves(cfg, st, input, o, read);
      }
    }
  }

  lemma KeeperAccounts(cfg: Config, st: State, next: State)
    requires Inv(cfg, st) && Accounts(cfg, st) && Step(cfg, st, ClientHandlerStep) == Some(next)
    ensures Accounts(cfg, next)
  {
    hide Inv, Accounts, Step, ClientHandlerNext;
    NoGarbage(cfg, st, ClientHandlerStep);
    var o, read := ClientStep(cfg, st, ClientHandlerStep, next);
    KeeperEffectAccounts(cfg, st, InputOf(cfg, st, ClientHandlerStep), o, read);
  }

  lemma ClientQuietAccounts(cfg: Config, st: State, a: Action, next: State)
    requires Frozen(cfg, st) && Accounts(cfg, st) && Step(cfg, st, a) == Some(next)
    requires a.IsClientQuiet() && cfg.N() >= 1
    ensures Accounts(cfg, next)
  {
    hide Step, Accounts;
    var o := ClientQuietStep(cfg, st, a, next);
    ClientSame(cfg, st, o, 0);
    assert next == AfterClient(st, o, 0);
  }

  lemma ServerQuietAccounts(cfg: Config, st: State, a: Action, next: State)
    requires Frozen(cfg, st) && Accounts(cfg, st) && Step(cfg, st, a) == Some(next)
    requires a.ServerStreamStep? || a.ServerStreamFail? || a.ServerMainLeave? || a.ServerHandlerBroken?
    requires st.world.client.gone ==> st.world.server.closed && st.toServer.taken >= 4
    ensures Accounts(cfg, next)
  {
    hide Step, Accounts;
    var o := ServerQuietStep(cfg, st, a, next);
    ServerSame(cfg, st, o, 0);
    assert next == AfterServer(st, o, 0);
  }

  /** A client that has gone has left a server that has read its results. */
  lemma GoneIsLate(cfg: Config, st: State)
    requires Inv(cfg, st) && st.world.client.gone
    ensures st.world.server.closed && st.toServer.taken >= 4
  {
    Causality(cfg, st);
  }

  lemma StepKeepsAccounts(cfg: Config, st: State, a: Action, next: State)
    requires Inv(cfg, st) && Accounts(cfg, st) && Step(cfg, st, a) == Some(next)
    ensures Accounts(cfg, next)
  {
    hide Inv, Frozen, Accounts, Step;
    InvFreezes(cfg, st);
    if a.ServerMainStep? {
      ServerMainAccounts(cfg, st, next);
    } else if a.ServerHandlerStep? {
      ServerHandlerAccounts(cfg, st, next);
    } else if a.ClientMainStep? {
      ClientMainAccounts(cfg, st, next);
    } else if a.ClientHandlerStep? {
      KeeperAccounts(cfg, st, next);
    } else if a.IsClientQuiet() {
      ClientQuietAccounts(cfg, st, a, next);
    } else if a.IsControl() {
      if st.world.client.gone { GoneIsLate(cfg, st); }
      ServerQuietAccounts(cfg, st, a, next);
    } else {
      DataAccounts(cfg, st, a, next);
    }
  }
}
