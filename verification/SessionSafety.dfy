/** What holds in every reachable state of a session. */
module SessionSafety {
  import opened States
  import opened Wrappers
  import opened Words
  import opened Session
  import opened SessionInvariant
  import opened SessionSteps
  import opened SessionData
  import opened Sums

  lemma {:induction false} RunKeepsAccounts(cfg: Config, st: State, acts: seq<Action>, target: State)
    requires Inv(cfg, st) && Accounts(cfg, st) && Run(cfg, st, acts) == Some(target)
    ensures Inv(cfg, target) && Accounts(cfg, target)
    decreases |acts|
  {
    hide Inv, Accounts, Step;
    if acts != [] {
      var next := Step(cfg, st, acts[0]).value;
      StepKeepsInv(cfg, st, acts[0], next);
      StepKeepsAccounts(cfg, st, acts[0], next);
      RunKeepsAccounts(cfg, next, acts[1..], target);
    }
  }

  lemma InitialAccounts(cfg: Config, prior: Params, sender: bool)
    requires cfg.Valid()
    ensures Accounts(cfg, Initial(cfg, prior, sender))
  {
  }

  lemma ReachableAccounts(cfg: Config, st: State)
    requires cfg.Valid() && Reachable(cfg, st)
    ensures Inv(cfg, st) && Accounts(cfg, st)
  {
    var prior, sender, acts :| Run(cfg, Initial(cfg, prior, sender), acts) == Some(st);
    InitialInv(cfg, prior, sender);
    InitialAccounts(cfg, prior, sender);
    RunKeepsAccounts(cfg, Initial(cfg, prior, sender), acts, st);
  }

  // ---------- no misreading ----------

  lemma EndsBounded(cfg: Config, c: Client, read: nat, sent: nat)
    requires cfg.Valid() && ClientInv(cfg, c, read, sent)
    ensures c.ends <= cfg.N() + 1
  {
    ClientPushes(c.chan, TEST_END);
    CountBounds(c.pcs, Finished, |c.pcs|);
  }

  /** No goroutine ever reads a frame of the wrong kind, receives a state it has no case for, or counts more TEST_ENDs
      than it expects. */
  lemma NothingUnexpected(cfg: Config, st: State)
    requires cfg.Valid() && Reachable(cfg, st)
    ensures !st.world.garbled
    ensures !st.world.server.handler.HUnexpected? && !st.world.client.handler.KUnexpected?
    ensures !st.world.client.main.CTooManyEnds? && st.world.client.ends <= cfg.N() + 1
  {
    hide ServerTables, ClientTables, Lengths;
    ReachableInv(cfg, st);
    EndsBounded(cfg, st.world.client, st.toClient.taken, |st.toServer.frames|);
  }

  /** The two goroutines of a side never write at the same time. */
  lemma WritersExclude(cfg: Config, st: State)
    requires cfg.Valid() && Reachable(cfg, st)
    ensures st.world.server.main.SSend? ==>
              st.world.server.handler.HIdle? || (st.world.server.handler.HRead? && st.toServer.taken == 1)
    ensures st.world.client.main.CSend? && !st.world.client.exited ==>
              st.toClient.taken == 4
              && (st.world.client.handler.KCheck? || st.world.client.handler.KRead?
                  || st.world.client.handler.KPushRunning?)
    ensures st.world.server.main.SGetParams? ==> |st.toServer.frames| <= 1
  {
    ReachableInv(cfg, st);
    Causality(cfg, st);
    ClientFacts(cfg, st.world.client, st.toClient.taken, |st.toServer.frames|);
  }

  // ---------- end of test ----------

  /** The client tells the server about the end of the test at most once, and only when every stream has returned. */
  lemma EndOfTestOnce(cfg: Config, st: State)
    requires cfg.Valid() && Reachable(cfg, st)
    ensures forall k :: 0 <= k < |st.toServer.frames| ==> (st.toServer.frames[k] == StateFrame(TEST_END) <==> k == 1)
    ensures |st.toServer.frames| >= 2 ==>
              |st.world.client.pcs| == cfg.N() && forall i :: 0 <= i < cfg.N() ==> st.world.client.pcs[i] == Finished
    ensures st.world.server.done ==> |st.toServer.frames| >= 2
  {
    ReachableInv(cfg, st);
    Causality(cfg, st);
    CountBounds(st.world.client.pcs, Finished, |st.world.client.pcs|);
  }

  /** From the quorum on, nobody blocks on the client's channel: it is empty when the main loop makes its own redundant
      push, and never holds more than that TEST_END and three IPERF_DONEs after it. */
  lemma ClientChannelAfterQuorum(cfg: Config, st: State)
    requires cfg.Valid() && Reachable(cfg, st) && st.world.client.ends >= cfg.N()
    ensures !EndPushed(cfg, st.world.client) ==> st.world.client.chan.Empty()
    ensures |st.world.client.chan.sent| - st.world.client.chan.taken <= 4
    ensures !st.world.client.chan.Full()
  {
    ReachableInv(cfg, st);
    var c := st.world.client;
    ClientFacts(cfg, c, st.toClient.taken, |st.toServer.frames|);
    ClientPushes(c.chan, TEST_END);
    CountBounds(c.pcs, Finished, |c.pcs|);
  }

  // ---------- phases ----------

  /** The position of a state in the protocol. */
  function Phase(state: nat): nat {
    if state == IPERF_EXCHANGE_PARAMS then 1
    else if state == IPERF_CREATE_STREAM then 2
    else if state == TEST_START then 3
    else if state == TEST_RUNNING then 4
    else if state == TEST_END then 5
    else if state == IPERF_EXCHANGE_RESULT then 6
    else if state == IPERF_DISPLAY_RESULT then 7
    else if state == IPERF_DONE then 8
    else 0
  }

  predicate Advances(before: nat, after: nat) {
    Phase(after) == Phase(before) || Phase(after) == Phase(before) + 1
  }

  lemma ServerMainPhase(cfg: Config, s: Server, connected: nat, input: Input, o: ServerOutcome, read: nat, sent: nat)
    requires cfg.Valid() && ServerInv(cfg, s, read, sent) && ServerMainNext(s, connected, input) == Some(o)
    ensures Advances(s.state, o.side.state)
  {
    match s.main
    case SSend(_, _) =>
    case SLoop =>
    case _ =>
  }

  lemma ServerHandlerPhase(cfg: Config, s: Server, input: Input, o: ServerOutcome, read: nat, sent: nat)
    requires cfg.Valid() && ServerInv(cfg, s, read, sent) && ServerHandlerNext(cfg, s, input) == Some(o)
    requires input.Received? ==> ToServerKind(cfg, read, input.frame) && (read == 1 ==> sent >= 4)
    ensures Advances(s.state, o.side.state)
  {
    match s.handler
    case HRead =>
    case HSend(_, _) =>
    case HPushDone =>
    case _ =>
  }

  lemma ClientMainPhase(cfg: Config, c: Client, o: ClientOutcome, read: nat, sent: nat)
    requires cfg.Valid() && ClientInv(cfg, c, read, sent) && ClientMainNext(cfg, c) == Some(o)
    ensures Advances(c.state, o.side.state)
  {
    ClientFacts(cfg, c, read, sent);
  }

  lemma KeeperState(cfg: Config, c: Client, input: Input, o: ClientOutcome)
    requires ClientHandlerNext(cfg, c, input) == Some(o)
    ensures !c.handler.KRead? && c.handler != KSend(Assign) ==> o.side.state == c.state
    ensures c.handler.KRead? ==> input.Received? && input.frame.StateFrame? && o.side.state == input.frame.state
    ensures c.handler == KSend(Assign) ==> o.side.state == IPERF_DONE
  {
    match c.handler
    case KRead =>
    case _ =>
  }

  lemma KeeperPhase(cfg: Config, c: Client, input: Input, o: ClientOutcome, read: nat, sent: nat)
    requires cfg.Valid() && ClientInv(cfg, c, read, sent) && ClientHandlerNext(cfg, c, input) == Some(o)
    requires input.Received? ==> ToClientKind(read, input.frame) && (read == 4 ==> EndSent(cfg, c))
    ensures Advances(c.state, o.side.state)
  {
    KeeperState(cfg, c, input, o);
    ClientFacts(cfg, c, read, sent);
  }

  lemma QuietPhase(cfg: Config, st: State, a: Action, next: State)
    requires Step(cfg, st, a) == Some(next)
    requires !(a.ServerMainStep? || a.ServerHandlerStep? || a.ClientMainStep? || a.ClientHandlerStep?)
    ensures next.world.server.state == st.world.server.state && next.world.client.state == st.world.client.state
  {
    if a.IsClientQuiet() {
      var o := ClientQuietStep(cfg, st, a, next);
    } else if a.IsControl() {
      var o := ServerQuietStep(cfg, st, a, next);
    } else {
      DataStep(cfg, st, a, next);
    }
  }

  lemma ServerPhase(cfg: Config, st: State, a: Action, next: State)
    requires Inv(cfg, st) && Step(cfg, st, a) == Some(next) && (a.ServerMainStep? || a.ServerHandlerStep?)
    ensures Advances(st.world.server.state, next.world.server.state) && next.world.client == st.world.client
  {
    hide Wired, ServerInv, ClientInv, Step, ServerMainNext, ServerHandlerNext, Advances;
    NoGarbage(cfg, st, a);
    var input := InputOf(cfg, st, a);
    var o, read := ServerStep(cfg, st, a, next);
    if a.ServerMainStep? {
      ServerMainPhase(cfg, st.world.server, |st.world.client.pcs|, input, o, st.toServer.taken, |st.toClient.frames|);
    } else {
      if input.Received? { HandlerExpects(cfg, st); }
      ServerHandlerPhase(cfg, st.world.server, input, o, st.toServer.taken, |st.toClient.frames|);
    }
  }

  lemma ClientPhase(cfg: Config, st: State, a: Action, next: State)
    requires Inv(cfg, st) && Step(cfg, st, a) == Some(next) && (a.ClientMainStep? || a.ClientHandlerStep?)
    ensures Advances(st.world.client.state, next.world.client.state) && next.world.server == st.world.server
  {
    hide Wired, ServerInv, ClientInv, Step, ClientMainNext, ClientHandlerNext, Advances;
    NoGarbage(cfg, st, a);
    var input := InputOf(cfg, st, a);
    var o, read := ClientStep(cfg, st, a, next);
    if a.ClientMainStep? {
      ClientMainPhase(cfg, st.world.client, o, st.toClient.taken, |st.toServer.frames|);
    } else {
      if input.Received? { KeeperExpects(cfg, st); }
      KeeperPhase(cfg, st.world.client, input, o, st.toClient.taken, |st.toServer.frames|);
    }
  }

  lemma PhaseStep(cfg: Config, st: State, a: Action, next: State)
    requires Inv(cfg, st) && Step(cfg, st, a) == Some(next)
    ensures Advances(st.world.server.state, next.world.server.state)
    ensures Advances(st.world.client.state, next.world.client.state)
  {
    hide Inv, Step;
    if a.ServerMainStep? || a.ServerHandlerStep? {
      ServerPhase(cfg, st, a, next);
    } else if a.ClientMainStep? || a.ClientHandlerStep? {
      ClientPhase(cfg, st, a, next);
    } else {
      QuietPhase(cfg, st, a, next);
    }
  }

  /** Each step of a session keeps both sides in their phase or moves one of them to the very next one. */
  lemma PhasesInOrder(cfg: Config, st: State, a: Action, next: State)
    requires cfg.Valid() && Reachable(cfg, st) && Step(cfg, st, a) == Some(next)
    ensures Advances(st.world.server.state, next.world.server.state)
    ensures Advances(st.world.client.state, next.world.client.state)
  {
    ReachableInv(cfg, st);
    PhaseStep(cfg, st, a, next);
  }

  lemma {:induction false} PhaseRun(cfg: Config, st: State, acts: seq<Action>, later: State)
    requires Inv(cfg, st) && Run(cfg, st, acts) == Some(later)
    ensures Phase(st.world.server.state) <= Phase(later.world.server.state)
    ensures Phase(st.world.client.state) <= Phase(later.world.client.state)
    decreases |acts|
  {
    hide Inv, Step;
    if acts != [] {
      var next := Step(cfg, st, acts[0]).value;
      PhaseStep(cfg, st, acts[0], next);
      StepKeepsInv(cfg, st, acts[0], next);
      PhaseRun(cfg, next, acts[1..], later);
    }
  }

  /** A side that has left TEST_RUNNING never returns to it within the session. */
  lemma RunningOnce(cfg: Config, st: State, acts: seq<Action>, later: State)
    requires cfg.Valid() && Reachable(cfg, st) && Run(cfg, st, acts) == Some(later)
    ensures Phase(st.world.server.state) <= Phase(later.world.server.state)
    ensures Phase(st.world.client.state) <= Phase(later.world.client.state)
    ensures Phase(st.world.server.state) > Phase(TEST_RUNNING) ==> later.world.server.state != TEST_RUNNING
    ensures Phase(st.world.client.state) > Phase(TEST_RUNNING) ==> later.world.client.state != TEST_RUNNING
  {
    ReachableInv(cfg, st);
    PhaseRun(cfg, st, acts, later);
  }

  /** A client stream runs only when both sides hold all N streams, pairwise in opposite roles, and agree on the
      parameters; and until the end of the test the server is never more than two messages ahead. */
  lemma ReadyBeforeData(cfg: Config, st: State)
    requires cfg.Valid() && Reachable(cfg, st)
    ensures Sizes(cfg, st.world)
    ensures (exists i :: 0 <= i < |st.world.client.pcs| && st.world.client.pcs[i] != Fresh) ==>
              && |st.world.client.pcs| == |st.world.server.pcs| == cfg.N() == st.world.server.settings.streamNum
              && forall j :: 0 <= j < cfg.N() ==> st.world.client.data.roles[j] == !st.world.server.data.roles[j]
    ensures |st.toClient.frames| <= 4 ==> |st.toClient.frames| <= st.toClient.taken + 2
  {
    ReachableInv(cfg, st);
    Causality(cfg, st);
    ClientFacts(cfg, st.world.client, st.toClient.taken, |st.toServer.frames|);
  }

  // ---------- data ----------

  /** In every reachable state each byte written on a stream is in flight, counted by the reader, or was read outside
      TEST_RUNNING. */
  lemma BytesConserved(cfg: Config, st: State, i: nat)
    requires cfg.Valid() && Reachable(cfg, st) && i < cfg.N()
    ensures Sizes(cfg, st.world)
    ensures Written(cfg, st.world, i) == st.world.flight[i] + Counted(cfg, st.world, i) + st.world.lost[i]
  {
    ReachableAccounts(cfg, st);
  }

  /** The sender's own count of bytes sent, and the receiver's own count of bytes received. */
  function Sent(cfg: Config, w: World): seq<nat> {
    if cfg.params.reverse then w.server.data.sent else w.client.data.sent
  }

  function Received(cfg: Config, w: World): seq<nat> {
    if cfg.params.reverse then w.client.data.received else w.server.data.received
  }

  /** Once both sides have read each other's results they hold the same counts for every stream, in either mode:
      modulo 2^64, as the fields hold them, and exactly if no stream has moved more; and no stream has received more
      than was sent. */
  lemma ResultsAgree(cfg: Config, st: State)
    requires cfg.Valid() && Reachable(cfg, st) && st.toServer.taken >= 4 && st.toClient.taken >= 7
    ensures var s, c := st.world.server.data, st.world.client.data;
            && Low(s.sent) == Low(c.sent) && Low(s.received) == Low(c.received)
            && |Sent(cfg, st.world)| == cfg.N() && AtMost(Received(cfg, st.world), Sent(cfg, st.world))
            && ((forall i :: 0 <= i < cfg.N() ==> Sent(cfg, st.world)[i] < UINT64) ==>
                  s.sent == c.sent && s.received == c.received)
  {
    ReachableAccounts(cfg, st);
    InvFreezes(cfg, st);
    var w, sent, received := st.world, Sent(cfg, st.world), Received(cfg, st.world);
    forall i: nat | i < cfg.N() ensures received[i] <= sent[i] {
      assert Written(cfg, w, i) == w.flight[i] + Counted(cfg, w, i) + w.lost[i];
    }
    LowTwice(sent);
    LowTwice(received);
    LowIsExact(sent);
    LowIsExact(received);
  }

  lemma SumsAreCounts(intervals: seq<seq<nat>>, interval: seq<nat>, active: seq<nat>)
    requires Summed(intervals, interval, active) && AllZero(interval)
    ensures IntervalSums(intervals) == active
  {
    assert forall i | 0 <= i < |active| :: Sum(intervals[i]) + interval[i] == active[i];
  }

  /** At any time the intervals of a stream and the one under way hold all the bytes the stream has moved. At the
      result exchange the results the client reports are the sums of its intervals, and in forward mode the server's
      are as well. In reverse mode the server reports what it sent, of which what it sent after its last pass is in
      none of them. */
  lemma IntervalsAddUp(cfg: Config, st: State)
    requires cfg.Valid() && Reachable(cfg, st)
    ensures var d := st.world.client.data; Summed(d.intervals, d.interval, d.Active(!cfg.params.reverse))
    ensures var d := st.world.server.data; Summed(d.intervals, d.interval, d.Active(cfg.params.reverse))
    ensures |st.toServer.frames| >= 4 ==>
              st.toServer.frames[3] == ResultsFrame(Low(IntervalSums(st.world.client.data.intervals)))
    ensures |st.toClient.frames| >= 7 && !cfg.params.reverse ==>
              st.toClient.frames[6] == ResultsFrame(Low(IntervalSums(st.world.server.data.intervals)))
    ensures |st.toClient.frames| >= 7 && cfg.params.reverse ==>
              st.toClient.frames[6] == ResultsFrame(Low(st.world.server.data.sent))
  {
    ReachableAccounts(cfg, st);
    InvFreezes(cfg, st);
    Causality(cfg, st);
    var s, c := st.world.server.data, st.world.client.data;
    if |st.toServer.frames| >= 4 {
      SumsAreCounts(c.intervals, c.interval, c.Active(!cfg.params.reverse));
    }
    if |st.toClient.frames| >= 7 && !cfg.params.reverse {
      SumsAreCounts(s.intervals, s.interval, s.received);
    }
  }

  /** What a completed session has achieved. */
  lemma CompleteSession(cfg: Config, st: State)
    requires cfg.Valid() && Reachable(cfg, st) && Complete(st)
    ensures |st.toServer.frames| >= 2 && st.toServer.frames[1] == StateFrame(TEST_END)
    ensures st.world.server.settings == cfg.params && st.world.server.sender == cfg.params.reverse
    ensures forall i :: 0 <= i < |st.world.client.pcs| ==> st.world.client.pcs[i] == Finished
    ensures Low(st.world.server.data.sent) == Low(st.world.client.data.sent) && |Sent(cfg, st.world)| == cfg.N()
    ensures Low(st.world.server.data.received) == Low(st.world.client.data.received)
    ensures AtMost(Received(cfg, st.world), Sent(cfg, st.world))
  {
    ReachableAccounts(cfg, st);
    ClientPushes(st.world.client.chan, TEST_END);
    Causality(cfg, st);
    EndOfTestOnce(cfg, st);
    ResultsAgree(cfg, st);
  }
}
