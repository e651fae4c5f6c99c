/** Sessions are bounded: every control action does some of a limited amount of work. And while nothing panics, at
    most four streams of the server have posted, and the client's streams are not what everybody waits for, some
    control action can be taken. */
module SessionProgress {
  import opened States
  import opened Channels
  import opened Wrappers
  import opened Session
  import opened SessionInvariant
  import opened SessionSteps

  // ---------- a measure of what has been done ----------

  function SendPlace(at: SendAt): nat { if at.Assign? then 0 else if at.Enqueue? then 1 else 2 }

  function ServerMainPlace(n: nat, s: Server, popped: nat): nat {
    match s.main
    case SSend(v, at) =>
      SendPlace(at) + if v == IPERF_EXCHANGE_PARAMS then 0
                      else if v == IPERF_CREATE_STREAM then 4
                      else if v == TEST_START then 9 + n
                      else 13 + n
    case SGetParams => 3
    case SLoop => if |s.pcs| == 0 then 7 else if popped < 4 then 16 + n else 18 + 2 * n
    case SAccept => 8 + |s.pcs|
    case SInit => 12 + n
    case SLaunch(i) => 17 + n + i
    case SAwaitHandler => 19 + 2 * n
    case SLeft => 20 + 2 * n
  }

  function HandlerPlace(s: Server, read: nat): nat {
    match s.handler
    case HIdle => 0
    case HRead => if read == 1 then 1 else 18
    case HMarkDone => 2
    case HStats => 3
    case HCloseStreams => 4
    case HSend(v, at) =>
      SendPlace(at) + if v == IPERF_EXCHANGE_RESULT then 5 else if v == IPERF_DISPLAY_RESULT then 12 else 15
    case HGetLength => 8
    case HGetResults(_) => 9
    case HPutLength => 10
    case HPutResults(_) => 11
    case HPushDone => 19
    case HReturned => 20
    case HUnexpected => 0
  }

  function ClientMainPlace(n: nat, c: Client, popped: nat): nat {
    match c.main
    case CLoop => if popped == 0 then 0 else if c.ends < n then 2 + n else 8 + n
    case CLaunch(i) => 1 + i
    case CMarkDone => 3 + n
    case CStats => 4 + n
    case CSend(at) => 5 + n + SendPlace(at)
    case CReturned => 9 + n
    case CTooManyEnds => 0
  }

  function KeeperPlace(n: nat, c: Client, read: nat): nat {
    match c.handler
    case KCheck =>
      if read <= 1 then 3 * read else if read <= 4 then 3 * read + n else if read == 7 then 18 + n else 26 + n
    case KRead => if read <= 1 then 3 * read + 1 else if read <= 4 then 3 * read + 1 + n else 19 + n
    case KPutParams => 2
    case KConnect => 5 + |c.pcs|
    case KStart => 8 + n
    case KPushRunning => 11 + n
    case KPutLength => 14 + n
    case KPutResults(_) => 15 + n
    case KGetLength => 16 + n
    case KGetResults(_) => 17 + n
    case KCloseStreams => 20 + n
    case KSend(at) => 21 + n + SendPlace(at)
    case KCloseConn => 24 + n
    case KPushClosed => 25 + n
    case KPushExit => 27 + n
    case KReturned => 28 + n
    case KUnexpected => 0
  }

  function StreamPlace(p: StreamPc): nat {
    match p
    case Fresh => 0
    case Running => 1
    case Testing => 1
    case Posting => 2
    case Finished => 3
    case Failed => 3
  }

  function StreamPlaces(pcs: seq<StreamPc>, k: nat): nat
    requires k <= |pcs|
  {
    if k == 0 then 0 else StreamPlaces(pcs, k - 1) + StreamPlace(pcs[k - 1])
  }

  lemma {:induction false} StreamPlacesSame(pcs: seq<StreamPc>, other: seq<StreamPc>, k: nat)
    requires k <= |pcs| && k <= |other| && forall i :: 0 <= i < k ==> pcs[i] == other[i]
    ensures StreamPlaces(pcs, k) == StreamPlaces(other, k)
  {
    if k > 0 {
      StreamPlacesSame(pcs, other, k - 1);
    }
  }

  lemma {:induction false} StreamPlacesUpdate(pcs: seq<StreamPc>, i: nat, p: StreamPc, k: nat)
    requires i < k <= |pcs|
    ensures StreamPlaces(pcs[i := p], k) == StreamPlaces(pcs, k) + StreamPlace(p) - StreamPlace(pcs[i])
  {
    if i == k - 1 {
      StreamPlacesSame(pcs, pcs[i := p], i);
    } else {
      StreamPlacesUpdate(pcs, i, p, k - 1);
    }
  }

  lemma {:induction false} StreamPlacesBound(pcs: seq<StreamPc>, k: nat)
    requires k <= |pcs|
    ensures StreamPlaces(pcs, k) <= 3 * k
  {
    if k > 0 {
      StreamPlacesBound(pcs, k - 1);
    }
  }

  function ServerDone(n: nat, s: Server, read: nat): nat
    requires s.chan.Valid()
  {
    ServerMainPlace(n, s, s.chan.Popped()) + HandlerPlace(s, read) + s.chan.taken + StreamPlaces(s.pcs, |s.pcs|)
  }

  function ClientDone(n: nat, c: Client, read: nat): nat
    requires c.chan.Valid()
  {
    ClientMainPlace(n, c, c.chan.Popped()) + KeeperPlace(n, c, read) + c.chan.taken + StreamPlaces(c.pcs, |c.pcs|)
    + (if c.timer.Unarmed? then 0 else if c.timer.Armed? then 1 else 2) + (if c.exited then 1 else 0)
  }

  function WorkDone(cfg: Config, st: State): nat
    requires st.world.server.chan.Valid() && st.world.client.chan.Valid()
  {
    ServerDone(cfg.N(), st.world.server, st.toServer.taken) + ClientDone(cfg.N(), st.world.client, st.toClient.taken)
  }

  /** No session can do more work than this. */
  function WorkLimit(cfg: Config): nat { 94 + 12 * cfg.N() }

  lemma ServerWorkBounded(cfg: Config, s: Server, read: nat, sent: nat)
    requires cfg.Valid() && ServerInv(cfg, s, read, sent) && StreamPlaces(s.pcs, |s.pcs|) <= 3 * |s.pcs|
    requires Count(s.pcs, Finished) <= |s.pcs|
    ensures ServerDone(cfg.N(), s, read) <= 48 + 6 * cfg.N()
  {
  }

  lemma ClientWorkBounded(cfg: Config, c: Client, read: nat, sent: nat)
    requires cfg.Valid() && ClientInv(cfg, c, read, sent) && StreamPlaces(c.pcs, |c.pcs|) <= 3 * |c.pcs|
    requires Count(c.pcs, Finished) <= |c.pcs|
    ensures ClientDone(cfg.N(), c, read) <= 46 + 6 * cfg.N()
  {
    match c.handler
    case KSend(_) =>
    case _ =>
  }

  lemma WorkBounded(cfg: Config, st: State)
    requires Inv(cfg, st)
    ensures WorkDone(cfg, st) <= WorkLimit(cfg)
  {
    var s, c := st.world.server, st.world.client;
    StreamPlacesBound(s.pcs, |s.pcs|);
    StreamPlacesBound(c.pcs, |c.pcs|);
    CountBounds(s.pcs, Finished, |s.pcs|);
    CountBounds(c.pcs, Finished, |c.pcs|);
    ServerWorkBounded(cfg, s, st.toServer.taken, |st.toClient.frames|);
    ClientWorkBounded(cfg, c, st.toClient.taken, |st.toServer.frames|);
  }

  // ---------- every control action does some work ----------

  lemma ServerMainPlaceGrows(cfg: Config, s: Server, connected: nat, input: Input, o: ServerOutcome, popped: nat)
    requires ServerMainNext(s, connected, input) == Some(o) && |s.pcs| <= cfg.N()
    requires !s.main.SLoop? && !s.main.SGetParams? && !(s.main.SSend? && s.main.at.Enqueue?) && o.side.pcs == s.pcs
    requires s.main.SSend? ==> Rank(s.main.state) <= 3
    requires s.main.SSend? && s.main.state == IPERF_CREATE_STREAM ==> |s.pcs| == 0
    requires s.main.SSend? && s.main.state == TEST_RUNNING ==> |s.pcs| == cfg.N() >= 1
    requires s.main.SLaunch? ==> |s.pcs| == cfg.N() >= 1 && s.main.next <= |s.pcs| && popped >= 4
    requires s.main.SAccept? ==> s.settings == cfg.params
    ensures ServerMainPlace(cfg.N(), o.side, popped) > ServerMainPlace(cfg.N(), s, popped)
    ensures o.side.chan == s.chan && o.side.handler == s.handler
  {
  }

  /** A goroutine that moves on without touching channel or streams does work if its place grows. */
  lemma ServerMainMovesOn(cfg: Config, s: Server, connected: nat, input: Input, o: ServerOutcome, read: nat, sent: nat)
    requires cfg.Valid() && s.chan.Valid() && ServerMainNext(s, connected, input) == Some(o)
    requires ServerAt(cfg, s, read, sent, s.chan.Pushed(), s.chan.Popped())
    requires !s.main.SLoop? && !s.main.SGetParams? && !(s.main.SSend? && s.main.at.Enqueue?)
    requires o.side.pcs == s.pcs
    ensures ServerDone(cfg.N(), o.side, read) > ServerDone(cfg.N(), s, read)
  {
    hide ServerMainNext, ServerMainPlace;
    ServerMainPlaceGrows(cfg, s, connected, input, o, s.chan.Popped());
  }

  lemma ServerParamsWork(cfg: Config, s: Server, connected: nat, input: Input, o: ServerOutcome, read: nat)
    requires s.chan.Valid() && ServerMainNext(s, connected, input) == Some(o)
    requires s.main.SGetParams? && s.handler.HIdle? && read == 0
    ensures ServerDone(cfg.N(), o.side, read + 1) > ServerDone(cfg.N(), s, read)
  {
  }

  lemma ServerEnqueueWorks(cfg: Config, s: Server, connected: nat, input: Input, o: ServerOutcome, read: nat)
    requires s.chan.Valid() && ServerMainNext(s, connected, input) == Some(o)
    requires s.main.SSend? && s.main.at.Enqueue?
    ensures o.side.chan.Valid() && ServerDone(cfg.N(), o.side, read) > ServerDone(cfg.N(), s, read)
  {
    PushFacts(s.chan, s.state);
  }

  lemma ServerTakePlace(cfg: Config, s: Server, after: Server, read: nat, sent: nat, pushed: nat, popped: nat)
    requires ServerAt(cfg, s, read, sent, pushed, popped) && s.main.SLoop? && cfg.Valid()
    requires after == s.(chan := s.chan.Pop(), main := Dispatch(ServerValue(popped)))
    ensures ServerMainPlace(cfg.N(), after, popped + 1) >= ServerMainPlace(cfg.N(), s, popped)
  {
  }

  lemma ServerTakeWorks(cfg: Config, s: Server, connected: nat, input: Input, o: ServerOutcome, read: nat, sent: nat)
    requires cfg.Valid() && ServerInv(cfg, s, read, sent) && ServerMainNext(s, connected, input) == Some(o)
    requires s.main.SLoop?
    ensures o.side.chan.Valid() && ServerDone(cfg.N(), o.side, read) > ServerDone(cfg.N(), s, read)
  {
    hide ServerAt, ServerTables;
    PopFacts(s.chan);
    assert HandlerPlace(o.side, read) == HandlerPlace(s, read);
    if s.chan.Head() != TEST_END {
      hide ServerMainPlace;
      ServerHead(cfg, s, read, sent);
      ServerTakePlace(cfg, s, o.side, read, sent, s.chan.Pushed(), s.chan.Popped());
    }
  }

  lemma ServerAcceptWorks(cfg: Config, s: Server, connected: nat, input: Input, o: ServerOutcome, read: nat)
    requires s.chan.Valid() && ServerMainNext(s, connected, input) == Some(o) && s.main.SAccept? && o.side.pcs != s.pcs
    ensures o.side.chan == s.chan && ServerDone(cfg.N(), o.side, read) > ServerDone(cfg.N(), s, read)
  {
    StreamPlacesSame(s.pcs, s.pcs + [Fresh], |s.pcs|);
  }

  lemma ServerLaunchWorks(cfg: Config, s: Server, connected: nat, input: Input, o: ServerOutcome, read: nat)
    requires s.chan.Valid() && ServerMainNext(s, connected, input) == Some(o) && s.main.SLaunch?
    requires s.main.next < |s.pcs| && s.pcs[s.main.next] == Fresh
    ensures o.side.chan == s.chan && ServerDone(cfg.N(), o.side, read) > ServerDone(cfg.N(), s, read)
  {
    StreamPlacesUpdate(s.pcs, s.main.next, Running, |s.pcs|);
  }

  lemma ServerMainWorks(cfg: Config, s: Server, connected: nat, input: Input, o: ServerOutcome, read: nat, sent: nat)
    requires cfg.Valid() && ServerInv(cfg, s, read, sent) && ServerMainNext(s, connected, input) == Some(o)
    requires o.side.chan.Valid()
    ensures ServerDone(cfg.N(), o.side, read + (if s.main.SGetParams? then 1 else 0)) > ServerDone(cfg.N(), s, read)
  {
    if s.main.SLoop? {
      ServerTakeWorks(cfg, s, connected, input, o, read, sent);
    } else if s.main.SSend? && s.main.at.Enqueue? {
      ServerEnqueueWorks(cfg, s, connected, input, o, read);
    } else if s.main.SAccept? && o.side.pcs != s.pcs {
      ServerAcceptWorks(cfg, s, connected, input, o, read);
    } else if s.main.SLaunch? && o.side.pcs != s.pcs {
      ServerLaunchWorks(cfg, s, connected, input, o, read);
    } else if s.main.SGetParams? {
      ServerParamsWork(cfg, s, connected, input, o, read);
    } else {
      ServerMainMovesOn(cfg, s, connected, input, o, read, sent);
    }
  }

  lemma HandlerEnqueueWorks(cfg: Config, s: Server, input: Input, o: ServerOutcome, read: nat)
    requires s.chan.Valid() && ServerHandlerNext(cfg, s, input) == Some(o)
    requires s.handler.HPushDone? || (s.handler.HSend? && s.handler.at.Enqueue?)
    ensures o.side.chan.Valid() && ServerDone(cfg.N(), o.side, read) > ServerDone(cfg.N(), s, read)
  {
    PushFacts(s.chan, s.state);
    PushFacts(s.chan, IPERF_DONE);
  }

  lemma HandlerMovesOn(cfg: Config, s: Server, input: Input, o: ServerOutcome, read: nat, sent: nat, pushed: nat,
      popped: nat)
    requires cfg.Valid() && ServerAt(cfg, s, read, sent, pushed, popped) && ServerHandlerNext(cfg, s, input) == Some(o)
    requires !s.handler.HPushDone? && !(s.handler.HSend? && s.handler.at.Enqueue?)
    requires input.Received? ==> ToServerKind(cfg, read, input.frame)
    requires input.Received? && input.frame.ResultsFrame? ==> |input.frame.bytes| <= |s.pcs|
    requires input.Received? <==> !HandlerWants(s).NoRead?
    ensures HandlerPlace(o.side, read + (if input.Received? then 1 else 0)) > HandlerPlace(s, read)
    ensures o.side.main == s.main && o.side.chan == s.chan && o.side.pcs == s.pcs
  {
    match s.handler
    case HSend(v, at) =>
    case _ =>
  }

  lemma ServerHandlerWorks(cfg: Config, s: Server, input: Input, o: ServerOutcome, read: nat, sent: nat)
    requires cfg.Valid() && ServerInv(cfg, s, read, sent) && ServerHandlerNext(cfg, s, input) == Some(o)
    requires o.side.chan.Valid()
    requires input.Received? ==> ToServerKind(cfg, read, input.frame)
    requires input.Received? && input.frame.ResultsFrame? ==> |input.frame.bytes| <= |s.pcs|
    requires input.Received? <==> !HandlerWants(s).NoRead?
    ensures ServerDone(cfg.N(), o.side, read + (if input.Received? then 1 else 0)) > ServerDone(cfg.N(), s, read)
  {
    if s.handler.HPushDone? || (s.handler.HSend? && s.handler.at.Enqueue?) {
      HandlerEnqueueWorks(cfg, s, input, o, read);
    } else {
      HandlerMovesOn(cfg, s, input, o, read, sent, s.chan.Pushed(), s.chan.Popped());
    }
  }

  lemma ServerSamePlaces(n: nat, s: Server, after: Server, read: nat, popped: nat)
    requires after.main == s.main && after.handler == s.handler && |after.pcs| == |s.pcs|
    ensures ServerMainPlace(n, after, popped) == ServerMainPlace(n, s, popped)
    ensures HandlerPlace(after, read) == HandlerPlace(s, read)
  {
  }

  lemma ServerStreamWorks(cfg: Config, s: Server, i: nat, o: ServerOutcome, read: nat)
    requires s.chan.Valid() && (ServerStreamNext(s, i) == Some(o) || ServerStreamFails(s, i) == Some(o))
    ensures o.side.chan.Valid() && ServerDone(cfg.N(), o.side, read) > ServerDone(cfg.N(), s, read)
  {
    ServerPushes(s.chan, TEST_END);
    ServerSamePlaces(cfg.N(), s, o.side, read, s.chan.Popped());
    StreamPlacesUpdate(s.pcs, i, o.side.pcs[i], |s.pcs|);
  }

  lemma ClientTakeFrame(cfg: Config, c: Client, o: ClientOutcome)
    requires ClientMainNext(cfg, c) == Some(o) && c.main.CLoop?
    ensures o.side == c.(main := o.side.main, chan := c.chan.Pop(), ends := o.side.ends)
  {
  }

  lemma ClientTakePlace(cfg: Config, c: Client, o: ClientOutcome, popped: nat)
    requires ClientMainNext(cfg, c) == Some(o) && c.main.CLoop? && popped <= 1
    requires if c.chan.Head() == TEST_END then c.ends <= cfg.N() && popped == 1
             else c.chan.Head() == ClientValue(popped)
    ensures ClientMainPlace(cfg.N(), o.side, if c.chan.Head() == TEST_END then popped else popped + 1)
            >= ClientMainPlace(cfg.N(), c, popped)
  {
  }

  lemma ClientTakeWorks(cfg: Config, c: Client, o: ClientOutcome, read: nat, sent: nat)
    requires cfg.Valid() && ClientInv(cfg, c, read, sent) && ClientMainNext(cfg, c) == Some(o) && c.main.CLoop?
    ensures o.side.chan.Valid() && ClientDone(cfg.N(), o.side, read) > ClientDone(cfg.N(), c, read)
  {
    hide ClientAt, ClientTables, ClientMainPlace;
    ClientFacts(cfg, c, read, sent);
    PopFacts(c.chan);
    ClientTakeFrame(cfg, c, o);
    ClientTakePlace(cfg, c, o, c.chan.Popped());
    assert KeeperPlace(cfg.N(), o.side, read) == KeeperPlace(cfg.N(), c, read);
  }

  lemma ClientLaunchWorks(cfg: Config, c: Client, o: ClientOutcome, read: nat, sent: nat)
    requires cfg.Valid() && ClientInv(cfg, c, read, sent) && ClientMainNext(cfg, c) == Some(o)
    requires c.main.CLaunch? && c.main.next < |c.pcs|
    ensures ClientDone(cfg.N(), o.side, read) > ClientDone(cfg.N(), c, read)
  {
    StreamPlacesUpdate(c.pcs, c.main.next, Running, |c.pcs|);
    assert c.pcs[c.main.next] == Fresh;
  }

  lemma ClientMainPlaceGrows(cfg: Config, c: Client, o: ClientOutcome, popped: nat)
    requires ClientMainNext(cfg, c) == Some(o) && cfg.N() >= 1
    requires !c.main.CLoop? && !(c.main.CLaunch? && c.main.next < |c.pcs|)
    requires c.main.CLaunch? ==> popped == 1 && c.ends < cfg.N() && c.main.next <= |c.pcs| <= cfg.N()
    requires c.main.CSend? ==> popped == 1 && c.ends >= cfg.N()
    ensures ClientMainPlace(cfg.N(), o.side, popped) > ClientMainPlace(cfg.N(), c, popped)
    ensures o.side.pcs == c.pcs && o.side.timer == c.timer && o.side.exited == c.exited
    ensures o.side.chan == c.chan || (!c.chan.Full() && o.side.chan == c.chan.Push(c.state))
    ensures o.side.handler == c.handler
  {
    if c.main.CSend? {
    } else {
    }
  }

  lemma ClientMainMovesOn(cfg: Config, c: Client, o: ClientOutcome, read: nat, sent: nat, pushed: nat, popped: nat)
    requires cfg.Valid() && c.chan.Valid() && ClientAt(cfg, c, read, sent, pushed, popped)
    requires popped == c.chan.Popped() && ClientMainNext(cfg, c) == Some(o)
    requires !c.main.CLoop? && !(c.main.CLaunch? && c.main.next < |c.pcs|)
    ensures o.side.chan.Valid() && ClientDone(cfg.N(), o.side, read) > ClientDone(cfg.N(), c, read)
  {
    ClientPushes(c.chan, c.state);
    ClientMainPlaceGrows(cfg, c, o, popped);
    assert KeeperPlace(cfg.N(), o.side, read) == KeeperPlace(cfg.N(), c, read);
  }

  lemma ClientMainWorks(cfg: Config, c: Client, o: ClientOutcome, read: nat, sent: nat)
    requires cfg.Valid() && ClientInv(cfg, c, read, sent) && ClientMainNext(cfg, c) == Some(o)
    requires o.side.chan.Valid()
    ensures ClientDone(cfg.N(), o.side, read) > ClientDone(cfg.N(), c, read)
  {
    if c.main.CLoop? {
      ClientTakeWorks(cfg, c, o, read, sent);
    } else if c.main.CLaunch? && c.main.next < |c.pcs| {
      ClientLaunchWorks(cfg, c, o, read, sent);
    } else {
      ClientMainMovesOn(cfg, c, o, read, sent, c.chan.Pushed(), c.chan.Popped());
    }
  }

  predicate Queues(h: ClientHandler) {
    h.KPushRunning? || h.KPushClosed? || h.KPushExit? || h == KSend(Enqueue)
  }

  lemma KeeperPushMovesOn(cfg: Config, c: Client, input: Input, o: ClientOutcome, read: nat) returns (v: nat)
    requires ClientRead(c, read) && ClientHandlerNext(cfg, c, input) == Some(o) && Queues(c.handler)
    ensures KeeperPlace(cfg.N(), o.side, read) > KeeperPlace(cfg.N(), c, read)
    ensures !c.chan.Full() && o.side.chan == c.chan.Push(v)
  {
    v := if c.handler.KPushRunning? then TEST_RUNNING else if c.handler.KSend? then c.state else IPERF_DONE;
  }

  lemma KeeperPushWorks(cfg: Config, c: Client, input: Input, o: ClientOutcome, read: nat)
    requires c.chan.Valid() && ClientRead(c, read) && ClientHandlerNext(cfg, c, input) == Some(o) && Queues(c.handler)
    ensures o.side.chan.Valid() && ClientDone(cfg.N(), o.side, read) > ClientDone(cfg.N(), c, read)
  {
    hide ClientHandlerNext, KeeperPlace;
    var v := KeeperPushMovesOn(cfg, c, input, o, read);
    PushFacts(c.chan, v);
    KeeperFrame(cfg, c, input, o);
    KeeperClock(cfg, c, input, o);
    KeeperStreams(cfg, c, input, o);
    assert ClientMainPlace(cfg.N(), o.side, c.chan.Popped()) == ClientMainPlace(cfg.N(), c, c.chan.Popped());
  }

  lemma KeeperReadMovesOn(cfg: Config, c: Client, f: Frame, o: ClientOutcome, read: nat)
    requires cfg.Valid() && ClientRead(c, read) && ClientHandlerNext(cfg, c, Received(f)) == Some(o)
    requires ToClientKind(read, f) && (f.ResultsFrame? ==> |f.bytes| <= |c.pcs|) && |c.pcs| <= cfg.N()
    requires !KeeperWants(c).NoRead?
    ensures KeeperPlace(cfg.N(), o.side, read + 1) > KeeperPlace(cfg.N(), c, read)
  {
    match c.handler
    case KRead =>
    case _ =>
  }

  predicate Early(h: ClientHandler) { h.KCheck? || h.KPutParams? || h.KConnect? || h.KStart? }

  lemma KeeperEarlyMovesOn(cfg: Config, c: Client, input: Input, o: ClientOutcome, read: nat)
    requires cfg.Valid() && ClientRead(c, read) && ClientHandlerNext(cfg, c, input) == Some(o) && Early(c.handler)
    requires c.handler.KCheck? ==> (c.state == IPERF_DONE <==> read == 8)
    requires |c.pcs| <= cfg.N()
    ensures KeeperPlace(cfg.N(), o.side, read) > KeeperPlace(cfg.N(), c, read)
  {
  }

  lemma KeeperLateMovesOn(cfg: Config, c: Client, input: Input, o: ClientOutcome, read: nat)
    requires ClientRead(c, read) && ClientHandlerNext(cfg, c, input) == Some(o)
    requires !Early(c.handler) && KeeperWants(c).NoRead? && !Queues(c.handler)
    ensures KeeperPlace(cfg.N(), o.side, read) > KeeperPlace(cfg.N(), c, read)
  {
    match c.handler
    case KSend(at) =>
    case _ =>
  }

  lemma KeeperKeepsChannel(cfg: Config, c: Client, input: Input, o: ClientOutcome)
    requires ClientHandlerNext(cfg, c, input) == Some(o) && !Queues(c.handler)
    ensures o.side.chan == c.chan
  {
    match c.handler
    case KRead =>
    case _ =>
  }

  lemma KeeperMovesOn(cfg: Config, c: Client, input: Input, o: ClientOutcome, read: nat, sent: nat, pushed: nat,
      popped: nat)
    requires cfg.Valid() && ClientAt(cfg, c, read, sent, pushed, popped) && ClientHandlerNext(cfg, c, input) == Some(o)
    requires !Queues(c.handler)
    requires input.Received? ==> ToClientKind(read, input.frame)
    requires input.Received? && input.frame.ResultsFrame? ==> |input.frame.bytes| <= |c.pcs|
    requires input.Received? <==> !KeeperWants(c).NoRead?
    ensures KeeperPlace(cfg.N(), o.side, read + (if input.Received? then 1 else 0)) > KeeperPlace(cfg.N(), c, read)
    ensures o.side.main == c.main && o.side.chan == c.chan && o.side.ends == c.ends && o.side.exited == c.exited
    ensures o.side.timer == c.timer || c.timer.Unarmed?
    ensures o.side.pcs == c.pcs || o.side.pcs == c.pcs + [Fresh]
  {
    hide ClientHandlerNext, KeeperPlace;
    KeeperFrame(cfg, c, input, o);
    KeeperClock(cfg, c, input, o);
    KeeperStreams(cfg, c, input, o);
    KeeperKeepsChannel(cfg, c, input, o);
    if input.Received? {
      KeeperReadMovesOn(cfg, c, input.frame, o, read);
    } else if Early(c.handler) {
      KeeperEarlyMovesOn(cfg, c, input, o, read);
    } else {
      KeeperLateMovesOn(cfg, c, input, o, read);
    }
  }

  lemma KeeperAloneMoves(n: nat, c: Client, after: Client, read: nat, more: nat)
    requires c.chan.Valid() && KeeperPlace(n, after, read + more) > KeeperPlace(n, c, read)
    requires after.main == c.main && after.chan == c.chan && after.ends == c.ends && after.exited == c.exited
    requires after.timer == c.timer || c.timer.Unarmed?
    requires StreamPlaces(after.pcs, |after.pcs|) == StreamPlaces(c.pcs, |c.pcs|)
    ensures ClientDone(n, after, read + more) > ClientDone(n, c, read)
  {
    assert ClientMainPlace(n, after, c.chan.Popped()) == ClientMainPlace(n, c, c.chan.Popped());
  }

  lemma KeeperPlaceWorks(cfg: Config, c: Client, input: Input, o: ClientOutcome, read: nat, sent: nat)
    requires cfg.Valid() && c.chan.Valid() && ClientHandlerNext(cfg, c, input) == Some(o)
    requires ClientAt(cfg, c, read, sent, c.chan.Pushed(), c.chan.Popped())
    requires !Queues(c.handler)
    requires input.Received? ==> ToClientKind(read, input.frame)
    requires input.Received? && input.frame.ResultsFrame? ==> |input.frame.bytes| <= |c.pcs|
    requires input.Received? <==> !KeeperWants(c).NoRead?
    ensures o.side.chan.Valid()
    ensures ClientDone(cfg.N(), o.side, read + (if input.Received? then 1 else 0)) > ClientDone(cfg.N(), c, read)
  {
    KeeperMovesOn(cfg, c, input, o, read, sent, c.chan.Pushed(), c.chan.Popped());
    StreamPlacesSame(c.pcs, c.pcs + [Fresh], |c.pcs|);
    KeeperAloneMoves(cfg.N(), c, o.side, read, if input.Received? then 1 else 0);
  }

  lemma KeeperWorks(cfg: Config, c: Client, input: Input, o: ClientOutcome, read: nat, sent: nat)
    requires cfg.Valid() && ClientInv(cfg, c, read, sent) && ClientHandlerNext(cfg, c, input) == Some(o)
    requires o.side.chan.Valid()
    requires input.Received? ==> ToClientKind(read, input.frame)
    requires input.Received? && input.frame.ResultsFrame? ==> |input.frame.bytes| <= |c.pcs|
    requires input.Received? <==> !KeeperWants(c).NoRead?
    ensures ClientDone(cfg.N(), o.side, read + (if input.Received? then 1 else 0)) > ClientDone(cfg.N(), c, read)
  {
    if Queues(c.handler) {
      KeeperPushWorks(cfg, c, input, o, read);
    } else {
      KeeperPlaceWorks(cfg, c, input, o, read, sent);
    }
  }

  lemma ClientSamePlaces(n: nat, c: Client, after: Client, read: nat, popped: nat)
    requires after.main == c.main && after.handler == c.handler && after.ends == c.ends && |after.pcs| == |c.pcs|
    ensures ClientMainPlace(n, after, popped) == ClientMainPlace(n, c, popped)
    ensures KeeperPlace(n, after, read) == KeeperPlace(n, c, read)
  {
  }

  lemma ClientStreamWorks(cfg: Config, c: Client, i: nat, o: ClientOutcome, read: nat)
    requires c.chan.Valid() && ClientStreamNext(cfg, c, i) == Some(o)
    ensures o.side.chan.Valid() && ClientDone(cfg.N(), o.side, read) > ClientDone(cfg.N(), c, read)
  {
    ClientPushes(c.chan, TEST_END);
    ClientSamePlaces(cfg.N(), c, o.side, read, c.chan.Popped());
    StreamPlacesUpdate(c.pcs, i, o.side.pcs[i], |c.pcs|);
  }

  lemma ClientStreamFailWorks(cfg: Config, c: Client, i: nat, o: ClientOutcome, read: nat)
    requires c.chan.Valid() && ClientStreamFails(cfg, c, i) == Some(o)
    ensures o.side.chan.Valid() && ClientDone(cfg.N(), o.side, read) > ClientDone(cfg.N(), c, read)
  {
    ClientSamePlaces(cfg.N(), c, o.side, read, c.chan.Popped());
    StreamPlacesUpdate(c.pcs, i, Failed, |c.pcs|);
  }

  lemma TimerRaceWorks(cfg: Config, c: Client, o: ClientOutcome, read: nat, sent: nat)
    requires c.chan.Valid() && ClientAt(cfg, c, read, sent, c.chan.Pushed(), c.chan.Popped())
    requires TimerRaces(cfg, c) == Some(o)
    ensures o.side.chan.Valid() && ClientDone(cfg.N(), o.side, read) > ClientDone(cfg.N(), c, read)
  {
    assert read == 3 && c.timer.Unarmed?;
    assert ClientMainPlace(cfg.N(), o.side, c.chan.Popped()) == ClientMainPlace(cfg.N(), c, c.chan.Popped());
  }

  lemma ServerMainStepWorks(cfg: Config, st: State, next: State)
    requires Inv(cfg, st) && Step(cfg, st, ServerMainStep) == Some(next)
    requires next.world.server.chan.Valid() && next.world.client.chan.Valid()
    ensures ServerDone(cfg.N(), next.world.server, next.toServer.taken)
            > ServerDone(cfg.N(), st.world.server, st.toServer.taken)
    ensures next.world.client == st.world.client && next.toClient.taken == st.toClient.taken
  {
    hide Wired, ServerInv, ClientInv, ServerMainNext, ServerDone;
    NoGarbage(cfg, st, ServerMainStep);
    var o, read := ServerStep(cfg, st, ServerMainStep, next);
    ServerMainWorks(cfg, st.world.server, |st.world.client.pcs|, InputOf(cfg, st, ServerMainStep), o,
                    st.toServer.taken, |st.toClient.frames|);
  }

  lemma HandlerReadWorks(cfg: Config, st: State, input: Input, o: ServerOutcome)
    requires Inv(cfg, st) && ServerHandlerNext(cfg, st.world.server, input) == Some(o) && o.side.chan.Valid()
    requires input.Received? <==> !HandlerWants(st.world.server).NoRead?
    requires input.Received? ==> st.toServer.taken < |st.toServer.frames|
                                 && input == Received(st.toServer.frames[st.toServer.taken])
    ensures ServerDone(cfg.N(), o.side, st.toServer.taken + (if input.Received? then 1 else 0))
            > ServerDone(cfg.N(), st.world.server, st.toServer.taken)
  {
    hide Wired, ServerInv, ClientInv, ServerHandlerNext, ServerDone;
    if input.Received? {
      HandlerExpects(cfg, st);
    }
    ServerHandlerWorks(cfg, st.world.server, input, o, st.toServer.taken, |st.toClient.frames|);
  }

  lemma ServerHandlerStepWorks(cfg: Config, st: State, next: State)
    requires Inv(cfg, st) && Step(cfg, st, ServerHandlerStep) == Some(next)
    requires next.world.server.chan.Valid() && next.world.client.chan.Valid()
    ensures ServerDone(cfg.N(), next.world.server, next.toServer.taken)
            > ServerDone(cfg.N(), st.world.server, st.toServer.taken)
    ensures next.world.client == st.world.client && next.toClient.taken == st.toClient.taken
  {
    hide Wired, ServerInv, ClientInv, ServerHandlerNext, ServerDone;
    NoGarbage(cfg, st, ServerHandlerStep);
    var input := InputOf(cfg, st, ServerHandlerStep);
    var o, read := ServerStep(cfg, st, ServerHandlerStep, next);
    assert (input.Received? <==> read == 1) && o.side == next.world.server;
    HandlerReadWorks(cfg, st, input, o);
  }

  lemma ServerLeavesWork(cfg: Config, s: Server, gone: bool, o: ServerOutcome, read: nat, sent: nat)
    requires cfg.Valid() && s.chan.Valid() && ServerAt(cfg, s, read, sent, s.chan.Pushed(), s.chan.Popped())
    requires ServerLeaves(s) == Some(o) || ServerHandlerBreaks(s, gone) == Some(o)
    ensures o.side.chan.Valid() && ServerDone(cfg.N(), o.side, read) > ServerDone(cfg.N(), s, read)
  {
    assert o.side.chan == s.chan && o.side.pcs == s.pcs;
    assert s.main.SLoop? || o.side.main == s.main;
  }

  lemma ServerQuietWorks(cfg: Config, st: State, a: Action, next: State)
    requires Inv(cfg, st) && Step(cfg, st, a) == Some(next)
    requires a.ServerStreamStep? || a.ServerStreamFail? || a.ServerMainLeave? || a.ServerHandlerBroken?
    requires next.world.server.chan.Valid() && next.world.client.chan.Valid()
    ensures WorkDone(cfg, next) > WorkDone(cfg, st)
  {
    var o := ServerQuietStep(cfg, st, a, next);
    if a.ServerStreamStep? || a.ServerStreamFail? {
      ServerStreamWorks(cfg, st.world.server, a.i, o, st.toServer.taken);
    } else {
      ServerLeavesWork(cfg, st.world.server, st.world.client.gone, o, st.toServer.taken, |st.toClient.frames|);
    }
  }

  lemma ServerControlWorks(cfg: Config, st: State, a: Action, next: State)
    requires Inv(cfg, st) && Step(cfg, st, a) == Some(next) && a.IsControl() && !a.IsClient() && !a.ClientExits?
    requires next.world.server.chan.Valid() && next.world.client.chan.Valid()
    ensures WorkDone(cfg, next) > WorkDone(cfg, st)
  {
    if a.ServerMainStep? {
      ServerMainStepWorks(cfg, st, next);
    } else if a.ServerHandlerStep? {
      ServerHandlerStepWorks(cfg, st, next);
    } else {
      ServerQuietWorks(cfg, st, a, next);
    }
  }

  lemma {:induction false} TurnedPlaces(pcs: seq<StreamPc>, after: seq<StreamPc>, k: nat)
    requires Turned(pcs, after) && k <= |pcs|
    ensures StreamPlaces(after, k) == StreamPlaces(pcs, k)
  {
    if k > 0 {
      TurnedPlaces(pcs, after, k - 1);
    }
  }

  lemma ServerSameWork(n: nat, s: Server, after: Server, read: nat)
    requires s.chan.Valid() && after == s.(data := after.data, pcs := after.pcs) && Turned(s.pcs, after.pcs)
    ensures ServerDone(n, after, read) == ServerDone(n, s, read)
  {
    TurnedPlaces(s.pcs, after.pcs, |s.pcs|);
    ServerSamePlaces(n, s, after, read, s.chan.Popped());
  }

  lemma ClientSameWork(n: nat, c: Client, after: Client, read: nat)
    requires c.chan.Valid() && after == c.(data := after.data, pcs := after.pcs) && Turned(c.pcs, after.pcs)
    ensures ClientDone(n, after, read) == ClientDone(n, c, read)
  {
    TurnedPlaces(c.pcs, after.pcs, |c.pcs|);
    ClientSamePlaces(n, c, after, read, c.chan.Popped());
  }

  lemma DataWorks(cfg: Config, st: State, a: Action, next: State)
    requires st.world.server.data.Sized(|st.world.server.pcs|) && st.world.client.data.Sized(|st.world.client.pcs|)
    requires st.world.server.chan.Valid() && st.world.client.chan.Valid()
    requires Step(cfg, st, a) == Some(next) && !a.IsControl()
    requires next.world.server.chan.Valid() && next.world.client.chan.Valid()
    ensures WorkDone(cfg, next) == WorkDone(cfg, st)
  {
    DataStep(cfg, st, a, next);
    DataInv(cfg, st.world, a, next.world);
    ServerSameWork(cfg.N(), st.world.server, next.world.server, st.toServer.taken);
    ClientSameWork(cfg.N(), st.world.client, next.world.client, st.toClient.taken);
  }

  lemma ClientMainStepWorks(cfg: Config, st: State, next: State)
    requires Inv(cfg, st) && Step(cfg, st, ClientMainStep) == Some(next)
    requires next.world.server.chan.Valid() && next.world.client.chan.Valid()
    ensures ClientDone(cfg.N(), next.world.client, next.toClient.taken)
            > ClientDone(cfg.N(), st.world.client, st.toClient.taken)
    ensures next.world.server == st.world.server && next.toServer.taken == st.toServer.taken
  {
    hide Wired, ServerInv, ClientInv, ClientMainNext, ClientDone;
    var o, read := ClientStep(cfg, st, ClientMainStep, next);
    ClientMainWorks(cfg, st.world.client, o, st.toClient.taken, |st.toServer.frames|);
  }

  lemma KeeperReadWorks(cfg: Config, st: State, input: Input, o: ClientOutcome)
    requires Inv(cfg, st) && ClientHandlerNext(cfg, st.world.client, input) == Some(o) && o.side.chan.Valid()
    requires input.Received? <==> !KeeperWants(st.world.client).NoRead?
    requires input.Received? ==> st.toClient.taken < |st.toClient.frames|
                                 && input == Received(st.toClient.frames[st.toClient.taken])
    ensures ClientDone(cfg.N(), o.side, st.toClient.taken + (if input.Received? then 1 else 0))
            > ClientDone(cfg.N(), st.world.client, st.toClient.taken)
  {
    hide Wired, ServerInv, ClientInv, ClientHandlerNext, ClientDone;
    if input.Received? {
      KeeperExpects(cfg, st);
    }
    KeeperWorks(cfg, st.world.client, input, o, st.toClient.taken, |st.toServer.frames|);
  }

  lemma KeeperStepWorks(cfg: Config, st: State, next: State)
    requires Inv(cfg, st) && Step(cfg, st, ClientHandlerStep) == Some(next)
    requires next.world.server.chan.Valid() && next.world.client.chan.Valid()
    ensures ClientDone(cfg.N(), next.world.client, next.toClient.taken)
            > ClientDone(cfg.N(), st.world.client, st.toClient.taken)
    ensures next.world.server == st.world.server && next.toServer.taken == st.toServer.taken
  {
    hide Wired, ServerInv, ClientInv, ClientHandlerNext, ClientDone;
    NoGarbage(cfg, st, ClientHandlerStep);
    var o, read := ClientStep(cfg, st, ClientHandlerStep, next);
    KeeperReadWorks(cfg, st, InputOf(cfg, st, ClientHandlerStep), o);
  }

  lemma ClientQuietWorks(cfg: Config, st: State, a: Action, next: State)
    requires Inv(cfg, st) && Step(cfg, st, a) == Some(next) && a.IsClientQuiet()
    requires next.world.server.chan.Valid() && next.world.client.chan.Valid()
    ensures WorkDone(cfg, next) > WorkDone(cfg, st)
  {
    hide Step, Wired, ServerInv;
    var o := ClientQuietStep(cfg, st, a, next);
    if a.ClientStreamStep? {
      ClientStreamWorks(cfg, st.world.client, a.i, o, st.toClient.taken);
    } else if a.ClientStreamFail? {
      ClientStreamFailWorks(cfg, st.world.client, a.i, o, st.toClient.taken);
    } else if a.TimerLost? {
      TimerRaceWorks(cfg, st.world.client, o, st.toClient.taken, |st.toServer.frames|);
    } else {
      ClientSamePlaces(cfg.N(), st.world.client, o.side, st.toClient.taken, st.world.client.chan.Popped());
    }
  }

  /** Data actions do no control work; every control action does some. */
  lemma StepWorks(cfg: Config, st: State, a: Action, next: State)
    requires Inv(cfg, st) && Step(cfg, st, a) == Some(next)
    requires next.world.server.chan.Valid() && next.world.client.chan.Valid()
    ensures a.IsControl() ==> WorkDone(cfg, next) > WorkDone(cfg, st)
    ensures !a.IsControl() ==> WorkDone(cfg, next) == WorkDone(cfg, st)
  {
    if !a.IsControl() {
      DataWorks(cfg, st, a, next);
    } else if a.ClientMainStep? {
      ClientMainStepWorks(cfg, st, next);
    } else if a.ClientHandlerStep? {
      KeeperStepWorks(cfg, st, next);
    } else if a.IsClientQuiet() {
      ClientQuietWorks(cfg, st, a, next);
    } else {
      ServerControlWorks(cfg, st, a, next);
    }
  }

  // ---------- some goroutine can always go on ----------

  /** A goroutine whose function has a next step, and whose frame, if it waits for one, has arrived, can step. */
  lemma Enable(cfg: Config, st: State, a: Action)
    requires a.IsClient() ==> !st.world.client.exited
    requires InputOf(cfg, st, a) != Garbage && (!Wants(st.world, a).NoRead? ==> InputOf(cfg, st, a).Received?)
    requires Act(cfg, st.world, a, InputOf(cfg, st, a)).Some?
    ensures Step(cfg, st, a).Some?
  {
  }

  /** A goroutine is at a statement that panics: asking a protocol without code for its name, allocating a buffer that
      is too large, or starting an interval ticker or a sender's ticker with a period that is not positive. */
  predicate Panics(cfg: Config, st: State) {
    var s, c := st.world.server, st.world.client;
    || (c.handler.KPutParams? && !cfg.Named())
    || (c.handler.KConnect? && |c.pcs| < cfg.N() && !Allocates(cfg.params))
    || (s.main.SAccept? && |s.pcs| < cfg.N() && !Allocates(cfg.params))
    || (s.main.SInit? && !cfg.Ticks())
    || (c.handler.KStart? && !cfg.Ticks())
    || (s.main.SLaunch? && s.main.next < |s.pcs| && s.sender && !cfg.Paced())
    || (c.main.CLaunch? && c.main.next < |c.pcs| && c.sender && !cfg.Paced())
  }

  predicate ServerMainBlocked(cfg: Config, st: State) {
    var s := st.world.server;
    || (s.main.SGetParams? && st.toServer.taken == |st.toServer.frames|)
    || (s.main.SLoop? && s.chan.Empty())
    || (s.main.SAccept? && |s.pcs| == |st.world.client.pcs| < cfg.N())
    || (s.main.SAwaitHandler? && !s.handler.HReturned?)
    || s.main.SLeft?
  }

  predicate HandlerBlocked(st: State) {
    var s := st.world.server;
    || s.handler.HIdle? || s.handler.HReturned?
    || (!HandlerWants(s).NoRead? && st.toServer.taken == |st.toServer.frames|)
    || (s.chan.Full() && (s.handler.HPushDone? || (s.handler.HSend? && s.handler.at.Enqueue?)))
  }

  predicate ClientMainBlocked(st: State) {
    st.world.client.main.CReturned? || (st.world.client.main.CLoop? && st.world.client.chan.Empty())
  }

  predicate KeeperBlocked(st: State) {
    var c := st.world.client;
    c.exited || c.handler.KReturned? || (!KeeperWants(c).NoRead? && st.toClient.taken == |st.toClient.frames|)
  }

  /** Main loops and handlers all wait. */
  predicate AllBlocked(cfg: Config, st: State) {
    && ServerMainBlocked(cfg, st) && HandlerBlocked(st) && ClientMainBlocked(st) && KeeperBlocked(st)
    && !(st.world.server.main.SLoop? && st.world.server.handler.HReturned?)
  }

  /** While its streams have not been started the server's channel holds control values only. */
  lemma ServerRoom(cfg: Config, s: Server, read: nat, sent: nat)
    requires cfg.Valid() && ServerInv(cfg, s, read, sent)
    ensures s.main.SSend? ==> !s.chan.Full()
    ensures |s.chan.sent| - s.chan.taken <= s.chan.Pushed() - s.chan.Popped() + Count(s.pcs, Finished)
    ensures s.chan.Popped() <= s.chan.Pushed()
    ensures s.chan.Empty() ==> s.chan.Popped() == s.chan.Pushed()
  {
    PushFacts(s.chan, TEST_END);
    CountBounds(s.pcs, Finished, |s.pcs|);
  }

  predicate Pushes(h: ClientHandler) { h.KPushRunning? || h.KSend? || h.KPushClosed? || h.KPushExit? }

  /** Neither the client's main loop nor its handler ever finds the channel full. */
  lemma ClientRoom(cfg: Config, c: Client, read: nat, sent: nat)
    requires cfg.Valid() && ClientInv(cfg, c, read, sent)
    ensures c.main.CSend? || Pushes(c.handler) ==> !c.chan.Full()
    ensures c.chan.Empty() ==> c.chan.Popped() == c.chan.Pushed() && c.chan.EndsPushed() == c.ends
  {
    ClientFacts(cfg, c, read, sent);
    ClientPushes(c.chan, TEST_END);
    CountBounds(c.pcs, Finished, |c.pcs|);
  }

  lemma ServerMainRuns(cfg: Config, st: State)
    requires Inv(cfg, st) && !Panics(cfg, st) && !ServerMainBlocked(cfg, st)
    ensures Step(cfg, st, ServerMainStep).Some?
  {
    hide Step, Framed, Lengths, ServerTables, ClientInv;
    NoGarbage(cfg, st, ServerMainStep);
    ServerRoom(cfg, st.world.server, st.toServer.taken, |st.toClient.frames|);
    Enable(cfg, st, ServerMainStep);
  }

  lemma HandlerRuns(cfg: Config, st: State)
    requires Inv(cfg, st) && !HandlerBlocked(st)
    ensures Step(cfg, st, ServerHandlerStep).Some?
  {
    hide Step, Lengths, ServerTables, ClientInv;
    NoGarbage(cfg, st, ServerHandlerStep);
    Enable(cfg, st, ServerHandlerStep);
  }

  lemma ClientMainRuns(cfg: Config, st: State)
    requires Inv(cfg, st) && !Panics(cfg, st) && !ClientMainBlocked(st)
    ensures Step(cfg, st, ClientMainStep).Some?
  {
    hide Step, Wired, ServerInv;
    ClientRoom(cfg, st.world.client, st.toClient.taken, |st.toServer.frames|);
    Enable(cfg, st, ClientMainStep);
  }

  lemma KeeperReady(cfg: Config, c: Client, input: Input)
    requires !c.handler.KReturned? && !c.handler.KUnexpected?
    requires Pushes(c.handler) ==> !c.chan.Full()
    requires c.handler.KStart? ==> cfg.Ticks()
    requires c.handler.KPutParams? ==> cfg.Named()
    requires c.handler.KConnect? && |c.pcs| < cfg.N() ==> Allocates(cfg.params)
    requires c.handler.KRead? ==> input.Received? && input.frame.StateFrame?
    requires c.handler.KGetLength? ==> input.Received? && input.frame.LengthFrame?
    requires c.handler.KGetResults? ==> input.Received? && input.frame.ResultsFrame?
    ensures ClientHandlerNext(cfg, c, input).Some?
  {
    match c.handler
    case KSend(_) =>
    case _ =>
  }

  /** What a handler that is not blocked finds. */
  lemma KeeperFinds(cfg: Config, st: State, input: Input)
    requires Inv(cfg, st) && !KeeperBlocked(st) && input == InputOf(cfg, st, ClientHandlerStep)
    ensures input != Garbage && !st.world.client.handler.KUnexpected?
    ensures st.world.client.handler.KRead? ==> input.Received? && input.frame.StateFrame?
    ensures st.world.client.handler.KGetLength? ==> input.Received? && input.frame.LengthFrame?
    ensures st.world.client.handler.KGetResults? ==> input.Received? && input.frame.ResultsFrame?
    ensures Pushes(st.world.client.handler) ==> !st.world.client.chan.Full()
  {
    NoGarbage(cfg, st, ClientHandlerStep);
    ClientRoom(cfg, st.world.client, st.toClient.taken, |st.toServer.frames|);
  }

  lemma KeeperEnabled(cfg: Config, st: State, input: Input)
    requires input == InputOf(cfg, st, ClientHandlerStep) != Garbage && !st.world.client.exited
    requires ClientHandlerNext(cfg, st.world.client, input).Some?
    requires !KeeperWants(st.world.client).NoRead? ==> input.Received?
    ensures Step(cfg, st, ClientHandlerStep).Some?
  {
  }

  lemma KeeperRuns(cfg: Config, st: State)
    requires Inv(cfg, st) && !Panics(cfg, st) && !KeeperBlocked(st)
    ensures Step(cfg, st, ClientHandlerStep).Some?
  {
    var input := InputOf(cfg, st, ClientHandlerStep);
    KeeperFinds(cfg, st, input);
    KeeperReady(cfg, st.world.client, input);
    KeeperEnabled(cfg, st, input);
  }

  /** The main loop that has taken the first IPERF_DONE waits for a handler that needs one more slot; while at most four
      streams have posted there is one. */
  lemma HandlerHasRoom(cfg: Config, s: Server, read: nat, sent: nat)
    requires cfg.Valid() && ServerInv(cfg, s, read, sent) && s.main.SAwaitHandler?
    requires Count(s.pcs, Finished) < CTRL_CHAN_CAPACITY
    ensures s.handler.HPushDone? ==> !s.chan.Full()
    ensures s.handler.HSend? ==> s.handler.at.Transmit?
    ensures s.handler.HPushDone? || s.handler.HReturned? || s.handler.HSend? || s.handler.HRead?
    ensures s.handler.HRead? || s.handler.HSend? ==> read == 4
  {
    ServerRoom(cfg, s, read, sent);
  }

  /** A blocked server that has not left its loop waits for the client: for a frame, for a connection or for the end of
      the test. */
  lemma ServerWaits(cfg: Config, st: State)
    requires Inv(cfg, st) && Count(st.world.server.pcs, Finished) < CTRL_CHAN_CAPACITY
    requires ServerMainBlocked(cfg, st) && HandlerBlocked(st)
    requires !(st.world.server.main.SLoop? && st.world.server.handler.HReturned?) && !st.world.server.main.SLeft?
    ensures || (st.toServer.taken == |st.toServer.frames|)
            || (st.world.server.main.SAccept? && |st.world.server.pcs| == |st.world.client.pcs| < cfg.N())
    ensures st.toServer.taken <= 4
    ensures st.toServer.taken == 0 ==> |st.toClient.frames| == 1
    ensures st.toServer.taken == 1 ==> |st.toClient.frames| == 2 || |st.toClient.frames| == 4
    ensures st.toServer.taken == 1 && |st.toClient.frames| == 2 ==> |st.world.client.pcs| < cfg.N()
    ensures st.toServer.taken == 1 && |st.toClient.frames| == 4 ==>
              st.toServer.taken == |st.toServer.frames| && st.world.server.chan.Popped() == 4
              && st.world.server.main.SLoop?
    ensures st.toServer.taken == 2 || st.toServer.taken == 3 ==> |st.toClient.frames| == 5
    ensures st.toServer.taken == 4 ==> |st.toClient.frames| == 9
  {
    var s := st.world.server;
    ServerRoom(cfg, s, st.toServer.taken, |st.toClient.frames|);
    if s.main.SAwaitHandler? {
      HandlerHasRoom(cfg, s, st.toServer.taken, |st.toClient.frames|);
    }
  }

  /** Everybody waits for the client's streams: they have all been started, on both sides, and the client has neither
      counted a TEST_END from all of them nor told the server. */
  predicate StreamsDue(cfg: Config, st: State) {
    var s, c := st.world.server, st.world.client;
    && AllBlocked(cfg, st)
    && c.main.CLoop? && c.chan.Empty() && !c.exited && c.handler.KRead?
    && st.toClient.taken == 4 && |st.toServer.frames| == 1 && st.toServer.taken == 1
    && s.main.SLoop? && s.handler.HRead? && !s.done && !s.closed
    && |s.pcs| == |c.pcs| == cfg.N()
    && NoneFresh(s.pcs) && NoneFresh(c.pcs)
  }

  lemma BreaksEnabled(cfg: Config, st: State)
    requires ServerHandlerBreaks(st.world.server, st.world.client.gone).Some?
    ensures Step(cfg, st, ServerHandlerBroken).Some?
  {
  }

  lemma GoneIsSeen(cfg: Config, st: State)
    requires Inv(cfg, st) && Count(st.world.server.pcs, Finished) < CTRL_CHAN_CAPACITY && !Complete(st)
    requires AllBlocked(cfg, st) && st.world.client.gone && !st.world.server.main.SLeft?
    ensures Step(cfg, st, ServerHandlerBroken).Some?
  {
    hide Step, Framed, Lengths, ServerTables, ClientTables;
    ClientRoom(cfg, st.world.client, st.toClient.taken, |st.toServer.frames|);
    ServerWaits(cfg, st);
    BreaksEnabled(cfg, st);
  }

  lemma LeftIsComplete(cfg: Config, st: State)
    requires Inv(cfg, st) && AllBlocked(cfg, st) && st.world.server.main.SLeft?
    ensures Complete(st)
  {
    ClientRoom(cfg, st.world.client, st.toClient.taken, |st.toServer.frames|);
    ClientFacts(cfg, st.world.client, st.toClient.taken, |st.toServer.frames|);
  }

  /** When all wait, either the handler can see that the client has gone, or the streams are due. */
  lemma AllWait(cfg: Config, st: State)
    requires Inv(cfg, st) && Count(st.world.server.pcs, Finished) < CTRL_CHAN_CAPACITY && !Complete(st)
    requires AllBlocked(cfg, st)
    ensures st.world.client.gone ==> Step(cfg, st, ServerHandlerBroken).Some?
    ensures !st.world.client.gone ==> StreamsDue(cfg, st)
  {
    hide Step;
    if st.world.server.main.SLeft? {
      LeftIsComplete(cfg, st);
    } else if st.world.client.gone {
      GoneIsSeen(cfg, st);
    } else {
      ClientRoom(cfg, st.world.client, st.toClient.taken, |st.toServer.frames|);
      ClientFacts(cfg, st.world.client, st.toClient.taken, |st.toServer.frames|);
      ServerWaits(cfg, st);
    }
  }

  /** While at most four server streams have posted their TEST_END and nothing has panicked, either the client's
      streams are due or some control action is enabled that is not one of the streams'. */
  lemma SomeoneGoesOn(cfg: Config, st: State) returns (a: Action)
    requires Inv(cfg, st) && Count(st.world.server.pcs, Finished) < CTRL_CHAN_CAPACITY && !Complete(st)
    requires !Panics(cfg, st) && !StreamsDue(cfg, st)
    ensures Step(cfg, st, a).Some?
    ensures a.ServerMainStep? || a.ServerHandlerStep? || a.ServerMainLeave? || a.ClientMainStep? || a.ClientHandlerStep?
            || a.ServerHandlerBroken?
    ensures a.ServerMainStep? || ServerMainBlocked(cfg, st)
    ensures a.ServerHandlerBroken? ==> st.world.client.gone && HandlerBlocked(st)
  {
    hide Inv, Panics, StreamsDue, ServerMainBlocked, ClientMainBlocked;
    var s, c := st.world.server, st.world.client;
    if !ServerMainBlocked(cfg, st) {
      a := ServerMainStep;
      ServerMainRuns(cfg, st);
    } else if !HandlerBlocked(st) {
      a := ServerHandlerStep;
      HandlerRuns(cfg, st);
    } else if s.main.SLoop? && s.handler.HReturned? {
      a := ServerMainLeave;
      Enable(cfg, st, a);
    } else if !ClientMainBlocked(st) {
      a := ClientMainStep;
      ClientMainRuns(cfg, st);
    } else if !KeeperBlocked(st) {
      a := ClientHandlerStep;
      KeeperRuns(cfg, st);
    } else {
      a := ServerHandlerBroken;
      AllWait(cfg, st);
    }
  }

  // ---------- whole runs ----------

  function ControlSteps(acts: seq<Action>): nat {
    if acts == [] then 0 else (if acts[0].IsControl() then 1 else 0) + ControlSteps(acts[1..])
  }

  lemma {:induction false} RunWorks(cfg: Config, st: State, acts: seq<Action>, target: State)
    requires Inv(cfg, st) && Run(cfg, st, acts) == Some(target)
    ensures Inv(cfg, target) && WorkDone(cfg, st) + ControlSteps(acts) <= WorkDone(cfg, target)
    decreases |acts|
  {
    hide Step;
    if acts != [] {
      var next := Step(cfg, st, acts[0]).value;
      StepKeepsInv(cfg, st, acts[0], next);
      StepWorks(cfg, st, acts[0], next);
      RunWorks(cfg, next, acts[1..], target);
    }
  }

  /** Termination, for any number of streams: no run takes more than 94 + 12 N control actions. */
  lemma RunsAreBounded(cfg: Config, prior: Params, sender: bool, acts: seq<Action>, target: State)
    requires cfg.Valid() && Run(cfg, Initial(cfg, prior, sender), acts) == Some(target)
    ensures ControlSteps(acts) <= WorkLimit(cfg)
  {
    InitialInv(cfg, prior, sender);
    RunWorks(cfg, Initial(cfg, prior, sender), acts, target);
    WorkBounded(cfg, target);
  }
}
