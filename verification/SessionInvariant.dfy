/** The inductive invariant of a session: where each goroutine is decides what it has written, read and enqueued. */
module SessionInvariant {
  import opened States
  import opened Channels
  import opened Session

  // ---------- counting goroutines ----------

  /** How many of the first `k` stream goroutines are at program point `p`. */
  function CountUpTo(pcs: seq<StreamPc>, p: StreamPc, k: nat): nat
    requires k <= |pcs|
  {
    if k == 0 then 0 else CountUpTo(pcs, p, k - 1) + if pcs[k - 1] == p then 1 else 0
  }

  function Count(pcs: seq<StreamPc>, p: StreamPc): nat { CountUpTo(pcs, p, |pcs|) }

  lemma {:induction false} CountUpToSame(pcs: seq<StreamPc>, other: seq<StreamPc>, p: StreamPc, k: nat)
    requires k <= |pcs| && k <= |other| && forall i :: 0 <= i < k ==> pcs[i] == other[i]
    ensures CountUpTo(pcs, p, k) == CountUpTo(other, p, k)
  {
    if k > 0 {
      CountUpToSame(pcs, other, p, k - 1);
    }
  }

  lemma CountAppend(pcs: seq<StreamPc>, q: StreamPc, p: StreamPc)
    ensures Count(pcs + [q], p) == Count(pcs, p) + if q == p then 1 else 0
  {
    CountUpToSame(pcs, pcs + [q], p, |pcs|);
  }

  lemma {:induction false} CountUpdateUpTo(pcs: seq<StreamPc>, i: nat, q: StreamPc, p: StreamPc, k: nat)
    requires i < k <= |pcs|
    ensures CountUpTo(pcs[i := q], p, k) + (if pcs[i] == p then 1 else 0)
            == CountUpTo(pcs, p, k) + if q == p then 1 else 0
  {
    if i == k - 1 {
      CountUpToSame(pcs, pcs[i := q], p, i);
    } else {
      CountUpdateUpTo(pcs, i, q, p, k - 1);
    }
  }

  /** Moving one goroutine moves the counts by one. */
  lemma CountUpdate(pcs: seq<StreamPc>, i: nat, q: StreamPc, p: StreamPc)
    requires i < |pcs|
    ensures Count(pcs[i := q], p) + (if pcs[i] == p then 1 else 0) == Count(pcs, p) + if q == p then 1 else 0
  {
    CountUpdateUpTo(pcs, i, q, p, |pcs|);
  }

  lemma {:induction false} CountBounds(pcs: seq<StreamPc>, p: StreamPc, k: nat)
    requires k <= |pcs|
    ensures CountUpTo(pcs, p, k) <= k
    ensures CountUpTo(pcs, p, k) == k <==> forall i :: 0 <= i < k ==> pcs[i] == p
    ensures CountUpTo(pcs, p, k) == 0 <==> forall i :: 0 <= i < k ==> pcs[i] != p
  {
    if k > 0 {
      CountBounds(pcs, p, k - 1);
    }
  }

  predicate InLoop(p: StreamPc) { p.Running? || p.Testing? }

  /** Goroutines that have gone around their loops, and nothing else. */
  predicate Turned(pcs: seq<StreamPc>, after: seq<StreamPc>) {
    && |after| == |pcs|
    && forall i :: 0 <= i < |pcs| ==> after[i] == pcs[i] || (InLoop(pcs[i]) && InLoop(after[i]))
  }

  lemma {:induction false} TurnedCount(pcs: seq<StreamPc>, after: seq<StreamPc>, k: nat)
    requires Turned(pcs, after) && k <= |pcs|
    ensures CountUpTo(after, Finished, k) == CountUpTo(pcs, Finished, k)
  {
    if k > 0 {
      TurnedCount(pcs, after, k - 1);
    }
  }

  predicate AllFresh(pcs: seq<StreamPc>) { forall i :: 0 <= i < |pcs| ==> pcs[i] == Fresh }

  predicate NoneFresh(pcs: seq<StreamPc>) { forall i :: 0 <= i < |pcs| ==> pcs[i] != Fresh }

  // ---------- what the server has done, by program point ----------

  /** Position of a state among the server's state messages. */
  function Rank(v: nat): nat {
    if v == IPERF_EXCHANGE_PARAMS then 0
    else if v == IPERF_CREATE_STREAM then 1
    else if v == TEST_START then 2
    else if v == TEST_RUNNING then 3
    else if v == IPERF_EXCHANGE_RESULT then 4
    else if v == IPERF_DISPLAY_RESULT then 5
    else 6
  }

  /** The values the server enqueues on its own channel, in order, TEST_ENDs aside. */
  function ServerValue(k: nat): nat {
    if k == 0 then IPERF_EXCHANGE_PARAMS
    else if k == 1 then IPERF_CREATE_STREAM
    else if k == 2 then TEST_START
    else if k == 3 then TEST_RUNNING
    else if k == 4 then IPERF_EXCHANGE_RESULT
    else if k == 5 then IPERF_DISPLAY_RESULT
    else IPERF_DONE
  }

  /** The same for the client: TEST_RUNNING, and IPERF_DONE three times. */
  function ClientValue(k: nat): nat { if k == 0 then TEST_RUNNING else IPERF_DONE }

  predicate ServerScripted(h: seq<nat>) {
    forall k :: 0 <= k < |h| ==> h[k] == TEST_END || h[k] == ServerValue(Controls(h, k))
  }

  predicate ClientScripted(h: seq<nat>) {
    forall k :: 0 <= k < |h| ==> h[k] == TEST_END || h[k] == ClientValue(Controls(h, k))
  }

  /** Frames written by the server's main loop. */
  function MainSent(s: Server): nat {
    match s.main
    case SSend(v, _) => Rank(v)
    case SGetParams => 1
    case SLoop => if |s.pcs| == 0 then 2 else 4
    case SAccept => 2
    case SInit => 3
    case _ => 4
  }

  function MainPushed(s: Server): nat {
    MainSent(s) + if s.main.SSend? && s.main.at.Transmit? then 1 else 0
  }

  /** Frames written by the server's handler; `read` is how many frames the server has read. */
  function HandlerSent(s: Server, read: nat): nat {
    match s.handler
    case HRead => if read == 1 then 0 else 5
    case HSend(v, _) => if v == IPERF_EXCHANGE_RESULT then 0 else if v == IPERF_DISPLAY_RESULT then 3 else 4
    case HGetLength => 1
    case HGetResults(_) => 1
    case HPutLength => 1
    case HPutResults(_) => 2
    case HPushDone => 5
    case _ => 0
  }

  function HandlerPushed(s: Server, read: nat): nat {
    match s.handler
    case HRead => if read == 1 then 0 else 3
    case HSend(v, at) =>
      (if v == IPERF_EXCHANGE_RESULT then 0 else if v == IPERF_DISPLAY_RESULT then 1 else 2)
      + if at.Transmit? then 1 else 0
    case HGetLength => 1
    case HGetResults(_) => 1
    case HPutLength => 1
    case HPutResults(_) => 1
    case HPushDone => 3
    case _ => 0
  }

  /** `test.state` on the server while only the main loop sets it. */
  function MainStateAt(s: Server): nat {
    match s.main
    case SSend(v, at) =>
      if !at.Assign? then v
      else if v == IPERF_EXCHANGE_PARAMS then IPERF_START
      else if v == IPERF_CREATE_STREAM then IPERF_EXCHANGE_PARAMS
      else if v == TEST_START then IPERF_CREATE_STREAM
      else TEST_START
    case SGetParams => IPERF_EXCHANGE_PARAMS
    case SAccept => IPERF_CREATE_STREAM
    case SInit => TEST_START
    case SLoop => if |s.pcs| == 0 then IPERF_CREATE_STREAM else TEST_RUNNING
    case _ => TEST_RUNNING
  }

  /** `test.state` on the server. */
  function ServerStateAt(s: Server, read: nat): nat {
    match s.handler
    case HMarkDone => TEST_END
    case HStats => TEST_END
    case HCloseStreams => TEST_END
    case HGetLength => IPERF_EXCHANGE_RESULT
    case HGetResults(_) => IPERF_EXCHANGE_RESULT
    case HPutLength => IPERF_EXCHANGE_RESULT
    case HPutResults(_) => IPERF_EXCHANGE_RESULT
    case HSend(v, at) =>
      if !at.Assign? then v
      else if v == IPERF_EXCHANGE_RESULT then TEST_END
      else if v == IPERF_DISPLAY_RESULT then IPERF_EXCHANGE_RESULT
      else IPERF_DISPLAY_RESULT
    case HPushDone => IPERF_DONE
    case HReturned => IPERF_DONE
    case _ => if read == 4 then IPERF_DONE else MainStateAt(s)
  }

  predicate MainBeforeParams(m: ServerMain) {
    m.SGetParams? || (m.SSend? && m.state == IPERF_EXCHANGE_PARAMS)
  }

  /** How much the server has read, decided by where its handler is. */
  predicate ServerRead(s: Server, read: nat) {
    match s.handler
    case HIdle => read == 0
    case HRead => read == 1 || read == 4
    case HMarkDone => read == 2
    case HStats => read == 2
    case HCloseStreams => read == 2
    case HSend(v, _) => if v == IPERF_EXCHANGE_RESULT then read == 2 else read == 4
    case HGetLength => read == 2
    case HGetResults(_) => read == 3
    case HPutLength => read == 4
    case HPutResults(_) => read == 4
    case HPushDone => read == 5
    case HReturned => read == 4 || read == 5
    case HUnexpected => false
  }

  /** How many control values the server's main loop has taken, decided by where it is. */
  predicate ServerPopped(s: Server, popped: nat) {
    match s.main
    case SSend(v, _) => popped == if v == IPERF_EXCHANGE_PARAMS || v == IPERF_CREATE_STREAM then 0 else 2
    case SGetParams => popped == 0
    case SLoop => if |s.pcs| == 0 then popped <= 1 else 2 <= popped <= 6
    case SAccept => popped == 2
    case SInit => popped == 2
    case SLaunch(_) => popped == 4
    case SAwaitHandler => popped == 7
    case SLeft => true
  }

  /** Program points, counters and scalar fields of the server. `read` and `sent` count frames, `pushed` and `popped`
      control values enqueued on and taken from the server's channel. */
  predicate ServerAt(cfg: Config, s: Server, read: nat, sent: nat, pushed: nat, popped: nat) {
    && (s.main.SSend? ==> s.main.state == IPERF_EXCHANGE_PARAMS || s.main.state == IPERF_CREATE_STREAM
                          || s.main.state == TEST_START || s.main.state == TEST_RUNNING)
    && (s.handler.HSend? ==> s.handler.state == IPERF_EXCHANGE_RESULT || s.handler.state == IPERF_DISPLAY_RESULT
                             || s.handler.state == IPERF_DONE)
    && (s.handler.HIdle? <==> MainBeforeParams(s.main))
    && ServerRead(s, read)
    && (read >= 2 ==> MainSent(s) == 4)
    && (if s.handler.HReturned? then 8 <= sent <= 9 && 7 <= pushed <= 8
        else sent == MainSent(s) + HandlerSent(s, read) && pushed == MainPushed(s) + HandlerPushed(s, read))
    && s.state == ServerStateAt(s, read)
    && (s.main.SLeft? ==> s.handler.HReturned?)
    && (s.done <==> read >= 2 && !s.handler.HMarkDone?)
    && (s.closed <==> read >= 2 && !s.handler.HMarkDone? && !s.handler.HStats? && !s.handler.HCloseStreams?)
    && ServerPopped(s, popped)
    && (!s.handler.HIdle? ==> s.settings == cfg.params && s.sender == cfg.params.reverse)
    && |s.pcs| <= cfg.N()
    && (MainSent(s) <= 1 ==> |s.pcs| == 0)
    && (MainSent(s) >= 3 || (s.main.SSend? && s.main.state == TEST_START) ==> |s.pcs| == cfg.N())
    && (s.main.SLaunch? ==> s.main.next <= |s.pcs|)
  }

  predicate LaunchedUpTo(pcs: seq<StreamPc>, k: nat) {
    forall i :: 0 <= i < |pcs| ==> (pcs[i] == Fresh <==> k <= i)
  }

  /** The server's stream table and the contents of its channel. */
  ghost predicate ServerTables(cfg: Config, s: Server, popped: nat) {
    && s.chan.Valid()
    && s.data.Sized(|s.pcs|)
    && (forall i :: 0 <= i < |s.pcs| ==> s.data.roles[i] == cfg.params.reverse)
    && (popped <= 3 ==> AllFresh(s.pcs))
    && (s.main.SLaunch? ==> LaunchedUpTo(s.pcs, s.main.next))
    && (popped >= 4 && !s.main.SLaunch? ==> NoneFresh(s.pcs))
    && ServerScripted(s.chan.sent)
    && s.chan.EndsPushed() == Count(s.pcs, Finished)
  }

  // ---------- what the client has done ----------

  /** The client has counted a TEST_END from every stream and sent its own. */
  predicate EndSent(cfg: Config, c: Client) {
    c.ends >= cfg.N() && !c.main.CMarkDone? && !c.main.CStats? && !c.main.CSend?
  }

  predicate EndPushed(cfg: Config, c: Client) {
    EndSent(cfg, c) || c.main == CSend(Transmit)
  }

  predicate EndAssigned(cfg: Config, c: Client) {
    EndPushed(cfg, c) || c.main == CSend(Enqueue)
  }

  predicate ClientRead(c: Client, read: nat) {
    match c.handler
    case KCheck => read <= 4 || read == 7 || read == 8
    case KRead => read <= 4 || read == 7
    case KPutParams => read == 1
    case KConnect => read == 2
    case KStart => read == 3
    case KPushRunning => read == 4
    case KPutLength => read == 5
    case KPutResults(_) => read == 5
    case KGetLength => read == 5
    case KGetResults(_) => read == 6
    case KUnexpected => false
    case _ => read == 8
  }

  /** Frames written by the client's handler. */
  function KeeperSent(c: Client, read: nat): nat {
    match c.handler
    case KCheck => if read == 0 then 0 else if read <= 4 then 1 else if read == 7 then 3 else 4
    case KRead => if read == 0 then 0 else if read <= 4 then 1 else 3
    case KPutParams => 0
    case KConnect => 1
    case KStart => 1
    case KPushRunning => 1
    case KPutLength => 1
    case KPutResults(_) => 2
    case KGetLength => 3
    case KGetResults(_) => 3
    case KCloseStreams => 3
    case KSend(_) => 3
    case _ => 4
  }

  function KeeperPushed(c: Client, read: nat): nat {
    match c.handler
    case KCheck => if read <= 3 then 0 else if read <= 7 then 1 else 3
    case KRead => if read <= 3 then 0 else 1
    case KPutParams => 0
    case KConnect => 0
    case KStart => 0
    case KPushRunning => 0
    case KSend(at) => if at.Transmit? then 2 else 1
    case KCloseConn => 2
    case KPushClosed => 2
    case KPushExit => 3
    case KReturned => 4
    case _ => 1
  }

  function ClientStateAt(cfg: Config, c: Client, read: nat): nat {
    if read == 0 then 0
    else if read == 1 then IPERF_EXCHANGE_PARAMS
    else if read == 2 then IPERF_CREATE_STREAM
    else if read == 3 then TEST_START
    else if read == 4 then (if EndAssigned(cfg, c) then TEST_END else TEST_RUNNING)
    else if read <= 7 then IPERF_EXCHANGE_RESULT
    else if c.handler.KCloseStreams? || c.handler == KSend(Assign) then IPERF_DISPLAY_RESULT
    else IPERF_DONE
  }

  /** Program points, counters and scalar fields of the client. */
  predicate ClientAt(cfg: Config, c: Client, read: nat, sent: nat, pushed: nat, popped: nat) {
    && ClientRead(c, read)
    && (read >= 5 ==> EndSent(cfg, c))
    && sent == KeeperSent(c, read) + (if EndSent(cfg, c) then 1 else 0)
    && pushed == KeeperPushed(c, read)
    && c.state == ClientStateAt(cfg, c, read)
    && (c.gone ==> read == 8)
    && (c.gone && !c.exited ==> KeeperSent(c, read) == 4)
    && (c.exited ==> c.main.CReturned? && c.gone)
    && (c.handler.KReturned? || c.handler.KPushExit? || c.handler.KPushClosed? ==> c.gone)
    && (c.handler.KCheck? && read == 8 ==> c.gone)
    && c.sender == !cfg.params.reverse
    && (read >= 4 || (read == 3 && !c.handler.KStart?) <==> !c.timer.Unarmed?)
    && (c.timer.Fired? ==> c.done) && (c.timer.Lost? ==> !cfg.Timed())
    && (match c.main
        case CLoop => popped <= 1
        case CReturned => popped == 2 && c.ends >= cfg.N()
        case CTooManyEnds => false
        case CLaunch(i) => popped == 1 && c.ends < cfg.N() && i <= |c.pcs|
        case _ => popped == 1 && c.ends == cfg.N())
    && |c.pcs| <= cfg.N()
    && (read <= 1 ==> |c.pcs| == 0)
    && (read >= 3 || (read == 2 && !c.handler.KConnect?) ==> |c.pcs| == cfg.N())
  }

  /** The client's stream table and the contents of its channel. */
  ghost predicate ClientTables(cfg: Config, c: Client, popped: nat) {
    && c.chan.Valid()
    && c.data.Sized(|c.pcs|)
    && (forall i :: 0 <= i < |c.pcs| ==> c.data.roles[i] == !cfg.params.reverse)
    && (popped == 0 ==> AllFresh(c.pcs))
    && (c.main.CLaunch? ==> LaunchedUpTo(c.pcs, c.main.next))
    && (popped >= 1 && !c.main.CLaunch? ==> NoneFresh(c.pcs))
    && (cfg.Timely() ==> forall i :: 0 <= i < |c.pcs| ==> c.pcs[i] != Failed)
    && ClientScripted(c.chan.sent)
    && c.chan.EndsPushed() == Count(c.pcs, Finished) + (if EndPushed(cfg, c) then 1 else 0)
    && c.chan.EndsPopped() == c.ends
    && (c.ends >= cfg.N() ==> Count(c.pcs, Finished) == cfg.N())
  }

  // ---------- the control connection ----------

  predicate ToClientKind(k: nat, f: Frame) {
    if k == 0 then f == StateFrame(IPERF_EXCHANGE_PARAMS)
    else if k == 1 then f == StateFrame(IPERF_CREATE_STREAM)
    else if k == 2 then f == StateFrame(TEST_START)
    else if k == 3 then f == StateFrame(TEST_RUNNING)
    else if k == 4 then f == StateFrame(IPERF_EXCHANGE_RESULT)
    else if k == 5 then f.LengthFrame?
    else if k == 6 then f.ResultsFrame?
    else if k == 7 then f == StateFrame(IPERF_DISPLAY_RESULT)
    else k == 8 && f == StateFrame(IPERF_DONE)
  }

  predicate ToServerKind(cfg: Config, k: nat, f: Frame) {
    if k == 0 then f == ParamsFrame(cfg.params)
    else if k == 1 then f == StateFrame(TEST_END)
    else if k == 2 then f.LengthFrame?
    else if k == 3 then f.ResultsFrame?
    else k == 4 && f == StateFrame(IPERF_DONE)
  }

  /** Every frame is the one its place in the session calls for, and a length announces the results after it. */
  predicate Framed(cfg: Config, st: State) {
    var down, up := st.toClient, st.toServer;
    && down.taken <= |down.frames| <= 9
    && up.taken <= |up.frames| <= 5
    && (forall k :: 0 <= k < |down.frames| ==> ToClientKind(k, down.frames[k]))
    && (forall k :: 0 <= k < |up.frames| ==> ToServerKind(cfg, k, up.frames[k]))
    && !st.world.garbled
  }

  /** A length already written or read is the length of the results that follow it. */
  predicate Lengths(cfg: Config, st: State) {
    var down, up := st.toClient.frames, st.toServer.frames;
    var s, c := st.world.server, st.world.client;
    && (s.handler.HPutResults? ==> |down| == 6 && down[5] == LengthFrame(|cfg.codec.encodeResults(s.handler.results)|)
                                   && |s.handler.results| == cfg.N())
    && (|down| >= 7 ==> down[6].ResultsFrame? && |down[6].bytes| == cfg.N()
                        && down[5] == LengthFrame(|cfg.codec.encodeResults(down[6].bytes)|))
    && (c.handler.KPutResults? ==> |up| == 3 && up[2] == LengthFrame(|cfg.codec.encodeResults(c.handler.results)|)
                                   && |c.handler.results| == cfg.N())
    && (|up| >= 4 ==> up[3].ResultsFrame? && |up[3].bytes| == cfg.N()
                      && up[2] == LengthFrame(|cfg.codec.encodeResults(up[3].bytes)|))
    && (s.handler.HGetResults? ==> |up| >= 3 && up[2] == LengthFrame(s.handler.length))
    && (c.handler.KGetResults? ==> |down| >= 6 && down[5] == LengthFrame(c.handler.length))
  }

  /** What ties the two sides together: the connection, and a data stream for every accepted one. */
  predicate Wired(cfg: Config, st: State) {
    && Framed(cfg, st)
    && Lengths(cfg, st)
    && |st.world.server.pcs| <= |st.world.client.pcs|
    && |st.world.flight| == |st.world.lost| == cfg.N()
  }

  ghost predicate ServerInv(cfg: Config, s: Server, read: nat, sent: nat) {
    && s.chan.Valid()
    && ServerAt(cfg, s, read, sent, s.chan.Pushed(), s.chan.Popped())
    && ServerTables(cfg, s, s.chan.Popped())
  }

  ghost predicate ClientInv(cfg: Config, c: Client, read: nat, sent: nat) {
    && c.chan.Valid()
    && ClientAt(cfg, c, read, sent, c.chan.Pushed(), c.chan.Popped())
    && ClientTables(cfg, c, c.chan.Popped())
  }

  ghost predicate Inv(cfg: Config, st: State) {
    && cfg.Valid()
    && Wired(cfg, st)
    && ServerInv(cfg, st.world.server, st.toServer.taken, |st.toClient.frames|)
    && ClientInv(cfg, st.world.client, st.toClient.taken, |st.toServer.frames|)
  }

  lemma InitialInv(cfg: Config, prior: Params, sender: bool)
    requires cfg.Valid()
    ensures Inv(cfg, Initial(cfg, prior, sender))
  {
  }
}
