/**
 One test session as a transition system: the server's main loop and control handler, the client's main loop and
 control handler, one goroutine per data stream on each side, the client's duration timer, and the exit of the client
 process. An action is one atomic step of one goroutine; a run is any sequence of enabled actions. A goroutine that
 panics takes no further step.

 The control connection is left out of `World`, so that the same goroutines can run over frames (here) and over bytes
 (module Framing).
 */
module Session {
  import opened States
  import opened Channels
  import opened Wrappers
  import opened Codecs
  import opened Words
  import opened Rates

  /** A read into an empty buffer returns at once, over TCP; over RUDP and KCP it waits for data like any other. */
  predicate ReadsAtOnce(p: Params) { p.blksize == 0 && p.protoName == TCP_NAME }

  /** `params` are the client's own settings; `limits` says that a byte or block limit may stop a client sender at any
      of its tests. */
  datatype Config = Config(codec: Codec, params: Params, limits: bool) {
    function N(): nat { params.streamNum }

    /** The codec carries what this session sends, and `createSenderTicker` accepts the rate: it comes without burst
        and with a pacing time its ticker can use. */
    ghost predicate Sound() {
      && codec.CarriesParams(params) && codec.CarriesResults(N())
      && (params.rate != 0 ==> !params.burst && TickerStarts(params.pacingTime * MILLISECOND))
    }

    ghost predicate Valid() { N() >= 1 && Sound() }

    /** There is code for the protocol. */
    predicate Named() {
      params.protoName == TCP_NAME || params.protoName == RUDP_NAME || params.protoName == KCP_NAME
    }

    /** The interval tickers of both sides start; with an interval of zero the division before them panics. */
    predicate Ticks() { TickerStarts(params.interval * MILLISECOND) }

    /** The test has a length: the client's timer does not fire at once. */
    predicate Timed() { TestEnd(params.duration) > 0 }

    /** The senders' own tickers start. */
    predicate Paced() { Paces(params.burst, params.rate, params.blksize) }

    /** No stream of the client runs into its deadline, if the clocks of the two sides start together and tick on
        time. */
    predicate Timely() {
      || (params.reverse && ReadsAtOnce(params))
      || InTime(params.protoName == TCP_NAME, params.reverse, params.duration, params.burst, params.rate,
                params.blksize)
    }

    /** A stream of the client that waits for its tick or its read may find its deadline expired: after the end of the
        test, or before it if the deadline comes first. */
    predicate Expires(done: bool) {
      && !Timely()
      && (done || Deadline(params.protoName == TCP_NAME, params.reverse, params.duration) <= TestEnd(params.duration))
    }

    /** Over TCP a write after the deadline is sure to fail; over RUDP and KCP it may still find room in the window. */
    predicate Refuses(done: bool) { !Timely() && done && params.protoName == TCP_NAME }
  }

  /** `newStream` can allocate the buffer of a stream. */
  predicate Allocates(p: Params) { p.blksize < MAX_BLOCK }

  /** With a rate of zero and no burst the first byte sent is one too many. */
  predicate Gated(p: Params) { p.rate == 0 && !p.burst }

  /** The three statements of `setSendState`. */
  datatype SendAt = Assign | Enqueue | Transmit

  datatype ServerMain =
    | SSend(state: nat, at: SendAt)
    | SGetParams
    | SLoop
    | SAccept
    | SInit
    | SLaunch(next: nat)
    | SAwaitHandler
    | SLeft

  datatype ServerHandler =
    | HIdle
    | HRead
    | HMarkDone
    | HStats
    | HCloseStreams
    | HSend(state: nat, at: SendAt)
    | HGetLength
    | HGetResults(length: nat)
    | HPutLength
    | HPutResults(results: seq<uint64>)
    | HPushDone
    | HReturned
    | HUnexpected

  datatype ClientMain =
    | CLoop
    | CLaunch(next: nat)
    | CMarkDone
    | CStats
    | CSend(at: SendAt)
    | CReturned
    | CTooManyEnds

  datatype ClientHandler =
    | KCheck
    | KRead
    | KPutParams
    | KConnect
    | KStart
    | KPushRunning
    | KPutLength
    | KPutResults(results: seq<uint64>)
    | KGetLength
    | KGetResults(length: nat)
    | KCloseStreams
    | KSend(at: SendAt)
    | KCloseConn
    | KPushClosed
    | KPushExit
    | KReturned
    | KUnexpected

  /** A data stream's goroutine: not started, waiting for its tick or its read, at the last test of its loop, about to
      post TEST_END, returned after posting, or returned because its connection failed. */
  datatype StreamPc = Fresh | Running | Testing | Posting | Finished | Failed

  datatype Timer = Unarmed | Armed | Fired | Lost

  function Overwrite(v: seq<nat>, r: seq<nat>): seq<nat> {
    seq(|v|, i requires 0 <= i < |v| => if i < |r| then r[i] else v[i])
  }

  /** What one side holds about its streams: their roles, the bytes sent and received, those moved in the interval under
      way, the bytes of each interval result, and whether the throttle lets them send. Counts are kept exact; a `uint64`
      holds their lowest 64 bits. */
  datatype Counters = Counters(
    roles: seq<bool>, sent: seq<nat>, received: seq<nat>, interval: seq<nat>, intervals: seq<seq<nat>>,
    canSend: seq<bool>) {
    /** A new stream of the given role. */
    function Open(sender: bool): Counters {
      Counters(roles + [sender], sent + [0], received + [0], interval + [0], intervals + [[]], canSend + [true])
    }

    /** The byte counts a side reports: what it sent if it is the sender, what it received otherwise. */
    function Active(sender: bool): seq<nat> { if sender then sent else received }

    /** `getResults` overwrites, entry by entry, the counts the peer is the authority for. */
    function Import(sender: bool, r: seq<uint64>): Counters {
      if sender then this.(received := Overwrite(received, r)) else this.(sent := Overwrite(sent, r))
    }

    /** A statistics pass appends the bytes of the interval under way to the results and starts the next. */
    function Record(): Counters {
      var appended := seq(|intervals|, i requires 0 <= i < |intervals| =>
        intervals[i] + [if i < |interval| then interval[i] else 0]);
      this.(intervals := appended, interval := seq(|interval|, i => 0))
    }

    predicate Sized(n: nat) {
      |roles| == |sent| == |received| == |interval| == |intervals| == |canSend| == n
    }
  }

  datatype Server = Server(
    main: ServerMain,
    handler: ServerHandler,
    state: nat,
    settings: Params,
    sender: bool,
    done: bool,
    closed: bool,
    chan: Chan,
    pcs: seq<StreamPc>,
    data: Counters
  )

  datatype Client = Client(
    main: ClientMain,
    handler: ClientHandler,
    state: nat,
    sender: bool,
    done: bool,
    timer: Timer,
    gone: bool,
    exited: bool,
    ends: nat,
    chan: Chan,
    pcs: seq<StreamPc>,
    data: Counters
  )

  /** Everything but the control connection. `flight` and `lost` are, per stream, the bytes written and not yet read,
      and the bytes read but not counted because the reader had left TEST_RUNNING. */
  datatype World = World(server: Server, client: Client, flight: seq<nat>, lost: seq<nat>, garbled: bool)

  datatype Action =
    | ServerMainStep
    | ServerMainLeave
    | ServerHandlerStep
    | ServerHandlerBroken
    | ServerStreamStep(i: nat)
    | ServerStreamFail(i: nat)
    | ClientMainStep
    | ClientHandlerStep
    | ClientStreamStep(i: nat)
    | ClientStreamFail(i: nat)
    | TimerFires
    | TimerLost
    | ClientExits
    | ClientSends(i: nat)
    | ServerReceives(i: nat, n: nat)
    | ServerSends(i: nat)
    | ClientReceives(i: nat, n: nat)
    | ClientLoops(i: nat)
    | ServerLoops(i: nat)
    | ClientGate(i: nat, open: bool)
    | ServerGate(i: nat, open: bool)
    | ClientStatsPass
    | ServerStatsPass
  {
    predicate IsClient() {
      ClientMainStep? || ClientHandlerStep? || ClientStreamStep? || ClientStreamFail? || TimerFires? || TimerLost?
      || ClientSends? || ClientReceives? || ClientLoops? || ClientGate? || ClientStatsPass?
    }

    /** What the client's streams, its timer and its process do: nothing is read or written. */
    predicate IsClientQuiet() {
      ClientStreamStep? || ClientStreamFail? || TimerFires? || TimerLost? || ClientExits?
    }

    /** Control actions move the protocol; the others move data, turn the streams' loops, or take statistics. */
    predicate IsControl() {
      !(ClientSends? || ServerReceives? || ServerSends? || ClientReceives? || ClientLoops? || ServerLoops?
        || ClientGate? || ServerGate? || ClientStatsPass? || ServerStatsPass?)
    }
  }

  /** What a goroutine is about to read from the control connection. */
  datatype Want = NoRead | WantState | WantParams | WantLength | WantResults(length: nat)

  datatype Input = Nothing | Garbage | Received(frame: Frame)

  /** One side after a step of one of its goroutines, and what the goroutine wrote on the control connection. */
  datatype ServerOutcome = ServerOutcome(side: Server, output: seq<Frame>)

  datatype ClientOutcome = ClientOutcome(side: Client, output: seq<Frame>)

  /** The world after an action, and what the action wrote on the control connection. */
  datatype Effect = Effect(world: World, output: seq<Frame>)

  function HandlerWants(s: Server): Want {
    if s.handler.HRead? then WantState
    else if s.handler.HGetLength? then WantLength
    else if s.handler.HGetResults? then WantResults(s.handler.length)
    else NoRead
  }

  function KeeperWants(c: Client): Want {
    if c.handler.KRead? then WantState
    else if c.handler.KGetLength? then WantLength
    else if c.handler.KGetResults? then WantResults(c.handler.length)
    else NoRead
  }

  function Wants(w: World, a: Action): Want {
    if a.ServerMainStep? then (if w.server.main.SGetParams? then WantParams else NoRead)
    else if a.ServerHandlerStep? then HandlerWants(w.server)
    else if a.ClientHandlerStep? then KeeperWants(w.client)
    else NoRead
  }

  // ---------- the server's goroutines ----------

  function Quiet(side: Server): Option<ServerOutcome> { Some(ServerOutcome(side, [])) }

  function ClientQuiet(side: Client): Option<ClientOutcome> { Some(ClientOutcome(side, [])) }

  /** The cases of the server's main loop. */
  function Dispatch(v: nat): ServerMain {
    if v == IPERF_DONE then SAwaitHandler
    else if v == IPERF_CREATE_STREAM then SAccept
    else if v == TEST_RUNNING then SLaunch(0)
    else SLoop
  }

  function ServerMainNext(s: Server, connected: nat, input: Input): Option<ServerOutcome> {
    match s.main
    case SSend(v, Assign) => Quiet(s.(state := v, main := SSend(v, Enqueue)))
    case SSend(v, Enqueue) =>
      if s.chan.Full() then None
      else Quiet(s.(chan := s.chan.Push(s.state), main := SSend(v, Transmit)))
    case SSend(v, Transmit) =>
      var next :=
        if v == IPERF_EXCHANGE_PARAMS then SGetParams
        else if v == TEST_START then SInit
        else SLoop;
      Some(ServerOutcome(s.(main := next), [StateFrame(v)]))
    case SGetParams =>
      if input.Received? && input.frame.ParamsFrame? then
        var p := input.frame.params;
        Quiet(s.(settings := p, sender := p.reverse, handler := HRead,
                          main := SSend(IPERF_CREATE_STREAM, Assign)))
      else None
    case SLoop =>
      if s.chan.Empty() then None
      else
        Quiet(s.(chan := s.chan.Pop(), main := Dispatch(s.chan.Head())))
    case SAccept =>
      if |s.pcs| < s.settings.streamNum then
        if |s.pcs| < connected && Allocates(s.settings) then
          Quiet(s.(pcs := s.pcs + [Fresh], data := s.data.Open(s.sender)))
        else None
      else Quiet(s.(main := SSend(TEST_START, Assign)))
    case SInit =>
      if TickerStarts(s.settings.interval * MILLISECOND) then Quiet(s.(main := SSend(TEST_RUNNING, Assign))) else None
    case SLaunch(i) =>
      if i < |s.pcs| then
        if s.sender && !Paces(s.settings.burst, s.settings.rate, s.settings.blksize) then None
        else Quiet(s.(pcs := s.pcs[i := Running], main := SLaunch(i + 1)))
      else Quiet(s.(main := SLoop))
    case SAwaitHandler => if s.handler.HReturned? then Quiet(s.(main := SLeft)) else None
    case SLeft => None
  }

  /** `results[i]` for the streams there are, zero for the rest of the `streamNum` entries. */
  function Report(streamNum: nat, active: seq<nat>): seq<uint64> {
    seq(streamNum, i requires 0 <= i => if i < |active| then Wrap(active[i]) else 0)
  }

  function ServerHandlerNext(cfg: Config, s: Server, input: Input): Option<ServerOutcome> {
    match s.handler
    case HIdle => None
    case HRead =>
      if input.Received? && input.frame.StateFrame? then
        var v := input.frame.state;
        var next :=
          if v == TEST_START then HRead
          else if v == TEST_END then HMarkDone
          else if v == IPERF_DONE then HPushDone
          else HUnexpected;
        Quiet(s.(state := v, handler := next))
      else None
    case HMarkDone => Quiet(s.(done := true, handler := HStats))
    case HStats => Quiet(s.(data := s.data.Record(), handler := HCloseStreams))
    case HCloseStreams => Quiet(s.(closed := true, handler := HSend(IPERF_EXCHANGE_RESULT, Assign)))
    case HSend(v, Assign) => Quiet(s.(state := v, handler := HSend(v, Enqueue)))
    case HSend(v, Enqueue) =>
      if s.chan.Full() then None
      else Quiet(s.(chan := s.chan.Push(s.state), handler := HSend(v, Transmit)))
    case HSend(v, Transmit) =>
      var next :=
        if v == IPERF_EXCHANGE_RESULT then HGetLength
        else if v == IPERF_DISPLAY_RESULT then HSend(IPERF_DONE, Assign)
        else HRead;
      Some(ServerOutcome(s.(handler := next), [StateFrame(v)]))
    case HGetLength =>
      if input.Received? && input.frame.LengthFrame? then
        Quiet(s.(handler := HGetResults(input.frame.length)))
      else None
    case HGetResults(_) =>
      if input.Received? && input.frame.ResultsFrame? then
        var r := input.frame.bytes;
        if |r| > |s.pcs| then Quiet(s.(handler := HUnexpected))
        else Quiet(s.(data := s.data.Import(s.sender, r), handler := HPutLength))
      else None
    case HPutLength =>
      var r := Report(s.settings.streamNum, s.data.Active(s.sender));
      Some(ServerOutcome(s.(handler := HPutResults(r)), [LengthFrame(|cfg.codec.encodeResults(r)|)]))
    case HPutResults(r) =>
      Some(ServerOutcome(s.(handler := HSend(IPERF_DISPLAY_RESULT, Assign)), [ResultsFrame(r)]))
    case HPushDone =>
      if s.chan.Full() then None
      else Quiet(s.(state := IPERF_DONE, chan := s.chan.Push(IPERF_DONE), handler := HReturned))
    case HReturned => None
    case HUnexpected => None
  }

  /** A read or write of the handler fails because the client has closed the connection. */
  function ServerHandlerBreaks(s: Server, gone: bool): Option<ServerOutcome> {
    var h := s.handler;
    if gone && (h.HRead? || h.HGetLength? || h.HGetResults? || h.HPutLength? || h.HPutResults?
                         || (h.HSend? && h.at.Transmit?))
    then Quiet(s.(handler := HReturned))
    else None
  }

  /** The `ctrlDone` branch of the main loop's `select`. */
  function ServerLeaves(s: Server): Option<ServerOutcome> {
    if s.main.SLoop? && s.handler.HReturned? then Quiet(s.(main := SLeft)) else None
  }

  /** The last test of a stream's loop; a server has no byte or block limits. */
  predicate ServerStops(s: Server, i: nat)
    requires i < |s.data.roles|
  {
    s.done && (s.data.roles[i] ==> s.settings.duration != 0)
  }

  function ServerStreamNext(s: Server, i: nat): Option<ServerOutcome> {
    if i >= |s.pcs| || i >= |s.data.roles| then None
    else if s.pcs[i].Testing? && ServerStops(s, i) then Quiet(s.(pcs := s.pcs[i := Posting]))
    else if s.pcs[i].Posting? && !s.chan.Full() then
      Quiet(s.(pcs := s.pcs[i := Finished], chan := s.chan.Push(TEST_END)))
    else None
  }

  /** A read or write fails on a closed stream; a sender that the throttle stops does not write. */
  function ServerStreamFails(s: Server, i: nat): Option<ServerOutcome> {
    if i < |s.pcs| && i < |s.data.roles| && i < |s.data.canSend| && s.pcs[i].Running? && s.closed
       && (s.data.roles[i] ==> s.data.canSend[i])
    then Quiet(s.(pcs := s.pcs[i := Failed]))
    else None
  }

  // ---------- the client's goroutines ----------

  function ClientMainNext(cfg: Config, c: Client): Option<ClientOutcome> {
    match c.main
    case CLoop =>
      if c.chan.Empty() then None
      else
        var v := c.chan.Head();
        if v == TEST_RUNNING then ClientQuiet(c.(chan := c.chan.Pop(), main := CLaunch(0)))
        else if v == TEST_END then
          var k := c.ends + 1;
          var next :=
            if k < cfg.N() || k == cfg.N() + 1 then CLoop
            else if k > cfg.N() + 1 then CTooManyEnds
            else CMarkDone;
          ClientQuiet(c.(chan := c.chan.Pop(), ends := k, main := next))
        else if v == IPERF_DONE then ClientQuiet(c.(chan := c.chan.Pop(), main := CReturned))
        else ClientQuiet(c.(chan := c.chan.Pop()))
    case CLaunch(i) =>
      if i < |c.pcs| then
        if c.sender && !cfg.Paced() then None
        else ClientQuiet(c.(pcs := c.pcs[i := Running], main := CLaunch(i + 1)))
      else ClientQuiet(c.(main := CLoop))
    case CMarkDone => ClientQuiet(c.(done := true, main := CStats))
    case CStats => ClientQuiet(c.(data := c.data.Record(), main := CSend(Assign)))
    case CSend(Assign) => ClientQuiet(c.(state := TEST_END, main := CSend(Enqueue)))
    case CSend(Enqueue) =>
      if c.chan.Full() then None
      else ClientQuiet(c.(chan := c.chan.Push(c.state), main := CSend(Transmit)))
    case CSend(Transmit) => Some(ClientOutcome(c.(main := CLoop), [StateFrame(TEST_END)]))
    case CReturned => None
    case CTooManyEnds => None
  }

  function ClientReads(c: Client, v: nat): Option<ClientOutcome> {
    var next :=
      if v == IPERF_EXCHANGE_PARAMS then KPutParams
      else if v == IPERF_CREATE_STREAM then KConnect
      else if v == TEST_START then KStart
      else if v == TEST_RUNNING then KPushRunning
      else if v == IPERF_EXCHANGE_RESULT then KPutLength
      else if v == IPERF_DISPLAY_RESULT then KCloseStreams
      else if v == IPERF_DONE then KPushExit
      else KUnexpected;
    ClientQuiet(c.(state := v, handler := next))
  }

  function ClientHandlerNext(cfg: Config, c: Client, input: Input): Option<ClientOutcome> {
    match c.handler
    case KCheck => ClientQuiet(c.(handler := if c.state == IPERF_DONE then KPushExit else KRead))
    case KRead => if input.Received? && input.frame.StateFrame? then ClientReads(c, input.frame.state) else None
    case KPutParams =>
      if cfg.Named() then Some(ClientOutcome(c.(handler := KCheck), [ParamsFrame(cfg.params)])) else None
    case KConnect =>
      if |c.pcs| < cfg.N() then
        if Allocates(cfg.params) then ClientQuiet(c.(pcs := c.pcs + [Fresh], data := c.data.Open(c.sender))) else None
      else ClientQuiet(c.(handler := KCheck))
    case KStart => if cfg.Ticks() then ClientQuiet(c.(timer := Armed, handler := KCheck)) else None
    case KPushRunning =>
      if c.chan.Full() then None
      else ClientQuiet(c.(chan := c.chan.Push(TEST_RUNNING), handler := KCheck))
    case KPutLength =>
      var r := Report(cfg.N(), c.data.Active(c.sender));
      Some(ClientOutcome(c.(handler := KPutResults(r)), [LengthFrame(|cfg.codec.encodeResults(r)|)]))
    case KPutResults(r) => Some(ClientOutcome(c.(handler := KGetLength), [ResultsFrame(r)]))
    case KGetLength =>
      if input.Received? && input.frame.LengthFrame? then
        ClientQuiet(c.(handler := KGetResults(input.frame.length)))
      else None
    case KGetResults(_) =>
      if input.Received? && input.frame.ResultsFrame? then
        var r := input.frame.bytes;
        if |r| > |c.pcs| then ClientQuiet(c.(handler := KUnexpected))
        else ClientQuiet(c.(data := c.data.Import(c.sender, r), handler := KCheck))
      else None
    case KCloseStreams => ClientQuiet(c.(handler := KSend(Assign)))
    case KSend(Assign) => ClientQuiet(c.(state := IPERF_DONE, handler := KSend(Enqueue)))
    case KSend(Enqueue) =>
      if c.chan.Full() then None
      else ClientQuiet(c.(chan := c.chan.Push(c.state), handler := KSend(Transmit)))
    case KSend(Transmit) => Some(ClientOutcome(c.(handler := KCloseConn), [StateFrame(IPERF_DONE)]))
    case KCloseConn => ClientQuiet(c.(gone := true, handler := KPushClosed))
    case KPushClosed =>
      if c.chan.Full() then None
      else ClientQuiet(c.(chan := c.chan.Push(IPERF_DONE), handler := KCheck))
    case KPushExit =>
      if c.chan.Full() then None
      else ClientQuiet(c.(chan := c.chan.Push(IPERF_DONE), handler := KReturned))
    case KReturned => None
    case KUnexpected => None
  }

  /** The last test of a stream's loop must stop it, or may. */
  predicate ClientMustStop(cfg: Config, c: Client, i: nat)
    requires i < |c.data.roles|
  {
    c.done && (c.data.roles[i] ==> cfg.params.duration != 0)
  }

  predicate ClientMayStop(cfg: Config, c: Client, i: nat)
    requires i < |c.data.roles|
  {
    ClientMustStop(cfg, c, i) || (cfg.limits && c.data.roles[i])
  }

  function ClientStreamNext(cfg: Config, c: Client, i: nat): Option<ClientOutcome> {
    if i >= |c.pcs| || i >= |c.data.roles| then None
    else if c.pcs[i].Testing? && ClientMayStop(cfg, c, i) then ClientQuiet(c.(pcs := c.pcs[i := Posting]))
    else if c.pcs[i].Posting? && !c.chan.Full() then
      ClientQuiet(c.(pcs := c.pcs[i := Finished], chan := c.chan.Push(TEST_END)))
    else None
  }

  /** A write or a read fails after the deadline of the stream's connection, and the goroutine returns without
      posting. */
  function ClientStreamFails(cfg: Config, c: Client, i: nat): Option<ClientOutcome> {
    if i < |c.pcs| && i < |c.data.roles| && i < |c.data.canSend| && c.pcs[i].Running? && cfg.Expires(c.done)
       && (c.data.roles[i] ==> c.data.canSend[i])
    then ClientQuiet(c.(pcs := c.pcs[i := Failed]))
    else None
  }

  function TimerNext(c: Client): Option<ClientOutcome> {
    if c.timer.Armed? then ClientQuiet(c.(timer := Fired, done := true)) else None
  }

  /** The timer of a test without length may fire before `createClientTimer` has assigned it to the test: the callback
      then blocks on the missing `done` channel before it has ended the test. */
  function TimerRaces(cfg: Config, c: Client): Option<ClientOutcome> {
    if c.handler.KStart? && cfg.Ticks() && !cfg.Timed() then ClientQuiet(c.(timer := Lost, handler := KCheck)) else None
  }

  /** `main` returns after `runClient`, which ends every client goroutine and closes the connection. */
  function ExitNext(c: Client): Option<ClientOutcome> {
    if c.main.CReturned? && !c.exited then ClientQuiet(c.(exited := true, gone := true))
    else None
  }

  // ---------- data and statistics ----------

  /** Stream `i` is open on this side with the given role, and its goroutine is at `at`. */
  predicate Live(w: World, d: Counters, pcs: seq<StreamPc>, i: nat, sender: bool, at: StreamPc) {
    && i < |pcs| && pcs[i] == at
    && i < |d.roles| && i < |d.sent| && i < |d.received| && i < |d.interval| && i < |d.canSend| && d.roles[i] == sender
    && i < |w.flight| && i < |w.lost|
  }

  function Add(v: seq<nat>, i: nat, n: nat): seq<nat>
    requires i < |v|
  {
    v[i := v[i] + n]
  }

  /** A tick of a sender: a whole block is written if the throttle lets it, and the throttle is checked after it. With
      a rate of zero the check shuts the throttle once a byte has been sent; with another rate the clock decides, at
      `Gate`. */
  function Tick(p: Params, d: Counters, i: nat, done: bool): Counters
    requires i < |d.sent| && i < |d.interval| && i < |d.canSend|
  {
    var sent := if d.canSend[i] then Add(d.sent, i, p.blksize) else d.sent;
    var interval := if d.canSend[i] then Add(d.interval, i, p.blksize) else d.interval;
    var canSend := d.canSend[i] && !(Gated(p) && !done && sent[i] > 0);
    d.(sent := sent, interval := interval, canSend := d.canSend[i := canSend])
  }

  /** A block is on its way if the throttle let it. */
  function TickFlight(p: Params, d: Counters, i: nat, flight: seq<nat>): seq<nat>
    requires i < |d.canSend| && i < |flight|
  {
    if d.canSend[i] then Add(flight, i, p.blksize) else flight
  }

  /** A read that does not return at once returns what there is, at least a byte. */
  predicate ReadReturns(p: Params, available: nat, n: nat) {
    if ReadsAtOnce(p) then n == 0 else 1 <= n <= p.blksize && n <= available
  }

  /** A read in TEST_RUNNING counts. */
  function Collect(d: Counters, i: nat, n: nat): Counters
    requires i < |d.received| && i < |d.interval|
  {
    d.(received := Add(d.received, i, n), interval := Add(d.interval, i, n))
  }

  /** The throttle moves with the clock while there is a rate and the test is not done. */
  predicate GateMoves(p: Params, d: Counters, i: nat, done: bool) {
    p.rate != 0 && !p.burst && !done && i < |d.canSend| && i < |d.roles| && d.roles[i]
  }

  /** One turn of a stream's loop up to its last test, the last test when it goes on, a move of the throttle, or one
      statistics pass. A read counts only in TEST_RUNNING. */
  function DataNext(cfg: Config, w: World, a: Action): Option<World>
    requires !a.IsControl()
  {
    var s, c := w.server, w.client;
    match a
    case ClientSends(i) =>
      if Live(w, c.data, c.pcs, i, true, Running) && (cfg.Refuses(c.done) ==> !c.data.canSend[i]) then
        Some(w.(client := c.(pcs := c.pcs[i := Testing], data := Tick(cfg.params, c.data, i, c.done)),
                flight := TickFlight(cfg.params, c.data, i, w.flight)))
      else None
    case ServerSends(i) =>
      if Live(w, s.data, s.pcs, i, true, Running) && (s.closed ==> !s.data.canSend[i]) then
        Some(w.(server := s.(pcs := s.pcs[i := Testing], data := Tick(s.settings, s.data, i, s.done)),
                flight := TickFlight(s.settings, s.data, i, w.flight)))
      else None
    case ServerReceives(i, n) =>
      if Live(w, s.data, s.pcs, i, false, Running) && !s.closed && ReadReturns(s.settings, w.flight[i], n)
         && n <= w.flight[i]
      then
        var f, pcs := w.flight[i := w.flight[i] - n], s.pcs[i := Testing];
        if s.state == TEST_RUNNING then
          Some(w.(server := s.(pcs := pcs, data := Collect(s.data, i, n)), flight := f))
        else Some(w.(server := s.(pcs := pcs), flight := f, lost := Add(w.lost, i, n)))
      else None
    case ClientReceives(i, n) =>
      if Live(w, c.data, c.pcs, i, false, Running) && ReadReturns(cfg.params, w.flight[i], n)
         && n <= w.flight[i]
      then
        var f, pcs := w.flight[i := w.flight[i] - n], c.pcs[i := Testing];
        if c.state == TEST_RUNNING then
          Some(w.(client := c.(pcs := pcs, data := Collect(c.data, i, n)), flight := f))
        else Some(w.(client := c.(pcs := pcs), flight := f, lost := Add(w.lost, i, n)))
      else None
    case ClientLoops(i) =>
      if i < |c.pcs| && i < |c.data.roles| && c.pcs[i].Testing? && !ClientMustStop(cfg, c, i) then
        Some(w.(client := c.(pcs := c.pcs[i := Running])))
      else None
    case ServerLoops(i) =>
      if i < |s.pcs| && i < |s.data.roles| && s.pcs[i].Testing? && !ServerStops(s, i) then
        Some(w.(server := s.(pcs := s.pcs[i := Running])))
      else None
    case ClientGate(i, open) =>
      if GateMoves(cfg.params, c.data, i, c.done) then
        Some(w.(client := c.(data := c.data.(canSend := c.data.canSend[i := open]))))
      else None
    case ServerGate(i, open) =>
      if GateMoves(s.settings, s.data, i, s.done) then
        Some(w.(server := s.(data := s.data.(canSend := s.data.canSend[i := open]))))
      else None
    case ClientStatsPass => Some(w.(client := c.(data := c.data.Record())))
    case ServerStatsPass => Some(w.(server := s.(data := s.data.Record())))
  }

  function OfServer(w: World, o: Option<ServerOutcome>): Option<Effect> {
    if o.None? then None else Some(Effect(w.(server := o.value.side), o.value.output))
  }

  function OfClient(w: World, o: Option<ClientOutcome>): Option<Effect> {
    if o.None? || w.client.exited then None else Some(Effect(w.(client := o.value.side), o.value.output))
  }

  function ControlNext(cfg: Config, w: World, a: Action, input: Input): Option<Effect>
    requires a.IsControl()
  {
    match a
    case ServerMainStep => OfServer(w, ServerMainNext(w.server, |w.client.pcs|, input))
    case ServerMainLeave => OfServer(w, ServerLeaves(w.server))
    case ServerHandlerStep => OfServer(w, ServerHandlerNext(cfg, w.server, input))
    case ServerHandlerBroken => OfServer(w, ServerHandlerBreaks(w.server, w.client.gone))
    case ServerStreamStep(i) => OfServer(w, ServerStreamNext(w.server, i))
    case ServerStreamFail(i) => OfServer(w, ServerStreamFails(w.server, i))
    case ClientMainStep => OfClient(w, ClientMainNext(cfg, w.client))
    case ClientHandlerStep => OfClient(w, ClientHandlerNext(cfg, w.client, input))
    case ClientStreamStep(i) => OfClient(w, ClientStreamNext(cfg, w.client, i))
    case ClientStreamFail(i) => OfClient(w, ClientStreamFails(cfg, w.client, i))
    case TimerFires => OfClient(w, TimerNext(w.client))
    case TimerLost => OfClient(w, TimerRaces(cfg, w.client))
    case ClientExits => OfClient(w, ExitNext(w.client))
  }

  /** One atomic step of one goroutine, given what it read from the control connection. */
  function Act(cfg: Config, w: World, a: Action, input: Input): Option<Effect> {
    if a.IsControl() then ControlNext(cfg, w, a, input)
    else
      var after := DataNext(cfg, w, a);
      if after.None? then None else Some(Effect(after.value, []))
  }

  // ---------- the control connection, frame by frame ----------

  /** One direction of the connection: all frames written, and how many of them have been read. */
  datatype Pipe = Pipe(frames: seq<Frame>, taken: nat)

  datatype State = State(world: World, toServer: Pipe, toClient: Pipe)

  /** A reader gets the next frame if it is of the kind it expects; anything else is garbage to it. */
  function Take(codec: Codec, want: Want, p: Pipe): Input {
    if p.taken >= |p.frames| then Nothing
    else
      var f := p.frames[p.taken];
      var fits :=
        match want
        case NoRead => false
        case WantState => f.StateFrame?
        case WantParams => f.ParamsFrame?
        case WantLength => f.LengthFrame?
        case WantResults(n) => f.ResultsFrame? && n == |codec.encodeResults(f.bytes)|;
      if fits then Received(f) else Garbage
  }

  function Inbox(st: State, a: Action): Pipe { if a.IsClient() then st.toClient else st.toServer }

  function Deliver(st: State, a: Action, e: Effect, read: nat): State {
    if a.IsClient() then
      State(e.world, st.toServer.(frames := st.toServer.frames + e.output),
            st.toClient.(taken := st.toClient.taken + read))
    else
      State(e.world, st.toServer.(taken := st.toServer.taken + read),
            st.toClient.(frames := st.toClient.frames + e.output))
  }

  /** The step relation: None means that the action is not enabled. */
  function Step(cfg: Config, st: State, a: Action): Option<State> {
    var want := Wants(st.world, a);
    if a.IsClient() && st.world.client.exited then None
    else if want.NoRead? then
      match Act(cfg, st.world, a, Nothing)
      case None => None
      case Some(e) => Some(Deliver(st, a, e, 0))
    else
      match Take(cfg.codec, want, Inbox(st, a))
      case Nothing => None
      case Garbage => Some(st.(world := st.world.(garbled := true)))
      case Received(f) =>
        match Act(cfg, st.world, a, Received(f))
        case None => None
        case Some(e) => Some(Deliver(st, a, e, 1))
  }

  function InitialWorld(cfg: Config, prior: Params, priorSender: bool): World {
    var zeros := seq(cfg.N(), i => 0);
    World(
      Server(SSend(IPERF_EXCHANGE_PARAMS, Assign), HIdle, IPERF_START, prior, priorSender, false, false,
             Chan([], 0), [], Counters([], [], [], [], [], [])),
      Client(CLoop, KCheck, 0, !cfg.params.reverse, false, Unarmed, false, false, 0,
             Chan([], 0), [], Counters([], [], [], [], [], [])),
      zeros, zeros, false)
  }

  /** The connection has just been accepted. The server still holds the previous session's parameters. */
  function Initial(cfg: Config, prior: Params, priorSender: bool): State {
    State(InitialWorld(cfg, prior, priorSender), Pipe([], 0), Pipe([], 0))
  }

  function Run(cfg: Config, st: State, acts: seq<Action>): Option<State>
    decreases |acts|
  {
    if acts == [] then Some(st)
    else
      match Step(cfg, st, acts[0])
      case None => None
      case Some(next) => Run(cfg, next, acts[1..])
  }

  /** Some run of a session with configuration `cfg` ends in `st`. */
  ghost predicate Reachable(cfg: Config, st: State) {
    exists prior, sender, acts :: Run(cfg, Initial(cfg, prior, sender), acts) == Some(st)
  }

  /** Both main loops are through. */
  predicate Complete(st: State) { st.world.client.main.CReturned? && st.world.server.main.SLeft? }

  /** Some run goes from one state to another. */
  ghost predicate Leads(cfg: Config, st: State, target: State) { exists acts :: Run(cfg, st, acts) == Some(target) }

  /** Whatever happens from here on, the session never completes. */
  ghost predicate Hung(cfg: Config, st: State) { forall target :: Leads(cfg, st, target) ==> !Complete(target) }
}
