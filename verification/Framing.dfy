/** The same session over a connection that carries bytes: 4-byte states, unframed parameters and length-prefixed
    results share one stream in each direction, no reader is told where a message ends, and what has been written
    arrives in pieces of any size. */
module Framing {
  import opened States
  import opened Channels
  import opened Wrappers
  import opened Codecs
  import opened Session
  import opened SessionInvariant
  import opened SessionSteps
  import opened SessionStreams
  import opened SessionFate

  /** The bytes of one write. */
  function Encode(codec: Codec, f: Frame): seq<byte> {
    match f
    case StateFrame(v) => Le32(v)
    case ParamsFrame(p) => codec.encodeParams(p)
    case LengthFrame(n) => Le32(n)
    case ResultsFrame(r) => codec.encodeResults(r)
  }

  /** The bytes of the first `k` of a sequence of writes. */
  function Flatten(codec: Codec, fs: seq<Frame>, k: nat): seq<byte>
    requires k <= |fs|
  {
    if k == 0 then [] else Flatten(codec, fs, k - 1) + Encode(codec, fs[k - 1])
  }

  /** One direction of the connection: everything that has been written and how many messages have been read, how many
      bytes have arrived, and how many have been read. A reader sees the bytes only. */
  datatype Wire = Wire(pipe: Pipe, arrived: nat, taken: nat) {
    function Bytes(codec: Codec): seq<byte> { Flatten(codec, pipe.frames, |pipe.frames|) }

    predicate Valid(codec: Codec) { taken <= arrived <= |Bytes(codec)| }

    /** Bytes that have arrived and have not been read. */
    function Ready(): nat { if taken <= arrived then arrived - taken else 0 }

    function Next(codec: Codec, n: nat): seq<byte>
      requires taken + n <= |Bytes(codec)|
    {
      Bytes(codec)[taken..taken + n]
    }

    /** The message that has been written and not been read, as its reader should get it. */
    function Due(): Input { if pipe.taken < |pipe.frames| then Received(pipe.frames[pipe.taken]) else Nothing }
  }

  type Buffer = b: seq<byte> | |b| == 4 witness [0, 0, 0, 0]

  /** The two handlers keep the buffer they read states into. */
  datatype ByteState = ByteState(
    world: World, serverBuffer: Buffer, clientBuffer: Buffer, toServer: Wire, toClient: Wire)

  /** A goroutine takes a step, or `n` more bytes arrive. */
  datatype ByteEvent = Does(a: Action) | ToServerArrives(n: nat) | ToClientArrives(n: nat)

  /** What a read returns, how many bytes it takes, and what it leaves in the handler's buffer. */
  datatype ByteRead = ByteRead(input: Input, count: nat, buffer: Buffer)

  function Word(b: Buffer): nat { FromLittleEndian(b) }

  function Least(a: nat, b: nat): nat { if a < b then a else b }

  /** A state is read over the front of a 4-byte buffer, parameters into a 1024-byte buffer: one `Read`, of whatever
      has arrived up to the size of the buffer; and the whole of the 4-byte buffer is taken for the state. A length
      and the results are read in full, however they arrive. */
  function ReadBytes(codec: Codec, want: Want, w: Wire, buffer: Buffer): ByteRead
    requires w.Valid(codec)
  {
    match want
    case NoRead => ByteRead(Nothing, 0, buffer)
    case WantState =>
      if w.Ready() == 0 then ByteRead(Nothing, 0, buffer)
      else
        var n := Least(4, w.Ready());
        var b := w.Next(codec, n) + buffer[n..];
        ByteRead(Received(StateFrame(Word(b))), n, b)
    case WantParams =>
      if w.Ready() == 0 then ByteRead(Nothing, 0, buffer)
      else
        var n := Least(PARAMS_BUFFER, w.Ready());
        var p := codec.decodeParams(w.Next(codec, n));
        ByteRead(if p.None? then Garbage else Received(ParamsFrame(p.value)), n, buffer)
    case WantLength =>
      if w.Ready() < 4 then ByteRead(Nothing, 0, buffer)
      else ByteRead(Received(LengthFrame(Word(w.Next(codec, 4)))), 4, buffer)
    case WantResults(n) =>
      if w.Ready() < n then ByteRead(Nothing, 0, buffer)
      else
        var r := codec.decodeResults(w.Next(codec, n));
        ByteRead(if r.None? then Garbage else Received(ResultsFrame(r.value)), n, buffer)
  }

  function InWire(st: ByteState, a: Action): Wire { if a.IsClient() then st.toClient else st.toServer }

  function BufferOf(st: ByteState, a: Action): Buffer { if a.IsClient() then st.clientBuffer else st.serverBuffer }

  function Send(w: Wire, output: seq<Frame>): Wire { w.(pipe := w.pipe.(frames := w.pipe.frames + output)) }

  function Skip(w: Wire, read: nat, count: nat): Wire {
    w.(pipe := w.pipe.(taken := w.pipe.taken + read), taken := w.taken + count)
  }

  /** The state after an action that took `count` bytes, as `read` messages, and left `buffer` behind. */
  function DeliverBytes(st: ByteState, a: Action, e: Effect, read: nat, count: nat, buffer: Buffer): ByteState {
    if a.IsClient() then
      ByteState(e.world, st.serverBuffer, buffer, Send(st.toServer, e.output), Skip(st.toClient, read, count))
    else
      ByteState(e.world, buffer, st.clientBuffer, Skip(st.toServer, read, count), Send(st.toClient, e.output))
  }

  /** A step of a goroutine; the goroutines are those of `Session`. A read that returns anything but the message that
      was written is a misreading. */
  function ByteAct(cfg: Config, st: ByteState, a: Action): Option<ByteState>
    requires InWire(st, a).Valid(cfg.codec)
  {
    var want := Wants(st.world, a);
    if a.IsClient() && st.world.client.exited then None
    else if want.NoRead? then
      match Act(cfg, st.world, a, Nothing)
      case None => None
      case Some(e) => Some(DeliverBytes(st, a, e, 0, 0, BufferOf(st, a)))
    else
      var r := ReadBytes(cfg.codec, want, InWire(st, a), BufferOf(st, a));
      if r.input.Nothing? then None
      else if r.input != InWire(st, a).Due() then Some(st.(world := st.world.(garbled := true)))
      else
        match Act(cfg, st.world, a, r.input)
        case None => None
        case Some(e) => Some(DeliverBytes(st, a, e, 1, r.count, r.buffer))
  }

  function Arrive(codec: Codec, w: Wire, n: nat): Option<Wire> {
    if w.arrived + n <= |w.Bytes(codec)| then Some(w.(arrived := w.arrived + n)) else None
  }

  /** The session over bytes. It is followed up to the first misreading. */
  function ByteStep(cfg: Config, st: ByteState, e: ByteEvent): Option<ByteState> {
    if st.world.garbled || !st.toServer.Valid(cfg.codec) || !st.toClient.Valid(cfg.codec) then None
    else
      match e
      case Does(a) => ByteAct(cfg, st, a)
      case ToServerArrives(n) =>
        var w := Arrive(cfg.codec, st.toServer, n);
        if w.None? then None else Some(st.(toServer := w.value))
      case ToClientArrives(n) =>
        var w := Arrive(cfg.codec, st.toClient, n);
        if w.None? then None else Some(st.(toClient := w.value))
  }

  function ByteRun(cfg: Config, st: ByteState, es: seq<ByteEvent>): Option<ByteState>
    decreases |es|
  {
    if es == [] then Some(st)
    else
      match ByteStep(cfg, st, es[0])
      case None => None
      case Some(next) => ByteRun(cfg, next, es[1..])
  }

  function ByteInitial(cfg: Config, prior: Params, sender: bool): ByteState {
    var empty := Wire(Pipe([], 0), 0, 0);
    ByteState(InitialWorld(cfg, prior, sender), [0, 0, 0, 0], [0, 0, 0, 0], empty, empty)
  }

  /** The session, message by message. */
  function Frames(st: ByteState): State { State(st.world, st.toServer.pipe, st.toClient.pipe) }

  /** What the goroutines did. */
  function Acts(es: seq<ByteEvent>): seq<Action> {
    if es == [] then [] else (if es[0].Does? then [es[0].a] else []) + Acts(es[1..])
  }

  /** The state about to be read is the last one its side reads: IPERF_DONE, or IPERF_DISPLAY_RESULT. */
  predicate LastState(w: World, a: Action) {
    if a.IsClient() then w.client.state == IPERF_EXCHANGE_RESULT else w.server.done
  }

  predicate HastyRead(cfg: Config, want: Want, ready: nat, last: bool) {
    match want
    case WantState => 0 < ready < 4 && !last
    case WantParams => 0 < ready < |cfg.codec.encodeParams(cfg.params)|
    case _ => false
  }

  /** A goroutine calls `Read` for the parameters, or for a state that is not the last one its side reads, while only
      part of the message has arrived. */
  predicate Hasty(cfg: Config, st: ByteState, e: ByteEvent) {
    e.Does? && HastyRead(cfg, Wants(st.world, e.a), InWire(st, e.a).Ready(), LastState(st.world, e.a))
  }

  /** Some event of a run is hasty. */
  predicate HastyRun(cfg: Config, st: ByteState, es: seq<ByteEvent>)
    decreases |es|
  {
    && es != []
    && (|| Hasty(cfg, st, es[0])
        || (ByteStep(cfg, st, es[0]).Some? && HastyRun(cfg, ByteStep(cfg, st, es[0]).value, es[1..])))
  }

  // ---------- frames as bytes ----------

  lemma {:induction false} FlattenSame(codec: Codec, fs: seq<Frame>, gs: seq<Frame>, k: nat)
    requires k <= |fs| && k <= |gs| && forall i :: 0 <= i < k ==> fs[i] == gs[i]
    ensures Flatten(codec, fs, k) == Flatten(codec, gs, k)
  {
    if k > 0 {
      FlattenSame(codec, fs, gs, k - 1);
    }
  }

  lemma {:induction false} FlattenGrows(codec: Codec, fs: seq<Frame>, k: nat, m: nat)
    requires k <= m <= |fs|
    ensures |Flatten(codec, fs, k)| <= |Flatten(codec, fs, m)|
    ensures forall x :: 0 <= x < |Flatten(codec, fs, k)| ==> Flatten(codec, fs, m)[x] == Flatten(codec, fs, k)[x]
  {
    if k < m {
      FlattenGrows(codec, fs, k, m - 1);
    }
  }

  /** Where frame `k` ends. */
  lemma FrameEnds(codec: Codec, fs: seq<Frame>, k: nat)
    requires k < |fs|
    ensures |Flatten(codec, fs, k + 1)| == |Flatten(codec, fs, k)| + |Encode(codec, fs[k])|
    ensures |Flatten(codec, fs, k + 1)| <= |Flatten(codec, fs, |fs|)|
  {
    FlattenGrows(codec, fs, k + 1, |fs|);
  }

  lemma ElementOfSecond(a: seq<byte>, b: seq<byte>, j: nat)
    requires j < |b|
    ensures (a + b)[|a| + j] == b[j]
  {
  }

  /** Byte `j` of frame `k`. */
  lemma ByteOfFrame(codec: Codec, fs: seq<Frame>, k: nat, j: nat)
    requires k < |fs| && j < |Encode(codec, fs[k])|
    ensures |Flatten(codec, fs, k)| + j < |Flatten(codec, fs, |fs|)|
    ensures Flatten(codec, fs, |fs|)[|Flatten(codec, fs, k)| + j] == Encode(codec, fs[k])[j]
  {
    var x := |Flatten(codec, fs, k)| + j;
    FlattenGrows(codec, fs, k + 1, |fs|);
    ElementOfSecond(Flatten(codec, fs, k), Encode(codec, fs[k]), j);
    assert Flatten(codec, fs, k + 1)[x] == Encode(codec, fs[k])[j];
  }

  // ---------- where a reader stands ----------

  /** How many bytes of the messages that have been read have not: the reader stands that far before the end of the
      last. */
  function Lag(codec: Codec, w: Wire): int
    requires w.pipe.taken <= |w.pipe.frames|
  {
    |Flatten(codec, w.pipe.frames, w.pipe.taken)| - w.taken
  }

  predicate SmallStates(p: Pipe) {
    forall k :: 0 <= k < |p.frames| && p.frames[k].StateFrame? ==> 0 < p.frames[k].state < 256
  }

  /** A reader is at the end of a message, or up to three bytes before the end of a state. */
  predicate Placed(codec: Codec, w: Wire) {
    && w.Valid(codec) && SmallStates(w.pipe)
    && w.pipe.taken <= |w.pipe.frames| && 0 <= Lag(codec, w) <= 3
    && (Lag(codec, w) > 0 ==> w.pipe.taken >= 1 && w.pipe.frames[w.pipe.taken - 1].StateFrame?)
  }

  /** Only the first byte of a buffer was ever other than zero. */
  predicate Plain(b: Buffer) { b[1] == b[2] == b[3] == 0 }

  predicate Positioned(codec: Codec, st: ByteState) {
    && Placed(codec, st.toServer) && Placed(codec, st.toClient)
    && Plain(st.serverBuffer) && Plain(st.clientBuffer)
  }

  ghost predicate InStep(cfg: Config, st: ByteState) { Inv(cfg, Frames(st)) && Positioned(cfg.codec, st) }

  /** How many messages a side reads in a session. */
  const SERVER_READS: nat := 5
  const CLIENT_READS: nat := 8

  /** A side that has more to read has left bytes of a state behind. */
  predicate Lagging(codec: Codec, st: ByteState)
    requires Placed(codec, st.toServer) && Placed(codec, st.toClient)
  {
    || (Lag(codec, st.toServer) > 0 && st.toServer.pipe.taken < SERVER_READS)
    || (Lag(codec, st.toClient) > 0 && st.toClient.pipe.taken < CLIENT_READS)
  }

  /** The next message is the one its reader's buffer and parser call for. */
  ghost predicate Readable(cfg: Config, want: Want, p: Pipe) {
    && p.taken <= |p.frames|
    && match want
       case NoRead => true
       case WantState => p.taken < |p.frames| ==> p.frames[p.taken].StateFrame?
       case WantParams =>
         p.taken == 0 && (p.taken < |p.frames| ==> p.frames[0] == ParamsFrame(cfg.params) && |p.frames| == 1)
       case WantLength => p.taken < |p.frames| ==> p.frames[p.taken].LengthFrame? && 0 < p.frames[p.taken].length < WORD
       case WantResults(n) =>
         && n > 0 && p.taken >= 1 && p.frames[p.taken - 1].LengthFrame?
         && (p.taken < |p.frames| ==>
               var f := p.frames[p.taken];
               f.ResultsFrame? && |f.bytes| == cfg.N() && |cfg.codec.encodeResults(f.bytes)| == n)
  }

  lemma LengthsAnnounced(cfg: Config, st: State)
    requires Inv(cfg, st)
    ensures |st.toClient.frames| >= 6 ==> st.toClient.frames[5].LengthFrame? && 0 < st.toClient.frames[5].length < WORD
    ensures |st.toServer.frames| >= 3 ==> st.toServer.frames[2].LengthFrame? && 0 < st.toServer.frames[2].length < WORD
  {
    Causality(cfg, st);
    assert |st.toClient.frames| == 6 ==> st.world.server.handler.HPutResults?;
    assert |st.toServer.frames| == 3 ==> st.world.client.handler.KPutResults?;
  }

  lemma ServerReadable(cfg: Config, st: State)
    requires Inv(cfg, st)
    ensures Readable(cfg, HandlerWants(st.world.server), st.toServer)
    ensures st.world.server.main.SGetParams? ==> Readable(cfg, WantParams, st.toServer)
    ensures SmallStates(st.toServer)
  {
    LengthsAnnounced(cfg, st);
    Causality(cfg, st);
  }

  lemma ClientReadable(cfg: Config, st: State)
    requires Inv(cfg, st)
    ensures Readable(cfg, KeeperWants(st.world.client), st.toClient)
    ensures SmallStates(st.toClient)
  {
    hide ServerInv, ClientTables;
    LengthsAnnounced(cfg, st);
  }

  /** In every state of a session a reader waits for the message that comes next. */
  lemma ActReadable(cfg: Config, st: State, a: Action)
    requires Inv(cfg, st)
    ensures Wants(st.world, a).NoRead? || Readable(cfg, Wants(st.world, a), Inbox(st, a))
  {
    hide Inv, Readable;
    ServerReadable(cfg, st);
    ClientReadable(cfg, st);
  }

  /** Which states are the last, by the number of messages read. */
  lemma LastStates(cfg: Config, st: State, a: Action)
    requires Inv(cfg, st) && !Wants(st.world, a).NoRead?
    ensures Inbox(st, a).taken < if a.IsClient() then CLIENT_READS else SERVER_READS
    ensures Wants(st.world, a).WantState? ==>
              (LastState(st.world, a) <==>
                 Inbox(st, a).taken + 1 == if a.IsClient() then CLIENT_READS else SERVER_READS)
  {
  }

  // ---------- what a read takes ----------

  /** A reader that does not lag has the next message before it. */
  lemma NextBytes(codec: Codec, w: Wire, n: nat)
    requires Placed(codec, w) && Lag(codec, w) == 0 && w.pipe.taken < |w.pipe.frames|
    requires n <= |Encode(codec, w.pipe.frames[w.pipe.taken])|
    ensures w.taken + |Encode(codec, w.pipe.frames[w.pipe.taken])| <= |w.Bytes(codec)|
    ensures w.Next(codec, n) == Encode(codec, w.pipe.frames[w.pipe.taken])[..n]
    ensures w.pipe.taken + 1 == |w.pipe.frames| ==> w.Ready() <= |Encode(codec, w.pipe.frames[w.pipe.taken])|
  {
    hide Flatten, Encode;
    FrameEnds(codec, w.pipe.frames, w.pipe.taken);
    forall j: nat | j < n ensures w.Bytes(codec)[w.taken + j] == Encode(codec, w.pipe.frames[w.pipe.taken])[j] {
      ByteOfFrame(codec, w.pipe.frames, w.pipe.taken, j);
    }
  }

  lemma NothingNext(codec: Codec, w: Wire)
    requires Placed(codec, w) && w.pipe.taken == |w.pipe.frames|
    ensures w.Ready() <= Lag(codec, w)
  {
  }

  lemma SmallWord(v: nat)
    requires v < 256
    ensures Le32(v) == [v, 0, 0, 0]
  {
    assert ToLittleEndian(v / 256, 3) == [0, 0, 0] by {
      assert ToLittleEndian(0, 1) == [0] && ToLittleEndian(0, 2) == [0, 0];
    }
  }

  /** Any front part of a state over a buffer whose rest is zero is the whole state. */
  lemma FrontOfState(v: nat, n: nat, buffer: Buffer)
    requires v < 256 && 1 <= n <= 4 && Plain(buffer)
    ensures Le32(v)[..n] + buffer[n..] == Le32(v)
  {
    SmallWord(v);
  }

  lemma ReadsState(codec: Codec, w: Wire, buffer: Buffer)
    requires Placed(codec, w) && Lag(codec, w) == 0 && w.pipe.taken < |w.pipe.frames| && w.Ready() > 0 && Plain(buffer)
    requires w.pipe.frames[w.pipe.taken].StateFrame?
    ensures var f := w.pipe.frames[w.pipe.taken];
            ReadBytes(codec, WantState, w, buffer) == ByteRead(Received(f), Least(4, w.Ready()), Le32(f.state))
  {
    var v, n := w.pipe.frames[w.pipe.taken].state, Least(4, w.Ready());
    NextBytes(codec, w, n);
    FrontOfState(v, n, buffer);
    WordRoundTrip(v);
  }

  lemma ReadsParams(cfg: Config, w: Wire, buffer: Buffer)
    requires cfg.Sound() && Placed(cfg.codec, w) && Lag(cfg.codec, w) == 0 && w.Ready() > 0
    requires w.pipe.taken < |w.pipe.frames| && Readable(cfg, WantParams, w.pipe)
    ensures var e := cfg.codec.encodeParams(cfg.params);
            && w.Ready() <= |e|
            && ReadBytes(cfg.codec, WantParams, w, buffer)
               == ByteRead(if w.Ready() == |e| then Received(ParamsFrame(cfg.params)) else Garbage, w.Ready(), buffer)
  {
    var e := cfg.codec.encodeParams(cfg.params);
    NextBytes(cfg.codec, w, 0);
    NextBytes(cfg.codec, w, w.Ready());
    assert e[..|e|] == e;
  }

  /** Parameters that have arrived whole are read whole if and only if they take at most 1024 bytes; what is read of
      longer ones does not decode. */
  lemma ParamsFitIff(codec: Codec, p: Params, w: Wire, buffer: Buffer)
    requires Placed(codec, w) && Lag(codec, w) == 0 && w.pipe.taken + 1 == |w.pipe.frames|
    requires w.pipe.frames[w.pipe.taken] == ParamsFrame(p) && w.arrived == |w.Bytes(codec)|
    requires 0 < |codec.encodeParams(p)| && codec.decodeParams(codec.encodeParams(p)) == Some(p)
    requires forall k: nat :: k < |codec.encodeParams(p)| ==> codec.decodeParams(codec.encodeParams(p)[..k]) == None
    ensures ReadBytes(codec, WantParams, w, buffer).input
            == if |codec.encodeParams(p)| <= 1024 then Received(ParamsFrame(p)) else Garbage
  {
    var e := codec.encodeParams(p);
    FrameEnds(codec, w.pipe.frames, w.pipe.taken);
    NextBytes(codec, w, Least(1024, |e|));
    assert w.Ready() == |e| && e[..|e|] == e;
  }

  lemma ReadsLength(codec: Codec, w: Wire, buffer: Buffer)
    requires Placed(codec, w) && Lag(codec, w) == 0 && w.pipe.taken < |w.pipe.frames| && w.Ready() >= 4
    requires w.pipe.frames[w.pipe.taken].LengthFrame? && w.pipe.frames[w.pipe.taken].length < WORD
    ensures ReadBytes(codec, WantLength, w, buffer) == ByteRead(Received(w.pipe.frames[w.pipe.taken]), 4, buffer)
  {
    var n := w.pipe.frames[w.pipe.taken].length;
    NextBytes(codec, w, 4);
    assert Le32(n)[..4] == Le32(n);
    WordRoundTrip(n);
  }

  lemma ReadsResults(cfg: Config, w: Wire, n: nat, buffer: Buffer)
    requires cfg.Sound() && Placed(cfg.codec, w) && Lag(cfg.codec, w) == 0 && w.Ready() >= n
    requires w.pipe.taken < |w.pipe.frames| && Readable(cfg, WantResults(n), w.pipe)
    ensures ReadBytes(cfg.codec, WantResults(n), w, buffer)
            == ByteRead(Received(w.pipe.frames[w.pipe.taken]), n, buffer)
  {
    var e := Encode(cfg.codec, w.pipe.frames[w.pipe.taken]);
    NextBytes(cfg.codec, w, n);
    assert e[..n] == e;
  }

  /** A read that starts at the end of a message returns the next one, or nothing yet; but parameters of which only
      part has arrived do not decode. A state needs only its first byte, and may leave up to three behind. */
  lemma ReadMatches(cfg: Config, want: Want, w: Wire, buffer: Buffer)
    requires cfg.Sound() && Placed(cfg.codec, w) && Lag(cfg.codec, w) == 0 && Plain(buffer)
    requires Readable(cfg, want, w.pipe) && !want.NoRead?
    ensures var r := ReadBytes(cfg.codec, want, w, buffer);
            if w.pipe.taken == |w.pipe.frames| then r.input == Nothing
            else
              var f := w.pipe.frames[w.pipe.taken];
              var e := |Encode(cfg.codec, f)|;
              if want.WantState? && w.Ready() > 0 then r == ByteRead(Received(f), Least(4, w.Ready()), Le32(f.state))
              else if w.Ready() >= e then r == ByteRead(Received(f), e, buffer)
              else if want.WantParams? && w.Ready() > 0 then r.input == Garbage
              else r.input == Nothing
  {
    if w.pipe.taken == |w.pipe.frames| {
      NothingNext(cfg.codec, w);
    } else {
      match want
      case WantState => if w.Ready() > 0 { ReadsState(cfg.codec, w, buffer); }
      case WantParams => if w.Ready() > 0 { ReadsParams(cfg, w, buffer); }
      case WantLength => if w.Ready() >= 4 { ReadsLength(cfg.codec, w, buffer); }
      case WantResults(n) => if w.Ready() >= n { ReadsResults(cfg, w, n, buffer); }
    }
  }

  // ---------- a reader that lags ----------

  lemma StateTail(v: nat, j: nat)
    requires v < 256 && 1 <= j < 4
    ensures |Le32(v)| == 4 && Le32(v)[j] == 0
  {
    SmallWord(v);
  }

  /** Before a reader that lags there are zero bytes. */
  lemma LagZeros(codec: Codec, w: Wire, k: nat)
    requires Placed(codec, w) && k < Lag(codec, w)
    ensures w.taken + k < |w.Bytes(codec)| && w.Bytes(codec)[w.taken + k] == 0
  {
    var fs, i, j := w.pipe.frames, w.pipe.taken - 1, 4 - Lag(codec, w) + k;
    StateTail(fs[i].state, j);
    FrameEnds(codec, fs, i);
    ByteOfFrame(codec, fs, i, j);
    assert |Flatten(codec, fs, i)| + j == w.taken + k;
  }

  /** Behind them is the next message. */
  lemma LagNext(codec: Codec, w: Wire, k: nat)
    requires Placed(codec, w) && Lag(codec, w) <= k && w.taken + k < |w.Bytes(codec)|
    ensures w.pipe.taken < |w.pipe.frames|
    ensures k - Lag(codec, w) < |Encode(codec, w.pipe.frames[w.pipe.taken])| ==>
              w.Bytes(codec)[w.taken + k] == Encode(codec, w.pipe.frames[w.pipe.taken])[k - Lag(codec, w)]
  {
    var fs, i, j := w.pipe.frames, w.pipe.taken, k - Lag(codec, w);
    if i < |fs| && j < |Encode(codec, fs[i])| {
      ByteOfFrame(codec, fs, i, j);
    }
  }

  /** A state read by a reader that lags is a multiple of 256, which no side ever sends. */
  lemma LagMisreadsState(codec: Codec, w: Wire, buffer: Buffer)
    requires Placed(codec, w) && Lag(codec, w) > 0 && w.Ready() > 0
    ensures var r := ReadBytes(codec, WantState, w, buffer);
            r.input.Received? && r.input != w.Due()
  {
    LagZeros(codec, w, 0);
    var r := ReadBytes(codec, WantState, w, buffer);
    var b := w.Next(codec, Least(4, w.Ready())) + buffer[Least(4, w.Ready())..];
    assert b[0] == 0;
    assert FromLittleEndian(b) == 256 * FromLittleEndian(b[1..]);
  }

  /** Four bytes that are a word shifted by one to three places are not that word, unless it is zero. */
  lemma ShiftedWord(b: Buffer, n: nat, lag: nat)
    requires 0 < n < WORD && 1 <= lag <= 3
    requires forall k :: 0 <= k < lag ==> b[k] == 0
    requires forall k :: lag <= k < 4 ==> b[k] == Le32(n)[k - lag]
    ensures Word(b) != n
  {
    if Word(b) == n {
      var e := Le32(n);
      LittleEndianInverse(b);
      assert b == e;
      assert e[0] == 0;
      assert e[1] == 0 by { if lag == 1 { assert e[1] == e[0]; } }
      assert e[2] == 0 by { if lag <= 2 { assert e[2] == e[2 - lag]; } }
      assert e[3] == 0 by { assert e[3] == e[3 - lag]; }
      SmallWord(0);
      assert e == Le32(0);
      WordRoundTrip(n);
      WordRoundTrip(0);
      assert false;
    }
  }

  /** A length read by a reader that lags is not the one that was written. */
  lemma LagMisreadsLength(codec: Codec, w: Wire, buffer: Buffer)
    requires Placed(codec, w) && Lag(codec, w) > 0 && w.Ready() >= 4
    requires w.pipe.taken < |w.pipe.frames| ==>
               w.pipe.frames[w.pipe.taken].LengthFrame? && 0 < w.pipe.frames[w.pipe.taken].length < WORD
    ensures var r := ReadBytes(codec, WantLength, w, buffer);
            r.input.Received? && r.input != w.Due()
  {
    var b: Buffer, lag := w.Next(codec, 4), Lag(codec, w);
    LagNext(codec, w, 3);
    forall k: nat | k < 4
      ensures k < lag ==> b[k] == 0
      ensures lag <= k ==> b[k] == Le32(w.pipe.frames[w.pipe.taken].length)[k - lag]
    {
      if k < lag { LagZeros(codec, w, k); } else { LagNext(codec, w, k); }
    }
    ShiftedWord(b, w.pipe.frames[w.pipe.taken].length, lag);
  }

  /** Whatever a reader that lags reads next is wrong. */
  lemma LagMisreads(cfg: Config, want: Want, w: Wire, buffer: Buffer)
    requires Placed(cfg.codec, w) && Lag(cfg.codec, w) > 0 && Readable(cfg, want, w.pipe) && !want.NoRead?
    ensures var r := ReadBytes(cfg.codec, want, w, buffer);
            && (r.input == Nothing || r.input != w.Due())
            && (r.input == Nothing <==> w.Ready() < if want.WantState? then 1 else 4)
  {
    match want
    case WantState => if w.Ready() > 0 { LagMisreadsState(cfg.codec, w, buffer); }
    case WantLength => if w.Ready() >= 4 { LagMisreadsLength(cfg.codec, w, buffer); }
    case _ => assert false;
  }

  // ---------- one step ----------

  lemma SentPlaced(codec: Codec, w: Wire, output: seq<Frame>)
    requires Placed(codec, w) && SmallStates(Send(w, output).pipe)
    ensures Placed(codec, Send(w, output)) && Lag(codec, Send(w, output)) == Lag(codec, w)
  {
    var fs, gs := w.pipe.frames, w.pipe.frames + output;
    FlattenSame(codec, fs, gs, w.pipe.taken);
    FlattenSame(codec, fs, gs, |fs|);
    FlattenGrows(codec, gs, |fs|, |gs|);
  }

  /** A read of one message takes all of it, or a state but for its last bytes. */
  predicate Takes(codec: Codec, w: Wire, count: nat) {
    && w.pipe.taken < |w.pipe.frames| && count <= w.Ready()
    && var f := w.pipe.frames[w.pipe.taken];
       if f.StateFrame? then 1 <= count <= 4 else count == |Encode(codec, f)|
  }

  lemma TakenPlaced(codec: Codec, w: Wire, count: nat)
    requires Placed(codec, w) && Lag(codec, w) == 0 && Takes(codec, w, count)
    ensures Placed(codec, Skip(w, 1, count))
    ensures Lag(codec, Skip(w, 1, count)) == |Encode(codec, w.pipe.frames[w.pipe.taken])| - count
  {
    hide Flatten;
    FrameEnds(codec, w.pipe.frames, w.pipe.taken);
  }

  /** The session has gone astray: something has been misread, or will be. */
  predicate Astray(codec: Codec, st: ByteState) {
    st.world.garbled || (Placed(codec, st.toServer) && Placed(codec, st.toClient) && Lagging(codec, st))
  }

  /** An action that reads nothing leaves the lags alone. */
  lemma QuietPositions(codec: Codec, st: ByteState, a: Action, e: Effect, next: ByteState)
    requires Positioned(codec, st) && next == DeliverBytes(st, a, e, 0, 0, BufferOf(st, a))
    requires SmallStates(next.toServer.pipe) && SmallStates(next.toClient.pipe)
    requires e.world.garbled == st.world.garbled
    ensures Positioned(codec, next) && Astray(codec, next) == Astray(codec, st)
  {
    if a.IsClient() {
      SentPlaced(codec, st.toServer, e.output);
    } else {
      SentPlaced(codec, st.toClient, e.output);
    }
  }

  lemma QuietDelivers(cfg: Config, st: ByteState, a: Action, e: Effect, next: ByteState)
    requires InStep(cfg, st) && next == DeliverBytes(st, a, e, 0, 0, BufferOf(st, a)) && Inv(cfg, Frames(next))
    ensures InStep(cfg, next) && Astray(cfg.codec, next) == Astray(cfg.codec, st)
  {
    ServerReadable(cfg, Frames(next));
    ClientReadable(cfg, Frames(next));
    QuietPositions(cfg.codec, st, a, e, next);
  }

  lemma ServerDelivers(cfg: Config, st: ByteState, a: Action, e: Effect, count: nat, buffer: Buffer, next: ByteState)
    requires InStep(cfg, st) && !a.IsClient() && next == DeliverBytes(st, a, e, 1, count, buffer)
    requires Inv(cfg, Frames(next)) && Plain(buffer)
    requires Lag(cfg.codec, st.toServer) == 0 && Takes(cfg.codec, st.toServer, count)
    ensures InStep(cfg, next)
    ensures Astray(cfg.codec, next) <==>
            || Astray(cfg.codec, st)
            || (count < |Encode(cfg.codec, st.toServer.pipe.frames[st.toServer.pipe.taken])|
                && st.toServer.pipe.taken + 1 < SERVER_READS)
  {
    ClientReadable(cfg, Frames(next));
    TakenPlaced(cfg.codec, st.toServer, count);
    SentPlaced(cfg.codec, st.toClient, e.output);
  }

  lemma ClientDelivers(cfg: Config, st: ByteState, a: Action, e: Effect, count: nat, buffer: Buffer, next: ByteState)
    requires InStep(cfg, st) && a.IsClient() && next == DeliverBytes(st, a, e, 1, count, buffer)
    requires Inv(cfg, Frames(next)) && Plain(buffer)
    requires Lag(cfg.codec, st.toClient) == 0 && Takes(cfg.codec, st.toClient, count)
    ensures InStep(cfg, next)
    ensures Astray(cfg.codec, next) <==>
            || Astray(cfg.codec, st)
            || (count < |Encode(cfg.codec, st.toClient.pipe.frames[st.toClient.pipe.taken])|
                && st.toClient.pipe.taken + 1 < CLIENT_READS)
  {
    ServerReadable(cfg, Frames(next));
    TakenPlaced(cfg.codec, st.toClient, count);
    SentPlaced(cfg.codec, st.toServer, e.output);
  }

  /** Over frames a reader takes the message that is due. */
  lemma DueIsTaken(cfg: Config, want: Want, p: Pipe)
    requires Readable(cfg, want, p) && !want.NoRead? && p.taken < |p.frames|
    ensures Take(cfg.codec, want, p) == Received(p.frames[p.taken])
  {
  }

  lemma QuietIsStep(cfg: Config, st: ByteState, a: Action, next: ByteState) returns (e: Effect)
    requires InWire(st, a).Valid(cfg.codec) && Wants(st.world, a).NoRead? && ByteAct(cfg, st, a) == Some(next)
    ensures next == DeliverBytes(st, a, e, 0, 0, BufferOf(st, a)) && Step(cfg, Frames(st), a) == Some(Frames(next))
  {
    e := Act(cfg, st.world, a, Nothing).value;
  }

  lemma ReadIsStep(cfg: Config, st: ByteState, a: Action, r: ByteRead, next: ByteState) returns (e: Effect)
    requires InWire(st, a).Valid(cfg.codec) && !Wants(st.world, a).NoRead? && ByteAct(cfg, st, a) == Some(next)
    requires r == ReadBytes(cfg.codec, Wants(st.world, a), InWire(st, a), BufferOf(st, a))
    requires r.input == InWire(st, a).Due() == Take(cfg.codec, Wants(st.world, a), InWire(st, a).pipe)
    requires r.input.Received?
    ensures next == DeliverBytes(st, a, e, 1, r.count, r.buffer) && Step(cfg, Frames(st), a) == Some(Frames(next))
  {
    e := Act(cfg, st.world, a, r.input).value;
  }

  lemma QuietStays(cfg: Config, st: ByteState, a: Action, next: ByteState)
    requires InStep(cfg, st) && Wants(st.world, a).NoRead? && ByteAct(cfg, st, a) == Some(next)
    ensures Step(cfg, Frames(st), a) == Some(Frames(next)) && InStep(cfg, next)
    ensures Astray(cfg.codec, next) == Astray(cfg.codec, st)
  {
    hide Inv, Astray, Step, ByteAct;
    var e := QuietIsStep(cfg, st, a, next);
    StepKeepsInv(cfg, Frames(st), a, Frames(next));
    QuietDelivers(cfg, st, a, e, next);
  }

  /** A reader that lags misreads. */
  lemma LagGarbles(cfg: Config, st: ByteState, a: Action, next: ByteState)
    requires InStep(cfg, st) && !Wants(st.world, a).NoRead? && ByteAct(cfg, st, a) == Some(next)
    requires Lag(cfg.codec, InWire(st, a)) > 0
    ensures next.world.garbled && Astray(cfg.codec, st)
  {
    ActReadable(cfg, Frames(st), a);
    LastStates(cfg, Frames(st), a);
    LagMisreads(cfg, Wants(st.world, a), InWire(st, a), BufferOf(st, a));
  }

  lemma StateIsPlain(p: Pipe)
    requires SmallStates(p) && p.taken < |p.frames|
    ensures p.frames[p.taken].StateFrame? ==> Plain(Le32(p.frames[p.taken].state))
  {
    if p.frames[p.taken].StateFrame? { SmallWord(p.frames[p.taken].state); }
  }

  /** How many messages a side reads. */
  function Limit(a: Action): nat { if a.IsClient() then CLIENT_READS else SERVER_READS }

  /** What any other reader gets, takes and leaves behind. */
  lemma WireTakes(cfg: Config, want: Want, w: Wire, buffer: Buffer, last: bool, limit: nat)
    requires cfg.Sound() && Placed(cfg.codec, w) && Lag(cfg.codec, w) == 0 && Plain(buffer)
    requires Readable(cfg, want, w.pipe) && !want.NoRead?
    requires w.pipe.taken < limit && (want.WantState? ==> (last <==> w.pipe.taken + 1 == limit))
    requires want.WantParams? ==> limit > 1
    ensures var r := ReadBytes(cfg.codec, want, w, buffer);
            && (r.input.Received? ==>
                  && r.input == w.Due() == Take(cfg.codec, want, w.pipe)
                  && Takes(cfg.codec, w, r.count) && Plain(r.buffer)
                  && (HastyRead(cfg, want, w.Ready(), last) <==>
                        r.count < |Encode(cfg.codec, w.pipe.frames[w.pipe.taken])| && w.pipe.taken + 1 < limit))
            && (r.input.Garbage? ==> HastyRead(cfg, want, w.Ready(), last))
            && (r.input.Nothing? ==> !HastyRead(cfg, want, w.Ready(), last))
  {
    ReadMatches(cfg, want, w, buffer);
    if w.pipe.taken < |w.pipe.frames| {
      DueIsTaken(cfg, want, w.pipe);
      StateIsPlain(w.pipe);
    } else {
      NothingNext(cfg.codec, w);
    }
  }

  lemma ReadTakes(cfg: Config, st: ByteState, a: Action, r: ByteRead)
    requires InStep(cfg, st) && !Wants(st.world, a).NoRead? && Lag(cfg.codec, InWire(st, a)) == 0
    requires r == ReadBytes(cfg.codec, Wants(st.world, a), InWire(st, a), BufferOf(st, a))
    ensures r.input.Received? ==>
              var w := InWire(st, a);
              && r.input == w.Due() == Take(cfg.codec, Wants(st.world, a), w.pipe)
              && Takes(cfg.codec, w, r.count) && Plain(r.buffer)
              && (Hasty(cfg, st, Does(a)) <==>
                    r.count < |Encode(cfg.codec, w.pipe.frames[w.pipe.taken])| && w.pipe.taken + 1 < Limit(a))
    ensures r.input.Garbage? ==> Hasty(cfg, st, Does(a))
    ensures r.input.Nothing? ==> !Hasty(cfg, st, Does(a))
  {
    hide Wired, ServerInv, ClientInv, Readable, Takes, Plain;
    ActReadable(cfg, Frames(st), a);
    LastStates(cfg, Frames(st), a);
    WireTakes(cfg, Wants(st.world, a), InWire(st, a), BufferOf(st, a), LastState(st.world, a), Limit(a));
  }

  lemma ReadKeepsInv(cfg: Config, st: ByteState, a: Action, r: ByteRead, next: ByteState) returns (e: Effect)
    requires InStep(cfg, st) && !Wants(st.world, a).NoRead? && ByteAct(cfg, st, a) == Some(next) && r.input.Received?
    requires r == ReadBytes(cfg.codec, Wants(st.world, a), InWire(st, a), BufferOf(st, a))
    requires r.input == InWire(st, a).Due() == Take(cfg.codec, Wants(st.world, a), InWire(st, a).pipe)
    ensures next == DeliverBytes(st, a, e, 1, r.count, r.buffer)
    ensures Step(cfg, Frames(st), a) == Some(Frames(next)) && Inv(cfg, Frames(next))
  {
    e := ReadIsStep(cfg, st, a, r, next);
    StepKeepsInv(cfg, Frames(st), a, Frames(next));
  }

  lemma ReceivedStays(cfg: Config, st: ByteState, a: Action, r: ByteRead, next: ByteState)
    requires InStep(cfg, st) && !Wants(st.world, a).NoRead? && ByteAct(cfg, st, a) == Some(next)
    requires Lag(cfg.codec, InWire(st, a)) == 0 && r.input.Received?
    requires r == ReadBytes(cfg.codec, Wants(st.world, a), InWire(st, a), BufferOf(st, a))
    requires r.input == InWire(st, a).Due() == Take(cfg.codec, Wants(st.world, a), InWire(st, a).pipe)
    requires Takes(cfg.codec, InWire(st, a), r.count) && Plain(r.buffer)
    ensures Step(cfg, Frames(st), a) == Some(Frames(next)) && InStep(cfg, next)
    ensures var p := InWire(st, a).pipe;
            Astray(cfg.codec, next) <==>
              Astray(cfg.codec, st)
              || (r.count < |Encode(cfg.codec, p.frames[p.taken])| && p.taken + 1 < Limit(a))
  {
    hide Inv, Positioned, Lagging, Step, ByteAct, ReadBytes, Takes;
    var e := ReadKeepsInv(cfg, st, a, r, next);
    if a.IsClient() {
      ClientDelivers(cfg, st, a, e, r.count, r.buffer, next);
    } else {
      ServerDelivers(cfg, st, a, e, r.count, r.buffer, next);
    }
  }

  /** A reader that does not lag misreads only parameters of which it finds a part. */
  lemma ReadStays(cfg: Config, st: ByteState, a: Action, next: ByteState)
    requires InStep(cfg, st) && !Wants(st.world, a).NoRead? && ByteAct(cfg, st, a) == Some(next)
    requires Lag(cfg.codec, InWire(st, a)) == 0
    ensures !next.world.garbled ==> Step(cfg, Frames(st), a) == Some(Frames(next)) && InStep(cfg, next)
    ensures Astray(cfg.codec, next) <==> Astray(cfg.codec, st) || Hasty(cfg, st, Does(a))
  {
    var r := ReadBytes(cfg.codec, Wants(st.world, a), InWire(st, a), BufferOf(st, a));
    ReadTakes(cfg, st, a, r);
    if r.input.Received? {
      ReceivedStays(cfg, st, a, r, next);
    }
  }

  /** A step over bytes misreads, or is the step over frames; and the session is astray after it exactly if it was
      before, or the step is hasty. */
  lemma ActStays(cfg: Config, st: ByteState, a: Action, next: ByteState)
    requires InStep(cfg, st) && ByteStep(cfg, st, Does(a)) == Some(next)
    ensures !next.world.garbled ==> Step(cfg, Frames(st), a) == Some(Frames(next)) && InStep(cfg, next)
    ensures Astray(cfg.codec, next) <==> Astray(cfg.codec, st) || Hasty(cfg, st, Does(a))
  {
    hide Inv, ByteAct, Step, ReadBytes;
    if Wants(st.world, a).NoRead? {
      QuietStays(cfg, st, a, next);
    } else if Lag(cfg.codec, InWire(st, a)) > 0 {
      LagGarbles(cfg, st, a, next);
    } else {
      ReadStays(cfg, st, a, next);
    }
  }

  lemma ArrivalPlaced(codec: Codec, w: Wire, n: nat)
    requires Placed(codec, w) && w.arrived + n <= |w.Bytes(codec)|
    ensures var after := w.(arrived := w.arrived + n);
            Placed(codec, after) && after.pipe == w.pipe && Lag(codec, after) == Lag(codec, w)
  {
  }

  lemma ArrivalPositions(cfg: Config, st: ByteState, e: ByteEvent, next: ByteState)
    requires Positioned(cfg.codec, st) && !e.Does? && ByteStep(cfg, st, e) == Some(next)
    ensures Positioned(cfg.codec, next) && Frames(next) == Frames(st)
    ensures Astray(cfg.codec, next) == Astray(cfg.codec, st) && !next.world.garbled
  {
    if e.ToServerArrives? {
      ArrivalPlaced(cfg.codec, st.toServer, e.n);
    } else {
      ArrivalPlaced(cfg.codec, st.toClient, e.n);
    }
  }

  lemma ArrivalStays(cfg: Config, st: ByteState, e: ByteEvent, next: ByteState)
    requires InStep(cfg, st) && !e.Does? && ByteStep(cfg, st, e) == Some(next)
    ensures InStep(cfg, next) && Frames(next) == Frames(st) && Astray(cfg.codec, next) == Astray(cfg.codec, st)
    ensures !Hasty(cfg, st, e) && !next.world.garbled
  {
    ArrivalPositions(cfg, st, e, next);
  }

  // ---------- whole runs ----------

  lemma GarbledEnds(cfg: Config, st: ByteState, es: seq<ByteEvent>, last: ByteState)
    requires ByteRun(cfg, st, es) == Some(last) && st.world.garbled
    ensures es == [] && last == st
  {
  }

  lemma RunStep(cfg: Config, st: State, a: Action, after: State, rest: seq<Action>)
    requires Step(cfg, st, a) == Some(after)
    ensures Run(cfg, st, [a] + rest) == Run(cfg, after, rest)
  {
    assert ([a] + rest)[1..] == rest;
  }

  /** A run over bytes is a run over frames up to its first misreading, and it goes astray exactly by haste. */
  lemma {:induction false} RunStays(cfg: Config, st: ByteState, es: seq<ByteEvent>, last: ByteState)
    requires InStep(cfg, st) && ByteRun(cfg, st, es) == Some(last)
    ensures Astray(cfg.codec, last) <==> Astray(cfg.codec, st) || HastyRun(cfg, st, es)
    ensures !last.world.garbled ==> InStep(cfg, last) && Run(cfg, Frames(st), Acts(es)) == Some(Frames(last))
    decreases |es|
  {
    hide InStep, Astray, Hasty, Step;
    if es != [] {
      var next := ByteStep(cfg, st, es[0]).value;
      if es[0].Does? {
        ActStays(cfg, st, es[0].a, next);
        if next.world.garbled {
          GarbledEnds(cfg, next, es[1..], last);
        } else {
          RunStays(cfg, next, es[1..], last);
          RunStep(cfg, Frames(st), es[0].a, Frames(next), Acts(es[1..]));
        }
      } else {
        ArrivalStays(cfg, st, es[0], next);
        RunStays(cfg, next, es[1..], last);
        assert Acts(es) == Acts(es[1..]);
      }
    }
  }

  lemma InitialInStep(cfg: Config, prior: Params, sender: bool)
    requires cfg.Valid()
    ensures InStep(cfg, ByteInitial(cfg, prior, sender)) && !Astray(cfg.codec, ByteInitial(cfg, prior, sender))
    ensures Frames(ByteInitial(cfg, prior, sender)) == Initial(cfg, prior, sender)
  {
    hide Inv;
    InitialInv(cfg, prior, sender);
  }

  /** However the bytes arrive, a session has misread a message, or has a side standing inside one it has more to read
      after, if and only if some goroutine called `Read` in haste: for the parameters, or for a state that is not the
      last one its side reads, while only part of the message had arrived. */
  lemma AstrayIffHasty(cfg: Config, prior: Params, sender: bool, es: seq<ByteEvent>, last: ByteState)
    requires cfg.Valid() && ByteRun(cfg, ByteInitial(cfg, prior, sender), es) == Some(last)
    ensures Astray(cfg.codec, last) <==> HastyRun(cfg, ByteInitial(cfg, prior, sender), es)
  {
    InitialInStep(cfg, prior, sender);
    RunStays(cfg, ByteInitial(cfg, prior, sender), es, last);
  }

  /** Until something is misread, a run over bytes is a run over frames: its goroutines do the same and read what was
      written, also when a state was read in haste. */
  lemma FramesExplainBytes(cfg: Config, prior: Params, sender: bool, es: seq<ByteEvent>, last: ByteState)
    requires cfg.Valid() && ByteRun(cfg, ByteInitial(cfg, prior, sender), es) == Some(last) && !last.world.garbled
    ensures Run(cfg, Initial(cfg, prior, sender), Acts(es)) == Some(Frames(last))
  {
    InitialInStep(cfg, prior, sender);
    RunStays(cfg, ByteInitial(cfg, prior, sender), es, last);
  }

  ghost predicate ByteReachable(cfg: Config, st: ByteState) {
    exists prior, sender, es :: ByteRun(cfg, ByteInitial(cfg, prior, sender), es) == Some(st)
  }

  lemma ReachableInStep(cfg: Config, st: ByteState)
    requires cfg.Valid() && ByteReachable(cfg, st) && !st.world.garbled
    ensures InStep(cfg, st) && Reachable(cfg, Frames(st))
  {
    var prior, sender, es :| ByteRun(cfg, ByteInitial(cfg, prior, sender), es) == Some(st);
    InitialInStep(cfg, prior, sender);
    RunStays(cfg, ByteInitial(cfg, prior, sender), es, st);
    assert Run(cfg, Initial(cfg, prior, sender), Acts(es)) == Some(Frames(st));
  }

  /** The side of `a` stands inside a state it has read. */
  predicate Lags(cfg: Config, st: ByteState, a: Action) {
    Placed(cfg.codec, InWire(st, a)) && Lag(cfg.codec, InWire(st, a)) > 0
  }

  /** What haste leaves behind is read as part of the next message: whatever that side reads next, it misreads. */
  lemma HasteIsMisread(cfg: Config, st: ByteState, a: Action, next: ByteState)
    requires cfg.Valid() && ByteReachable(cfg, st) && Lags(cfg, st, a) && !Wants(st.world, a).NoRead?
    requires ByteStep(cfg, st, Does(a)) == Some(next)
    ensures next.world.garbled
  {
    ReachableInStep(cfg, st);
    LagGarbles(cfg, st, a, next);
  }

  // ---------- carrying a session on over bytes ----------

  predicate AllArrived(codec: Codec, st: ByteState) {
    st.toServer.arrived == |st.toServer.Bytes(codec)| && st.toClient.arrived == |st.toClient.Bytes(codec)|
  }

  /** All that has been written arrives. */
  function Arrived(codec: Codec, st: ByteState): ByteState {
    st.(toServer := st.toServer.(arrived := |st.toServer.Bytes(codec)|),
        toClient := st.toClient.(arrived := |st.toClient.Bytes(codec)|))
  }

  function Arrivals(codec: Codec, st: ByteState): seq<ByteEvent>
    requires st.toServer.Valid(codec) && st.toClient.Valid(codec)
  {
    [ToServerArrives(|st.toServer.Bytes(codec)| - st.toServer.arrived),
     ToClientArrives(|st.toClient.Bytes(codec)| - st.toClient.arrived)]
  }

  lemma TwoArrivals(cfg: Config, st: ByteState, rest: seq<ByteEvent>, half: ByteState)
    requires st.toServer.Valid(cfg.codec) && st.toClient.Valid(cfg.codec) && !st.world.garbled
    requires half == st.(toServer := st.toServer.(arrived := |st.toServer.Bytes(cfg.codec)|))
    ensures var es := Arrivals(cfg.codec, st) + rest;
            && ByteStep(cfg, st, es[0]) == Some(half) && ByteStep(cfg, half, es[1]) == Some(Arrived(cfg.codec, st))
            && !es[0].Does? && !es[1].Does? && es[1..][1..] == rest
  {
  }

  /** Everything arrives, and the session goes on from there. */
  lemma ArrivalsRun(cfg: Config, st: ByteState, rest: seq<ByteEvent>)
    requires InStep(cfg, st)
    ensures InStep(cfg, Arrived(cfg.codec, st)) && AllArrived(cfg.codec, Arrived(cfg.codec, st))
    ensures Frames(Arrived(cfg.codec, st)) == Frames(st)
    ensures Astray(cfg.codec, Arrived(cfg.codec, st)) == Astray(cfg.codec, st)
    ensures ByteRun(cfg, st, Arrivals(cfg.codec, st) + rest) == ByteRun(cfg, Arrived(cfg.codec, st), rest)
    ensures HastyRun(cfg, st, Arrivals(cfg.codec, st) + rest) == HastyRun(cfg, Arrived(cfg.codec, st), rest)
    ensures Acts(Arrivals(cfg.codec, st) + rest) == Acts(rest)
  {
    var es, all := Arrivals(cfg.codec, st) + rest, Arrived(cfg.codec, st);
    var half := st.(toServer := st.toServer.(arrived := |st.toServer.Bytes(cfg.codec)|));
    TwoArrivals(cfg, st, rest, half);
    ArrivalStays(cfg, st, es[0], half);
    ArrivalStays(cfg, half, es[1], all);
    assert ByteRun(cfg, st, es) == ByteRun(cfg, half, es[1..]) == ByteRun(cfg, all, rest);
    assert HastyRun(cfg, st, es) == HastyRun(cfg, half, es[1..]) == HastyRun(cfg, all, rest);
    assert Acts(es) == Acts(es[1..]) == Acts(rest);
  }

  lemma QuietRealised(cfg: Config, st: ByteState, a: Action, after: State)
    requires InWire(st, a).Valid(cfg.codec) && Wants(st.world, a).NoRead? && Step(cfg, Frames(st), a) == Some(after)
    ensures ByteAct(cfg, st, a).Some? && Frames(ByteAct(cfg, st, a).value) == after && !Hasty(cfg, st, Does(a))
  {
  }

  lemma ReadRealised(cfg: Config, st: ByteState, a: Action, after: State)
    requires InWire(st, a).Valid(cfg.codec) && !Wants(st.world, a).NoRead? && Step(cfg, Frames(st), a) == Some(after)
    requires var w := InWire(st, a);
             w.Due().Received? && w.Due() == Take(cfg.codec, Wants(st.world, a), w.pipe)
    requires !ReadBytes(cfg.codec, Wants(st.world, a), InWire(st, a), BufferOf(st, a)).input.Nothing?
    ensures ByteAct(cfg, st, a).Some?
    ensures !ByteAct(cfg, st, a).value.world.garbled ==> Frames(ByteAct(cfg, st, a).value) == after
  {
  }

  /** A message that has been written and has arrived can be read, if not always rightly. */
  lemma ReadReturnsSomething(cfg: Config, want: Want, w: Wire, buffer: Buffer)
    requires cfg.Sound() && Placed(cfg.codec, w) && Plain(buffer) && Readable(cfg, want, w.pipe) && !want.NoRead?
    requires w.pipe.taken < |w.pipe.frames| && w.arrived == |w.Bytes(cfg.codec)|
    ensures !ReadBytes(cfg.codec, want, w, buffer).input.Nothing?
    ensures Lag(cfg.codec, w) == 0 ==> w.Ready() >= |Encode(cfg.codec, w.pipe.frames[w.pipe.taken])| >= 1
    ensures Lag(cfg.codec, w) == 0 && want.WantState? ==> w.Ready() >= 4
  {
    FrameEnds(cfg.codec, w.pipe.frames, w.pipe.taken);
    if Lag(cfg.codec, w) == 0 {
      ReadMatches(cfg, want, w, buffer);
    } else {
      LagMisreads(cfg, want, w, buffer);
    }
  }

  lemma DueIsWhole(cfg: Config, st: ByteState, a: Action)
    requires InStep(cfg, st) && AllArrived(cfg.codec, st) && !Wants(st.world, a).NoRead?
    requires InWire(st, a).pipe.taken < |InWire(st, a).pipe.frames|
    ensures var w := InWire(st, a);
            && w.Due() == Take(cfg.codec, Wants(st.world, a), w.pipe)
            && !ReadBytes(cfg.codec, Wants(st.world, a), w, BufferOf(st, a)).input.Nothing?
            && (Lag(cfg.codec, w) == 0 ==> !Hasty(cfg, st, Does(a)))
  {
    var want, w := Wants(st.world, a), InWire(st, a);
    ActReadable(cfg, Frames(st), a);
    DueIsTaken(cfg, want, w.pipe);
    ReadReturnsSomething(cfg, want, w, BufferOf(st, a));
  }

  /** A message that is due is read when all has arrived, and not in haste. */
  lemma DueIsRead(cfg: Config, st: ByteState, a: Action, after: State)
    requires InStep(cfg, st) && AllArrived(cfg.codec, st) && Step(cfg, Frames(st), a) == Some(after)
    requires !Wants(st.world, a).NoRead?
    ensures var w := InWire(st, a);
            && w.Due().Received? && w.Due() == Take(cfg.codec, Wants(st.world, a), w.pipe)
            && !ReadBytes(cfg.codec, Wants(st.world, a), w, BufferOf(st, a)).input.Nothing?
            && (Lag(cfg.codec, w) == 0 ==> !Hasty(cfg, st, Does(a)))
  {
    DueIsWhole(cfg, st, a);
  }

  /** A step over frames can be taken over bytes when all has arrived; it misreads only if the session was astray. */
  lemma StepRealised(cfg: Config, st: ByteState, a: Action, after: State) returns (next: ByteState)
    requires InStep(cfg, st) && AllArrived(cfg.codec, st) && Step(cfg, Frames(st), a) == Some(after)
    ensures ByteStep(cfg, st, Does(a)) == Some(next) && (Hasty(cfg, st, Does(a)) ==> Astray(cfg.codec, st))
    ensures Astray(cfg.codec, next) <==> Astray(cfg.codec, st)
    ensures !next.world.garbled ==> Frames(next) == after && InStep(cfg, next)
  {
    if Wants(st.world, a).NoRead? {
      QuietRealised(cfg, st, a, after);
    } else {
      DueIsRead(cfg, st, a, after);
      ReadRealised(cfg, st, a, after);
    }
    next := ByteAct(cfg, st, a).value;
    ActStays(cfg, st, a, next);
    if !Wants(st.world, a).NoRead? && Lag(cfg.codec, InWire(st, a)) > 0 {
      LagGarbles(cfg, st, a, next);
    }
  }

  /** A run over frames, followed over bytes with every write arriving whole: it is realised, or ends in a misreading
      of what an earlier haste left behind. */
  ghost predicate Follows(
    cfg: Config, st: ByteState, es: seq<ByteEvent>, last: ByteState, acts: seq<Action>, target: State) {
    && ByteRun(cfg, st, es) == Some(last)
    && (Astray(cfg.codec, last) <==> Astray(cfg.codec, st))
    && (!last.world.garbled ==> Acts(es) == acts && Frames(last) == target && InStep(cfg, last))
  }

  lemma FollowsStep(cfg: Config, st: ByteState, next: ByteState, rest: seq<ByteEvent>, last: ByteState,
      acts: seq<Action>, target: State)
    requires acts != [] && ByteStep(cfg, st, Does(acts[0])) == Some(next)
    requires Astray(cfg.codec, next) <==> Astray(cfg.codec, st)
    requires Follows(cfg, next, rest, last, acts[1..], target)
    ensures Follows(cfg, st, [Does(acts[0])] + rest, last, acts, target)
  {
    var es := [Does(acts[0])] + rest;
    assert es[1..] == rest && acts == [acts[0]] + acts[1..];
    assert ByteRun(cfg, st, es) == ByteRun(cfg, next, rest);
    assert Acts(es) == [acts[0]] + Acts(rest);
  }

  lemma FollowsArrivals(cfg: Config, st: ByteState, rest: seq<ByteEvent>, last: ByteState, acts: seq<Action>,
      target: State)
    requires InStep(cfg, st) && Follows(cfg, Arrived(cfg.codec, st), rest, last, acts, target)
    ensures Follows(cfg, st, Arrivals(cfg.codec, st) + rest, last, acts, target)
  {
    ArrivalsRun(cfg, st, rest);
  }

  lemma {:induction false} RunFollows(cfg: Config, st: ByteState, acts: seq<Action>, target: State)
      returns (es: seq<ByteEvent>, last: ByteState)
    requires InStep(cfg, st) && Run(cfg, Frames(st), acts) == Some(target)
    ensures Follows(cfg, st, es, last, acts, target)
    decreases |acts|
  {
    if acts == [] {
      es, last := [], st;
    } else {
      ArrivalsRun(cfg, st, []);
      var all, after := Arrived(cfg.codec, st), Step(cfg, Frames(st), acts[0]).value;
      var next := StepRealised(cfg, all, acts[0], after);
      if next.world.garbled {
        es, last := [], next;
        assert Follows(cfg, next, es, last, acts[1..], target);
      } else {
        es, last := RunFollows(cfg, next, acts[1..], target);
      }
      FollowsStep(cfg, all, next, es, last, acts, target);
      es := [Does(acts[0])] + es;
      FollowsArrivals(cfg, st, es, last, acts, target);
      es := Arrivals(cfg.codec, st) + es;
    }
  }

  /** Every run over frames is one over bytes, without haste and with nothing misread. */
  lemma FramesAreRealised(cfg: Config, prior: Params, sender: bool, acts: seq<Action>, target: State)
      returns (es: seq<ByteEvent>, last: ByteState)
    requires cfg.Valid() && Run(cfg, Initial(cfg, prior, sender), acts) == Some(target)
    ensures ByteRun(cfg, ByteInitial(cfg, prior, sender), es) == Some(last) && Frames(last) == target
    ensures Acts(es) == acts && !HastyRun(cfg, ByteInitial(cfg, prior, sender), es)
  {
    InitialInStep(cfg, prior, sender);
    es, last := RunFollows(cfg, ByteInitial(cfg, prior, sender), acts, target);
    RunStays(cfg, ByteInitial(cfg, prior, sender), es, last);
  }

  lemma CompleteReads(cfg: Config, st: State)
    requires Inv(cfg, st) && Complete(st)
    ensures st.toClient.taken == CLIENT_READS && st.toServer.taken >= 4
    ensures st.toServer.taken == 4 ==> st.toServer.frames[3].ResultsFrame?
  {
    PushFacts(st.world.client.chan, TEST_END);
    Causality(cfg, st);
  }

  /** A complete session has read all there was for its sides to read. */
  lemma CompleteIsNotAstray(cfg: Config, st: ByteState)
    requires InStep(cfg, st) && Complete(Frames(st))
    ensures !Astray(cfg.codec, st)
  {
    Causality(cfg, Frames(st));
    CompleteReads(cfg, Frames(st));
  }

  /** A run over bytes goes from one state to another. */
  ghost predicate ByteLeads(cfg: Config, st: ByteState, target: ByteState) {
    exists es :: ByteRun(cfg, st, es) == Some(target)
  }

  lemma NothingAfterMisreading(cfg: Config, st: ByteState)
    requires st.world.garbled
    ensures ByteLeads(cfg, st, st)
    ensures forall last :: ByteLeads(cfg, st, last) ==> last.world.garbled
  {
    assert ByteRun(cfg, st, []) == Some(st);
    forall last | ByteLeads(cfg, st, last) ensures last.world.garbled {
      var es :| ByteRun(cfg, st, es) == Some(last);
      GarbledEnds(cfg, st, es, last);
    }
  }

  /** Followed to completion, a healthy session completes, or misreads if it was astray. */
  lemma CompletesOrMisreads(cfg: Config, st: ByteState)
    requires InStep(cfg, st) && Healthy(cfg) && Sane(cfg, Frames(st))
    ensures Astray(cfg.codec, st) ==> exists last :: ByteLeads(cfg, st, last) && last.world.garbled
    ensures !Astray(cfg.codec, st) ==>
              exists last :: ByteLeads(cfg, st, last) && Complete(Frames(last)) && !last.world.garbled
  {
    var target := Completes(cfg, Frames(st));
    var acts :| Run(cfg, Frames(st), acts) == Some(target);
    var es, last := RunFollows(cfg, st, acts, target);
    assert ByteLeads(cfg, st, last);
    if !last.world.garbled {
      CompleteIsNotAstray(cfg, last);
    }
  }

  /** An astray session completes no more. */
  lemma CompletesUnlessAstray(cfg: Config, st: ByteState)
    requires InStep(cfg, st) && Astray(cfg.codec, st)
    ensures forall last :: ByteLeads(cfg, st, last) && !last.world.garbled ==> !Complete(Frames(last))
  {
    forall last | ByteLeads(cfg, st, last) && !last.world.garbled ensures !Complete(Frames(last)) {
      var es :| ByteRun(cfg, st, es) == Some(last);
      RunStays(cfg, st, es, last);
      if Complete(Frames(last)) {
        CompleteIsNotAstray(cfg, last);
      }
    }
  }

  /** A session over bytes whose settings are healthy can still be carried to completion, with every message read as
      it was written, if and only if it has not read in haste; and after haste it can be carried to a misreading. */
  lemma CompletesIffNoHaste(cfg: Config, prior: Params, sender: bool, es: seq<ByteEvent>, st: ByteState)
    requires cfg.Valid() && Healthy(cfg) && ByteRun(cfg, ByteInitial(cfg, prior, sender), es) == Some(st)
    ensures (exists last :: ByteLeads(cfg, st, last) && Complete(Frames(last)) && !last.world.garbled)
            <==> !HastyRun(cfg, ByteInitial(cfg, prior, sender), es)
    ensures HastyRun(cfg, ByteInitial(cfg, prior, sender), es) ==>
              exists last :: ByteLeads(cfg, st, last) && last.world.garbled
  {
    AstrayIffHasty(cfg, prior, sender, es, st);
    if st.world.garbled {
      NothingAfterMisreading(cfg, st);
    } else {
      assert ByteReachable(cfg, st);
      ReachableInStep(cfg, st);
      ReachableSane(cfg, Frames(st));
      CompletesOrMisreads(cfg, st);
      if Astray(cfg.codec, st) {
        CompletesUnlessAstray(cfg, st);
      }
    }
  }

  // ---------- haste ----------

  lemma {:induction false} ByteRunAppends(cfg: Config, st: ByteState, es: seq<ByteEvent>, mid: ByteState, e: ByteEvent,
      next: ByteState)
    requires ByteRun(cfg, st, es) == Some(mid) && ByteStep(cfg, mid, e) == Some(next)
    ensures ByteRun(cfg, st, es + [e]) == Some(next)
    decreases |es|
  {
    if es == [] {
      assert es + [e] == [e];
      assert ByteRun(cfg, next, []) == Some(next);
    } else {
      ByteRunAppends(cfg, ByteStep(cfg, st, es[0]).value, es[1..], mid, e, next);
      assert (es + [e])[1..] == es[1..] + [e];
    }
  }

  lemma Then(cfg: Config, st: ByteState, e: ByteEvent, next: ByteState)
    requires ByteReachable(cfg, st) && ByteStep(cfg, st, e) == Some(next)
    ensures ByteReachable(cfg, next)
  {
    var prior, sender, es :| ByteRun(cfg, ByteInitial(cfg, prior, sender), es) == Some(st);
    ByteRunAppends(cfg, ByteInitial(cfg, prior, sender), es, st, e, next);
  }

  predicate Whole(codec: Codec, st: ByteState) {
    !st.world.garbled && st.toServer.Valid(codec) && st.toClient.Valid(codec)
  }

  /** A server step that writes nothing. */
  lemma ServerThen(cfg: Config, st: ByteState, side: Server) returns (next: ByteState)
    requires ByteReachable(cfg, st) && Whole(cfg.codec, st) && !st.world.server.main.SGetParams?
    requires ServerMainNext(st.world.server, |st.world.client.pcs|, Nothing) == Some(ServerOutcome(side, []))
    ensures next == st.(world := st.world.(server := side)) && ByteReachable(cfg, next)
  {
    next := st.(world := st.world.(server := side));
    assert st.toClient.pipe.frames + [] == st.toClient.pipe.frames;
    Then(cfg, st, Does(ServerMainStep), next);
  }

  /** The same for the client's handler. */
  lemma KeeperThen(cfg: Config, st: ByteState, side: Client) returns (next: ByteState)
    requires ByteReachable(cfg, st) && Whole(cfg.codec, st)
    requires KeeperWants(st.world.client).NoRead? && !st.world.client.exited
    requires ClientHandlerNext(cfg, st.world.client, Nothing) == Some(ClientOutcome(side, []))
    ensures next == st.(world := st.world.(client := side)) && ByteReachable(cfg, next)
  {
    next := st.(world := st.world.(client := side));
    assert st.toServer.pipe.frames + [] == st.toServer.pipe.frames;
    Then(cfg, st, Does(ClientHandlerStep), next);
  }

  lemma OneFrame(codec: Codec, f: Frame)
    ensures Flatten(codec, [f], 1) == Encode(codec, f) && Flatten(codec, [f], 0) == []
  {
    assert [] + Encode(codec, f) == Encode(codec, f);
  }

  /** The server has written its first state and waits for the parameters, and the client is about to read; of the
      state's bytes the first `n` have arrived. */
  predicate Offered(cfg: Config, st: ByteState, n: nat) {
    && st.world.client == InitialWorld(cfg, cfg.params, false).client.(handler := KRead)
    && st.world.server.main.SGetParams? && !st.world.garbled && st.clientBuffer == [0, 0, 0, 0]
    && st.toClient == Wire(Pipe([StateFrame(IPERF_EXCHANGE_PARAMS)], 0), n, 0)
    && st.toServer == Wire(Pipe([], 0), 0, 0)
  }

  /** The server has written its first state. */
  lemma StateWritten(cfg: Config) returns (st: ByteState)
    ensures ByteReachable(cfg, st) && st.serverBuffer == st.clientBuffer == [0, 0, 0, 0]
    ensures st.world.client == InitialWorld(cfg, cfg.params, false).client
    ensures st.world.server.main.SGetParams? && !st.world.garbled
    ensures st.toClient == Wire(Pipe([StateFrame(IPERF_EXCHANGE_PARAMS)], 0), 0, 0)
    ensures st.toServer == Wire(Pipe([], 0), 0, 0)
  {
    var v := IPERF_EXCHANGE_PARAMS;
    var start := ByteInitial(cfg, cfg.params, false);
    assert ByteRun(cfg, start, []) == Some(start);
    var assigning := start.world.server.(state := v, main := SSend(v, Enqueue));
    var enqueued := assigning.(chan := Chan([], 0).Push(v), main := SSend(v, Transmit));
    var first := ServerThen(cfg, start, assigning);
    var second := ServerThen(cfg, first, enqueued);
    st := second.(world := second.world.(server := enqueued.(main := SGetParams)),
      toClient := Wire(Pipe([StateFrame(v)], 0), 0, 0));
    assert [] + [StateFrame(v)] == [StateFrame(v)];
    Then(cfg, second, Does(ServerMainStep), st);
  }

  lemma StateOffered(cfg: Config, n: nat) returns (st: ByteState)
    requires n <= 4
    ensures ByteReachable(cfg, st) && Offered(cfg, st, n)
  {
    var written := StateWritten(cfg);
    OneFrame(cfg.codec, StateFrame(IPERF_EXCHANGE_PARAMS));
    var reading := KeeperThen(cfg, written, written.world.client.(handler := KRead));
    st := reading.(toClient := reading.toClient.(arrived := n));
    Then(cfg, reading, ToClientArrives(n), st);
  }

  lemma FirstRead(codec: Codec, n: nat)
    requires 1 <= n <= 4
    ensures var w := Wire(Pipe([StateFrame(IPERF_EXCHANGE_PARAMS)], 0), n, 0);
            && w.Valid(codec)
            && ReadBytes(codec, WantState, w, [0, 0, 0, 0])
               == ByteRead(Received(StateFrame(IPERF_EXCHANGE_PARAMS)), n, Le32(IPERF_EXCHANGE_PARAMS))
  {
    var v := IPERF_EXCHANGE_PARAMS;
    var w := Wire(Pipe([StateFrame(v)], 0), n, 0);
    OneFrame(codec, StateFrame(v));
    assert w.Next(codec, n) == Le32(v)[..n];
    FrontOfState(v, n, [0, 0, 0, 0]);
    WordRoundTrip(v);
  }

  /** The client reads `n` bytes of the state, and has the state. */
  lemma StateRead(cfg: Config, n: nat) returns (st: ByteState)
    requires 1 <= n <= 4
    ensures ByteReachable(cfg, st) && Whole(cfg.codec, st) && st.world.server.main.SGetParams?
    ensures st.world.client.state == IPERF_EXCHANGE_PARAMS && st.world.client.handler.KPutParams?
    ensures !st.world.client.exited && st.clientBuffer == Le32(IPERF_EXCHANGE_PARAMS)
    ensures st.toClient == Wire(Pipe([StateFrame(IPERF_EXCHANGE_PARAMS)], 1), n, n)
    ensures st.toServer == Wire(Pipe([], 0), 0, 0)
  {
    hide ReadBytes, FromLittleEndian;
    var v := IPERF_EXCHANGE_PARAMS;
    var offered := StateOffered(cfg, n);
    FirstRead(cfg.codec, n);
    OneFrame(cfg.codec, StateFrame(v));
    var told := offered.world.client.(state := v, handler := KPutParams);
    st := ByteState(offered.world.(client := told), offered.serverBuffer, Le32(v), offered.toServer,
      Wire(Pipe([StateFrame(v)], 1), n, n));
    assert offered.toServer.pipe.frames + [] == offered.toServer.pipe.frames;
    Then(cfg, offered, Does(ClientHandlerStep), st);
  }

  /** The client has written its parameters. */
  lemma ParamsWritten(cfg: Config, n: nat) returns (st: ByteState)
    requires 1 <= n <= 4 && cfg.Named()
    ensures ByteReachable(cfg, st) && Whole(cfg.codec, st) && st.world.server.main.SGetParams?
    ensures st.world.client.state == IPERF_EXCHANGE_PARAMS && st.world.client.handler.KCheck? && !st.world.client.exited
    ensures st.clientBuffer == Le32(IPERF_EXCHANGE_PARAMS)
    ensures st.toClient == Wire(Pipe([StateFrame(IPERF_EXCHANGE_PARAMS)], 1), n, n)
    ensures st.toServer == Wire(Pipe([ParamsFrame(cfg.params)], 0), 0, 0)
  {
    var told := StateRead(cfg, n);
    st := told.(world := told.world.(client := told.world.client.(handler := KCheck)),
      toServer := Wire(Pipe([ParamsFrame(cfg.params)], 0), 0, 0));
    assert [] + [ParamsFrame(cfg.params)] == [ParamsFrame(cfg.params)];
    Then(cfg, told, Does(ClientHandlerStep), st);
  }

  /** Of the first state `n` bytes arrive. The client has the state all the same, and goes on; and then takes the rest
      for the next state. */
  lemma StateSplits(cfg: Config, n: nat) returns (told: ByteState, last: ByteState)
    requires 0 < n < 4 && cfg.Named()
    ensures ByteReachable(cfg, told) && told.world.client.state == IPERF_EXCHANGE_PARAMS && !told.world.garbled
    ensures ByteReachable(cfg, last) && last.world.garbled
  {
    var v := IPERF_EXCHANGE_PARAMS;
    told := ParamsWritten(cfg, n);
    var reading := KeeperThen(cfg, told, told.world.client.(handler := KRead));
    OneFrame(cfg.codec, StateFrame(v));
    var arrived := reading.(toClient := reading.toClient.(arrived := 4));
    Then(cfg, reading, ToClientArrives(4 - n), arrived);
    last := arrived.(world := arrived.world.(garbled := true));
    Then(cfg, arrived, Does(ClientHandlerStep), last);
  }

  /** Parameters of which any proper part has arrived can be read, and do not decode. */
  lemma ParamsSplit(cfg: Config, n: nat) returns (last: ByteState)
    requires cfg.codec.CarriesParams(cfg.params) && 0 < n < |cfg.codec.encodeParams(cfg.params)| && cfg.Named()
    ensures ByteReachable(cfg, last) && last.world.garbled
  {
    var written := ParamsWritten(cfg, 4);
    OneFrame(cfg.codec, ParamsFrame(cfg.params));
    var arrived := written.(toServer := written.toServer.(arrived := n));
    Then(cfg, written, ToServerArrives(n), arrived);
    assert arrived.toServer.Next(cfg.codec, n) == cfg.codec.encodeParams(cfg.params)[..n];
    last := arrived.(world := arrived.world.(garbled := true));
    Then(cfg, arrived, Does(ServerMainStep), last);
  }
}
