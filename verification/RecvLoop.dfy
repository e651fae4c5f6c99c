/** The receiving goroutines of one side. Each runs `iperfRecv`: read, count the bytes on the stream and then on the
    test while the test is running, and stop when it is done. The stream looks at the state twice, once inside `recv`
    and once after it; the state may leave TEST_RUNNING in between. */
module RecvLoop {
  import opened Wrappers
  import opened Sums

  /** `Got`: `recv` has returned `n` bytes, and has counted them on the stream if `counted`. */
  datatype Place = Reading | Got(n: nat, counted: bool) | AddingBytes(n: nat) | AddingBlock | Testing | Posted | Closed

  /** `blocks` counts the reads whose bytes were counted on the stream; `missed` and `missedBlocks` are the bytes and
      reads counted there that will never be counted on the test. */
  datatype Receiver = Receiver(place: Place, bytes: nat, blocks: nat, missed: nat, missedBlocks: nat)

  datatype Test = Test(running: bool, done: bool, bytesReceived: nat, blocksReceived: nat, streams: seq<Receiver>)

  /** `Recv` is a read of stream `i` returning `n`; `Go` the next statement of stream `i`. */
  datatype Event = LeaveRunning | EndTest | Recv(i: nat, n: int) | Go(i: nat)

  function With(t: Test, i: nat, s: Receiver): Test
    requires i < |t.streams|
  {
    t.(streams := t.streams[i := s])
  }

  function RecvNext(blksize: nat, t: Test, i: nat, n: int): Option<Test>
    requires i < |t.streams|
  {
    var s := t.streams[i];
    if !s.place.Reading? then None
    else if n < 0 then Some(With(t, i, s.(place := Closed)))
    else if n > blksize then None
    else if t.running then Some(With(t, i, s.(place := Got(n, true), bytes := s.bytes + n, blocks := s.blocks + 1)))
    else Some(With(t, i, s.(place := Got(n, false))))
  }

  function GoNext(t: Test, i: nat): Option<Test>
    requires i < |t.streams|
  {
    var s := t.streams[i];
    match s.place
    case Got(n, counted) =>
      if t.running then Some(With(t, i, s.(place := AddingBytes(n))))
      else
        Some(With(t, i, s.(place := Testing, missed := s.missed + (if counted then n else 0),
                           missedBlocks := s.missedBlocks + if counted then 1 else 0)))
    case AddingBytes(n) => Some(With(t, i, s.(place := AddingBlock)).(bytesReceived := t.bytesReceived + n))
    case AddingBlock => Some(With(t, i, s.(place := Testing)).(blocksReceived := t.blocksReceived + 1))
    case Testing => Some(With(t, i, s.(place := if t.done then Posted else Reading)))
    case _ => None
  }

  function Next(blksize: nat, t: Test, e: Event): Option<Test> {
    match e
    case LeaveRunning => Some(t.(running := false))
    case EndTest => Some(t.(done := true))
    case Recv(i, n) => if i < |t.streams| then RecvNext(blksize, t, i, n) else None
    case Go(i) => if i < |t.streams| then GoNext(t, i) else None
  }

  function Run(blksize: nat, t: Test, events: seq<Event>): Option<Test>
    decreases |events|
  {
    if events == [] then Some(t)
    else
      match Next(blksize, t, events[0])
      case None => None
      case Some(next) => Run(blksize, next, events[1..])
  }

  function Start(n: nat): Test { Test(true, false, 0, 0, seq(n, i => Receiver(Reading, 0, 0, 0, 0))) }

  ghost predicate Reachable(blksize: nat, n: nat, t: Test) {
    exists events :: Run(blksize, Start(n), events) == Some(t)
  }

  function Bytes(s: Receiver): nat { s.bytes }

  function Missed(s: Receiver): nat { s.missed }

  /** Bytes counted on the stream that may still be counted on the test. */
  function Unadded(s: Receiver): nat {
    match s.place
    case Got(n, counted) => if counted then n else 0
    case AddingBytes(n) => n
    case _ => 0
  }

  function Blocks(s: Receiver): nat { s.blocks }

  function MissedBlocks(s: Receiver): nat { s.missedBlocks }

  /** A read counted on the stream that may still be counted on the test. */
  function Uncounted(s: Receiver): nat {
    match s.place
    case Got(_, counted) => if counted then 1 else 0
    case AddingBytes(_) => 1
    case AddingBlock => 1
    case _ => 0
  }

  predicate Tallied(t: Test) {
    && t.bytesReceived + Total(t.streams, Unadded) + Total(t.streams, Missed) == Total(t.streams, Bytes)
    && t.blocksReceived + Total(t.streams, Uncounted) + Total(t.streams, MissedBlocks) == Total(t.streams, Blocks)
  }

  /** Only a read that was under way when the test left TEST_RUNNING can be missed, and only one per stream. */
  predicate MissesOnce(blksize: nat, running: bool, s: Receiver) {
    && s.missed <= blksize && s.missedBlocks <= 1
    && (s.place.Got? || s.place.AddingBytes? ==> s.place.n <= blksize)
    && (s.place.Got? && running ==> s.place.counted)
    && (running || (s.place.Got? && s.place.counted) || s.place.AddingBytes? ==> s.missed == 0)
    && (running || (s.place.Got? && s.place.counted) ==> s.missedBlocks == 0)
  }

  ghost predicate AllMissOnce(blksize: nat, t: Test) {
    forall i :: 0 <= i < |t.streams| ==> MissesOnce(blksize, t.running, t.streams[i])
  }

  /** How one event of stream `i` moves the counters. */
  lemma Moves(blksize: nat, t: Test, e: Event, next: Test)
    requires (e.Recv? || e.Go?) && Next(blksize, t, e) == Some(next)
    requires e.i < |t.streams| && MissesOnce(blksize, t.running, t.streams[e.i])
    ensures next.streams == t.streams[e.i := next.streams[e.i]] && next.running == t.running
    ensures MissesOnce(blksize, t.running, next.streams[e.i])
    ensures var s, r := t.streams[e.i], next.streams[e.i];
            next.bytesReceived - t.bytesReceived + Unadded(r) - Unadded(s) + Missed(r) - Missed(s)
            == Bytes(r) - Bytes(s)
    ensures var s, r := t.streams[e.i], next.streams[e.i];
            next.blocksReceived - t.blocksReceived + Uncounted(r) - Uncounted(s) + MissedBlocks(r) - MissedBlocks(s)
            == Blocks(r) - Blocks(s)
  {
  }

  lemma TalliedStep(blksize: nat, t: Test, e: Event, next: Test)
    requires Tallied(t) && AllMissOnce(blksize, t) && Next(blksize, t, e) == Some(next)
    ensures Tallied(next) && AllMissOnce(blksize, next)
  {
    if e.Recv? || e.Go? {
      assert MissesOnce(blksize, t.running, t.streams[e.i]);
      Moves(blksize, t, e, next);
      TotalUpdate(t.streams, e.i, next.streams[e.i], Unadded);
      TotalUpdate(t.streams, e.i, next.streams[e.i], Missed);
      TotalUpdate(t.streams, e.i, next.streams[e.i], Bytes);
      TotalUpdate(t.streams, e.i, next.streams[e.i], Uncounted);
      TotalUpdate(t.streams, e.i, next.streams[e.i], MissedBlocks);
      TotalUpdate(t.streams, e.i, next.streams[e.i], Blocks);
    }
  }

  lemma {:induction false} CountersRun(blksize: nat, t: Test, events: seq<Event>, last: Test)
    requires Run(blksize, t, events) == Some(last) && Tallied(t) && AllMissOnce(blksize, t)
    ensures Tallied(last) && AllMissOnce(blksize, last) && |last.streams| == |t.streams|
    decreases |events|
  {
    if events != [] {
      var next := Next(blksize, t, events[0]).value;
      TalliedStep(blksize, t, events[0], next);
      CountersRun(blksize, next, events[1..], last);
    }
  }

  lemma StartCounts(blksize: nat, n: nat)
    ensures Tallied(Start(n)) && AllMissOnce(blksize, Start(n))
  {
    var s := Start(n).streams;
    TotalUpToZero(s, Unadded, n);
    TotalUpToZero(s, Missed, n);
    TotalUpToZero(s, Bytes, n);
    TotalUpToZero(s, Uncounted, n);
    TotalUpToZero(s, MissedBlocks, n);
    TotalUpToZero(s, Blocks, n);
  }

  lemma ReachableCounts(blksize: nat, n: nat, t: Test)
    requires Reachable(blksize, n, t)
    ensures Tallied(t) && AllMissOnce(blksize, t) && |t.streams| == n
  {
    var events :| Run(blksize, Start(n), events) == Some(t);
    StartCounts(blksize, n);
    CountersRun(blksize, Start(n), events, t);
  }

  /** A stream's uncounted bytes, whether on their way or lost for good, are at most one block. */
  function Behind(s: Receiver): nat { Unadded(s) + s.missed }

  lemma {:induction false} TotalBehind(s: seq<Receiver>, k: nat)
    requires k <= |s|
    ensures TotalUpTo(s, Behind, k) == TotalUpTo(s, Unadded, k) + TotalUpTo(s, Missed, k)
  {
    if k > 0 {
      TotalBehind(s, k - 1);
    }
  }

  /** In every run the test's counter is at most one block per stream behind the streams' own counters, and never
      ahead. */
  lemma CountersWithinOneBlock(blksize: nat, n: nat, t: Test)
    requires Reachable(blksize, n, t)
    ensures t.bytesReceived <= Total(t.streams, Bytes) <= t.bytesReceived + blksize * n
  {
    ReachableCounts(blksize, n, t);
    TotalBehind(t.streams, n);
    forall i | 0 <= i < n ensures Behind(t.streams[i]) <= blksize {
      assert MissesOnce(blksize, t.running, t.streams[i]);
    }
    TotalUpToAtMost(t.streams, Behind, blksize, n);
  }

  /** The same for the reads: those the test has counted, those on their way to be counted and those missed, at most one
      per stream, are those of the streams. */
  lemma BlocksAddUp(blksize: nat, n: nat, t: Test)
    requires Reachable(blksize, n, t)
    ensures t.blocksReceived + Total(t.streams, Uncounted) + Total(t.streams, MissedBlocks) == Total(t.streams, Blocks)
    ensures Total(t.streams, MissedBlocks) <= n && (t.running ==> Total(t.streams, MissedBlocks) == 0)
  {
    ReachableCounts(blksize, n, t);
    forall i | 0 <= i < n ensures MissedBlocks(t.streams[i]) <= if t.running then 0 else 1 {
      assert MissesOnce(blksize, t.running, t.streams[i]);
    }
    TotalUpToAtMost(t.streams, MissedBlocks, if t.running then 0 else 1, n);
  }

  predicate AtRest(t: Test) {
    forall i :: 0 <= i < |t.streams| ==>
      t.streams[i].place.Reading? || t.streams[i].place.Posted? || t.streams[i].place.Closed?
  }

  /** While the test is running, the counters agree whenever no stream is under way. */
  lemma CountersAgreeRunning(blksize: nat, n: nat, t: Test)
    requires Reachable(blksize, n, t) && AtRest(t) && t.running
    ensures t.bytesReceived == Total(t.streams, Bytes)
  {
    ReachableCounts(blksize, n, t);
    TotalUpToZero(t.streams, Unadded, n);
    forall i | 0 <= i < n ensures Missed(t.streams[i]) == 0 {
      assert MissesOnce(blksize, t.running, t.streams[i]);
    }
    TotalUpToZero(t.streams, Missed, n);
  }

  /** What a stream is about to count on the test when it looks at the state next. */
  function Caught(s: Receiver): nat { if s.place.Got? then s.place.n else 0 }

  /** Bytes a stream of a test that is no longer running has missed or will miss. */
  function Doomed(s: Receiver): nat { s.missed + if s.place.Got? && s.place.counted then s.place.n else 0 }

  /** Once the test has left TEST_RUNNING nothing changes what a stream misses. */
  lemma DoomedStays(blksize: nat, t: Test, e: Event, next: Test)
    requires !t.running && Next(blksize, t, e) == Some(next)
    ensures !next.running && |next.streams| == |t.streams|
    ensures forall i :: 0 <= i < |t.streams| ==> Doomed(next.streams[i]) == Doomed(t.streams[i])
  {
  }

  lemma {:induction false} DoomedRun(blksize: nat, t: Test, events: seq<Event>, last: Test)
    requires !t.running && Run(blksize, t, events) == Some(last)
    ensures |last.streams| == |t.streams|
    ensures forall i :: 0 <= i < |t.streams| ==> Doomed(last.streams[i]) == Doomed(t.streams[i])
    decreases |events|
  {
    if events != [] {
      var next := Next(blksize, t, events[0]).value;
      DoomedStays(blksize, t, events[0], next);
      DoomedRun(blksize, next, events[1..], last);
    }
  }

  /** In a reachable running test the streams caught between their two looks are the ones that will miss. */
  lemma CaughtAreDoomed(blksize: nat, n: nat, t: Test)
    requires Reachable(blksize, n, t) && t.running
    ensures forall i :: 0 <= i < |t.streams| ==> Doomed(t.streams[i]) == Caught(t.streams[i])
  {
    ReachableCounts(blksize, n, t);
    forall i | 0 <= i < n ensures Doomed(t.streams[i]) == Caught(t.streams[i]) {
      assert MissesOnce(blksize, t.running, t.streams[i]);
    }
  }

  lemma {:induction false} RunAppends(blksize: nat, t: Test, events: seq<Event>, mid: Test, more: seq<Event>)
    requires Run(blksize, t, events) == Some(mid)
    ensures Run(blksize, t, events + more) == Run(blksize, mid, more)
    decreases |events|
  {
    if events == [] {
      assert events + more == more;
    } else {
      RunAppends(blksize, Next(blksize, t, events[0]).value, events[1..], mid, more);
      assert (events + more)[1..] == events[1..] + more;
    }
  }

  lemma LeavesReachable(blksize: nat, n: nat, t: Test, events: seq<Event>, last: Test)
    requires Reachable(blksize, n, t) && Run(blksize, t.(running := false), events) == Some(last)
    ensures Reachable(blksize, n, last)
  {
    var before :| Run(blksize, Start(n), before) == Some(t);
    assert Run(blksize, t, [LeaveRunning] + events) == Some(last) by {
      assert ([LeaveRunning] + events)[1..] == events;
    }
    RunAppends(blksize, Start(n), before, t, [LeaveRunning] + events);
  }

  lemma {:induction false} MissedAreCaught(s: seq<Receiver>, t: seq<Receiver>, k: nat)
    requires k <= |s| && k <= |t|
    requires forall i :: 0 <= i < k ==> Missed(s[i]) == Caught(t[i])
    ensures TotalUpTo(s, Missed, k) == TotalUpTo(t, Caught, k)
  {
    if k > 0 {
      MissedAreCaught(s, t, k - 1);
    }
  }

  /** A test leaves TEST_RUNNING in state `t` and comes to rest: its counter then lacks exactly the bytes of the reads
      that were caught between their two looks at the state, whatever else happens on the way. So the counters agree
      if and only if no stream was caught with bytes. */
  lemma CountersAgreeIff(blksize: nat, n: nat, t: Test, events: seq<Event>, last: Test)
    requires Reachable(blksize, n, t) && t.running
    requires Run(blksize, t.(running := false), events) == Some(last) && AtRest(last)
    ensures Total(last.streams, Bytes) == last.bytesReceived + Total(t.streams, Caught)
    ensures last.bytesReceived == Total(last.streams, Bytes) <==>
            forall i :: 0 <= i < |t.streams| && t.streams[i].place.Got? ==> t.streams[i].place.n == 0
  {
    ReachableCounts(blksize, n, t);
    LeavesReachable(blksize, n, t, events, last);
    ReachableCounts(blksize, n, last);
    TotalUpToZero(last.streams, Unadded, n);
    CaughtAreDoomed(blksize, n, t);
    DoomedRun(blksize, t.(running := false), events, last);
    MissedAreCaught(last.streams, t.streams, n);
    TotalUpToZero(t.streams, Caught, n);
  }

  /** One more event at the end of a trace. */
  lemma Traced(blksize: nat, start: Test, trace: seq<Event>, mid: Test, e: Event, next: Test)
    requires Run(blksize, start, trace) == Some(mid) && Next(blksize, mid, e) == Some(next)
    ensures Run(blksize, start, trace + [e]) == Some(next)
  {
    RunAppends(blksize, start, trace, mid, [e]);
    assert Run(blksize, next, []) == Some(next);
    assert [e][1..] == [];
  }

  lemma After(blksize: nat, n: nat, t: Test, e: Event) returns (next: Test)
    requires Reachable(blksize, n, t) && Next(blksize, t, e).Some?
    ensures Reachable(blksize, n, next) && Some(next) == Next(blksize, t, e)
  {
    var events :| Run(blksize, Start(n), events) == Some(t);
    next := Next(blksize, t, e).value;
    Traced(blksize, Start(n), events, t, e, next);
  }

  /** The bound is met: a stream read a block just before the end of TEST_RUNNING and looked again just after. */
  lemma OneBlockCanBeMissed(blksize: nat, n: nat) returns (t: Test)
    requires n >= 1
    ensures Reachable(blksize, n, t) && AtRest(t) && Total(t.streams, Bytes) == t.bytesReceived + blksize
  {
    var start := Start(n);
    assert Run(blksize, start, []) == Some(start);
    t := After(blksize, n, start, Recv(0, blksize));
    t := After(blksize, n, t, LeaveRunning);
    t := After(blksize, n, t, Go(0));
    t := After(blksize, n, t, Go(0));
    StartCounts(blksize, n);
    assert t.streams == start.streams[0 := t.streams[0]];
    TotalUpToZero(start.streams, Bytes, n);
    TotalUpdate(start.streams, 0, t.streams[0], Bytes);
  }

  /** What the reads of stream `i` return until the test leaves TEST_RUNNING. */
  function ReadBeforeLeaving(events: seq<Event>, i: nat): nat {
    if events == [] || events[0].LeaveRunning? then 0
    else
      var e := events[0];
      (if e.Recv? && e.i == i && e.n >= 0 then e.n else 0) + ReadBeforeLeaving(events[1..], i)
  }

  /** A stream counts all it reads in TEST_RUNNING and nothing after it, in any run. */
  lemma {:induction false} BytesAreReads(blksize: nat, t: Test, events: seq<Event>, last: Test, i: nat)
    requires i < |t.streams| && Run(blksize, t, events) == Some(last)
    ensures i < |last.streams|
    ensures last.streams[i].bytes == t.streams[i].bytes + if t.running then ReadBeforeLeaving(events, i) else 0
    decreases |events|
  {
    if events != [] {
      BytesAreReads(blksize, Next(blksize, t, events[0]).value, events[1..], last, i);
    }
  }

  // ---------- the end of the test ----------

  ghost predicate PostsWhenDone(t: Test) { forall i :: 0 <= i < |t.streams| && t.streams[i].place.Posted? ==> t.done }

  lemma {:induction false} PostsRun(blksize: nat, t: Test, events: seq<Event>, last: Test)
    requires Run(blksize, t, events) == Some(last) && PostsWhenDone(t)
    ensures PostsWhenDone(last)
    decreases |events|
  {
    if events != [] {
      PostsRun(blksize, Next(blksize, t, events[0]).value, events[1..], last);
    }
  }

  /** In every run a stream has posted its TEST_END only if the test is done. */
  lemma PostedIsDone(blksize: nat, n: nat, t: Test, i: nat)
    requires Reachable(blksize, n, t) && i < |t.streams| && t.streams[i].place.Posted?
    ensures t.done
  {
    var events :| Run(blksize, Start(n), events) == Some(t);
    PostsRun(blksize, Start(n), events, t);
  }

  /** The reads of stream `i` in a run. */
  function ReadsIn(events: seq<Event>, i: nat): nat {
    if events == [] then 0 else (if events[0].Recv? && events[0].i == i then 1 else 0) + ReadsIn(events[1..], i)
  }

  /** Once the test is done a stream makes at most one more read, and none if it is past its read; and after it the
      stream does not wait for another. */
  lemma {:induction false} OneMoreRead(blksize: nat, t: Test, events: seq<Event>, last: Test, i: nat)
    requires t.done && i < |t.streams| && Run(blksize, t, events) == Some(last)
    ensures i < |last.streams|
    ensures ReadsIn(events, i) + (if last.streams[i].place.Reading? then 1 else 0)
            <= if t.streams[i].place.Reading? then 1 else 0
    decreases |events|
  {
    if events != [] {
      OneMoreRead(blksize, Next(blksize, t, events[0]).value, events[1..], last, i);
    }
  }

  // ---------- the loop itself ----------

  /** A read returns `n`; the test may leave TEST_RUNNING before the read or just after it, and may end. */
  datatype Moment = Moment(left: bool, n: int, leftAfter: bool, ended: bool)

  function Optional(b: bool, e: Event): seq<Event> { if b then [e] else [] }

  /** The events of stream `i` from a read to the last test. */
  function MomentEvents(t: Test, i: nat, m: Moment): seq<Event> {
    var read := Optional(m.left, LeaveRunning) + [Recv(i, m.n)];
    if m.n < 0 then read
    else
      read + Optional(m.leftAfter, LeaveRunning) + [Go(i)]
      + (if t.running && !m.left && !m.leftAfter then [Go(i), Go(i)] else []) + Optional(m.ended, EndTest) + [Go(i)]
  }

  /** Stream `i` goes around its loop until it stops or the world is over. */
  function Loop(blksize: nat, t: Test, i: nat, world: seq<Moment>): Option<Test>
    decreases |world|
  {
    if world == [] || i >= |t.streams| || !t.streams[i].place.Reading? then Some(t)
    else
      match Run(blksize, t, MomentEvents(t, i, world[0]))
      case None => None
      case Some(next) => Loop(blksize, next, i, world[1..])
  }

  /** What the loop does, the machine does. */
  lemma {:induction false} LoopIsRun(blksize: nat, n: nat, t: Test, i: nat, world: seq<Moment>)
    requires Reachable(blksize, n, t) && Loop(blksize, t, i, world).Some?
    ensures Reachable(blksize, n, Loop(blksize, t, i, world).value)
    decreases |world|
  {
    if !(world == [] || i >= |t.streams| || !t.streams[i].place.Reading?) {
      var events :| Run(blksize, Start(n), events) == Some(t);
      RunAppends(blksize, Start(n), events, t, MomentEvents(t, i, world[0]));
      LoopIsRun(blksize, n, Run(blksize, t, MomentEvents(t, i, world[0])).value, i, world[1..]);
    }
  }

  /** The first `k` moments stop nothing. */
  predicate GoesOn(world: seq<Moment>, done: bool, k: nat) {
    && k <= |world| && (k > 0 ==> !done)
    && forall j :: 0 <= j < k ==> world[j].n >= 0 && !world[j].ended
  }

  /** Moment `k` is the first at which a stream of a test that is, or is not yet, done stops. */
  predicate StopsAt(world: seq<Moment>, done: bool, k: nat) {
    k < |world| && GoesOn(world, done, k) && (world[k].n < 0 || world[k].ended || done)
  }

  /** And it stops because its read fails. */
  predicate FailsFirst(world: seq<Moment>, done: bool, k: nat)
    requires k < |world|
  {
    world[k].n < 0 && (k == 0 || !done) && forall j :: 0 <= j < k ==> world[j].n >= 0 && !world[j].ended
  }

  lemma StopsOnce(world: seq<Moment>, done: bool, k: nat)
    requires StopsAt(world, done, k)
    ensures done || exists j :: 0 <= j < |world| && (world[j].n < 0 || world[j].ended)
    ensures world[k].n < 0 <==> exists j :: 0 <= j < |world| && FailsFirst(world, done, j)
  {
    if world[k].n < 0 {
      assert FailsFirst(world, done, k);
    }
    forall j | 0 <= j < |world| && FailsFirst(world, done, j) ensures j == k {
    }
  }

  class ReceivingTest {
    var running: bool
    var done: bool
    var bytesReceived: nat
    var blocksReceived: nat
    var streams: seq<Receiver>

    function Value(): Test
      reads this
    {
      Test(running, done, bytesReceived, blocksReceived, streams)
    }

    method Leave(b: bool, blksize: nat, ghost start: Test, ghost trace: seq<Event>)
      requires Run(blksize, start, trace) == Some(Value())
      modifies this`running
      ensures running == (old(running) && !b) && Run(blksize, start, trace + Optional(b, LeaveRunning)) == Some(Value())
    {
      ghost var before := Value();
      if b {
        running := false;
        Traced(blksize, start, trace, before, LeaveRunning, Value());
      } else {
        assert trace + [] == trace;
      }
    }

    method Finish(b: bool, blksize: nat, ghost start: Test, ghost trace: seq<Event>)
      requires Run(blksize, start, trace) == Some(Value())
      modifies this`done
      ensures done == (old(done) || b) && Run(blksize, start, trace + Optional(b, EndTest)) == Some(Value())
    {
      ghost var before := Value();
      if b {
        done := true;
        Traced(blksize, start, trace, before, EndTest, Value());
      } else {
        assert trace + [] == trace;
      }
    }

    /** The second look at the state, and the test's counters. */
    method Count(i: nat, n: nat, blksize: nat, ghost start: Test, ghost trace: seq<Event>)
      requires i < |streams| && streams[i].place.Got? && streams[i].place.n == n
      requires Run(blksize, start, trace) == Some(Value())
      modifies this`bytesReceived, this`blocksReceived, this`streams
      ensures |streams| == old(|streams|) && streams[i].place.Testing?
      ensures Run(blksize, start, trace + [Go(i)] + (if running then [Go(i), Go(i)] else [])) == Some(Value())
    {
      ghost var before := Value();
      if running {
        streams := streams[i := streams[i].(place := AddingBytes(n))];
        Traced(blksize, start, trace, before, Go(i), Value());
        before := Value();
        bytesReceived := bytesReceived + n;
        streams := streams[i := streams[i].(place := AddingBlock)];
        Traced(blksize, start, trace + [Go(i)], before, Go(i), Value());
        before := Value();
        blocksReceived := blocksReceived + 1;
        streams := streams[i := streams[i].(place := Testing)];
        Traced(blksize, start, trace + [Go(i)] + [Go(i)], before, Go(i), Value());
        assert trace + [Go(i)] + [Go(i), Go(i)] == trace + [Go(i)] + [Go(i)] + [Go(i)];
      } else {
        var s := streams[i];
        var counted := s.place.counted;
        streams := streams[i := s.(place := Testing, missed := s.missed + (if counted then n else 0),
                                   missedBlocks := s.missedBlocks + if counted then 1 else 0)];
        Traced(blksize, start, trace, before, Go(i), Value());
        assert trace + [Go(i)] + [] == trace + [Go(i)];
      }
    }

    /** `recv`, with its look at the state. */
    method Take(i: nat, n: int, blksize: nat, ghost start: Test, ghost trace: seq<Event>)
      requires i < |streams| && streams[i].place.Reading? && n <= blksize && Run(blksize, start, trace) == Some(Value())
      modifies this`streams
      ensures |streams| == old(|streams|)
      ensures if n < 0 then streams[i].place.Closed? else streams[i].place.Got? && streams[i].place.n == n
      ensures Run(blksize, start, trace + [Recv(i, n)]) == Some(Value())
    {
      ghost var before := Value();
      var s := streams[i];
      if n < 0 {
        streams := streams[i := s.(place := Closed)];
      } else if running {
        streams := streams[i := s.(place := Got(n, true), bytes := s.bytes + n, blocks := s.blocks + 1)];
      } else {
        streams := streams[i := s.(place := Got(n, false))];
      }
      Traced(blksize, start, trace, before, Recv(i, n), Value());
    }

    /** The loop's last test. */
    method TestDone(i: nat, blksize: nat, ghost start: Test, ghost trace: seq<Event>) returns (stop: bool)
      requires i < |streams| && streams[i].place.Testing? && Run(blksize, start, trace) == Some(Value())
      modifies this`streams
      ensures |streams| == old(|streams|) && stop == done && streams[i].place == if stop then Posted else Reading
      ensures Run(blksize, start, trace + [Go(i)]) == Some(Value())
    {
      ghost var before := Value();
      stop := done;
      streams := streams[i := streams[i].(place := if stop then Posted else Reading)];
      Traced(blksize, start, trace, before, Go(i), Value());
    }

    /** One turn of the loop. */
    method RecvOnce(i: nat, m: Moment, blksize: nat) returns (stop: bool)
      requires i < |streams| && streams[i].place.Reading? && m.n <= blksize
      modifies this
      ensures Run(blksize, old(Value()), MomentEvents(old(Value()), i, m)) == Some(Value())
      ensures |streams| == old(|streams|) && done == (old(done) || (m.n >= 0 && m.ended))
      ensures stop == (m.n < 0 || done)
      ensures streams[i].place == if m.n < 0 then Closed else if done then Posted else Reading
    {
      ghost var start := Value();
      Leave(m.left, blksize, start, []);
      ghost var trace := Optional(m.left, LeaveRunning);
      assert [] + trace == trace;
      Take(i, m.n, blksize, start, trace);
      trace := trace + [Recv(i, m.n)];
      if m.n < 0 {
        return true;
      }
      Leave(m.leftAfter, blksize, start, trace);
      trace := trace + Optional(m.leftAfter, LeaveRunning);
      Count(i, m.n, blksize, start, trace);
      trace := trace + [Go(i)] + (if running then [Go(i), Go(i)] else []);
      Finish(m.ended, blksize, start, trace);
      trace := trace + Optional(m.ended, EndTest);
      stop := TestDone(i, blksize, start, trace);
    }

    /** `iperfRecv` of one stream, whatever happens between its reads. It returns at the first read that fails, and
        after the first read it makes of a test that is done by the time it looks; and it posts in the second case
        only. */
    method IperfRecv(i: nat, world: seq<Moment>, blksize: nat) returns (stopped: bool)
      requires i < |streams| && streams[i].place.Reading?
      requires forall k :: 0 <= k < |world| ==> world[k].n <= blksize
      modifies this
      ensures Loop(blksize, old(Value()), i, world) == Some(Value())
      ensures i < |streams| && (stopped <==> !streams[i].place.Reading?)
      ensures stopped <==>
              world != [] && (old(done) || exists k :: 0 <= k < |world| && (world[k].n < 0 || world[k].ended))
      ensures streams[i].place.Closed? <==> exists k :: 0 <= k < |world| && FailsFirst(world, old(done), k)
      ensures stopped ==> streams[i].place.Posted? || streams[i].place.Closed?
    {
      stopped := false;
      var k := 0;
      ghost var start := Value();
      while k < |world| && !stopped
        invariant k <= |world| && i < |streams| && (stopped <==> !streams[i].place.Reading?)
        invariant Loop(blksize, start, i, world) == Loop(blksize, Value(), i, world[k..])
        invariant if stopped then k > 0 && StopsAt(world, old(done), k - 1)
                  else GoesOn(world, old(done), k) && done == old(done)
        invariant stopped ==> streams[i].place == if world[k - 1].n < 0 then Closed else Posted
      {
        stopped := RecvOnce(i, world[k], blksize);
        assert world[k..][0] == world[k] && world[k..][1..] == world[k + 1..];
        k := k + 1;
      }
      if stopped {
        StopsOnce(world, old(done), k - 1);
      }
    }
  }
}
