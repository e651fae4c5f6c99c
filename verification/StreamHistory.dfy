/** What a stream's record says after any sequence of writes, reads and statistics passes. */
module StreamHistory {
  import opened Words
  import opened Sums
  import opened StreamResults

  datatype Op = Write(n: int) | Read(n: int, running: bool) | Pass(sample: Sample, now: int)

  /** A side is the sender or the receiver for the whole test. */
  datatype Role = Role(protocol: Protocol, receiver: bool)

  function Apply(role: Role, r: Result, op: Op): Result {
    match op
    case Write(n) => Sent(r, n)
    case Read(n, running) => Got(r, n, running)
    case Pass(s, now) => Stats(role.protocol, r, s, now, role.receiver)
  }

  function History(role: Role, start: int, ops: seq<Op>): Result {
    if ops == [] then Fresh(start) else Apply(role, History(role, start, ops[..|ops| - 1]), ops[|ops| - 1])
  }

  // ---------- bytes ----------

  /** The bytes an operation moves in the direction the side is tested in. */
  function Amount(role: Role, op: Op): nat {
    match op
    case Write(n) => if n >= 0 && !role.receiver then n else 0
    case Read(n, running) => if n >= 0 && running && role.receiver then n else 0
    case Pass(_, _) => 0
  }

  /** All bytes moved so far, and those since the last statistics pass, without any wrap-around. */
  function Moved(role: Role, ops: seq<Op>): nat {
    if ops == [] then 0 else Moved(role, ops[..|ops| - 1]) + Amount(role, ops[|ops| - 1])
  }

  function MovedSincePass(role: Role, ops: seq<Op>): nat {
    if ops == [] || ops[|ops| - 1].Pass? then 0
    else MovedSincePass(role, ops[..|ops| - 1]) + Amount(role, ops[|ops| - 1])
  }

  function ActiveTotal(role: Role, r: Result): uint64 { if role.receiver then r.received else r.sent }

  function ActiveNow(role: Role, r: Result): uint64 { if role.receiver then r.receivedNow else r.sentNow }

  function BytesOf(i: Interval): nat { i.bytes }

  predicate Conserved(role: Role, r: Result, moved: nat, current: nat) {
    && ActiveTotal(role, r) == moved % UINT64
    && ActiveNow(role, r) == current % UINT64
    && current <= moved
    && (Total(r.intervals, BytesOf) + current) % UINT64 == moved % UINT64
    && (moved < UINT64 ==> Total(r.intervals, BytesOf) + current == moved)
  }

  lemma ConservedMove(role: Role, r: Result, op: Op, moved: nat, current: nat)
    requires Conserved(role, r, moved, current) && !op.Pass?
    ensures Conserved(role, Apply(role, r, op), moved + Amount(role, op), current + Amount(role, op))
  {
    var n, t := Amount(role, op), Total(r.intervals, BytesOf);
    WrapAdds(moved, n);
    WrapAdds(current, n);
    WrapAdds(t + current, n);
  }

  lemma ConservedPass(role: Role, r: Result, op: Op, moved: nat, current: nat)
    requires Conserved(role, r, moved, current) && op.Pass?
    ensures Conserved(role, Apply(role, r, op), moved, 0)
  {
    var t, i := Total(r.intervals, BytesOf), NewInterval(role.protocol, r, op.sample, op.now, role.receiver);
    TotalAppend(r.intervals, i, BytesOf);
    WrapAdds(current, t);
  }

  lemma {:induction false} HistoryConserves(role: Role, start: int, ops: seq<Op>)
    ensures Conserved(role, History(role, start, ops), Moved(role, ops), MovedSincePass(role, ops))
  {
    if ops != [] {
      var before, op := ops[..|ops| - 1], ops[|ops| - 1];
      HistoryConserves(role, start, before);
      if op.Pass? {
        ConservedPass(role, History(role, start, before), op, Moved(role, before), MovedSincePass(role, before));
      } else {
        ConservedMove(role, History(role, start, before), op, Moved(role, before), MovedSincePass(role, before));
      }
    }
  }

  lemma ConservedAddsUp(role: Role, r: Result, moved: nat, current: nat)
    requires Conserved(role, r, moved, current)
    ensures (Total(r.intervals, BytesOf) + ActiveNow(role, r)) % UINT64 == ActiveTotal(role, r)
    ensures moved < UINT64 ==> Total(r.intervals, BytesOf) + ActiveNow(role, r) == ActiveTotal(role, r) == moved
  {
    WrapAdds(current, Total(r.intervals, BytesOf));
  }

  /** No byte is lost between intervals: the stream's total is, up to 64-bit wrap-around, the bytes moved and the sum of
      the intervals and of what has moved since; exactly so as long as fewer than 2^64 bytes have moved. */
  lemma BytesAddUp(role: Role, start: int, ops: seq<Op>)
    ensures var r := History(role, start, ops);
            && ActiveTotal(role, r) == Moved(role, ops) % UINT64
            && (Total(r.intervals, BytesOf) + ActiveNow(role, r)) % UINT64 == ActiveTotal(role, r)
            && (Moved(role, ops) < UINT64 ==>
                  Total(r.intervals, BytesOf) + ActiveNow(role, r) == ActiveTotal(role, r) == Moved(role, ops))
  {
    HistoryConserves(role, start, ops);
    ConservedAddsUp(role, History(role, start, ops), Moved(role, ops), MovedSincePass(role, ops));
  }

  /** Right after a statistics pass the intervals alone are the total. */
  lemma BytesAddUpAtPass(role: Role, start: int, ops: seq<Op>, s: Sample, now: int)
    ensures var r := History(role, start, ops + [Pass(s, now)]);
            && Total(r.intervals, BytesOf) % UINT64 == ActiveTotal(role, r) == Moved(role, ops) % UINT64
            && (Moved(role, ops) < UINT64 ==> Total(r.intervals, BytesOf) == ActiveTotal(role, r))
  {
    var all := ops + [Pass(s, now)];
    assert all[..|all| - 1] == ops;
    BytesAddUp(role, start, all);
  }

  /** The bytes of all writes that succeeded and of all reads of a running test, in every history and in either role. */
  function SentBytes(ops: seq<Op>): nat {
    if ops == [] then 0
    else
      var op := ops[|ops| - 1];
      SentBytes(ops[..|ops| - 1]) + if op.Write? && op.n >= 0 then op.n else 0
  }

  function ReceivedBytes(ops: seq<Op>): nat {
    if ops == [] then 0
    else
      var op := ops[|ops| - 1];
      ReceivedBytes(ops[..|ops| - 1]) + if op.Read? && op.n >= 0 && op.running then op.n else 0
  }

  /** The operations since the last pass. */
  function SincePass(ops: seq<Op>): seq<Op> {
    if ops == [] || ops[|ops| - 1].Pass? then [] else SincePass(ops[..|ops| - 1]) + [ops[|ops| - 1]]
  }

  lemma SumsGrow(ops: seq<Op>, op: Op)
    ensures SentBytes(ops + [op]) == SentBytes(ops) + if op.Write? && op.n >= 0 then op.n else 0
    ensures ReceivedBytes(ops + [op]) == ReceivedBytes(ops) + if op.Read? && op.n >= 0 && op.running then op.n else 0
  {
    assert (ops + [op])[..|ops|] == ops;
  }

  /** The counters of both directions. */
  predicate Holds(r: Result, all: seq<Op>, now: seq<Op>) {
    && r.sent == SentBytes(all) % UINT64 && r.received == ReceivedBytes(all) % UINT64
    && r.sentNow == SentBytes(now) % UINT64 && r.receivedNow == ReceivedBytes(now) % UINT64
  }

  lemma CountsOn(c: uint64, total: nat, n: nat)
    requires c == total % UINT64
    ensures Wrap(c + n) == (total + n) % UINT64
  {
    WrapAdds(total, n);
  }

  lemma WriteHolds(role: Role, r: Result, all: seq<Op>, now: seq<Op>, n: int)
    requires Holds(r, all, now)
    ensures Holds(Apply(role, r, Write(n)), all + [Write(n)], now + [Write(n)])
  {
    hide Wrap, SentBytes, ReceivedBytes;
    SumsGrow(all, Write(n));
    SumsGrow(now, Write(n));
    if n >= 0 {
      CountsOn(r.sent, SentBytes(all), n);
      CountsOn(r.sentNow, SentBytes(now), n);
    }
  }

  lemma ReadHolds(role: Role, r: Result, all: seq<Op>, now: seq<Op>, n: int, running: bool)
    requires Holds(r, all, now)
    ensures Holds(Apply(role, r, Read(n, running)), all + [Read(n, running)], now + [Read(n, running)])
  {
    hide Wrap, SentBytes, ReceivedBytes;
    SumsGrow(all, Read(n, running));
    SumsGrow(now, Read(n, running));
    if n >= 0 && running {
      CountsOn(r.received, ReceivedBytes(all), n);
      CountsOn(r.receivedNow, ReceivedBytes(now), n);
    }
  }

  lemma PassHolds(role: Role, r: Result, all: seq<Op>, now: seq<Op>, op: Op)
    requires Holds(r, all, now) && op.Pass?
    ensures Holds(Apply(role, r, op), all + [op], [])
  {
    SumsGrow(all, op);
  }

  lemma {:induction false} HistoryHolds(role: Role, start: int, ops: seq<Op>)
    ensures Holds(History(role, start, ops), ops, SincePass(ops))
  {
    if ops != [] {
      var before, op := ops[..|ops| - 1], ops[|ops| - 1];
      HistoryHolds(role, start, before);
      assert ops == before + [op];
      match op
      case Write(n) => WriteHolds(role, History(role, start, before), before, SincePass(before), n);
      case Read(n, running) => ReadHolds(role, History(role, start, before), before, SincePass(before), n, running);
      case Pass(_, _) => PassHolds(role, History(role, start, before), before, SincePass(before), op);
    }
  }

  /** Writes count as sent and reads as received, and neither as the other: all of them in the totals, and those since
      the last pass in the interval under way. */
  lemma DirectionsAreApart(role: Role, start: int, ops: seq<Op>)
    ensures var r, now := History(role, start, ops), SincePass(ops);
            && r.sent == SentBytes(ops) % UINT64 && r.received == ReceivedBytes(ops) % UINT64
            && r.sentNow == SentBytes(now) % UINT64 && r.receivedNow == ReceivedBytes(now) % UINT64
  {
    HistoryHolds(role, start, ops);
  }

  // ---------- one interval per pass ----------

  function Samples(ops: seq<Op>): seq<Sample> {
    if ops == [] then []
    else
      var before, op := Samples(ops[..|ops| - 1]), ops[|ops| - 1];
      if op.Pass? then before + [op.sample] else before
  }

  function Clocks(ops: seq<Op>): (c: seq<int>)
    ensures |c| == |Samples(ops)|
  {
    if ops == [] then []
    else
      var before, op := Clocks(ops[..|ops| - 1]), ops[|ops| - 1];
      if op.Pass? then before + [op.now] else before
  }

  /** The sample before the `k`-th; all zeros before the first. */
  function Before(s: seq<Sample>, k: nat): Sample
    requires k <= |s|
  {
    if k == 0 then Sample(0, 0, 0, 0, 0, 0, 0, 0, 0, 0, 0, 0) else s[k - 1]
  }

  /** What interval `k` says, from the samples and the clock alone. */
  predicate IntervalShows(p: Protocol, i: Interval, s: seq<Sample>, clock: seq<int>, start: int, k: nat)
    requires k < |s| == |clock|
  {
    var last := Before(s, k);
    && i.start == (if k == 0 then start else clock[k - 1])
    && i.end == clock[k] && i.dur == i.end - i.start
    && i.rtt == s[k].rtt && i.rto == (if p.Kcp? then 0 else s[k].rto)
    && i.retrans == Minus(s[k].retrans, last.retrans)
    && (!p.Tcp? ==> i.lost == Minus(s[k].lost, last.lost) && i.early == Minus(s[k].early, last.early)
                    && i.fast == Minus(s[k].fast, last.fast))
    && (p.Tcp? ==> i.lost == i.early == i.fast == 0)
  }

  predicate Remembers(p: Protocol, r: Result, s: seq<Sample>, clock: seq<int>) {
    var last := Before(s, |s|);
    && r.retrans.prev == last.retrans
    && (if p.Tcp? then r.lost == r.early == r.fast == Cumulative(0, 0)
        else r.lost.prev == last.lost && r.early.prev == last.early && r.fast.prev == last.fast)
    && (|clock| > 0 ==> r.endTime == clock[|clock| - 1])
  }

  lemma StillShows(p: Protocol, i: Interval, s: seq<Sample>, c: seq<int>, start: int, k: nat, op: Op)
    requires op.Pass? && k < |s| == |c| && IntervalShows(p, i, s, c, start, k)
    ensures IntervalShows(p, i, s + [op.sample], c + [op.now], start, k)
  {
    assert Before(s + [op.sample], k) == Before(s, k);
  }

  lemma NewestShows(role: Role, start: int, r: Result, s: seq<Sample>, c: seq<int>, op: Op)
    requires op.Pass? && |r.intervals| == |s| == |c| && r.startTime == start && Remembers(role.protocol, r, s, c)
    ensures IntervalShows(role.protocol, NewInterval(role.protocol, r, op.sample, op.now, role.receiver),
                          s + [op.sample], c + [op.now], start, |s|)
  {
    assert Before(s + [op.sample], |s|) == Before(s, |s|);
  }

  lemma PassShows(role: Role, start: int, r: Result, s: seq<Sample>, c: seq<int>, op: Op)
    requires op.Pass? && |r.intervals| == |s| == |c| && r.startTime == start && Remembers(role.protocol, r, s, c)
    requires forall k :: 0 <= k < |s| ==> IntervalShows(role.protocol, r.intervals[k], s, c, start, k)
    ensures var next, t, d := Apply(role, r, op), s + [op.sample], c + [op.now];
            && |next.intervals| == |t| && next.startTime == start && Remembers(role.protocol, next, t, d)
            && forall k :: 0 <= k < |t| ==> IntervalShows(role.protocol, next.intervals[k], t, d, start, k)
  {
    var next, t, d := Apply(role, r, op), s + [op.sample], c + [op.now];
    forall k | 0 <= k < |t| ensures IntervalShows(role.protocol, next.intervals[k], t, d, start, k) {
      if k < |s| {
        assert IntervalShows(role.protocol, r.intervals[k], s, c, start, k);
        StillShows(role.protocol, r.intervals[k], s, c, start, k, op);
      } else {
        NewestShows(role, start, r, s, c, op);
      }
    }
  }

  /** Every statistics pass leaves one interval, and what it says depends only on its own sample, the one before, and
      the clock. */
  lemma {:induction false} IntervalsShow(role: Role, start: int, ops: seq<Op>)
    ensures var r, s, c := History(role, start, ops), Samples(ops), Clocks(ops);
            && |r.intervals| == |s| && r.startTime == start
            && Remembers(role.protocol, r, s, c)
            && forall k :: 0 <= k < |s| ==> IntervalShows(role.protocol, r.intervals[k], s, c, start, k)
  {
    if ops != [] {
      var before, op := ops[..|ops| - 1], ops[|ops| - 1];
      IntervalsShow(role, start, before);
      if op.Pass? {
        PassShows(role, start, History(role, start, before), Samples(before), Clocks(before), op);
      }
    }
  }

  // ---------- time ----------

  function Durations(s: seq<Interval>, k: nat): int
    requires k <= |s|
  {
    if k == 0 then 0 else Durations(s, k - 1) + s[k - 1].dur
  }

  lemma {:induction false} DurationsAdd(p: Protocol, i: seq<Interval>, s: seq<Sample>, c: seq<int>, start: int, k: nat)
    requires 0 < k <= |i| == |s| == |c|
    requires forall j :: 0 <= j < |s| ==> IntervalShows(p, i[j], s, c, start, j)
    ensures Durations(i, k) == c[k - 1] - start
  {
    assert IntervalShows(p, i[k - 1], s, c, start, k - 1);
    if k > 1 {
      DurationsAdd(p, i, s, c, start, k - 1);
    }
  }

  /** The intervals tile the time from the start of the test to the last pass: no gap, no overlap, and their durations
      add up. */
  lemma TimeIsTiled(role: Role, start: int, ops: seq<Op>)
    ensures var r := History(role, start, ops);
            && (forall k :: 0 <= k < |r.intervals| - 1 ==> r.intervals[k].end == r.intervals[k + 1].start)
            && (r.intervals != [] ==>
                  && r.intervals[0].start == start && r.intervals[|r.intervals| - 1].end == r.endTime
                  && Durations(r.intervals, |r.intervals|) == r.endTime - start)
  {
    IntervalsShow(role, start, ops);
    var r, s, c := History(role, start, ops), Samples(ops), Clocks(ops);
    forall k | 0 <= k < |r.intervals| - 1 ensures r.intervals[k].end == r.intervals[k + 1].start {
      assert IntervalShows(role.protocol, r.intervals[k], s, c, start, k);
      assert IntervalShows(role.protocol, r.intervals[k + 1], s, c, start, k + 1);
    }
    if r.intervals != [] {
      assert IntervalShows(role.protocol, r.intervals[0], s, c, start, 0);
      assert IntervalShows(role.protocol, r.intervals[|s| - 1], s, c, start, |s| - 1);
      DurationsAdd(role.protocol, r.intervals, s, c, start, |s|);
    }
  }

  // ---------- packets ----------

  /** The packet and segment counters are those of the last sample: repeated segments over RUDP only, and none of them
      over TCP. */
  lemma {:induction false} PacketsAreLast(role: Role, start: int, ops: seq<Op>)
    ensures var packets, s := History(role, start, ops).packets, Samples(ops);
            if role.protocol.Tcp? || s == [] then packets == Packets(0, 0, 0, 0, 0, 0)
            else
              var last := s[|s| - 1];
              && packets.recovers == last.recovers
              && packets.inPkts == last.inPkts && packets.outPkts == last.outPkts
              && packets.inSegs == last.inSegs && packets.outSegs == last.outSegs
              && packets.repeats == if role.protocol.Rudp? then last.repeats else 0
  {
    if ops != [] {
      PacketsAreLast(role, start, ops[..|ops| - 1]);
    }
  }

  // ---------- cumulative counters ----------

  function RetransOf(i: Interval): nat { i.retrans }

  function LostOf(i: Interval): nat { i.lost }

  function EarlyOf(i: Interval): nat { i.early }

  function FastOf(i: Interval): nat { i.fast }

  /** The stream's counter and the sum of its intervals are the last sample, modulo 2^64. */
  predicate Telescoped(c: Cumulative, i: seq<Interval>, f: Interval -> nat) {
    c.stream == c.prev == Total(i, f) % UINT64
  }

  lemma TelescopeStep(c: Cumulative, i: seq<Interval>, f: Interval -> nat, last: Interval, sample: uint64)
    requires Telescoped(c, i, f) && f(last) == c.Gain(sample)
    ensures Telescoped(c.Update(sample), i + [last], f)
  {
    TotalAppend(i, last, f);
    WrapAdds(Total(i, f), c.Gain(sample));
    PlusMinus(sample, c.prev);
    PlusMinus(c.prev, c.Gain(sample));
  }

  lemma TelescopeIdle(c: Cumulative, i: seq<Interval>, f: Interval -> nat, last: Interval)
    requires Telescoped(c, i, f) && f(last) == 0
    ensures Telescoped(c, i + [last], f)
  {
    TotalAppend(i, last, f);
  }

  predicate AllTelescoped(r: Result) {
    && Telescoped(r.retrans, r.intervals, RetransOf) && Telescoped(r.lost, r.intervals, LostOf)
    && Telescoped(r.early, r.intervals, EarlyOf) && Telescoped(r.fast, r.intervals, FastOf)
  }

  lemma PassTelescopes(role: Role, r: Result, s: Sample, now: int)
    requires AllTelescoped(r)
    ensures AllTelescoped(Stats(role.protocol, r, s, now, role.receiver))
  {
    var i := NewInterval(role.protocol, r, s, now, role.receiver);
    TelescopeStep(r.retrans, r.intervals, RetransOf, i, s.retrans);
    if role.protocol.Tcp? {
      TelescopeIdle(r.lost, r.intervals, LostOf, i);
      TelescopeIdle(r.early, r.intervals, EarlyOf, i);
      TelescopeIdle(r.fast, r.intervals, FastOf, i);
    } else {
      TelescopeStep(r.lost, r.intervals, LostOf, i, s.lost);
      TelescopeStep(r.early, r.intervals, EarlyOf, i, s.early);
      TelescopeStep(r.fast, r.intervals, FastOf, i, s.fast);
    }
  }

  lemma {:induction false} HistoryTelescopes(role: Role, start: int, ops: seq<Op>)
    ensures AllTelescoped(History(role, start, ops))
  {
    if ops != [] {
      var before, op := ops[..|ops| - 1], ops[|ops| - 1];
      HistoryTelescopes(role, start, before);
      if op.Pass? {
        PassTelescopes(role, History(role, start, before), op.sample, op.now);
      }
    }
  }

  /** For any samples, even ones that fall back to zero, the stream's counters and the sums of their intervals are the
      last sample modulo 2^64. */
  lemma CountersTelescope(role: Role, start: int, ops: seq<Op>)
    ensures var r, last := History(role, start, ops), Before(Samples(ops), |Samples(ops)|);
            && r.retrans.stream == last.retrans == Total(r.intervals, RetransOf) % UINT64
            && (!role.protocol.Tcp? ==>
                  && r.lost.stream == last.lost == Total(r.intervals, LostOf) % UINT64
                  && r.early.stream == last.early == Total(r.intervals, EarlyOf) % UINT64
                  && r.fast.stream == last.fast == Total(r.intervals, FastOf) % UINT64)
  {
    HistoryTelescopes(role, start, ops);
    IntervalsShow(role, start, ops);
  }

  function RetransSample(s: Sample): uint64 { s.retrans }

  function LostSample(s: Sample): uint64 { s.lost }

  function EarlySample(s: Sample): uint64 { s.early }

  function FastSample(s: Sample): uint64 { s.fast }

  predicate Rising(s: seq<Sample>, g: Sample -> uint64) { forall k :: 0 <= k < |s| ==> g(Before(s, k)) <= g(s[k]) }

  /** Interval `k` is the difference of sample `k` and the one before, modulo 2^64. */
  predicate Gains(s: seq<Sample>, g: Sample -> uint64, i: seq<Interval>, f: Interval -> nat) {
    |i| == |s| && forall k :: 0 <= k < |s| ==> f(i[k]) == Minus(g(s[k]), g(Before(s, k)))
  }

  lemma RisingGain(s: seq<Sample>, g: Sample -> uint64, i: seq<Interval>, f: Interval -> nat, k: nat)
    requires Rising(s, g) && Gains(s, g, i, f) && k < |s|
    ensures f(i[k]) == g(s[k]) - g(Before(s, k))
  {
    assert g(Before(s, k)) <= g(s[k]);
  }

  lemma {:induction false} RisingSum(s: seq<Sample>, g: Sample -> uint64, i: seq<Interval>, f: Interval -> nat, k: nat)
    requires Rising(s, g) && Gains(s, g, i, f) && k <= |s|
    ensures TotalUpTo(i, f, k) == g(Before(s, k)) - g(Before(s, 0))
  {
    hide Rising, Gains;
    if k > 0 {
      RisingSum(s, g, i, f, k - 1);
      RisingGain(s, g, i, f, k - 1);
    }
  }

  /** Samples that never fall give intervals that are the true differences, and a true sum. */
  lemma RisingExactly(s: seq<Sample>, g: Sample -> uint64, i: seq<Interval>, f: Interval -> nat)
    requires Rising(s, g) && Gains(s, g, i, f)
    ensures Total(i, f) == g(Before(s, |s|)) - g(Before(s, 0))
    ensures forall k :: 0 <= k < |s| ==> f(i[k]) == g(s[k]) - g(Before(s, k))
  {
    RisingSum(s, g, i, f, |s|);
    forall k | 0 <= k < |s| ensures f(i[k]) == g(s[k]) - g(Before(s, k)) {
      RisingGain(s, g, i, f, k);
    }
  }

  /** Interval `k` of each counter, as `IntervalShows` has it. */
  lemma ShownGain(p: Protocol, i: Interval, s: seq<Sample>, c: seq<int>, start: int, k: nat)
    requires k < |s| == |c| && IntervalShows(p, i, s, c, start, k)
    ensures RetransOf(i) == Minus(RetransSample(s[k]), RetransSample(Before(s, k)))
    ensures !p.Tcp? ==> LostOf(i) == Minus(LostSample(s[k]), LostSample(Before(s, k)))
    ensures !p.Tcp? ==> EarlyOf(i) == Minus(EarlySample(s[k]), EarlySample(Before(s, k)))
    ensures !p.Tcp? ==> FastOf(i) == Minus(FastSample(s[k]), FastSample(Before(s, k)))
  {
  }

  lemma ShownGains(p: Protocol, i: seq<Interval>, s: seq<Sample>, c: seq<int>, start: int)
    requires |i| == |s| == |c| && forall k :: 0 <= k < |s| ==> IntervalShows(p, i[k], s, c, start, k)
    ensures Gains(s, RetransSample, i, RetransOf)
    ensures !p.Tcp? ==>
              Gains(s, LostSample, i, LostOf) && Gains(s, EarlySample, i, EarlyOf) && Gains(s, FastSample, i, FastOf)
  {
    forall k | 0 <= k < |s|
      ensures RetransOf(i[k]) == Minus(RetransSample(s[k]), RetransSample(Before(s, k)))
      ensures !p.Tcp? ==> LostOf(i[k]) == Minus(LostSample(s[k]), LostSample(Before(s, k)))
      ensures !p.Tcp? ==> EarlyOf(i[k]) == Minus(EarlySample(s[k]), EarlySample(Before(s, k)))
      ensures !p.Tcp? ==> FastOf(i[k]) == Minus(FastSample(s[k]), FastSample(Before(s, k)))
    {
      ShownGain(p, i[k], s, c, start, k);
    }
  }

  lemma IntervalsGain(role: Role, start: int, ops: seq<Op>)
    ensures var i, s := History(role, start, ops).intervals, Samples(ops);
            && Gains(s, RetransSample, i, RetransOf)
            && (!role.protocol.Tcp? ==>
                  && Gains(s, LostSample, i, LostOf) && Gains(s, EarlySample, i, EarlyOf)
                  && Gains(s, FastSample, i, FastOf))
  {
    IntervalsShow(role, start, ops);
    var i, s, c := History(role, start, ops).intervals, Samples(ops), Clocks(ops);
    ShownGains(role.protocol, i, s, c, start);
  }

  /** Samples that never fall give intervals that are the true differences, and true sums. */
  lemma RisingCountersAreExact(role: Role, start: int, ops: seq<Op>)
    requires Rising(Samples(ops), RetransSample)
    ensures var r, s := History(role, start, ops), Samples(ops);
            && |r.intervals| == |s| && Total(r.intervals, RetransOf) == r.retrans.stream
            && forall k :: 0 <= k < |s| ==> r.intervals[k].retrans == s[k].retrans - Before(s, k).retrans
  {
    var i, s := History(role, start, ops).intervals, Samples(ops);
    IntervalsGain(role, start, ops);
    CountersTelescope(role, start, ops);
    RisingExactly(s, RetransSample, i, RetransOf);
    forall k | 0 <= k < |s| ensures i[k].retrans == s[k].retrans - Before(s, k).retrans {
      assert RetransOf(i[k]) == RetransSample(s[k]) - RetransSample(Before(s, k));
    }
  }

  /** The same for the three counters RUDP and KCP add. */
  lemma RisingSegmentCountersAreExact(role: Role, start: int, ops: seq<Op>)
    requires !role.protocol.Tcp?
    ensures var r, s := History(role, start, ops), Samples(ops);
            && |r.intervals| == |s|
            && (Rising(s, LostSample) ==>
                  && Total(r.intervals, LostOf) == r.lost.stream
                  && forall k :: 0 <= k < |s| ==> LostOf(r.intervals[k]) == s[k].lost - Before(s, k).lost)
            && (Rising(s, EarlySample) ==>
                  && Total(r.intervals, EarlyOf) == r.early.stream
                  && forall k :: 0 <= k < |s| ==> EarlyOf(r.intervals[k]) == s[k].early - Before(s, k).early)
            && (Rising(s, FastSample) ==>
                  && Total(r.intervals, FastOf) == r.fast.stream
                  && forall k :: 0 <= k < |s| ==> FastOf(r.intervals[k]) == s[k].fast - Before(s, k).fast)
  {
    hide History, Rising, Gains;
    var i, s := History(role, start, ops).intervals, Samples(ops);
    IntervalsGain(role, start, ops);
    IntervalsShow(role, start, ops);
    CountersTelescope(role, start, ops);
    if Rising(s, LostSample) { RisingExactly(s, LostSample, i, LostOf); }
    if Rising(s, EarlySample) { RisingExactly(s, EarlySample, i, EarlyOf); }
    if Rising(s, FastSample) { RisingExactly(s, FastSample, i, FastOf); }
  }

  // ---------- round trips ----------

  function RttSample(s: Sample): nat { s.rtt }

  /** The position after the last zero sample; zero if there is none. */
  function AfterLastZero(s: seq<Sample>): (z: nat)
    ensures z <= |s|
    ensures z > 0 ==> s[z - 1].rtt == 0
    ensures forall k :: z <= k < |s| ==> s[k].rtt > 0
  {
    if s == [] then 0
    else if s[|s| - 1].rtt == 0 then |s|
    else AfterLastZero(s[..|s| - 1])
  }

  /** The largest sample; zero if there is none. */
  predicate IsMax(s: seq<Sample>, max: nat) {
    && (forall k :: 0 <= k < |s| ==> s[k].rtt <= max)
    && (if s == [] then max == 0 else exists k :: 0 <= k < |s| && s[k].rtt == max)
  }

  /** The smallest sample after the last zero one; zero if the last sample is zero or there is none. */
  predicate IsMin(s: seq<Sample>, min: nat) {
    var z := AfterLastZero(s);
    if z == |s| then min == 0
    else
      && (forall k :: z <= k < |s| ==> min <= s[k].rtt)
      && (exists k :: z <= k < |s| && s[k].rtt == min)
  }

  predicate Summarizes(rtt: Rtt, s: seq<Sample>) {
    && rtt.cnt == |s| % UINT64
    && rtt.sum == Total(s, RttSample) % UINT64
    && IsMax(s, rtt.max) && IsMin(s, rtt.min)
  }

  lemma MaxStep(rtt: Rtt, s: seq<Sample>, x: Sample)
    requires IsMax(s, rtt.max)
    ensures IsMax(s + [x], rtt.Update(x.rtt).max)
  {
    var t, m := s + [x], rtt.Update(x.rtt).max;
    if m == x.rtt {
      assert t[|s|].rtt == m;
    } else {
      var k :| 0 <= k < |s| && s[k].rtt == rtt.max;
      assert t[k].rtt == m;
    }
  }

  lemma MinStep(rtt: Rtt, s: seq<Sample>, x: Sample)
    requires IsMin(s, rtt.min)
    ensures IsMin(s + [x], rtt.Update(x.rtt).min)
  {
    var t, m, z := s + [x], rtt.Update(x.rtt).min, AfterLastZero(s);
    assert t[..|t| - 1] == s;
    if x.rtt != 0 {
      assert AfterLastZero(t) == z;
      assert z < |s| ==> rtt.min > 0;
      if m == x.rtt {
        assert t[|s|].rtt == m;
      } else {
        var k :| z <= k < |s| && s[k].rtt == rtt.min;
        assert t[k].rtt == m;
      }
    }
  }

  lemma SummaryStep(rtt: Rtt, s: seq<Sample>, x: Sample)
    requires Summarizes(rtt, s)
    ensures Summarizes(rtt.Update(x.rtt), s + [x])
  {
    TotalAppend(s, x, RttSample);
    WrapAdds(|s|, 1);
    WrapAdds(Total(s, RttSample), x.rtt);
    PlusMinus(rtt.cnt, 1);
    PlusMinus(rtt.sum, x.rtt);
    MaxStep(rtt, s, x);
    MinStep(rtt, s, x);
  }

  /** The summary of any history: count and sum exact modulo 2^64, the maximum of all samples, and the minimum of the
      samples since the last zero. */
  lemma {:induction false} RttSummary(role: Role, start: int, ops: seq<Op>)
    ensures Summarizes(History(role, start, ops).rtt, Samples(ops))
  {
    if ops != [] {
      var before, op := ops[..|ops| - 1], ops[|ops| - 1];
      RttSummary(role, start, before);
      if op.Pass? {
        SummaryStep(History(role, start, before).rtt, Samples(before), op.sample);
      }
    }
  }

  lemma {:induction false} SumBetween(s: seq<Sample>, min: nat, max: nat, k: nat)
    requires k <= |s| && forall j :: 0 <= j < |s| ==> min <= s[j].rtt <= max
    ensures min * k <= TotalUpTo(s, RttSample, k) <= max * k
  {
    if k > 0 {
      SumBetween(s, min, max, k - 1);
      assert min * k == min * (k - 1) + min && max * k == max * (k - 1) + max;
    }
  }

  lemma SummaryBetween(rtt: Rtt, s: seq<Sample>)
    requires Summarizes(rtt, s) && |s| < UINT64 && Total(s, RttSample) < UINT64
    ensures rtt.sum <= rtt.max * rtt.cnt
    ensures AfterLastZero(s) == 0 ==> rtt.min * rtt.cnt <= rtt.sum
  {
    WrapNothing(|s|);
    WrapNothing(Total(s, RttSample));
    SumBetween(s, 0, rtt.max, |s|);
    if AfterLastZero(s) == 0 {
      SumBetween(s, rtt.min, rtt.max, |s|);
    }
  }

  /** Without zero samples, and short of wrap-around, the average lies between minimum and maximum; the upper bound
      holds for any samples. */
  lemma AverageIsBetween(role: Role, start: int, ops: seq<Op>)
    requires |Samples(ops)| < UINT64 && Total(Samples(ops), RttSample) < UINT64
    ensures var rtt := History(role, start, ops).rtt;
            && rtt.sum <= rtt.max * rtt.cnt
            && (AfterLastZero(Samples(ops)) == 0 ==> rtt.min * rtt.cnt <= rtt.sum)
  {
    RttSummary(role, start, ops);
    SummaryBetween(History(role, start, ops).rtt, Samples(ops));
  }
}
