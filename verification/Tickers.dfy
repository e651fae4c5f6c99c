/** The interval tickers: how often they call back, and what intervals an undisturbed test leaves. */
module Tickers {
  import opened Wrappers
  import opened Arithmetic
  import opened Words
  import opened StreamHistory

  /** What reaches the goroutine of `tickerCreate`: a tick at some time, or the request to stop. */
  datatype Arrival = TickAt(time: int) | Stop

  /** The ticks before the first request to stop. */
  function TicksBeforeStop(arrivals: seq<Arrival>): seq<int> {
    if arrivals == [] || arrivals[0].Stop? then [] else [arrivals[0].time] + TicksBeforeStop(arrivals[1..])
  }

  /** The times at which a ticker allowed `maxTimes` callbacks calls back. */
  function Called(maxTimes: nat, arrivals: seq<Arrival>): seq<int> {
    var ticks := TicksBeforeStop(arrivals);
    if |ticks| <= maxTimes then ticks else ticks[..maxTimes]
  }

  /** The goroutine of `tickerCreate`; `calls` are the times of its callbacks. It calls back on the first `maxTimes`
      ticks before a stop, no more and no fewer, and returns on the next tick after them. */
  method Ticker(maxTimes: uint64, arrivals: seq<Arrival>) returns (calls: seq<int>, cnt: nat, returned: bool)
    ensures calls == Called(maxTimes, arrivals) && cnt == |calls|
    ensures returned <==> |TicksBeforeStop(arrivals)| > maxTimes || Stop in arrivals
  {
    calls, cnt := [], 0;
    var k := 0;
    while k < |arrivals|
      invariant k <= |arrivals| && cnt == |calls| <= maxTimes
      invariant TicksBeforeStop(arrivals) == calls + TicksBeforeStop(arrivals[k..])
      invariant forall j :: 0 <= j < k ==> arrivals[j] != Stop
    {
      assert arrivals[k..][0] == arrivals[k] && arrivals[k..][1..] == arrivals[k + 1..];
      match arrivals[k]
      case Stop =>
        return calls, cnt, true;
      case TickAt(time) =>
        if cnt >= maxTimes {
          return calls, cnt, true;
        }
        calls := calls + [time];
        cnt := cnt + 1;
        k := k + 1;
    }
    returned := false;
  }

  /** Nothing that comes after a request to stop is called back on. */
  lemma {:induction false} StopEnds(maxTimes: nat, before: seq<Arrival>, rest: seq<Arrival>)
    ensures TicksBeforeStop(before + [Stop] + rest) == TicksBeforeStop(before)
    ensures Called(maxTimes, before + [Stop] + rest) == Called(maxTimes, before)
  {
    var all := before + [Stop] + rest;
    if before != [] {
      StopEnds(maxTimes, before[1..], rest);
      assert all[1..] == before[1..] + [Stop] + rest;
    }
  }

  // ---------- the budget of the interval tickers ----------

  /** Milliseconds of a test of `duration` seconds, in 64 bits. */
  function TestLength(duration: uint64): uint64 { Wrap(duration * 1000) }

  /** The whole intervals in a time. */
  function Times(end: nat, interval: nat): (times: nat)
    requires interval > 0
    ensures times <= end
  {
    QuotientAtLeast(end, interval, 0);
    QuotientAtMost(end, interval);
    end / interval
  }

  function BudgetFor(end: uint64, interval: uint64): Option<uint64> {
    if interval == 0 then None else Some(Minus(Times(end, interval), 1))
  }

  /** The callbacks `createClientTimer` and `createServerTimer` allow: one less than the whole intervals in the test,
      which wraps around when there is none. A zero interval is a division by zero. */
  function Budget(duration: uint64, interval: uint64): Option<uint64> { BudgetFor(TestLength(duration), interval) }

  /** The first `n` ticks of a ticker on time. */
  function OnTime(interval: nat, n: nat): seq<int> { seq(n, k => (k + 1) * interval) }

  /** The ticks on time before the end of the test. */
  function IdealTicks(interval: nat, end: nat): seq<int>
    requires interval > 0
  {
    OnTime(interval, if end == 0 then 0 else Times(end - 1, interval))
  }

  function Arrivals(ticks: seq<int>): seq<Arrival> { seq(|ticks|, k requires 0 <= k < |ticks| => TickAt(ticks[k])) }

  lemma {:induction false} NoStop(ticks: seq<int>)
    ensures TicksBeforeStop(Arrivals(ticks)) == ticks
  {
    if ticks != [] {
      NoStop(ticks[1..]);
      assert Arrivals(ticks)[1..] == Arrivals(ticks[1..]);
      assert ticks == [ticks[0]] + ticks[1..];
    }
  }

  /** The times of all statistics passes of a test on time: the ticker's, and the last one at the end. */
  function PassTimes(interval: nat, end: nat): seq<int>
    requires interval > 0
  {
    var times := Times(end, interval);
    OnTime(interval, if times == 0 then 0 else times - 1) + [end]
  }

  /** The ticks on time before the end are at least as many as the budget, or there is neither. */
  lemma TickCount(end: nat, interval: nat, times: nat, n: nat)
    requires 0 < interval && times == Times(end, interval) && n == if end == 0 then 0 else Times(end - 1, interval)
    ensures if times == 0 then n == 0 else n >= times - 1
  {
    assert end == interval * times + end % interval;
    if times == 0 {
      if end > 0 {
        QuotientUnique(end - 1, interval, 0, end - 1);
      }
    } else {
      MulMonotone(1, times, interval);
      assert interval * (times - 1) == interval * times - interval;
      QuotientAtLeast(end - 1, interval, times - 1);
    }
  }

  lemma CalledIs(ticks: seq<int>, budget: nat)
    ensures Called(budget, Arrivals(ticks)) == if |ticks| <= budget then ticks else ticks[..budget]
  {
    NoStop(ticks);
  }

  lemma BudgetIs(end: uint64, interval: uint64, times: nat, budget: uint64)
    requires 0 < interval && times == Times(end, interval) && BudgetFor(end, interval) == Some(budget)
    ensures budget == if times == 0 then UINT64 - 1 else times - 1
  {
  }

  lemma WithinBudget(interval: nat, n: nat, times: nat)
    requires if times == 0 then n == 0 else n >= times - 1
    ensures var ticks, budget := OnTime(interval, n), if times == 0 then UINT64 - 1 else times - 1;
            (if n <= budget then ticks else ticks[..budget]) == OnTime(interval, if times == 0 then 0 else times - 1)
  {
  }

  lemma TicksAndBudget(interval: nat, end: nat, times: nat, budget: nat)
    requires 0 < interval && times == Times(end, interval) && budget == if times == 0 then UINT64 - 1 else times - 1
    ensures var ticks := IdealTicks(interval, end);
            (if |ticks| <= budget then ticks else ticks[..budget]) + [end] == PassTimes(interval, end)
  {
    var n := if end == 0 then 0 else Times(end - 1, interval);
    TickCount(end, interval, times, n);
    WithinBudget(interval, n, times);
  }

  lemma IdealPassesFor(end: uint64, interval: uint64)
    requires 0 < interval
    ensures Called(BudgetFor(end, interval).value, Arrivals(IdealTicks(interval, end))) + [end]
            == PassTimes(interval, end)
  {
    var ticks, budget, times := IdealTicks(interval, end), BudgetFor(end, interval).value, Times(end, interval);
    CalledIs(ticks, budget);
    BudgetIs(end, interval, times, budget);
    TicksAndBudget(interval, end, times, budget);
  }

  /** The budget in the user's units, seconds and milliseconds: one callback less than the whole intervals in the test,
      none at all without an interval, and no limit in a test shorter than an interval. */
  lemma BudgetCounts(duration: uint64, interval: uint64)
    requires 1000 * duration < 0x1_0000_0000_0000_0000
    ensures Budget(duration, interval).None? <==> interval == 0
    ensures 1 <= interval <= 1000 * duration ==>
              var b := Budget(duration, interval).value;
              (b + 1) * interval <= 1000 * duration < (b + 2) * interval
    ensures interval > 1000 * duration ==> Budget(duration, interval) == Some(0xFFFF_FFFF_FFFF_FFFF)
  {
    var end := 1000 * duration;
    WrapNothing(end);
    if interval > 0 {
      var times := Times(end, interval);
      BudgetIs(end, interval, times, Budget(duration, interval).value);
      assert end == interval * times + end % interval;
      if interval <= end {
        QuotientAtLeast(end, interval, 1);
        assert (times + 1) * interval == interval * times + interval;
      } else {
        QuotientUnique(end, interval, 0, end);
      }
    }
  }

  lemma PassTime(interval: nat, end: nat, k: nat)
    requires interval > 0 && k < |PassTimes(interval, end)|
    ensures |PassTimes(interval, end)| == (if interval <= end then Times(end, interval) else 1)
    ensures k + 1 < |PassTimes(interval, end)| ==> PassTimes(interval, end)[k] == (k + 1) * interval
    ensures PassTimes(interval, end)[|PassTimes(interval, end)| - 1] == end
  {
    if interval <= end {
      QuotientAtLeast(end, interval, 1);
    } else {
      QuotientUnique(end, interval, 0, end);
    }
  }

  /** With ticks on time the ticker's own passes are all those before the last: it runs out of ticks when the test is
      shorter than an interval, and out of budget otherwise. The test ends after a thousand milliseconds a second. */
  lemma IdealPasses(duration: uint64, interval: uint64)
    requires 0 < interval
    ensures var end := 1000 * duration % 0x1_0000_0000_0000_0000;
            Called(Budget(duration, interval).value, Arrivals(IdealTicks(interval, end))) + [end]
            == PassTimes(interval, end)
    ensures 1000 * duration < 0x1_0000_0000_0000_0000 ==>
              var end, b := 1000 * duration, Budget(duration, interval).value;
              var passes := Called(b, Arrivals(IdealTicks(interval, end))) + [end];
              && |passes| == (if interval <= end then b + 1 else 1) && passes[|passes| - 1] == 1000 * duration
              && forall k :: 0 <= k < |passes| - 1 ==> passes[k] == (k + 1) * interval
  {
    var end := TestLength(duration);
    IdealPassesFor(end, interval);
    if 1000 * duration < UINT64 {
      WrapNothing(1000 * duration);
      BudgetIs(end, interval, Times(end, interval), Budget(duration, interval).value);
      PassTime(interval, end, 0);
      forall k | 0 <= k < |PassTimes(interval, end)| - 1 ensures PassTimes(interval, end)[k] == (k + 1) * interval {
        PassTime(interval, end, k);
      }
      if interval <= end {
        QuotientAtLeast(end, interval, 1);
      }
    }
  }

  // ---------- the intervals of a test on time ----------

  lemma LastInterval(interval: nat, end: nat, n: nat)
    requires interval > 0 && n == (if interval <= end then Times(end, interval) else 1)
    ensures interval <= end ==> n >= 1 && interval <= end - (n - 1) * interval < 2 * interval
  {
    if interval <= end {
      QuotientAtLeast(end, interval, 1);
      assert end == interval * n + end % interval;
      assert (n - 1) * interval == interval * n - interval;
    }
  }

  /** A test on time leaves as many intervals as fit in it. All but the last have the requested length; the last takes
      what is left, at least one interval and less than two. A test shorter than an interval leaves a single one.
      Whatever was sent and received in between. */
  lemma IdealIntervals(role: Role, interval: nat, end: nat, ops: seq<Op>)
    requires interval > 0 && Clocks(ops) == PassTimes(interval, end)
    ensures var r := History(role, 0, ops).intervals;
            && |r| == (if interval <= end then Times(end, interval) else 1)
            && (forall k :: 0 <= k < |r| - 1 ==> r[k].dur == interval)
            && (interval <= end ==> interval <= r[|r| - 1].dur < 2 * interval)
            && (end < interval ==> r[0].dur == end)
  {
    var r, s, c := History(role, 0, ops).intervals, Samples(ops), Clocks(ops);
    IntervalsShow(role, 0, ops);
    var n := |r|;
    PassTime(interval, end, 0);
    forall k | 0 <= k < n - 1 ensures r[k].dur == interval {
      assert IntervalShows(role.protocol, r[k], s, c, 0, k);
      PassTime(interval, end, k);
      if k > 0 {
        PassTime(interval, end, k - 1);
      }
    }
    assert IntervalShows(role.protocol, r[n - 1], s, c, 0, n - 1);
    if n > 1 {
      PassTime(interval, end, n - 2);
    }
    LastInterval(interval, end, n);
  }
}
