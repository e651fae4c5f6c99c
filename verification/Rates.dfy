/** Periods of Go tickers: which of them start, and which panic. */
module Rates {
  import opened Arithmetic
  import opened Words

  /** Bits times nanoseconds per second: `8 * bytes * 10^9` is compared with `rate * elapsed`. */
  const SCALE: nat := 8_000_000_000

  const INT64: nat := 0x8000_0000_0000_0000

  const MILLISECOND: nat := 1_000_000

  /** `NewTicker` of an unsigned number of nanoseconds: the conversion to a signed duration wraps, and a duration that
      is not positive panics. */
  predicate TickerStarts(ns: nat) { 0 < ns % UINT64 < INT64 }

  /** The period of `iperfSend`'s ticker in nanoseconds, computed in 64 bits. */
  function SendPeriod(burst: bool, rate: nat, blksize: nat): nat {
    if !burst && rate != 0 then (blksize * SCALE % UINT64) / rate else 1_000_000
  }

  /** A sender's ticker starts: a block has at least as many bits, times 10^9 and modulo 2^64, as the rate allows in a
      second; and a rate of one bit per second does not stretch the period beyond a signed word. */
  predicate Paces(burst: bool, rate: nat, blksize: nat) {
    || burst || rate == 0
    || (rate <= blksize * SCALE % UINT64 && (rate >= 2 || blksize * SCALE % UINT64 < INT64))
  }

  lemma PeriodStarts(b: uint64, rate: nat, q: int)
    requires rate >= 1 && q == b / rate
    ensures q >= 0
    ensures TickerStarts(q) <==> rate <= b && (rate >= 2 || b < INT64)
  {
    QuotientAtLeast(b, rate, 0);
    QuotientAtMost(b, rate);
    WrapNothing(q);
    assert b == rate * q + b % rate;
    if rate <= b {
      QuotientAtLeast(b, rate, 1);
    } else {
      QuotientUnique(b, rate, 0, b);
    }
    if rate >= 2 {
      MulMonotone(2, rate, q);
    }
  }

  lemma PacesIffTickerStarts(burst: bool, rate: nat, blksize: nat)
    ensures Paces(burst, rate, blksize) <==> TickerStarts(SendPeriod(burst, rate, blksize))
  {
    if !burst && rate != 0 {
      var b := blksize * SCALE % UINT64;
      PeriodStarts(b, rate, b / rate);
    }
  }

  // ---------- the end of the test and the deadline of a stream's connection ----------

  const SECOND: nat := 1_000_000_000

  /** A duration of an unsigned number of nanoseconds, in 64 bits. */
  function Signed(ns: nat): int {
    var w := ns % UINT64;
    if w < INT64 then w else w - UINT64
  }

  /** When the client's timer fires: at once if the duration overflows. */
  function TestEnd(duration: nat): nat {
    var end := Signed(duration * SECOND);
    if end > 0 then end else 0
  }

  /** When the streams of a client have had their last chance. Over TCP their reads and writes fail five seconds after
      the test, over RUDP and KCP a minute after its start; and five seconds after the test the server closes its own
      streams, so that in reverse mode nothing comes after that. */
  function Deadline(tcp: bool, reverse: bool, duration: nat): int {
    var closing := Signed((duration + 5) * SECOND);
    if tcp || (reverse && closing < 60 * SECOND) then closing else 60 * SECOND
  }

  /** The first tick that is not before the end of the test. */
  function FirstTick(period: nat, end: nat): nat
    requires period > 0
  {
    if end == 0 then period else period * ((end + period - 1) / period)
  }

  predicate TickWithin(period: nat, k: nat, from: int, to: int) { from <= period * k < to }

  lemma FirstTickIsFirst(period: nat, end: nat) returns (k: nat)
    requires period > 0
    ensures k >= 1 && FirstTick(period, end) == period * k && period * k >= end
    ensures k >= 2 ==> period * (k - 1) < end
  {
    if end == 0 {
      k := 1;
    } else {
      var v := end + period - 1;
      k := v / period;
      assert v == period * k + v % period;
      assert period * (k - 1) == period * k - period;
      QuotientAtLeast(v, period, 1);
    }
  }

  /** A sender that ticks on time has a tick between the end of the test and the deadline. */
  predicate InTime(tcp: bool, reverse: bool, duration: nat, burst: bool, rate: nat, blksize: nat) {
    var period := SendPeriod(burst, rate, blksize);
    period == 0 || FirstTick(period, TestEnd(duration)) < Deadline(tcp, reverse, duration)
  }

  lemma InTimeIffTickWithin(tcp: bool, reverse: bool, duration: nat, burst: bool, rate: nat,
      blksize: nat)
    requires SendPeriod(burst, rate, blksize) > 0
    ensures InTime(tcp, reverse, duration, burst, rate, blksize) <==>
            exists k: nat :: k >= 1
              && TickWithin(SendPeriod(burst, rate, blksize), k, TestEnd(duration), Deadline(tcp, reverse, duration))
  {
    var period, end := SendPeriod(burst, rate, blksize), TestEnd(duration);
    var deadline := Deadline(tcp, reverse, duration);
    var first := FirstTickIsFirst(period, end);
    if InTime(tcp, reverse, duration, burst, rate, blksize) {
      assert TickWithin(period, first, end, deadline);
    } else {
      forall k: nat | k >= 1 ensures !TickWithin(period, k, end, deadline) {
        if k < first {
          MulMonotone(k, first - 1, period);
        } else {
          MulMonotone(first, k, period);
        }
      }
    }
  }

  // ---------- in seconds and figures ----------

  /** Durations whose nanoseconds, five seconds on included, fit a signed word. */
  const LONGEST: nat := 9_223_372_031

  lemma EndInFigures(duration: nat)
    requires duration <= LONGEST
    ensures TestEnd(duration) == 1_000_000_000 * duration
    ensures Deadline(true, false, duration) == Deadline(true, true, duration) == 1_000_000_000 * (duration + 5)
    ensures Deadline(false, false, duration) == 60_000_000_000
    ensures Deadline(false, true, duration) == if duration < 55 then 1_000_000_000 * (duration + 5) else 60_000_000_000
  {
    WrapNothing(duration * SECOND);
    WrapNothing((duration + 5) * SECOND);
  }

  /** In burst mode, and with a rate of zero, a sender ticks every millisecond: over TCP, in either direction, such a
      tick always falls into the five seconds after the test. */
  lemma MillisecondsInTime(reverse: bool, duration: nat, burst: bool, rate: nat, blksize: nat)
    requires duration <= LONGEST && (burst || rate == 0)
    ensures var end, deadline := 1_000_000_000 * duration, 1_000_000_000 * (duration + 5);
            InTime(true, reverse, duration, burst, rate, blksize)
            <==> exists k: nat :: k >= 1 && TickWithin(1_000_000, k, end, deadline)
    ensures InTime(true, reverse, duration, burst, rate, blksize)
  {
    EndInFigures(duration);
    InTimeIffTickWithin(true, reverse, duration, burst, rate, blksize);
    assert TickWithin(1_000_000, 1000 * duration + 1, 1_000_000_000 * duration, 1_000_000_000 * (duration + 5));
  }

  /** Over RUDP and KCP it does so exactly in tests shorter than a minute. */
  lemma MillisecondsInAMinute(reverse: bool, duration: nat, burst: bool, rate: nat, blksize: nat)
    requires duration <= LONGEST && (burst || rate == 0)
    ensures InTime(false, reverse, duration, burst, rate, blksize) <==> duration < 60
  {
    var deadline := Deadline(false, reverse, duration);
    EndInFigures(duration);
    InTimeIffTickWithin(false, reverse, duration, burst, rate, blksize);
    if duration < 60 {
      assert TickWithin(1_000_000, if duration == 0 then 1 else 1000 * duration, 1_000_000_000 * duration, deadline);
    }
  }

  /** With a rate a sender ticks every `8 * 10^9 * blksize / rate` nanoseconds, rounded down. */
  lemma RateInTime(tcp: bool, reverse: bool, duration: nat, rate: nat, blksize: nat)
    requires duration <= LONGEST && 1 <= rate <= 8_000_000_000 * blksize < 0x8000_0000_0000_0000
    ensures var period, end := 8_000_000_000 * blksize / rate, 1_000_000_000 * duration;
            var deadline := if tcp || (reverse && duration < 55) then end + 5_000_000_000 else 60_000_000_000;
            InTime(tcp, reverse, duration, false, rate, blksize)
            <==> exists k: nat :: k >= 1 && TickWithin(period, k, end, deadline)
  {
    EndInFigures(duration);
    WrapNothing(8_000_000_000 * blksize);
    QuotientAtLeast(8_000_000_000 * blksize, rate, 1);
    InTimeIffTickWithin(tcp, reverse, duration, false, rate, blksize);
  }

  /** With a limit of 8 KB a second and the other settings at their defaults, a sender ticks every 16 seconds: six
      after the end of the test, and one after the deadline, in either direction. */
  lemma EightKilobytesAreLate()
    ensures SendPeriod(false, 65536, 131072) == 16 * SECOND
    ensures !InTime(true, false, 10, false, 65536, 131072) && !InTime(true, true, 10, false, 65536, 131072)
  {
  }
}
