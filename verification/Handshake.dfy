/** The one-slot channel between statistics passes and reports. On each side four callers meet: the statistics ticker,
    the report ticker, and, once the test is done, one last statistics pass and after it one last report. A pass
    appends an interval to every stream and then puts a token into `chStats`; a report takes a token first. */
module Handshake {
  import opened Arithmetic
  import opened Tickers
  import opened Wrappers

  /** A statistics pass: about to append an interval to stream `next`, or about to put its token. */
  datatype Pass = Resting | Appending(next: nat) | Putting

  datatype Report = Quiet | Taking | Printing

  datatype LastPass = Ahead | Running(pass: Pass) | Over

  datatype LastReport = NotYet | Under(report: Report) | Reported

  /** `put` and `taken` count tokens, `passes` and `reports` what the two tickers have begun, `intervals` the
      intervals of each stream. */
  datatype Side = Side(
    done: bool, put: nat, taken: nat, passes: nat, reports: nat, intervals: seq<nat>,
    stats: Pass, report: Report, lastPass: LastPass, lastReport: LastReport)

  datatype Event = StatsTick | ReportTick | EndTest | StatsStep | ReportStep | LastPassStep | LastReportStep

  /** The next statement of a statistics pass; `Resting` is the end of it. A full channel blocks. */
  function PassNext(s: Side, p: Pass): Option<(Side, Pass)> {
    match p
    case Resting => None
    case Appending(i) =>
      if i < |s.intervals| then Some((s.(intervals := s.intervals[i := s.intervals[i] + 1]), Appending(i + 1)))
      else Some((s, Putting))
    case Putting => if s.put > s.taken then None else Some((s.(put := s.put + 1), Resting))
  }

  /** The next statement of a report. An empty channel blocks. */
  function ReportNext(s: Side, r: Report): Option<(Side, Report)> {
    match r
    case Quiet => None
    case Taking => if s.put > s.taken then Some((s.(taken := s.taken + 1), Printing)) else None
    case Printing => Some((s, Quiet))
  }

  function Next(s: Side, e: Event): Option<Side> {
    match e
    case StatsTick =>
      if s.stats.Resting? && !s.done then Some(s.(stats := Appending(0), passes := s.passes + 1)) else None
    case ReportTick =>
      if s.report.Quiet? && !s.done then Some(s.(report := Taking, reports := s.reports + 1)) else None
    case EndTest => Some(s.(done := true))
    case StatsStep =>
      (match PassNext(s, s.stats)
       case None => None
       case Some((t, p)) => Some(t.(stats := p)))
    case ReportStep =>
      (match ReportNext(s, s.report)
       case None => None
       case Some((t, r)) => Some(t.(report := r)))
    case LastPassStep =>
      (match s.lastPass
       case Ahead => if s.done then Some(s.(lastPass := Running(Appending(0)))) else None
       case Running(p) =>
         (match PassNext(s, p)
          case None => None
          case Some((t, q)) => Some(t.(lastPass := if q.Resting? then Over else Running(q))))
       case Over => None)
    case LastReportStep =>
      (match s.lastReport
       case NotYet => if s.lastPass.Over? then Some(s.(lastReport := Under(Taking))) else None
       case Under(r) =>
         (match ReportNext(s, r)
          case None => None
          case Some((t, q)) => Some(t.(lastReport := if q.Quiet? then Reported else Under(q))))
       case Reported => None)
  }

  function Run(s: Side, events: seq<Event>): Option<Side>
    decreases |events|
  {
    if events == [] then Some(s)
    else
      match Next(s, events[0])
      case None => None
      case Some(next) => Run(next, events[1..])
  }

  function Start(n: nat): Side {
    Side(false, 0, 0, 0, 0, seq(n, i => 0), Resting, Quiet, Ahead, NotYet)
  }

  ghost predicate Reachable(n: nat, s: Side) { exists events :: Run(Start(n), events) == Some(s) }

  // ---------- what the channel keeps ----------

  /** One if the pass has appended its interval to stream `i` and not yet put its token. */
  function Pending(p: Pass, i: nat): nat {
    match p
    case Resting => 0
    case Appending(next) => if i < next then 1 else 0
    case Putting => 1
  }

  function LastPending(l: LastPass, i: nat): nat { if l.Running? then Pending(l.pass, i) else 0 }

  /** One while a pass is under way. */
  function Busy(p: Pass): nat { if p.Resting? then 0 else 1 }

  /** One while a report has not got its token. */
  function Wanting(r: Report): nat { if r.Taking? then 1 else 0 }

  function LastWanting(l: LastReport): nat { if l.Under? then Wanting(l.report) else 0 }

  /** Tokens put and taken, against passes and reports begun and still under way; and the intervals against the
      tokens. */
  ghost predicate Kept(s: Side) {
    && s.taken <= s.put <= s.taken + 1
    && s.put + Busy(s.stats) == s.passes + (if s.lastPass.Over? then 1 else 0)
    && s.taken + Wanting(s.report)
       == s.reports + (if s.lastReport.NotYet? then 0 else 1) - LastWanting(s.lastReport)
    && (s.lastPass.Ahead? || s.done)
    && (s.lastPass.Over? ==> s.passes <= s.reports + 1)
    && (!s.report.Quiet? ==> s.reports >= 1)
    && (s.lastPass.Running? ==> !s.lastPass.pass.Resting?)
    && (s.lastReport.Under? ==> !s.lastReport.report.Quiet?)
    && (s.lastReport.NotYet? || s.lastPass.Over?)
    && (s.stats.Appending? ==> s.stats.next <= |s.intervals|)
    && (s.lastPass.Running? && s.lastPass.pass.Appending? ==> s.lastPass.pass.next <= |s.intervals|)
    && (forall i :: 0 <= i < |s.intervals| ==>
          s.intervals[i] == s.put + Pending(s.stats, i) + LastPending(s.lastPass, i))
  }

  lemma KeptStatsStep(s: Side, next: Side)
    requires Kept(s) && Next(s, StatsStep) == Some(next)
    ensures Kept(next) && |next.intervals| == |s.intervals|
  {
  }

  lemma KeptLastPassStep(s: Side, next: Side)
    requires Kept(s) && Next(s, LastPassStep) == Some(next)
    ensures Kept(next) && |next.intervals| == |s.intervals|
  {
  }

  lemma KeptStep(s: Side, e: Event, next: Side)
    requires Kept(s) && Next(s, e) == Some(next)
    ensures Kept(next) && |next.intervals| == |s.intervals|
  {
    match e
    case StatsStep => KeptStatsStep(s, next);
    case LastPassStep => KeptLastPassStep(s, next);
    case _ =>
  }

  lemma {:induction false} KeptRun(s: Side, events: seq<Event>, last: Side)
    requires Kept(s) && Run(s, events) == Some(last)
    ensures Kept(last) && |last.intervals| == |s.intervals|
    decreases |events|
  {
    if events != [] {
      var next := Next(s, events[0]).value;
      KeptStep(s, events[0], next);
      KeptRun(next, events[1..], last);
    }
  }

  lemma ReachableKept(n: nat, s: Side)
    requires Reachable(n, s)
    ensures Kept(s) && |s.intervals| == n
  {
    var events :| Run(Start(n), events) == Some(s);
    KeptRun(Start(n), events, s);
  }

  /** In every run no report overtakes the passes: with `k` tokens taken every stream has at least `k` intervals, so a
      report that has its token finds a last interval. */
  lemma ReportsFollowPasses(n: nat, s: Side)
    requires Reachable(n, s)
    ensures s.taken <= s.put <= s.taken + 1
    ensures forall i :: 0 <= i < |s.intervals| ==> s.taken <= s.put <= s.intervals[i]
    ensures s.report.Printing? || (s.lastReport.Under? && s.lastReport.report.Printing?) ==>
              forall i :: 0 <= i < |s.intervals| ==> s.intervals[i] >= 1
  {
    ReachableKept(n, s);
  }

  // ---------- the end of the test ----------

  /** The test is done and nobody can go on. */
  predicate Settled(s: Side) {
    && s.done
    && Next(s, StatsStep).None? && Next(s, ReportStep).None?
    && Next(s, LastPassStep).None? && Next(s, LastReportStep).None?
  }

  predicate AllDone(s: Side) {
    s.stats.Resting? && s.report.Quiet? && s.lastPass.Over? && s.lastReport.Reported?
  }

  /** How a side ends, by how often its tickers have called back. Equally often: everything completes. More reports
      than passes: exactly the surplus starves. More than one pass ahead: the last pass never gets its token in, and
      there is no final report. One pass ahead: all depends on whether the last pass overtakes the ticker's. */
  lemma HowItEnds(n: nat, s: Side)
    requires Reachable(n, s) && Settled(s)
    ensures s.passes == s.reports ==> AllDone(s)
    ensures s.passes < s.reports ==>
              s.lastPass.Over? && s.stats.Resting?
              && Wanting(s.report) + LastWanting(s.lastReport) == s.reports - s.passes
    ensures s.passes > s.reports + 1 ==> !s.lastPass.Over? && s.lastReport.NotYet?
    ensures s.passes == s.reports + 1 ==> (AllDone(s) <==> s.lastPass.Over?)
  {
    ReachableKept(n, s);
  }

  /** What is left to do once the test is done. */
  function PassLeft(n: nat, p: Pass): nat {
    match p
    case Resting => 0
    case Appending(i) => if i <= n then n - i + 2 else 2
    case Putting => 1
  }

  function ReportLeft(r: Report): nat {
    match r
    case Quiet => 0
    case Taking => 2
    case Printing => 1
  }

  function Left(s: Side): nat {
    var n := |s.intervals|;
    PassLeft(n, s.stats) + ReportLeft(s.report)
    + (match s.lastPass case Ahead => n + 3 case Running(p) => PassLeft(n, p) case Over => 0)
    + (match s.lastReport case NotYet => 3 case Under(r) => ReportLeft(r) case Reported => 0)
  }

  /** Every statement after the end of the test brings the side closer to settling. */
  lemma SettlesSoon(s: Side, e: Event, next: Side)
    requires Kept(s) && s.done && !e.EndTest? && Next(s, e) == Some(next)
    ensures next.done && Left(next) < Left(s) && next.passes == s.passes && next.reports == s.reports
  {
  }

  /** The statements the four callers execute. */
  function Statements(events: seq<Event>): nat {
    if events == [] then 0 else (if events[0].EndTest? then 0 else 1) + Statements(events[1..])
  }

  lemma {:induction false} StatementsBounded(s: Side, events: seq<Event>, last: Side)
    requires Kept(s) && s.done && Run(s, events) == Some(last)
    ensures Statements(events) + Left(last) <= Left(s) && last.passes == s.passes && last.reports == s.reports
    decreases |events|
  {
    if events != [] {
      var next := Next(s, events[0]).value;
      KeptStep(s, events[0], next);
      if !events[0].EndTest? {
        SettlesSoon(s, events[0], next);
      }
      StatementsBounded(next, events[1..], last);
    }
  }

  lemma {:induction false} StaysDone(s: Side, events: seq<Event>, last: Side)
    requires s.done && Run(s, events) == Some(last)
    ensures last.done
    decreases |events|
  {
    if events != [] {
      StaysDone(Next(s, events[0]).value, events[1..], last);
    }
  }

  /** From the end of the test on every schedule comes to rest: it executes at most 2 n + 10 more statements, and as
      long as it has not settled some caller has one to execute. */
  lemma Settles(n: nat, s: Side, events: seq<Event>, last: Side)
    requires Reachable(n, s) && s.done && Run(s, events) == Some(last)
    ensures Statements(events) <= 2 * n + 10
    ensures last.done && last.passes == s.passes && last.reports == s.reports
    ensures Settled(last) || exists e: Event :: !e.EndTest? && Next(last, e).Some?
  {
    ReachableKept(n, s);
    KeptRun(s, events, last);
    StatementsBounded(s, events, last);
    StaysDone(s, events, last);
    if !Settled(last) {
      var e :| e in [StatsStep, ReportStep, LastPassStep, LastReportStep] && Next(last, e).Some?;
    }
  }

  lemma {:induction false} RunAppends(s: Side, events: seq<Event>, mid: Side, e: Event, next: Side)
    requires Run(s, events) == Some(mid) && Next(mid, e) == Some(next)
    ensures Run(s, events + [e]) == Some(next)
    decreases |events|
  {
    if events == [] {
      assert events + [e] == [e];
      assert Run(next, []) == Some(next);
    } else {
      RunAppends(Next(s, events[0]).value, events[1..], mid, e, next);
      assert (events + [e])[1..] == events[1..] + [e];
    }
  }

  lemma After(n: nat, s: Side, e: Event) returns (next: Side)
    requires Reachable(n, s) && Next(s, e).Some?
    ensures Reachable(n, next) && Next(s, e) == Some(next)
  {
    next := Next(s, e).value;
    var events :| Run(Start(n), events) == Some(s);
    RunAppends(Start(n), events, s, e, next);
  }

  /** A pass alone with an empty channel ends. */
  lemma {:induction false} PassEnds(n: nat, s: Side) returns (last: Side)
    requires Reachable(n, s) && !s.stats.Resting? && s.put == s.taken
    ensures Reachable(n, last) && last.stats.Resting? && last.put == s.put + 1
    ensures last == s.(stats := Resting, put := s.put + 1, intervals := last.intervals)
    decreases PassLeft(|s.intervals|, s.stats)
  {
    ReachableKept(n, s);
    var next := After(n, s, StatsStep);
    if next.stats.Resting? {
      last := next;
    } else {
      last := PassEnds(n, next);
    }
  }

  /** After `k` passes and as many reports, with nobody under way. */
  predicate Even(s: Side, k: nat) {
    && !s.done && s.stats.Resting? && s.report.Quiet? && s.lastPass.Ahead? && s.lastReport.NotYet?
    && s.put == s.taken == s.passes == s.reports == k
  }

  lemma {:induction false} Rounds(n: nat, k: nat) returns (s: Side)
    ensures Reachable(n, s) && Even(s, k)
  {
    if k == 0 {
      s := Start(n);
      assert Run(s, []) == Some(s);
    } else {
      s := Rounds(n, k - 1);
      s := After(n, s, StatsTick);
      s := PassEnds(n, s);
      s := After(n, s, ReportTick);
      s := After(n, s, ReportStep);
      s := After(n, s, ReportStep);
    }
  }

  /** With a token in the channel and nobody to take it the last pass does not get beyond its own. */
  lemma {:induction false} LastPassHangs(n: nat, s: Side) returns (last: Side)
    requires Reachable(n, s) && s.done && s.put > s.taken
    requires s.stats.Resting? && s.report.Quiet? && s.lastReport.NotYet? && !s.lastPass.Over?
    ensures Reachable(n, last) && Settled(last) && !last.lastPass.Over?
    ensures last.passes == s.passes && last.reports == s.reports
    decreases Left(s)
  {
    ReachableKept(n, s);
    last := s;
    if s.lastPass != Running(Putting) {
      var next := After(n, s, LastPassStep);
      SettlesSoon(s, LastPassStep, next);
      last := LastPassHangs(n, next);
    }
  }

  /** Even one pass more than reports can hang the last pass, after any number of reports and on any number of
      streams: the ticker's token is still in the channel and no report will take it. */
  lemma OnePassAheadCanHang(n: nat, k: nat) returns (s: Side)
    ensures Reachable(n, s) && Settled(s) && s.reports == k && s.passes == k + 1 && !s.lastPass.Over?
  {
    s := Rounds(n, k);
    s := After(n, s, StatsTick);
    s := PassEnds(n, s);
    s := After(n, s, EndTest);
    s := LastPassHangs(n, s);
  }

  /** A side whose two tickers each called back at most `m` times has its last pass blocked for good. */
  ghost predicate LastPassHangsWithin(n: nat, m: nat, s: Side) {
    Reachable(n, s) && s.passes <= m && s.reports <= m && Settled(s) && !s.lastPass.Over?
  }

  ghost predicate LastPassCanHang(n: nat, m: nat) { exists s :: LastPassHangsWithin(n, m, s) }

  lemma HangsIffCallsBack(n: nat, m: nat)
    ensures LastPassCanHang(n, m) <==> m >= 1
  {
    if m >= 1 {
      var s := OnePassAheadCanHang(n, 0);
      assert LastPassHangsWithin(n, m, s);
    } else {
      forall s | LastPassHangsWithin(n, m, s) ensures false {
        HowItEnds(n, s);
      }
    }
  }

  /** With tickers on time the last pass can hang if and only if the test holds two intervals or more, so that the
      tickers call back at all. */
  lemma LastPassCanHangIff(n: nat, interval: nat, end: nat)
    requires interval > 0
    ensures LastPassCanHang(n, |PassTimes(interval, end)| - 1) <==> end >= 2 * interval
  {
    HangsIffCallsBack(n, |PassTimes(interval, end)| - 1);
    PassTime(interval, end, 0);
    var times := Times(end, interval);
    assert end == interval * times + end % interval;
    if end >= 2 * interval {
      QuotientAtLeast(end, interval, 2);
    } else if times >= 2 {
      MulMonotone(2, times, interval);
    }
  }
}
