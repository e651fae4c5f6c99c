/** What a stream keeps about its traffic: byte counters, cumulative counters turned into intervals, the round-trip
    summary and the list of interval results. The class is the mutable record; `Result` is its value, on which the
    meaning of each operation is defined. */
module StreamResults {
  import opened Words

  datatype Protocol = Tcp | Rudp | Kcp

  /** The counters and the round-trip time the operating system or the protocol library reports at one moment. */
  datatype Sample = Sample(
    retrans: uint64, lost: uint64, early: uint64, fast: uint64, recovers: uint64, inPkts: uint64, inSegs: uint64,
    outPkts: uint64, outSegs: uint64, repeats: uint64, rtt: uint64, rto: uint64)

  datatype Interval = Interval(
    bytes: uint64, start: int, end: int, dur: int, rtt: uint64, rto: uint64,
    retrans: uint64, lost: uint64, early: uint64, fast: uint64)

  /** A stream's total of a counter, and the last sample of it. */
  datatype Cumulative = Cumulative(stream: uint64, prev: uint64) {
    function Gain(sample: uint64): uint64 { Minus(sample, prev) }

    function Update(sample: uint64): Cumulative { Cumulative(Plus(stream, Gain(sample)), sample) }
  }

  /** Zero in `min` or `max` stands for no sample yet. */
  datatype Rtt = Rtt(min: uint64, max: uint64, sum: uint64, cnt: uint64) {
    function Update(rtt: uint64): Rtt {
      Rtt(if min == 0 || rtt < min then rtt else min,
          if max == 0 || rtt > max then rtt else max,
          Plus(sum, rtt), Plus(cnt, 1))
    }
  }

  datatype Packets = Packets(
    recovers: uint64, inPkts: uint64, outPkts: uint64, inSegs: uint64, outSegs: uint64, repeats: uint64)

  datatype Result = Result(
    sent: uint64, received: uint64, sentNow: uint64, receivedNow: uint64,
    retrans: Cumulative, lost: Cumulative, early: Cumulative, fast: Cumulative,
    packets: Packets, rtt: Rtt, startTime: int, endTime: int, intervals: seq<Interval>)

  // ---------- what each operation means ----------

  /** `send`: nothing is counted for a failed write. */
  function Sent(r: Result, n: int): Result {
    if n < 0 then r else r.(sent := Wrap(r.sent + n), sentNow := Wrap(r.sentNow + n))
  }

  /** `recv`: bytes count only while the test is running. */
  function Got(r: Result, n: int, running: bool): Result {
    if n < 0 || !running then r else r.(received := Wrap(r.received + n), receivedNow := Wrap(r.receivedNow + n))
  }

  /** The protocol's own statistics: TCP samples retransmissions only. */
  function ProtocolStats(p: Protocol, r: Result, s: Sample): Result {
    var counted := r.(retrans := r.retrans.Update(s.retrans), rtt := r.rtt.Update(s.rtt));
    if p.Tcp? then counted
    else
      counted.(lost := r.lost.Update(s.lost), early := r.early.Update(s.early), fast := r.fast.Update(s.fast),
               packets := Packets(s.recovers, s.inPkts, s.outPkts, s.inSegs, s.outSegs,
                                  if p.Rudp? then s.repeats else r.packets.repeats))
  }

  /** The interval a statistics pass appends. */
  function NewInterval(p: Protocol, r: Result, s: Sample, now: int, receiver: bool): Interval {
    var start := if r.intervals == [] then r.startTime else r.endTime;
    var tcp := p.Tcp?;
    Interval(if receiver then r.receivedNow else r.sentNow, start, now, now - start, s.rtt,
             if p.Kcp? then 0 else s.rto, r.retrans.Gain(s.retrans),
             if tcp then 0 else r.lost.Gain(s.lost), if tcp then 0 else r.early.Gain(s.early),
             if tcp then 0 else r.fast.Gain(s.fast))
  }

  /** One stream's part of `iperfStatsCallback`. */
  function Stats(p: Protocol, r: Result, s: Sample, now: int, receiver: bool): Result {
    ProtocolStats(p, r, s).(endTime := now, sentNow := 0, receivedNow := 0,
                            intervals := r.intervals + [NewInterval(p, r, s, now, receiver)])
  }

  /** A new stream at the start of the test. */
  function Fresh(start: int): Result {
    var zero := Cumulative(0, 0);
    Result(0, 0, 0, 0, zero, zero, zero, zero, Packets(0, 0, 0, 0, 0, 0), Rtt(0, 0, 0, 0), start, 0, [])
  }

  // ---------- the mutable record ----------

  class StreamResult {
    var bytesSent: uint64
    var bytesReceived: uint64
    var bytesSentThisInterval: uint64
    var bytesReceivedThisInterval: uint64
    var retrans: Cumulative
    var lost: Cumulative
    var earlyRetrans: Cumulative
    var fastRetrans: Cumulative
    var packets: Packets
    var rtt: Rtt
    var startTime: int
    var endTime: int
    var intervalResults: seq<Interval>

    function Value(): Result
      reads this
    {
      Result(bytesSent, bytesReceived, bytesSentThisInterval, bytesReceivedThisInterval,
             retrans, lost, earlyRetrans, fastRetrans, packets, rtt, startTime, endTime, intervalResults)
    }

    constructor (start: int)
      ensures Value() == Fresh(start)
    {
      bytesSent, bytesReceived, bytesSentThisInterval, bytesReceivedThisInterval := 0, 0, 0, 0;
      retrans, lost := Cumulative(0, 0), Cumulative(0, 0);
      earlyRetrans, fastRetrans := Cumulative(0, 0), Cumulative(0, 0);
      packets, rtt := Packets(0, 0, 0, 0, 0, 0), Rtt(0, 0, 0, 0);
      startTime, endTime, intervalResults := start, 0, [];
    }

    /** `n` is what the write returned; a failed write is reported to the caller as it is. */
    method Send(n: int) returns (r: int)
      modifies this
      ensures r == n && Value() == Sent(old(Value()), n)
    {
      r := n;
      if n < 0 {
        return;
      }
      bytesSent := Wrap(bytesSent + n);
      bytesSentThisInterval := Wrap(bytesSentThisInterval + n);
    }

    method Recv(n: int, running: bool) returns (r: int)
      modifies this
      ensures r == n && Value() == Got(old(Value()), n, running)
    {
      r := n;
      if n < 0 {
        return;
      }
      if running {
        bytesReceived := Wrap(bytesReceived + n);
        bytesReceivedThisInterval := Wrap(bytesReceivedThisInterval + n);
      }
    }

    method SummarizeRtt(sample: uint64)
      modifies this`rtt
      ensures rtt == old(rtt).Update(sample)
    {
      if rtt.min == 0 || sample < rtt.min {
        rtt := rtt.(min := sample);
      }
      if rtt.max == 0 || sample > rtt.max {
        rtt := rtt.(max := sample);
      }
      rtt := rtt.(sum := Plus(rtt.sum, sample));
      rtt := rtt.(cnt := Plus(rtt.cnt, 1));
    }

    /** The gain since the last sample, and the counter after it. */
    static method CountUp(c: Cumulative, total: uint64) returns (gain: uint64, after: Cumulative)
      ensures gain == c.Gain(total) && after == c.Update(total)
    {
      gain := Minus(total, c.prev);
      after := c.(stream := Plus(c.stream, gain));
      after := after.(prev := total);
    }

    method TakeTcpSample(s: Sample, temp: Interval) returns (t: Interval)
      modifies this`retrans, this`rtt
      ensures Value() == ProtocolStats(Tcp, old(Value()), s)
      ensures t == temp.(rtt := s.rtt, rto := s.rto, retrans := old(retrans).Gain(s.retrans))
    {
      // The interval first holds the total, then the gain.
      t := temp.(rtt := s.rtt, rto := s.rto, retrans := s.retrans);
      var gain;
      gain, retrans := CountUp(retrans, t.retrans);
      t := t.(retrans := gain);
      SummarizeRtt(t.rtt);
    }

    /** RUDP and KCP read the same counters, from different libraries; only RUDP counts repeated segments and reports
        its retransmission timeout. */
    method TakeSegmentSample(rudp: bool, s: Sample, temp: Interval) returns (t: Interval)
      modifies this`retrans, this`lost, this`earlyRetrans, this`fastRetrans, this`packets, this`rtt
      ensures Value() == ProtocolStats(if rudp then Rudp else Kcp, old(Value()), s)
      ensures t == temp.(rtt := s.rtt, rto := if rudp then s.rto else temp.rto,
                         retrans := old(retrans).Gain(s.retrans), lost := old(lost).Gain(s.lost),
                         early := old(earlyRetrans).Gain(s.early), fast := old(fastRetrans).Gain(s.fast))
    {
      hide Cumulative.Gain, Cumulative.Update, Rtt.Update;
      var retransGain, lostGain, earlyGain, fastGain;
      retransGain, retrans := CountUp(retrans, s.retrans);
      lostGain, lost := CountUp(lost, s.lost);
      earlyGain, earlyRetrans := CountUp(earlyRetrans, s.early);
      fastGain, fastRetrans := CountUp(fastRetrans, s.fast);
      t := temp.(retrans := retransGain, lost := lostGain, early := earlyGain, fast := fastGain);
      packets := packets.(recovers := s.recovers, inPkts := s.inPkts, outPkts := s.outPkts);
      packets := packets.(inSegs := s.inSegs, outSegs := s.outSegs);
      if rudp {
        packets := packets.(repeats := s.repeats);
        t := t.(rto := s.rto);
      }
      t := t.(rtt := s.rtt);
      SummarizeRtt(t.rtt);
    }

    /** One stream's turn in `iperfStatsCallback`. */
    method RecordInterval(p: Protocol, s: Sample, now: int, receiver: bool)
      modifies this
      ensures Value() == Stats(p, old(Value()), s, now, receiver)
    {
      hide Cumulative.Gain, Cumulative.Update, Rtt.Update;
      var start := if |intervalResults| == 0 then startTime else endTime;
      endTime := now;
      var t := Interval(0, start, endTime, endTime - start, 0, 0, 0, 0, 0, 0);
      if p.Tcp? {
        t := TakeTcpSample(s, t);
      } else {
        t := TakeSegmentSample(p.Rudp?, s, t);
      }
      t := t.(bytes := if receiver then bytesReceivedThisInterval else bytesSentThisInterval);
      intervalResults := intervalResults + [t];
      bytesSentThisInterval := 0;
      bytesReceivedThisInterval := 0;
    }
  }

  /** `iperfStatsCallback`: every stream once, each with its own reading of the clock and of the counters. */
  method IperfStatsCallback(streams: seq<StreamResult>, p: Protocol, samples: seq<Sample>, clock: seq<int>,
      receiver: bool)
    requires |samples| == |clock| == |streams|
    requires forall i, j :: 0 <= i < j < |streams| ==> streams[i] != streams[j]
    modifies streams
    ensures forall i :: 0 <= i < |streams| ==>
              streams[i].Value() == Stats(p, old(streams[i].Value()), samples[i], clock[i], receiver)
  {
    for i := 0 to |streams|
      invariant forall j :: 0 <= j < i ==>
                  streams[j].Value() == Stats(p, old(streams[j].Value()), samples[j], clock[j], receiver)
      invariant forall j :: i <= j < |streams| ==> streams[j].Value() == old(streams[j].Value())
    {
      streams[i].RecordInterval(p, samples[i], clock[i], receiver);
    }
  }
}
