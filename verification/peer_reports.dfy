/** The result of one peer: what its client reports, and what the sender of the server
    adds to it. */
module PeerReports {
  import opened Arithmetic
  import opened DelayStatistics
  import opened NetStats
  import opened SpeedGauge
  import opened Commands
  import opened CommandSenders
  import opened CommandReceivers

  // ------------------------------------------------------- of a client

  /** Nothing is said about sending, nor about a loss. */
  predicate Blank(stat: NetStat) {
    stat.sendBytes == 0 && stat.sendTime == 0 && stat.sendSpeed == 0 && stat.sendPps == 0 && stat.loss == 0.0
  }

  /** The receive figures are those of the counters, over `k` nanoseconds. */
  predicate RecvRated(stat: NetStat, k: Nanos) {
    if k < NANOS then stat.recvTime == stat.recvSpeed == stat.recvPps == 0
    else
      && IsRate(stat.recvSpeed, stat.recvBytes, k) && IsRate(stat.recvPps, stat.recvPackets, k)
      && stat.recvTime * NANOS <= k < (stat.recvTime + 1) * NANOS
  }

  predicate SendSampled(stat: NetStat, timeout: int, xs: seq<int>) {
    |xs| == stat.recvPackets && SendFigures(DelaysOf(stat), xs) && stat.timeoutPackets == Late(xs, timeout * 1000 * 1000)
  }

  /** The delays are those of as many samples as packets were received. */
  ghost predicate SendMeasured(stat: NetStat, timeout: int) {
    && (exists xs :: SendSampled(stat, timeout, xs)) && (exists k: Nanos :: RecvRated(stat, k))
    && stat.minDelay <= stat.delay <= stat.maxDelay
  }

  lemma SendResultMeasured(r: SendState, xs: seq<int>, timeout: int, outside: nat, k: Nanos)
    requires r.delays == ObserveAll(xs, timeout) && r.filter.recv == |xs|
    ensures var stat := SendResult(r, outside, k);
            Blank(stat) && SendMeasured(stat, timeout)
  {
    ResultFields(r, outside, k);
    ResultRates(r, outside, k);
    ObservedFigures(r.delays, xs, timeout);
    SendReportInRange(xs, timeout);
    assert SendSampled(SendResult(r, outside, k), timeout, xs) && RecvRated(SendResult(r, outside, k), k);
  }

  /** A ping leaves all but its counts to the server. */
  predicate EchoBlank(stat: NetStat) {
    stat.recvTime == stat.recvSpeed == stat.recvPps == 0 && stat.minDelay == stat.delay == stat.maxDelay == 0
  }

  // ------------------------------------------------------- of a sender

  /** The send figures are those of the counters, over `k` nanoseconds; for a ping so
      are the receive figures. */
  predicate SentRated(c: Command, s: NetStat, k: Nanos) {
    && s.sendTime * NANOS <= k < (s.sendTime + 1) * NANOS
    && if (if c.kind.Ping? then k < NANOS else k <= NANOS) then
         s.sendPps == s.sendSpeed == 0 && (c.kind.Ping? ==> s.recvPps == s.recvSpeed == 0)
       else
         && IsRate(s.sendPps, s.sendPackets, k) && IsRate(s.sendSpeed, s.sendBytes, k)
         && (c.kind.Ping? ==> IsRate(s.recvPps, s.recvPackets, k) && IsRate(s.recvSpeed, s.recvBytes, k))
  }

  predicate PingSampled(s: NetStat, timeout: int, xs: seq<int>) {
    |xs| == s.recvPackets && PingFigures(DelaysOf(s), xs) && s.timeoutPackets == Above(xs, timeout * 1000 * 1000)
  }

  /** What every report holds, by its own samples and counters. */
  ghost predicate Sampled(c: Command, s: NetStat) {
    && (exists k: Nanos :: SentRated(c, s, k))
    && (if c.kind.Ping? then (exists xs :: PingSampled(s, c.timeout, xs)) && s.recvBytes == s.recvPackets * BufferSize(c)
        else SendMeasured(s, c.timeout))
    && s.sendBytes == s.sendPackets * BufferSize(c)
  }

  lemma PingRates(x: Sender, stat: NetStat, k: Nanos)
    requires x.cmd.kind.Ping? && Blank(stat) && EchoBlank(stat)
    ensures SentRated(x.cmd, OnStop(x, stat, k), k)
  {
    var n := BufferSize(x.cmd);
    Division(k, NANOS);
    if k >= NANOS {
      PerSecondIsRate(x.sendPackets, k);
      PerSecondIsRate(x.echoes.n, k);
      PerSecondIsRate(x.sendPackets * n, k);
      PerSecondIsRate(x.echoes.n * n, k);
    }
  }

  lemma PingReported(x: Sender, stat: NetStat, k: Nanos, xs: seq<int>)
    requires x.cmd.kind.Ping? && Blank(stat) && EchoBlank(stat) && x.echoes == EchoAll(xs, x.cmd.timeout)
    ensures Sampled(x.cmd, OnStop(x, stat, k))
  {
    PingRates(x, stat, k);
    EchoMean(xs, x.cmd.timeout);
    PingDeviations(xs, x.cmd.timeout);
    PingReportFigures(xs, x.cmd.timeout);
    assert PingSampled(OnStop(x, stat, k), x.cmd.timeout, xs);
  }

  lemma SendRates(x: Sender, stat: NetStat, k: Nanos)
    requires !x.cmd.kind.Ping? && Blank(stat)
    ensures SentRated(x.cmd, OnStop(x, stat, k), if x.sendPackets == 0 then 0 else k)
  {
    Division(k, NANOS);
    if x.sendPackets > 0 && k > NANOS {
      PerSecondIsRate(x.sendPackets, k);
      PerSecondIsRate(x.sendPackets * BufferSize(x.cmd), k);
    }
  }

  /** The sender changes nothing but what concerns sending, and the loss. */
  lemma SendFieldsKept(x: Sender, stat: NetStat, k: Nanos)
    requires !x.cmd.kind.Ping?
    ensures var s := OnStop(x, stat, k);
            && DelaysOf(s) == DelaysOf(stat) && s.recvPackets == stat.recvPackets && s.recvBytes == stat.recvBytes
            && s.timeoutPackets == stat.timeoutPackets && s.recvTime == stat.recvTime
            && s.recvSpeed == stat.recvSpeed && s.recvPps == stat.recvPps
            && s.illegalPackets == stat.illegalPackets && s.duplicatePackets == stat.duplicatePackets
            && s.reorderPackets == stat.reorderPackets
  {
  }

  lemma MeasuredKept(stat: NetStat, s: NetStat, timeout: int)
    requires SendMeasured(stat, timeout)
    requires DelaysOf(s) == DelaysOf(stat) && s.recvPackets == stat.recvPackets && s.recvBytes == stat.recvBytes
    requires s.timeoutPackets == stat.timeoutPackets && s.recvTime == stat.recvTime
    requires s.recvSpeed == stat.recvSpeed && s.recvPps == stat.recvPps
    ensures SendMeasured(s, timeout)
  {
    var xs :| SendSampled(stat, timeout, xs);
    var k: Nanos :| RecvRated(stat, k);
    assert SendSampled(s, timeout, xs) && RecvRated(s, k);
  }

  lemma SendReported(x: Sender, stat: NetStat, k: Nanos)
    requires !x.cmd.kind.Ping? && Blank(stat) && stat.sendPackets == 0 && SendMeasured(stat, x.cmd.timeout)
    ensures Sampled(x.cmd, OnStop(x, stat, k))
  {
    SendRates(x, stat, k);
    SendFieldsKept(x, stat, k);
    MeasuredKept(stat, OnStop(x, stat, k), x.cmd.timeout);
  }

  /** The illegal packets of a ping are those of both ends. */
  lemma PingIllegal(x: Sender, stat: NetStat, k: Nanos)
    requires x.cmd.kind.Ping?
    ensures OnStop(x, stat, k).illegalPackets == stat.illegalPackets + x.illegalEchoes
  {
  }

  // -------------------------------------------------------- for averages

  lemma ReportIsTimed(x: Sender, stat: NetStat, k: Nanos, xs: seq<int>)
    requires x.echoes == EchoAll(xs, x.cmd.timeout) && Blank(stat) && stat.minDelay <= stat.delay <= stat.maxDelay
    requires x.cmd.kind.Ping? ==> x.sendPackets > 0
    ensures Timed(OnStop(x, stat, k))
  {
    SentBytesExactly(x, stat, k);
    if x.cmd.kind.Ping? { PingReportAnyClock(xs, x.cmd.timeout); }
  }
}
