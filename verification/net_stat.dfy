/** The result of one command at one peer, and how the server adds up the
    results of all peers. */
module NetStats {
  import opened Wrappers
  import opened Arithmetic

  /** One field for each printed property; times in milliseconds, speeds in
      bytes per second. */
  datatype NetStat = NetStat(
    loss: real,
    sendSpeed: int, recvSpeed: int, sendAvgSpeed: int, recvAvgSpeed: int,
    maxSendSpeed: int, maxRecvSpeed: int, minSendSpeed: int, minRecvSpeed: int,
    sendPackets: int, recvPackets: int, illegalPackets: int, reorderPackets: int,
    duplicatePackets: int, timeoutPackets: int, sendPps: int, recvPps: int,
    sendBytes: int, recvBytes: int, sendTime: int, recvTime: int,
    maxSendTime: int, maxRecvTime: int, minSendTime: int, minRecvTime: int,
    delay: int, minDelay: int, maxDelay: int, jitter: int, jitterStd: int,
    peersCount: int, peersFailed: int)

  const ZERO_STAT: NetStat :=
    NetStat(0.0, 0, 0, 0, 0, 0, 0, 0, 0, 0, 0, 0, 0, 0, 0, 0, 0, 0, 0, 0, 0, 0, 0, 0, 0, 0, 0, 0, 0, 0, 0, 0)

  /** operator+= */
  function Add(a: NetStat, b: NetStat): NetStat {
    NetStat(a.loss + b.loss,
            a.sendSpeed + b.sendSpeed, a.recvSpeed + b.recvSpeed,
            a.sendAvgSpeed + b.sendAvgSpeed, a.recvAvgSpeed + b.recvAvgSpeed,
            Max(a.maxSendSpeed, b.maxSendSpeed), Max(a.maxRecvSpeed, b.maxRecvSpeed),
            Min(a.minSendSpeed, b.minSendSpeed), Min(a.minRecvSpeed, b.minRecvSpeed),
            a.sendPackets + b.sendPackets, a.recvPackets + b.recvPackets,
            a.illegalPackets + b.illegalPackets, a.reorderPackets + b.reorderPackets,
            a.duplicatePackets + b.duplicatePackets, a.timeoutPackets + b.timeoutPackets,
            a.sendPps + b.sendPps, a.recvPps + b.recvPps,
            a.sendBytes + b.sendBytes, a.recvBytes + b.recvBytes,
            a.sendTime + b.sendTime, a.recvTime + b.recvTime,
            Max(a.maxSendTime, b.maxSendTime), Max(a.maxRecvTime, b.maxRecvTime),
            Min(a.minSendTime, b.minSendTime), Min(a.minRecvTime, b.minRecvTime),
            a.delay + b.delay, Min(a.minDelay, b.minDelay), Max(a.maxDelay, b.maxDelay),
            a.jitter + b.jitter, a.jitterStd + b.jitterStd,
            a.peersCount + b.peersCount, a.peersFailed + b.peersFailed)
  }

  /** The fields a report starts from: its own times and speeds. */
  function Prepared(s: NetStat): NetStat {
    s.(maxSendTime := s.sendTime, maxRecvTime := s.recvTime, minSendTime := s.sendTime, minRecvTime := s.recvTime,
       maxSendSpeed := s.sendSpeed, minSendSpeed := s.sendSpeed,
       sendAvgSpeed := s.sendSpeed, recvAvgSpeed := s.recvSpeed)
  }

  /** A peer reports its result, or that it was lost. */
  type Outcome = Option<NetStat>

  /** What the closure of a running command has accumulated. */
  datatype Totals = Totals(stat: Option<NetStat>, failed: nat, active: nat)

  const NO_REPORTS: Totals := Totals(None, 0, 0)

  /** One report. The first result is taken as it is, the others are added. */
  function Report(t: Totals, o: Outcome): Totals {
    match o
    case None => Totals(t.stat, t.failed + 1, t.active)
    case Some(raw) =>
      var s := Prepared(raw);
      Totals(Some(if t.stat.None? then s else Add(t.stat.value, s)), t.failed,
             if raw.sendBytes > 0 then t.active + 1 else t.active)
  }

  function Collect(os: seq<Outcome>): Totals {
    if os == [] then NO_REPORTS else Report(Collect(os[..|os| - 1]), os[|os| - 1])
  }

  // ------------------------------------------------------ order independence

  lemma AddCommutes(a: NetStat, b: NetStat, c: NetStat)
    ensures Add(a, b) == Add(b, a)
    ensures Add(Add(a, b), c) == Add(Add(a, c), b)
  {
  }

  lemma ReportsCommute(t: Totals, a: Outcome, b: Outcome)
    ensures Report(Report(t, a), b) == Report(Report(t, b), a)
  {
    if a.Some? && b.Some? {
      var u, v := Prepared(a.value), Prepared(b.value);
      if t.stat.Some? { AddCommutes(t.stat.value, u, v); } else { AddCommutes(u, v, u); }
    }
  }

  function LeaveOut(os: seq<Outcome>, i: nat): seq<Outcome>
    requires i < |os|
  {
    os[..i] + os[i + 1..]
  }

  /** Any report may be taken as the last one. */
  lemma {:induction false} AnyReportLast(os: seq<Outcome>, i: nat)
    requires i < |os|
    ensures Collect(os) == Report(Collect(LeaveOut(os, i)), os[i])
  {
    var n := |os| - 1;
    var front := os[..n];
    if i == n {
      assert LeaveOut(os, i) == front;
    } else {
      AnyReportLast(front, i);
      assert LeaveOut(os, i)[..n - 1] == LeaveOut(front, i);
      ReportsCommute(Collect(LeaveOut(front, i)), os[i], os[n]);
    }
  }

  /** The totals do not depend on the order in which the peers report. */
  lemma {:induction false} OrderIndependent(os: seq<Outcome>, os': seq<Outcome>)
    requires multiset(os) == multiset(os')
    ensures Collect(os) == Collect(os')
  {
    if os == [] {
      assert |multiset(os')| == 0;
    } else {
      var n := |os| - 1;
      assert os == os[..n] + [os[n]];
      assert os[n] in multiset(os');
      var i :| 0 <= i < |os'| && os'[i] == os[n];
      assert os' == os'[..i] + [os'[i]] + os'[i + 1..];
      assert multiset(LeaveOut(os', i)) == multiset(os') - multiset{os'[i]};
      OrderIndependent(os[..n], LeaveOut(os', i));
      AnyReportLast(os', i);
    }
  }

  // ------------------------------------------------------- the final figures

  /** What the callback of a command receives. Undefined stands for a run in
      which one of the final divisions has a divisor of zero. */
  datatype Final = NoResult | Undefined | Settled(stat: NetStat)

  function Finish(t: Totals, peersCount: nat, multicast: bool): Final {
    if t.stat.None? then NoResult
    else
      var s, success := t.stat.value, peersCount - t.failed;
      if t.active == 0 || success <= 0 || (multicast && s.sendBytes == 0) then Undefined
      else
        var averaged := s.(sendTime := Quot(s.sendTime, t.active),
                           loss := s.loss / (t.active as real),
                           sendAvgSpeed := Quot(s.sendAvgSpeed, t.active),
                           recvAvgSpeed := Quot(s.recvAvgSpeed, success),
                           recvTime := Quot(s.recvTime, success),
                           delay := Quot(s.delay, success));
        var shared :=
          if !multicast then averaged
          else averaged.(loss := 1.0 - (s.recvBytes as real) / ((s.sendBytes * success) as real),
                         maxSendSpeed := s.sendSpeed, minSendSpeed := s.sendSpeed);
        Settled(shared.(peersCount := peersCount, peersFailed := t.failed))
  }

  function Successes(os: seq<Outcome>): nat {
    if os == [] then 0
    else Successes(os[..|os| - 1]) + if os[|os| - 1].Some? then 1 else 0
  }

  function SentBytes(os: seq<Outcome>): int {
    if os == [] then 0
    else SentBytes(os[..|os| - 1]) + if os[|os| - 1].Some? then os[|os| - 1].value.sendBytes else 0
  }

  function ReceivedBytes(os: seq<Outcome>): int {
    if os == [] then 0
    else ReceivedBytes(os[..|os| - 1]) + if os[|os| - 1].Some? then os[|os| - 1].value.recvBytes else 0
  }

  function FinalOf(os: seq<Outcome>, multicast: bool): Final { Finish(Collect(os), |os|, multicast) }

  lemma {:induction false} CountsOfCollect(os: seq<Outcome>)
    ensures Collect(os).failed + Successes(os) == |os|
    ensures Collect(os).stat.Some? <==> Successes(os) > 0
    ensures Collect(os).active <= Successes(os)
    ensures SentBytes(os) == if Collect(os).stat.Some? then Collect(os).stat.value.sendBytes else 0
    ensures ReceivedBytes(os) == if Collect(os).stat.Some? then Collect(os).stat.value.recvBytes else 0
  {
    if os != [] { CountsOfCollect(os[..|os| - 1]); }
  }

  /** The aggregated result and the peer counts are those of the outcomes, in
      whatever order they come. */
  lemma FinalOrderIndependent(os: seq<Outcome>, os': seq<Outcome>, multicast: bool)
    requires multiset(os) == multiset(os')
    ensures FinalOf(os, multicast) == FinalOf(os', multicast)
  {
    OrderIndependent(os, os');
    assert |multiset(os)| == |os| && |multiset(os')| == |os'|;
  }

  /** What both kinds of sender put in a result: bytes are counted, a peer that
      sent nothing has no send figures, and the mean delay is between the
      extremes. */
  predicate Timed(s: NetStat) {
    && 0 <= s.sendBytes && 0 <= s.sendTime && 0 <= s.sendSpeed
    && s.minDelay <= s.delay <= s.maxDelay
    && (s.sendBytes == 0 ==> s.sendTime == 0 && s.sendSpeed == 0)
  }

  predicate AllTimed(os: seq<Outcome>) {
    forall i :: 0 <= i < |os| && os[i].Some? ==> Timed(os[i].value)
  }

  /** The loss of one peer: a fraction, and none when nothing was sent. */
  predicate LossFits(s: NetStat) {
    0 <= s.sendBytes && 0.0 <= s.loss <= 1.0 && (s.sendBytes == 0 ==> s.loss == 0.0)
  }

  predicate AllCounted(os: seq<Outcome>) {
    forall i :: 0 <= i < |os| && os[i].Some? ==> 0 <= os[i].value.sendBytes
  }

  /** `sum` is the sum of `n` values between `lo` and `hi`. */
  predicate Between(n: nat, lo: int, sum: int, hi: int) {
    n * lo <= sum <= n * hi
  }

  lemma BetweenGrows(n: nat, lo: int, sum: int, hi: int, x: int, x0: int, x1: int)
    requires n > 0 && Between(n, lo, sum, hi) && x0 <= x <= x1
    ensures Between(n + 1, Min(lo, x0), sum + x, Max(hi, x1))
  {
    var lo', hi' := Min(lo, x0), Max(hi, x1);
    MulMonotone(n, lo', lo);
    MulMonotone(n, hi, hi');
    assert (n + 1) * lo' == n * lo' + lo' && (n + 1) * hi' == n * hi' + hi';
  }

  /** A value that is zero may be left out of the count when none is negative. */
  lemma BetweenKeeps(n: nat, lo: int, sum: int, hi: int)
    requires Between(n, lo, sum, hi) && 0 <= lo && 0 <= hi
    ensures Between(n, Min(lo, 0), sum, Max(hi, 0))
  {
    MulMonotone(n, 0, lo);
  }

  lemma MeanBetween(n: nat, lo: int, sum: int, hi: int)
    requires n > 0 && Between(n, lo, sum, hi)
    ensures lo <= Quot(sum, n) <= hi
  {
    QuotExact(n, lo);
    QuotExact(n, hi);
    QuotMonotone(n * lo, sum, n);
    QuotMonotone(sum, n * hi, n);
  }

  lemma QuotExact(n: nat, m: int)
    requires n > 0
    ensures Quot(n * m, n) == m
  {
    var q := Quot(n * m, n);
    QuotBounds(n * m, n);
    assert n * m - n * q == n * (m - q);
    if q < m { MulMonotone(n, 1, m - q); } else if m < q { MulMonotone(n, m - q, -1); }
  }

  ghost predicate TotalsBounded(t: Totals, success: nat) {
    t.stat.Some? ==>
      var s := t.stat.value;
      && success > 0 && t.active <= success
      && 0 <= s.sendBytes && (t.active > 0 <==> s.sendBytes > 0)
      && 0 <= s.minSendTime && 0 <= s.maxSendTime && Between(t.active, s.minSendTime, s.sendTime, s.maxSendTime)
      && 0 <= s.minSendSpeed && 0 <= s.maxSendSpeed && Between(t.active, s.minSendSpeed, s.sendAvgSpeed, s.maxSendSpeed)
      && Between(success, s.minRecvTime, s.recvTime, s.maxRecvTime)
      && Between(success, s.minDelay, s.delay, s.maxDelay)
  }

  lemma FirstBounded(t: Totals, raw: NetStat)
    requires t.stat.None? && t.active == 0 && Timed(raw)
    ensures TotalsBounded(Report(t, Some(raw)), 1)
  {
  }

  lemma SendFigureGrows(n: nat, lo: int, sum: int, hi: int, x: int, counted: bool)
    requires 0 <= lo && 0 <= hi && 0 <= x && Between(n, lo, sum, hi) && (!counted ==> x == 0)
    ensures Between(if counted then n + 1 else n, Min(lo, x), sum + x, Max(hi, x))
  {
    if !counted {
      BetweenKeeps(n, lo, sum, hi);
    } else if n > 0 {
      BetweenGrows(n, lo, sum, hi, x, x, x);
    }
  }

  lemma NextBounded(t: Totals, success: nat, raw: NetStat)
    requires t.stat.Some? && TotalsBounded(t, success) && Timed(raw)
    ensures TotalsBounded(Report(t, Some(raw)), success + 1)
  {
    var s, p := t.stat.value, Prepared(raw);
    SendFigureGrows(t.active, s.minSendTime, s.sendTime, s.maxSendTime, raw.sendTime, raw.sendBytes > 0);
    SendFigureGrows(t.active, s.minSendSpeed, s.sendAvgSpeed, s.maxSendSpeed, raw.sendSpeed, raw.sendBytes > 0);
    BetweenGrows(success, s.minRecvTime, s.recvTime, s.maxRecvTime, raw.recvTime, raw.recvTime, raw.recvTime);
    BetweenGrows(success, s.minDelay, s.delay, s.maxDelay, raw.delay, raw.minDelay, raw.maxDelay);
  }

  lemma {:induction false} CollectBounded(os: seq<Outcome>)
    requires AllTimed(os)
    ensures TotalsBounded(Collect(os), Successes(os))
  {
    if os != [] {
      var front, o := os[..|os| - 1], os[|os| - 1];
      CollectBounded(front);
      CountsOfCollect(front);
      if o.Some? {
        if Collect(front).stat.None? { FirstBounded(Collect(front), o.value); }
        else { NextBounded(Collect(front), Successes(front), o.value); }
      }
    }
  }

  /** The final divisions are defined exactly when no peer succeeded or some
      successful peer sent data. */
  lemma UndefinedExactly(os: seq<Outcome>, multicast: bool)
    requires AllCounted(os)
    ensures FinalOf(os, multicast) == NoResult <==> Successes(os) == 0
    ensures FinalOf(os, multicast) == Undefined <==>
              Successes(os) > 0 && forall i :: 0 <= i < |os| && os[i].Some? ==> os[i].value.sendBytes == 0
  {
    CountsOfCollect(os);
    ActiveBySentBytes(os);
    ActiveExactly(os);
  }

  lemma {:induction false} ActiveExactly(os: seq<Outcome>)
    ensures Collect(os).active == 0 <==> forall i :: 0 <= i < |os| && os[i].Some? ==> os[i].value.sendBytes <= 0
  {
    if os != [] { ActiveExactly(os[..|os| - 1]); }
  }

  /** When no bytes are counted back, a successful peer is active if and only if
      some bytes were sent. */
  lemma {:induction false} ActiveBySentBytes(os: seq<Outcome>)
    requires AllCounted(os)
    ensures 0 <= SentBytes(os) && (Collect(os).active > 0 <==> SentBytes(os) > 0)
  {
    if os != [] { ActiveBySentBytes(os[..|os| - 1]); }
  }

  /** Every averaged figure lies between the aggregated extremes. */
  lemma AveragesBetweenExtremes(os: seq<Outcome>, multicast: bool)
    requires AllTimed(os) && FinalOf(os, multicast).Settled?
    ensures var s := FinalOf(os, multicast).stat;
            && s.minSendTime <= s.sendTime <= s.maxSendTime
            && s.minRecvTime <= s.recvTime <= s.maxRecvTime
            && s.minDelay <= s.delay <= s.maxDelay
            && (!multicast ==> s.minSendSpeed <= s.sendAvgSpeed <= s.maxSendSpeed)
  {
    CountsOfCollect(os);
    CollectBounded(os);
    var t, n := Collect(os), Successes(os);
    var s := t.stat.value;
    MeanBetween(t.active, s.minSendTime, s.sendTime, s.maxSendTime);
    MeanBetween(t.active, s.minSendSpeed, s.sendAvgSpeed, s.maxSendSpeed);
    MeanBetween(n, s.minRecvTime, s.recvTime, s.maxRecvTime);
    MeanBetween(n, s.minDelay, s.delay, s.maxDelay);
  }

  lemma {:induction false} LossBounded(os: seq<Outcome>)
    requires forall i :: 0 <= i < |os| && os[i].Some? ==> LossFits(os[i].value)
    ensures Collect(os).stat.Some? ==> 0.0 <= Collect(os).stat.value.loss <= Collect(os).active as real
    ensures Collect(os).stat.None? ==> Collect(os).active == 0
  {
    if os != [] { LossBounded(os[..|os| - 1]); }
  }

  /** Averaged over the active peers, a loss is still a fraction. */
  lemma UnicastLossRange(os: seq<Outcome>)
    requires (forall i :: 0 <= i < |os| && os[i].Some? ==> LossFits(os[i].value)) && FinalOf(os, false).Settled?
    ensures 0.0 <= FinalOf(os, false).stat.loss <= 1.0
  {
    LossBounded(os);
    UnitInterval(Collect(os).stat.value.loss, Collect(os).active as real);
  }

  lemma UnitInterval(x: real, n: real)
    requires 0.0 <= x <= n && n > 0.0
    ensures 0.0 <= x / n <= 1.0
  {
  }

  /** The byte-based loss of a multicast command is a fraction if and only if the
      peers have received no more than the successful ones sent together, once
      for each of them, and it is negative exactly when they have received more. */
  lemma MulticastLossExactly(os: seq<Outcome>)
    requires AllCounted(os) && FinalOf(os, true).Settled?
    ensures var loss, most := FinalOf(os, true).stat.loss, SentBytes(os) * Successes(os);
            && (0.0 <= loss <= 1.0 <==> 0 <= ReceivedBytes(os) <= most)
            && (loss < 0.0 <==> ReceivedBytes(os) > most)
  {
    CountsOfCollect(os);
    ActiveBySentBytes(os);
    MulMonotone(SentBytes(os), 1, Successes(os));
    ShareSigns(ReceivedBytes(os) as real, (SentBytes(os) * Successes(os)) as real);
  }

  lemma ShareSigns(x: real, n: real)
    requires n > 0.0
    ensures x / n <= 1.0 <==> x <= n
    ensures 0.0 <= x / n <==> 0.0 <= x
  {
    assert x / n * n == x;
    if x / n <= 1.0 { ScaleKeeps(x / n, 1.0, n); } else { ScaleGrows(1.0, x / n, n); }
    if 0.0 <= x / n { ScaleKeeps(0.0, x / n, n); } else { ScaleGrows(x / n, 0.0, n); }
  }

  lemma ScaleKeeps(a: real, b: real, k: real)
    requires k > 0.0 && a <= b
    ensures a * k <= b * k
  {
  }

  lemma ScaleGrows(a: real, b: real, k: real)
    requires k > 0.0 && a < b
    ensures a * k < b * k
  {
  }

  function ReceivedPackets(os: seq<Outcome>): int {
    if os == [] then 0
    else ReceivedPackets(os[..|os| - 1]) + if os[|os| - 1].Some? then os[|os| - 1].value.recvPackets else 0
  }

  /** The one result reports the share of `wanted` packets that it misses. */
  predicate LossIsShare(s: NetStat, wanted: nat)
    requires wanted > 0
  {
    0 < s.sendBytes && s.loss == 1.0 - s.recvPackets as real / wanted as real
  }

  lemma {:induction false} SharesSummed(os: seq<Outcome>, wanted: nat)
    requires wanted > 0 && forall i :: 0 <= i < |os| && os[i].Some? ==> LossIsShare(os[i].value, wanted)
    ensures Collect(os).active == Successes(os)
    ensures Collect(os).stat.Some? ==>
              Collect(os).stat.value.loss == Successes(os) as real - ReceivedPackets(os) as real / wanted as real
    ensures Collect(os).stat.None? ==> Successes(os) == ReceivedPackets(os) == 0
  {
    if os != [] {
      var front, o := os[..|os| - 1], os[|os| - 1];
      SharesSummed(front, wanted);
      if o.Some? {
        assert LossIsShare(o.value, wanted);
        ShareAdds(ReceivedPackets(front) as real, o.value.recvPackets as real, wanted as real);
      }
    }
  }

  lemma ShareAdds(a: real, b: real, n: real)
    requires n > 0.0
    ensures a / n + b / n == (a + b) / n
  {
  }

  /** The averaged loss is the share of all their packets that the peers missed. */
  lemma SharesAveraged(os: seq<Outcome>, wanted: nat)
    requires wanted > 0 && forall i :: 0 <= i < |os| && os[i].Some? ==> LossIsShare(os[i].value, wanted)
    requires FinalOf(os, false).Settled?
    ensures Successes(os) > 0
    ensures FinalOf(os, false).stat.loss ==
              (Successes(os) * wanted - ReceivedPackets(os)) as real / (Successes(os) * wanted) as real
  {
    SharesSummed(os, wanted);
    AveragedLoss(os);
    MissingShare(Successes(os), ReceivedPackets(os), wanted);
  }

  lemma AveragedLoss(os: seq<Outcome>)
    requires FinalOf(os, false).Settled?
    ensures Collect(os).stat.Some? && Collect(os).active > 0
    ensures FinalOf(os, false).stat.loss == Collect(os).stat.value.loss / Collect(os).active as real
  {
  }

  lemma MissingShare(k: nat, got: int, n: nat)
    requires k > 0 && n > 0
    ensures k * n > 0
    ensures (k as real - got as real / n as real) / k as real == (k * n - got) as real / (k * n) as real
  {
    var missed := k as real - got as real / n as real;
    assert missed * n as real == (k * n - got) as real;
    ScaleQuotient(missed, k as real, n as real);
  }

  lemma ScaleQuotient(x: real, k: real, n: real)
    requires k > 0.0 && n > 0.0
    ensures k * n > 0.0 && x / k == (x * n) / (k * n)
  {
    assert (x / k) * (k * n) == ((x / k) * k) * n;
  }

  /** With datagrams of one size, bytes are packets. */
  lemma {:induction false} BytesArePackets(os: seq<Outcome>, size: nat)
    requires forall i :: 0 <= i < |os| && os[i].Some? ==> os[i].value.recvBytes == os[i].value.recvPackets * size
    ensures ReceivedBytes(os) == ReceivedPackets(os) * size
  {
    if os != [] {
      var front, o := os[..|os| - 1], os[|os| - 1];
      BytesArePackets(front, size);
      if o.Some? {
        var got := o.value.recvPackets;
        assert (ReceivedPackets(front) + got) * size == ReceivedPackets(front) * size + got * size;
      }
    }
  }

  /** When no peer has received more than `most` packets, nor fewer than none. */
  lemma {:induction false} ReceivedBounds(os: seq<Outcome>, most: nat)
    requires forall i :: 0 <= i < |os| && os[i].Some? ==> 0 <= os[i].value.recvPackets <= most
    ensures 0 <= ReceivedPackets(os) <= Successes(os) * most
  {
    if os != [] {
      var front := os[..|os| - 1];
      ReceivedBounds(front, most);
      assert (Successes(front) + 1) * most == Successes(front) * most + most;
    }
  }
}
