/** What the server makes of the results of all peers, field by field: sums, extremes
    and averages over the reports as they came. */
module Aggregates {
  import opened Wrappers
  import opened Arithmetic
  import opened NetStats

  /** The integer fields of a result. */
  datatype Field =
    SendSpeed | RecvSpeed | SendAvgSpeed | RecvAvgSpeed | MaxSendSpeed | MaxRecvSpeed | MinSendSpeed |
    MinRecvSpeed | SendPackets | RecvPackets | IllegalPackets | ReorderPackets | DuplicatePackets | TimeoutPackets
    | SendPps | RecvPps | SendBytes | RecvBytes | SendTime | RecvTime | MaxSendTime | MaxRecvTime | MinSendTime |
    MinRecvTime | Delay | MinDelay | MaxDelay | Jitter | JitterStd | PeersCount | PeersFailed

  function Value(s: NetStat, f: Field): int {
    match f
    case SendSpeed => s.sendSpeed
    case RecvSpeed => s.recvSpeed
    case SendAvgSpeed => s.sendAvgSpeed
    case RecvAvgSpeed => s.recvAvgSpeed
    case MaxSendSpeed => s.maxSendSpeed
    case MaxRecvSpeed => s.maxRecvSpeed
    case MinSendSpeed => s.minSendSpeed
    case MinRecvSpeed => s.minRecvSpeed
    case SendPackets => s.sendPackets
    case RecvPackets => s.recvPackets
    case IllegalPackets => s.illegalPackets
    case ReorderPackets => s.reorderPackets
    case DuplicatePackets => s.duplicatePackets
    case TimeoutPackets => s.timeoutPackets
    case SendPps => s.sendPps
    case RecvPps => s.recvPps
    case SendBytes => s.sendBytes
    case RecvBytes => s.recvBytes
    case SendTime => s.sendTime
    case RecvTime => s.recvTime
    case MaxSendTime => s.maxSendTime
    case MaxRecvTime => s.maxRecvTime
    case MinSendTime => s.minSendTime
    case MinRecvTime => s.minRecvTime
    case Delay => s.delay
    case MinDelay => s.minDelay
    case MaxDelay => s.maxDelay
    case Jitter => s.jitter
    case JitterStd => s.jitterStd
    case PeersCount => s.peersCount
    case PeersFailed => s.peersFailed
  }

  /** What a result contributes to a field: to the averages and extremes of times and
      speeds, its own time or speed. */
  function Contribution(s: NetStat, f: Field): int {
    match f
    case SendAvgSpeed => s.sendSpeed
    case RecvAvgSpeed => s.recvSpeed
    case MaxSendSpeed => s.sendSpeed
    case MinSendSpeed => s.sendSpeed
    case MaxSendTime => s.sendTime
    case MinSendTime => s.sendTime
    case MaxRecvTime => s.recvTime
    case MinRecvTime => s.recvTime
    case _ => Value(s, f)
  }

  predicate IsGreatest(f: Field) {
    f.MaxSendSpeed? || f.MaxRecvSpeed? || f.MaxSendTime? || f.MaxRecvTime? || f.MaxDelay?
  }

  predicate IsLeast(f: Field) {
    f.MinSendSpeed? || f.MinRecvSpeed? || f.MinSendTime? || f.MinRecvTime? || f.MinDelay?
  }

  function SumOf(os: seq<Outcome>, f: Field): int {
    if os == [] then 0
    else SumOf(os[..|os| - 1], f) + if os[|os| - 1].Some? then Contribution(os[|os| - 1].value, f) else 0
  }

  /** The peers that have sent something. */
  function Senders(os: seq<Outcome>): nat {
    if os == [] then 0
    else Senders(os[..|os| - 1]) + if os[|os| - 1].Some? && os[|os| - 1].value.sendBytes > 0 then 1 else 0
  }

  function LossSum(os: seq<Outcome>): real {
    if os == [] then 0.0 else LossSum(os[..|os| - 1]) + if os[|os| - 1].Some? then os[|os| - 1].value.loss else 0.0
  }

  ghost predicate Attained(os: seq<Outcome>, f: Field, v: int) {
    exists i :: 0 <= i < |os| && os[i].Some? && Contribution(os[i].value, f) == v
  }

  ghost predicate AllAtMost(os: seq<Outcome>, f: Field, v: int) {
    forall i :: 0 <= i < |os| && os[i].Some? ==> Contribution(os[i].value, f) <= v
  }

  ghost predicate AllAtLeast(os: seq<Outcome>, f: Field, v: int) {
    forall i :: 0 <= i < |os| && os[i].Some? ==> v <= Contribution(os[i].value, f)
  }

  /** `v` is what the contributions to a field come to: their greatest, their least or
      their sum. */
  ghost predicate ComesTo(os: seq<Outcome>, f: Field, v: int) {
    if IsGreatest(f) then Attained(os, f, v) && AllAtMost(os, f, v)
    else if IsLeast(f) then Attained(os, f, v) && AllAtLeast(os, f, v)
    else v == SumOf(os, f)
  }

  /** Two values of a field, put together. */
  function Joint(f: Field, a: int, b: int): int {
    if IsGreatest(f) then Max(a, b) else if IsLeast(f) then Min(a, b) else a + b
  }

  lemma AddJoins(a: NetStat, b: NetStat, f: Field)
    ensures Value(Add(a, b), f) == Joint(f, Value(a, f), Value(b, f))
  {
  }

  lemma PreparedContributes(s: NetStat, f: Field)
    ensures Value(Prepared(s), f) == Contribution(s, f)
  {
  }

  lemma FirstContribution(front: seq<Outcome>, s: NetStat, f: Field)
    requires Collect(front).stat.None?
    ensures ComesTo(front + [Some(s)], f, Contribution(s, f))
  {
    var os := front + [Some(s)];
    NoContribution(front, f);
    assert os[..|front|] == front && os[|front|] == Some(s);
  }

  lemma {:induction false} NoContribution(os: seq<Outcome>, f: Field)
    requires Collect(os).stat.None?
    ensures SumOf(os, f) == 0 && forall i :: 0 <= i < |os| ==> os[i].None?
  {
    if os != [] { NoContribution(os[..|os| - 1], f); }
  }

  lemma StillAttained(front: seq<Outcome>, o: Outcome, f: Field, v: int)
    requires Attained(front, f, v)
    ensures Attained(front + [o], f, v)
  {
    var i :| 0 <= i < |front| && front[i].Some? && Contribution(front[i].value, f) == v;
    assert (front + [o])[i] == front[i];
  }

  lemma LastAttained(front: seq<Outcome>, s: NetStat, f: Field)
    ensures Attained(front + [Some(s)], f, Contribution(s, f))
  {
    assert (front + [Some(s)])[|front|] == Some(s);
  }

  lemma NextGreatest(front: seq<Outcome>, s: NetStat, f: Field, v: int)
    requires Attained(front, f, v) && AllAtMost(front, f, v)
    ensures var w := Max(v, Contribution(s, f)); Attained(front + [Some(s)], f, w) && AllAtMost(front + [Some(s)], f, w)
  {
    StillAttained(front, Some(s), f, v);
    LastAttained(front, s, f);
  }

  lemma NextLeast(front: seq<Outcome>, s: NetStat, f: Field, v: int)
    requires Attained(front, f, v) && AllAtLeast(front, f, v)
    ensures var w := Min(v, Contribution(s, f)); Attained(front + [Some(s)], f, w) && AllAtLeast(front + [Some(s)], f, w)
  {
    StillAttained(front, Some(s), f, v);
    LastAttained(front, s, f);
  }

  lemma NextSum(front: seq<Outcome>, o: Outcome, f: Field)
    ensures SumOf(front + [o], f) == SumOf(front, f) + if o.Some? then Contribution(o.value, f) else 0
  {
    assert (front + [o])[..|front|] == front;
  }

  lemma NextContribution(front: seq<Outcome>, s: NetStat, f: Field, v: int)
    requires ComesTo(front, f, v)
    ensures ComesTo(front + [Some(s)], f, Joint(f, v, Contribution(s, f)))
  {
    if IsGreatest(f) { NextGreatest(front, s, f, v); }
    else if IsLeast(f) { NextLeast(front, s, f, v); }
    else { NextSum(front, Some(s), f); }
  }

  lemma LostContributes(front: seq<Outcome>, f: Field, v: int)
    requires ComesTo(front, f, v)
    ensures ComesTo(front + [None], f, v)
  {
    if IsGreatest(f) || IsLeast(f) { StillAttained(front, None, f, v); } else { NextSum(front, None, f); }
  }

  /** Each field of the aggregate is the sum, the greatest or the least of what the
      successful peers contribute to it; the losses are added up, and the peers
      that sent something are counted. */
  lemma {:induction false} FieldsOfCollect(os: seq<Outcome>, f: Field)
    ensures Collect(os).stat.Some? ==> ComesTo(os, f, Value(Collect(os).stat.value, f))
    ensures Collect(os).stat.Some? ==> Collect(os).stat.value.loss == LossSum(os)
    ensures Collect(os).active == Senders(os)
  {
    if os != [] {
      var front, o := os[..|os| - 1], os[|os| - 1];
      assert os == front + [o];
      FieldsOfCollect(front, f);
      LossesAdded(os);
      if Collect(front).stat.Some? {
        var s := Collect(front).stat.value;
        if o.None? {
          LostContributes(front, f, Value(s, f));
        } else {
          NextContribution(front, o.value, f, Value(s, f));
          AddJoins(s, Prepared(o.value), f);
        }
      } else if o.Some? {
        FirstContribution(front, o.value, f);
      }
      if o.Some? { PreparedContributes(o.value, f); }
    }
  }

  lemma {:induction false} LossesAdded(os: seq<Outcome>)
    ensures LossSum(os) == if Collect(os).stat.Some? then Collect(os).stat.value.loss else 0.0
  {
    if os != [] { LossesAdded(os[..|os| - 1]); }
  }

  /** What a field of the final result is: times and speeds of sending are averaged
      over the peers that sent, those of receiving and the delay over all that
      succeeded; a multicast command sends once for all, at the sum of the speeds. */
  ghost predicate FinalField(os: seq<Outcome>, multicast: bool, f: Field, v: int)
    requires Senders(os) > 0 && Successes(os) > 0
  {
    match f
    case SendTime => v == Quot(SumOf(os, f), Senders(os))
    case SendAvgSpeed => v == Quot(SumOf(os, f), Senders(os))
    case RecvAvgSpeed => v == Quot(SumOf(os, f), Successes(os))
    case RecvTime => v == Quot(SumOf(os, f), Successes(os))
    case Delay => v == Quot(SumOf(os, f), Successes(os))
    case MaxSendSpeed => if multicast then v == SumOf(os, SendSpeed) else ComesTo(os, f, v)
    case MinSendSpeed => if multicast then v == SumOf(os, SendSpeed) else ComesTo(os, f, v)
    case PeersCount => v == |os|
    case PeersFailed => v == |os| - Successes(os)
    case _ => ComesTo(os, f, v)
  }

  lemma OwnFinalField(os: seq<Outcome>, f: Field, s: NetStat)
    requires FinalOf(os, false).Settled? && Collect(os).stat == Some(s)
    requires Collect(os).failed + Successes(os) == |os| && Collect(os).active == Senders(os)
    requires Senders(os) > 0 && Successes(os) > 0 && ComesTo(os, f, Value(s, f))
    ensures FinalField(os, false, f, Value(FinalOf(os, false).stat, f))
  {
  }

  /** The fields in which a multicast command differs. */
  predicate SentForAll(f: Field) { f.MaxSendSpeed? || f.MinSendSpeed? }

  lemma SharedIsOwn(os: seq<Outcome>, f: Field)
    requires FinalOf(os, true).Settled? && !SentForAll(f)
    ensures FinalOf(os, false).Settled? && Value(FinalOf(os, true).stat, f) == Value(FinalOf(os, false).stat, f)
  {
  }

  lemma SharedFinalField(os: seq<Outcome>, f: Field, s: NetStat)
    requires FinalOf(os, true).Settled? && Collect(os).stat == Some(s)
    requires Collect(os).failed + Successes(os) == |os| && Collect(os).active == Senders(os)
    requires Senders(os) > 0 && Successes(os) > 0 && ComesTo(os, f, Value(s, f)) && ComesTo(os, SendSpeed, s.sendSpeed)
    ensures FinalField(os, true, f, Value(FinalOf(os, true).stat, f))
  {
    if !SentForAll(f) {
      SharedIsOwn(os, f);
      OwnFinalField(os, f, s);
    }
  }

  lemma FieldsOfFinal(os: seq<Outcome>, multicast: bool, f: Field)
    requires FinalOf(os, multicast).Settled?
    ensures Senders(os) > 0 && Successes(os) > 0
    ensures FinalField(os, multicast, f, Value(FinalOf(os, multicast).stat, f))
  {
    CountsOfCollect(os);
    FieldsOfCollect(os, f);
    FieldsOfCollect(os, SendSpeed);
    if multicast { SharedFinalField(os, f, Collect(os).stat.value); } else { OwnFinalField(os, f, Collect(os).stat.value); }
  }

  /** The counts of the final result. */
  lemma CountsOfFinal(os: seq<Outcome>, multicast: bool)
    requires FinalOf(os, multicast).Settled?
    ensures var f := FinalOf(os, multicast).stat;
            && f.sendPackets == SumOf(os, SendPackets) && f.recvPackets == SumOf(os, RecvPackets)
            && f.illegalPackets == SumOf(os, IllegalPackets) && f.duplicatePackets == SumOf(os, DuplicatePackets)
            && f.reorderPackets == SumOf(os, ReorderPackets) && f.timeoutPackets == SumOf(os, TimeoutPackets)
  {
    FieldsOfFinal(os, multicast, SendPackets);
    FieldsOfFinal(os, multicast, RecvPackets);
    FieldsOfFinal(os, multicast, IllegalPackets);
    FieldsOfFinal(os, multicast, DuplicatePackets);
    FieldsOfFinal(os, multicast, ReorderPackets);
    FieldsOfFinal(os, multicast, TimeoutPackets);
  }

  /** The loss of the final result: averaged over the peers that sent or, multicast,
      by bytes. */
  lemma LossOfFinal(os: seq<Outcome>, multicast: bool)
    requires FinalOf(os, multicast).Settled?
    ensures Senders(os) > 0 && Successes(os) > 0 && (multicast ==> SentBytes(os) != 0)
    ensures !multicast ==> FinalOf(os, multicast).stat.loss == LossSum(os) / Senders(os) as real
    ensures multicast ==>
              && (SentBytes(os) * Successes(os)) as real != 0.0
              && FinalOf(os, multicast).stat.loss == 1.0 - ReceivedBytes(os) as real / (SentBytes(os) * Successes(os)) as real
  {
    CountsOfCollect(os);
    FieldsOfCollect(os, SendSpeed);
  }
}
