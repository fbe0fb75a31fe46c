/** What holds in every run of the payload, of what clients make of it, and of the
    figures that are reported. */
module FigureGuarantees {
  import opened Wrappers
  import opened Arithmetic
  import opened NetStats
  import opened Aggregates
  import opened SpeedGauge
  import opened Commands
  import opened CommandSenders
  import opened Peers
  import opened Server
  import opened ServerInvariant
  import opened ServerRuns
  import opened ServerGuarantees
  import opened PayloadRhythm
  import opened ClientLedger
  import opened PeerReports
  import opened Channels
  import opened ReportedFigures
  import opened EndToEnd
  import Client

  // ------------------------------------------------------------- payload

  /** With an interval, and for a ping, the timer of a peer runs out between any two
      attempts to send payload: a packet leaves for each time it does, and one more at
      the start. While payload goes on, the write bit is set if and only if the timer
      was the last to have its turn. */
  lemma PayloadIsPaced(s: State, p: PeerId)
    requires Reachable(s) && Proper(s) && p in s.links && s.links[p].sender.Some? && Pauses(s.links[p].sender.value.cmd)
    ensures var l, x := s.links[p], s.links[p].sender.value;
            && (forall i, j :: 0 <= i < j < |l.beats| && l.beats[i].Write? && l.beats[j].Write? ==>
                  exists k :: i < k < j && l.beats[k].Tick?)
            && x.sendPackets <= Count(l.beats, Write) <= Count(l.beats, Tick) + 1
            && (PhaseOf(l, x).Payload? && l.beats != [] ==> (l.data <==> EndsWith(l.beats, Tick)))
  {
    ReachableHasFigures(s);
    var l := s.links[p];
    assert Measured(l, AnyChannel);
    WritesBounded(l.beats);
    forall i, j | 0 <= i < j < |l.beats| && l.beats[i].Write? && l.beats[j].Write?
      ensures exists k :: i < k < j && l.beats[k].Tick?
    {
      TickBetween(l.beats, i, j);
    }
    if PhaseOf(l, l.sender.value).Payload? { NotStopped(s, p); }
  }

  lemma NotStopped(s: State, p: PeerId)
    requires Reachable(s) && Proper(s) && p in s.links && s.links[p].sender.Some?
    ensures !s.links[p].sender.value.stopped
  {
    ReachableIsGood(s);
    assert Member(s.links[p]);
  }

  // ------------------------------------------------------- what clients make of it

  /** Each client knows exactly what it was handed: the packets of its command on their
      socket, in the order they came, and how many datagrams were something else. */
  lemma ClientsSortTheirDatagrams(s: State, p: PeerId)
    requires Reachable(s) && Proper(s) && p in s.links
    ensures Routed(s.links[p])
  {
    ReachableHasFigures(s);
    assert Measured(s.links[p], AnyChannel);
  }

  /** What it reports is what the datagrams alone amount to. */
  lemma ClientReportsAreExact(s: State, p: PeerId, budget: nat, k: Nanos)
    requires Reachable(s) && Proper(s) && p in s.links && PeerEnabled(s.links[p], ClientAnswer(budget, k))
    ensures var l := s.links[p];
            && l.told <= |l.handed|
            && ReportsHanded(Client.AfterResult(l.client, budget, k).1, l.client.receiver.value.cmd,
                             l.handed[..l.told], l.handed[l.told..])
  {
    ClientsSortTheirDatagrams(s, p);
    ReachableIsGood(s);
    assert Member(s.links[p]);
    ClientReports(s.links[p], budget, k);
  }

  // ------------------------------------------------------------- what is reported

  /** In every callback the reports that went into it hold the delays of as many samples
      as were received, the packets and bytes that were sent, and the rates of these. */
  lemma ReportsHold(s: State, i: nat, j: nat)
    requires Reachable(s) && Proper(s) && i < |s.completed|
    requires j < |s.completed[i].outcomes| && s.completed[i].outcomes[j].Some?
    ensures Sampled(s.completed[i].cmd, s.completed[i].outcomes[j].value)
  {
    CallbackTold(s, i, AnyChannel);
    assert Told(s.completed[i].cmd, s.completed[i].outcomes[j].value, AnyChannel);
  }

  /** The illegal datagrams of a ping are those that its client reports and those that
      came back to its sender; of a send those that its client reports. */
  lemma IllegalAddedUp(s: State, p: PeerId, k: Nanos)
    requires Reachable(s) && Proper(s) && p in s.links && ServerReads(s.links[p], k).1.Finished?
    ensures var l := s.links[p];
            && l.sender.Some? && |l.toServer| == 1 && l.toServer[0].Result?
            && ServerReads(l, k).1.stat.illegalPackets ==
                 l.toServer[0].stat.illegalPackets + if l.sender.value.cmd.kind.Ping? then l.badEchoes else 0
  {
    ReachableHasFigures(s);
    ReachableIsGood(s);
    var l := s.links[p];
    assert Measured(l, AnyChannel) && Member(l);
    FinishedSender(l, k);
    if l.sender.value.cmd.kind.Ping? { PingIllegal(l.sender.value, l.toServer[0].stat, k); }
    else { SendFieldsKept(l.sender.value, l.toServer[0].stat, k); }
  }

  // ---------------------------------------------------------- over perfect channels

  lemma {:induction false} PerfectRunIsFaithful(es: seq<Event>)
    requires AfterOver(PerfectChannel, es).Some?
    ensures AfterOver(FaithfulChannel, es) == AfterOver(PerfectChannel, es)
  {
    if es != [] { PerfectRunIsFaithful(es[..|es| - 1]); }
  }

  lemma PerfectIsFaithful(s: State)
    requires PerfectlyReachable(s)
    ensures FaithfullyReachable(s)
  {
    var es :| LeadsToOver(PerfectChannel, es, s);
    PerfectRunIsFaithful(es);
    assert LeadsToOver(FaithfulChannel, es, s);
  }

  predicate EachReceivedAll(c: Command, os: seq<Outcome>) {
    forall i :: 0 <= i < |os| && os[i].Some? ==> AllReceived(c, os[i].value)
  }

  lemma {:induction false} AllReceivedSums(c: Command, os: seq<Outcome>)
    requires EachReceivedAll(c, os)
    ensures SumOf(os, RecvPackets) == ReceivedPackets(os) == Successes(os) * Wanted(c)
    ensures SumOf(os, IllegalPackets) == SumOf(os, DuplicatePackets) == SumOf(os, ReorderPackets) == 0
  {
    if os != [] {
      var front := os[..|os| - 1];
      AllReceivedSums(c, front);
      OneMoreShare(Successes(front), Wanted(c));
    }
  }

  lemma OneMoreShare(n: nat, w: nat)
    ensures (n + 1) * w == n * w + w
  {
  }

  lemma SameBytes(k: nat, w: nat, n: nat)
    ensures k * w * n == w * n * k
  {
  }

  lemma WholeShare(a: int, b: int)
    requires a == b && b as real != 0.0
    ensures 1.0 - a as real / b as real == 0.0
  {
  }

  lemma AllBytesReceived(os: seq<Outcome>)
    requires FinalOf(os, true).Settled? && ReceivedBytes(os) == SentBytes(os) * Successes(os)
    ensures FinalOf(os, true).stat.loss == 0.0
  {
    LossOfFinal(os, true);
    WholeShare(ReceivedBytes(os), SentBytes(os) * Successes(os));
  }

  lemma EverythingReceived(c: Command, os: seq<Outcome>)
    requires FinalOf(os, true).Settled? && AllTold(c, os, FaithfulChannel) && SentBytes(os) == Wanted(c) * BufferSize(c)
    requires ReceivedPackets(os) == Successes(os) * Wanted(c)
    ensures FinalOf(os, true).stat.loss == 0.0
  {
    forall j | 0 <= j < |os| && os[j].Some? ensures Honest(c, os[j].value) {
      assert Told(c, os[j].value, FaithfulChannel);
    }
    BytesArePackets(os, BufferSize(c));
    SameBytes(Successes(os), Wanted(c), BufferSize(c));
    AllBytesReceived(os);
  }

  predicate NoneMissing(x: Completion) { Missing(x.cmd, x.outcomes) == 0 }

  lemma OwnShare(x: Completion)
    requires LossIsMissing(x) && NoneMissing(x)
    ensures x.final.stat.loss == 0.0 && Wanted(x.cmd) > 0
  {
  }

  lemma SharedShare(x: Completion)
    requires x.cmd.kind.Multicast? && CompletionSound(x) && LossOfShares(x) && NoneMissing(x)
    requires AllTold(x.cmd, x.outcomes, FaithfulChannel) && Successes(x.outcomes) > 0
    requires x.final.stat.loss < 0.0 <==> 0 < x.lost * Successes(x.outcomes)
    ensures x.final.stat.loss == 0.0 <==> x.lost == 0
    ensures Wanted(x.cmd) > 0
  {
    if x.lost == 0 { EverythingReceived(x.cmd, x.outcomes); } else { MulMonotone(x.lost, 1, Successes(x.outcomes)); }
  }

  lemma PerfectSharedLoss(s: State, i: nat)
    requires FaithfullyReachable(s) && Proper(s) && i < |s.completed|
    requires s.completed[i].cmd.kind.Multicast? && s.completed[i].final.Settled? && NoneMissing(s.completed[i])
    ensures s.completed[i].final.stat.loss == 0.0 <==> s.completed[i].lost == 0
    ensures Wanted(s.completed[i].cmd) > 0
  {
    CallbackTold(s, i, FaithfulChannel);
    FaithfulSharedLoss(s, i);
    CallbackSharedLoss(s, i);
    CallbackResults(s, i);
    SomethingSent(s.completed[i].outcomes);
    SharedShare(s.completed[i]);
  }

  lemma PerfectOwnLoss(s: State, i: nat)
    requires Reachable(s) && Proper(s) && i < |s.completed|
    requires s.completed[i].cmd.kind.Unicast? && s.completed[i].final.Settled? && NoneMissing(s.completed[i])
    ensures s.completed[i].final.stat.loss == 0.0 && Wanted(s.completed[i].cmd) > 0
  {
    CallbackLoss(s, i);
    OwnShare(s.completed[i]);
  }

  lemma PerfectOutcomes(s: State, i: nat)
    requires PerfectlyReachable(s) && Proper(s) && i < |s.completed| && !s.completed[i].cmd.kind.Ping?
    ensures FaithfullyReachable(s) && Reachable(s)
    ensures EachReceivedAll(s.completed[i].cmd, s.completed[i].outcomes)
  {
    var x := s.completed[i];
    CallbackTold(s, i, PerfectChannel);
    PerfectIsFaithful(s);
    forall j | 0 <= j < |x.outcomes| && x.outcomes[j].Some? ensures AllReceived(x.cmd, x.outcomes[j].value) {
      assert Told(x.cmd, x.outcomes[j].value, PerfectChannel);
    }
  }

  /** When each packet of a send is handed once and in order to every client that takes
      part, before it reads the stop, the callback counts all of them for each success,
      and nothing else; and the loss is zero, unless packets went with lost peers. */
  lemma PerfectCallback(s: State, i: nat)
    requires PerfectlyReachable(s) && Proper(s) && i < |s.completed|
    requires !s.completed[i].cmd.kind.Ping? && s.completed[i].final.Settled?
    ensures var x := s.completed[i];
            var f := x.final.stat;
            && Wanted(x.cmd) > 0 && f.recvPackets == Successes(x.outcomes) * Wanted(x.cmd)
            && f.illegalPackets == f.duplicatePackets == f.reorderPackets == 0
            && (f.loss == 0.0 <==> x.cmd.kind.Unicast? || x.lost == 0)
  {
    var x := s.completed[i];
    PerfectOutcomes(s, i);
    AllReceivedSums(x.cmd, x.outcomes);
    CallbackResults(s, i);
    CountsOfFinal(x.outcomes, x.cmd.kind.Multicast?);
    if x.cmd.kind.Unicast? { PerfectOwnLoss(s, i); } else { PerfectSharedLoss(s, i); }
  }
}
