/** From the numbers a sender writes, over a channel that loses, doubles and
    reorders, to the loss that is reported. */
module EndToEnd {
  import opened Arithmetic
  import opened SequenceWindow
  import opened DuplicateFilter
  import opened NetStats
  import opened Commands
  import opened SpeedGauge
  import opened MulticastPacing
  import opened CommandSenders
  import opened CommandReceivers
  import opened Server
  import opened ServerInvariant
  import opened ServerRuns
  import opened ServerGuarantees
  import opened Channels
  import opened ReportedFigures

  /** The packets that arrive at one receiver: which ones, in which order, and how
      long each was on its way. */
  datatype Arrival = Arrival(t: nat, delay: int, window: Nanos)

  /** The datagram a sender wrote as number `a.t`, as it arrives. */
  function Packet(c: Command, stamps: seq<SeqNo>, a: Arrival): Datagram
    requires a.t < |stamps|
  {
    Datagram(BufferSize(c), stamps[a.t], BufferSize(c), c.token, a.delay, a.window, a.t)
  }

  predicate Delivers(arrivals: seq<Arrival>, n: nat) {
    forall i :: 0 <= i < |arrivals| ==> arrivals[i].t < n
  }

  function NumbersOf(arrivals: seq<Arrival>): seq<int> {
    seq(|arrivals|, i requires 0 <= i < |arrivals| => arrivals[i].t)
  }

  function ReceiveAll(c: Command, stamps: seq<SeqNo>, arrivals: seq<Arrival>): SendState
    requires Delivers(arrivals, |stamps|)
  {
    if arrivals == [] then NewSendState()
    else
      var front, a := arrivals[..|arrivals| - 1], arrivals[|arrivals| - 1];
      assert Delivers(front, |stamps|) && arrivals[|arrivals| - 1].t < |stamps|;
      SendRecv(ReceiveAll(c, stamps, front), Packet(c, stamps, a), c)
  }

  /** The receiver is its duplicate filter plus the bytes of what it accepted. */
  lemma {:induction false} ReceivedAll(c: Command, stamps: seq<SeqNo>, arrivals: seq<Arrival>)
    requires Consecutive(stamps, |stamps|) && Delivers(arrivals, |stamps|)
    ensures var r := ReceiveAll(c, stamps, arrivals);
            r.filter == Run(NumbersOf(arrivals)) && r.illegal == 0 && r.bytes == r.filter.recv * BufferSize(c)
  {
    if arrivals != [] {
      var front, a := arrivals[..|arrivals| - 1], arrivals[|arrivals| - 1];
      ReceivedAll(c, stamps, front);
      assert NumbersOf(arrivals)[..|front|] == NumbersOf(front);
      assert stamps[a.t] == Wrap(a.t);
      LegalReceived(ReceiveAll(c, stamps, front), Packet(c, stamps, a), c);
    }
  }

  /** What a receiver reports after any admissible delivery of the packets that a
      sender has sent: exactly the distinct ones are received, and never more
      than were sent. */
  lemma DeliveryIsCounted(c: Command, stamps: seq<SeqNo>, arrivals: seq<Arrival>, k: Nanos)
    requires Consecutive(stamps, |stamps|) && Delivers(arrivals, |stamps|) && Admissible(NumbersOf(arrivals))
    ensures var stat, distinct := SendResult(ReceiveAll(c, stamps, arrivals), 0, k), |Numbers(NumbersOf(arrivals))|;
            && stat.recvPackets == distinct <= |stamps|
            && stat.duplicatePackets == |arrivals| - distinct
            && stat.illegalPackets == 0
            && 0 <= stat.recvBytes == distinct * BufferSize(c) <= |stamps| * BufferSize(c)
  {
    ReceivedAll(c, stamps, arrivals);
    FilterCounts(NumbersOf(arrivals));
    NumbersBelow(NumbersOf(arrivals), |stamps|);
    MulMonotone(BufferSize(c), |Numbers(NumbersOf(arrivals))|, |stamps|);
    ResultFields(ReceiveAll(c, stamps, arrivals), 0, k);
  }

  /** The loss of a unicast command is the share of its packets that never
      arrived: a fraction, for every admissible channel. */
  lemma UnicastLoss(s: Sender, arrivals: seq<Arrival>, r: Nanos, k: Nanos)
    requires s.cmd.kind.Unicast? && s.sendPackets >= 1 && Consecutive(s.stamps, s.sendPackets)
    requires Delivers(arrivals, |s.stamps|) && Admissible(NumbersOf(arrivals))
    ensures var stat := OnStop(s, SendResult(ReceiveAll(s.cmd, s.stamps, arrivals), 0, r), k);
            && stat.loss == 1.0 - |Numbers(NumbersOf(arrivals))| as real / s.sendPackets as real
            && 0.0 <= stat.loss <= 1.0 && LossFits(stat)
            && stat.recvPackets == |Numbers(NumbersOf(arrivals))| <= stat.sendPackets
            && stat.recvBytes <= stat.sendBytes
  {
    DeliveryIsCounted(s.cmd, s.stamps, arrivals, r);
    SentBytesExactly(s, SendResult(ReceiveAll(s.cmd, s.stamps, arrivals), 0, r), k);
    ShareReceived(|Numbers(NumbersOf(arrivals))|, s.sendPackets);
  }

  /** The loss of a ping is a fraction if and only if no more echoes came back
      than were sent out; nothing filters an echo that is doubled. */
  lemma PingLoss(s: Sender, stat: NetStat, k: Nanos)
    requires s.cmd.kind.Ping? && s.sendPackets > 0
    ensures 0.0 <= OnStop(s, stat, k).loss <= 1.0 <==> s.echoes.n <= s.sendPackets
  {
    ShareReceived(s.echoes.n, s.sendPackets);
  }

  // ------------------------------------------------------ in callbacks of runs

  /** The packets asked for that the peers which succeeded did not get. */
  function Missing(c: Command, os: seq<Outcome>): int { Successes(os) * Wanted(c) - ReceivedPackets(os) }

  predicate LossOfShares(x: Completion) {
    x.final.Settled? &&
    var most := SentBytes(x.outcomes) * Successes(x.outcomes);
    && x.lost < Wanted(x.cmd) && SentBytes(x.outcomes) == (Wanted(x.cmd) - x.lost) * BufferSize(x.cmd)
    && (Successes(x.outcomes) == |x.outcomes| ==> x.lost == 0)
    && (0.0 <= x.final.stat.loss <= 1.0 <==> 0 <= ReceivedBytes(x.outcomes) <= most)
    && (x.final.stat.loss < 0.0 <==> ReceivedBytes(x.outcomes) > most)
  }

  /** The loss that the callback of a multicast command gets, in any run: a
      fraction if and only if the peers counted no more bytes than the successful
      ones sent together, once for each of them; and what these sent is the count
      of the command less the packets lost with their peers. */
  lemma CallbackSharedLoss(s: State, i: nat)
    requires Reachable(s) && i < |s.completed| && s.completed[i].cmd.kind.Multicast? && s.completed[i].final.Settled?
    ensures LossOfShares(s.completed[i])
  {
    CallbackResults(s, i);
    SharesOfCompletion(s.completed[i]);
  }

  lemma SharesOfCompletion(x: Completion)
    requires CompletionSound(x) && x.cmd.kind.Multicast? && x.final.Settled?
    ensures LossOfShares(x)
  {
    MulticastLossExactly(x.outcomes);
    SomethingSent(x.outcomes);
    assert SharedSound(x.cmd, x.outcomes, x.lost);
    NotAllLost(Wanted(x.cmd), x.lost, BufferSize(x.cmd));
  }

  lemma NotAllLost(w: nat, lost: nat, n: nat)
    requires lost <= w && (w - lost) * n > 0
    ensures lost < w
  {
  }

  lemma SomethingSent(os: seq<Outcome>)
    requires AllCounted(os) && FinalOf(os, true).Settled?
    ensures Successes(os) > 0 && SentBytes(os) > 0
  {
    CountsOfCollect(os);
    ActiveBySentBytes(os);
  }

  lemma CallbackTold(s: State, i: nat, ch: Channel)
    requires Proper(s) && i < |s.completed| && if ch.AnyChannel? then Reachable(s) else ReachableOver(ch, s)
    ensures Reachable(s) && AllTold(s.completed[i].cmd, s.completed[i].outcomes, ch)
  {
    if ch.AnyChannel? { ReachableHasFigures(s); } else { ReachableOverHasFigures(s, ch); }
    assert s.completed[i] in s.completed;
  }

  predicate LossIsMissing(x: Completion) {
    && x.final.Settled? && Successes(x.outcomes) * Wanted(x.cmd) > 0
    && x.final.stat.loss == Missing(x.cmd, x.outcomes) as real / (Successes(x.outcomes) * Wanted(x.cmd)) as real
  }

  /** The loss that the callback of a ping or unicast command gets, in any run: the
      share of the packets it asked for, once for each success, that were not
      received. */
  lemma CallbackLoss(s: State, i: nat)
    requires Reachable(s) && Proper(s) && i < |s.completed|
    requires !s.completed[i].cmd.kind.Multicast? && s.completed[i].final.Settled?
    ensures LossIsMissing(s.completed[i])
  {
    CallbackTold(s, i, AnyChannel);
    CallbackResults(s, i);
    CallbackExact(s, i);
    assert s.completed[i] in s.completed;
    LossOfCompletion(s.completed[i]);
  }

  lemma LossOfCompletion(x: Completion)
    requires CompletionSound(x) && Pushable(x.cmd) && !x.cmd.kind.Multicast? && x.final.Settled?
    requires AllTold(x.cmd, x.outcomes, AnyChannel)
    ensures LossIsMissing(x)
  {
    var c, os := x.cmd, x.outcomes;
    OwnFinal(c, os);
    CountsOfCollect(os);
    PaidCounted(c, os);
    forall i | 0 <= i < |os| && os[i].Some? ensures LossIsShare(os[i].value, Wanted(c)) {
      assert Told(c, os[i].value, AnyChannel);
    }
    SharesAveraged(os, Wanted(c));
    MulMonotone(Wanted(c), 1, Successes(os));
  }

  /** Over faithful channels it is a fraction, whatever else happens in the run. */
  lemma FaithfulLoss(s: State, i: nat)
    requires FaithfullyReachable(s) && Proper(s) && i < |s.completed|
    requires !s.completed[i].cmd.kind.Multicast? && s.completed[i].final.Settled?
    ensures var x := s.completed[i];
            && LossIsMissing(x) && 0 <= Missing(x.cmd, x.outcomes) <= Successes(x.outcomes) * Wanted(x.cmd)
            && 0.0 <= x.final.stat.loss <= 1.0
  {
    var x := s.completed[i];
    CallbackTold(s, i, FaithfulChannel);
    CallbackLoss(s, i);
    forall j | 0 <= j < |x.outcomes| && x.outcomes[j].Some? ensures Honest(x.cmd, x.outcomes[j].value) {
      assert Told(x.cmd, x.outcomes[j].value, FaithfulChannel);
    }
    ReceivedBounds(x.outcomes, Wanted(x.cmd));
    UnitInterval(Missing(x.cmd, x.outcomes) as real, (Successes(x.outcomes) * Wanted(x.cmd)) as real);
  }

  /** The pings that leave bound the echoes that are counted: what a sender of a ping
      has counted its client has echoed, and what that has echoed was sent. */
  lemma FaithfulEchoes(s: State, p: PeerId)
    requires FaithfullyReachable(s) && Proper(s) && p in s.links
    requires s.links[p].sender.Some? && s.links[p].sender.value.cmd.kind.Ping?
    ensures s.links[p].sender.value.echoes.n <= |s.links[p].echoed| <= s.links[p].sender.value.sendPackets
  {
    ReachableOverHasFigures(s, FaithfulChannel);
    assert Measured(s.links[p], FaithfulChannel);
    EchoesWithinPings(s.links[p]);
  }

  /** Over the same channels, the callback of a multicast command gets a loss of at
      most one. It is negative if and only if the successful peers miss fewer
      packets than went with the lost peers, counted once for each success: what
      a lost peer sent is received by the others, but missing from the bytes
      sent. A command that lost no peer has a fraction. */
  lemma FaithfulSharedLoss(s: State, i: nat)
    requires FaithfullyReachable(s) && Proper(s) && i < |s.completed|
    requires s.completed[i].cmd.kind.Multicast? && s.completed[i].final.Settled?
    ensures var x := s.completed[i];
            && x.final.stat.loss <= 1.0 && 0 <= Missing(x.cmd, x.outcomes)
            && (x.final.stat.loss < 0.0 <==> Missing(x.cmd, x.outcomes) < x.lost * Successes(x.outcomes))
            && (Successes(x.outcomes) == |x.outcomes| ==> 0.0 <= x.final.stat.loss)
  {
    CallbackTold(s, i, FaithfulChannel);
    CallbackSharedLoss(s, i);
    HonestLoss(s.completed[i]);
  }

  lemma HonestLoss(x: Completion)
    requires x.cmd.kind.Multicast? && LossOfShares(x) && AllTold(x.cmd, x.outcomes, FaithfulChannel)
    ensures x.final.stat.loss <= 1.0 && 0 <= Missing(x.cmd, x.outcomes)
    ensures x.final.stat.loss < 0.0 <==> Missing(x.cmd, x.outcomes) < x.lost * Successes(x.outcomes)
    ensures Successes(x.outcomes) == |x.outcomes| ==> 0.0 <= x.final.stat.loss
  {
    HonestShares(x.cmd, x.outcomes, x.lost);
  }

  /** In packets: what the peers of a multicast command received and sent. */
  lemma HonestShares(c: Command, os: seq<Outcome>, lost: nat)
    requires c.kind.Multicast? && AllTold(c, os, FaithfulChannel) && lost <= Wanted(c)
    ensures 0 <= ReceivedBytes(os) && 0 <= Missing(c, os)
    ensures ReceivedBytes(os) > (Wanted(c) - lost) * BufferSize(c) * Successes(os) <==> Missing(c, os) < lost * Successes(os)
  {
    var n, w, got, k := BufferSize(c), Wanted(c), ReceivedPackets(os), Successes(os);
    assert forall i :: 0 <= i < |os| && os[i].Some? ==> Honest(c, os[i].value);
    BytesArePackets(os, n);
    ReceivedBounds(os, w);
    MulMonotone(n, 0, got);
    Scaled(got, (w - lost) * k, n);
    Rearranged(w - lost, n, k);
    Spread(w, lost, k);
  }

  lemma Scaled(a: int, b: int, n: nat)
    requires n > 0
    ensures a > b <==> a * n > b * n
  {
    if a > b { MulMonotone(n, b + 1, a); } else { MulMonotone(n, a, b); }
  }

  lemma Rearranged(a: int, n: int, b: int)
    ensures a * b * n == a * n * b
  {
  }

  lemma Spread(w: int, lost: int, n: int)
    ensures n * w - lost * n == (w - lost) * n
  {
  }
}
