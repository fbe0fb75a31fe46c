/** Channels that lose, double and reorder, but make nothing up: every datagram
    that a receiver takes for its own is a copy of one that was stamped for its
    command, and the order of the arrivals is one the duplicate filter can follow. */
module Channels {
  import opened Wrappers
  import opened SequenceWindow
  import opened DuplicateFilter
  import opened NetStats
  import opened SpeedGauge
  import opened Commands
  import opened MulticastPacing
  import opened CommandSenders
  import opened CommandReceivers
  import opened ClientLedger
  import opened Peers
  import opened Server
  import opened ServerInvariant
  import opened ServerGuarantees
  import Client

  /** The numbers written so far into the datagrams meant for this peer. */
  function StampsFor(l: Link, p: Pacing): seq<SeqNo> {
    if l.sender.None? then [] else if l.sender.value.cmd.kind.Multicast? then p.stamps else l.sender.value.stamps
  }

  /** A copy of a datagram that was stamped. */
  predicate Stamped(d: Datagram, c: Command, stamps: seq<SeqNo>) {
    0 <= d.number < |stamps| && d.sequence == stamps[d.number] && d.size == BufferSize(c)
  }

  /** One that the filter can follow after those heard before. */
  ghost predicate Genuine(d: Datagram, c: Command, stamps: seq<SeqNo>, heard: seq<int>) {
    Stamped(d, c, stamps) && Admissible(heard + [d.number])
  }

  /** A packet at the receiver of a "send" is genuine. One at the receiver of a ping is
      a copy of a ping that was sent and has not been accepted before, and one that
      comes back to the sender of a ping is something its client has echoed and that
      has not come back before: pings and echoes may be lost and overtake each other.
      All else may happen as it likes. */
  ghost predicate FaithfulAt(l: Link, p: Pacing, e: PeerEvent) {
    match e
    case ClientGet(sock, d) =>
      (match l.client.receiver
       case Some(SendR(c, r)) =>
         MeantFor(c, Handed(sock, d)) && IsPacketOf(c, d) ==> Genuine(d, c, StampsFor(l, p), r.numbers)
       case Some(EchoR(c, r)) =>
         MeantFor(c, Handed(sock, d)) && IsPacketOf(c, d) ==>
           Stamped(d, c, StampsFor(l, p)) && d.number !in NumbersIn(r.accepted)
       case None => true)
    case ServerEcho(legal, _, index) =>
      (match l.sender
       case Some(x) => legal && x.cmd.kind.Ping? ==> index < |l.echoed| && index !in l.returned
       case None => true)
    case _ => true
  }

  /** Nothing is lost, doubled, out of order or made up on the way to the clients: each
      is handed the packets of its command, the next one each time, on the socket
      they are meant for, while it listens; and it reads the stop after the last one. */
  predicate PerfectAt(l: Link, p: Pacing, e: PeerEvent) {
    match e
    case ClientGet(sock, d) =>
      l.sender.Some? && l.client.receiver.Some? &&
      var c := l.sender.value.cmd;
      && MeantFor(c, Handed(sock, d)) && IsPacketOf(c, d) && Stamped(d, c, StampsFor(l, p)) && d.number == |l.handed|
    case ClientRead => l.toClient == [Message.Stop] ==> |l.handed| == |StampsFor(l, p)|
    case _ => true
  }

  datatype Channel = AnyChannel | FaithfulChannel | PerfectChannel

  ghost predicate AllowedAt(ch: Channel, l: Link, p: Pacing, e: PeerEvent) {
    match ch
    case AnyChannel => true
    case FaithfulChannel => FaithfulAt(l, p, e)
    case PerfectChannel => FaithfulAt(l, p, e) && PerfectAt(l, p, e)
  }

  ghost predicate Allowed(ch: Channel, s: State, e: Event) {
    e.At? && e.p in s.links ==> AllowedAt(ch, s.links[e.p], s.pacing, e.e)
  }

  /** The state after a run over such channels. */
  ghost function AfterOver(ch: Channel, es: seq<Event>): Option<State> {
    if es == [] then Some(INITIAL)
    else
      var s, e := AfterOver(ch, es[..|es| - 1]), es[|es| - 1];
      if s.Some? && Enabled(s.value, e) && Allowed(ch, s.value, e) then Some(Step(s.value, e)) else None
  }

  ghost predicate LeadsToOver(ch: Channel, es: seq<Event>, s: State) { AfterOver(ch, es) == Some(s) }

  ghost predicate ReachableOver(ch: Channel, s: State) {
    exists es :: LeadsToOver(ch, es, s)
  }

  ghost predicate FaithfullyReachable(s: State) { ReachableOver(FaithfulChannel, s) }

  ghost predicate PerfectlyReachable(s: State) { ReachableOver(PerfectChannel, s) }

  lemma {:induction false} RunsOverAreRuns(ch: Channel, es: seq<Event>)
    requires AfterOver(ch, es).Some?
    ensures After(es) == AfterOver(ch, es)
  {
    if es != [] { RunsOverAreRuns(ch, es[..|es| - 1]); }
  }

  // ---------------------------------------------------------- at one receiver

  ghost predicate AllBelow(ns: seq<int>, n: nat) {
    forall i :: 0 <= i < |ns| ==> 0 <= ns[i] < n
  }

  /** What a receiver has counted is what it was sent. */
  ghost predicate Tallied(c: Command, r: SendState) {
    && Admissible(r.numbers) && AllBelow(r.numbers, Wanted(c))
    && r.filter == Run(r.numbers) && r.bytes == r.filter.recv * BufferSize(c)
  }

  lemma NothingTallied(c: Command)
    ensures Tallied(c, NewSendState())
  {
  }

  lemma LegalCounted(r: SendState, d: Datagram, c: Command)
    requires Legal(d, c.token)
    ensures var r' := SendRecv(r, d, c);
            && r'.filter == Arrive(r.filter, d.sequence) && r'.illegal == r.illegal && r'.numbers == r.numbers + [d.number]
            && if r.filter.window.bits[d.sequence] then r'.filter.recv == r.filter.recv && r'.bytes == r.bytes
               else r'.filter.recv == r.filter.recv + 1 && r'.bytes == r.bytes + d.size
  {
  }

  lemma NextTimes(n: nat, size: nat)
    ensures (n + 1) * size == n * size + size
  {
  }

  lemma LegalReceived(r: SendState, d: Datagram, c: Command)
    requires Legal(d, c.token) && r.bytes == r.filter.recv * d.size
    ensures var r' := SendRecv(r, d, c);
            && r'.filter == Arrive(r.filter, d.sequence) && r'.illegal == r.illegal
            && r'.bytes == r'.filter.recv * d.size && r'.numbers == r.numbers + [d.number]
  {
    LegalCounted(r, d, c);
    NextTimes(r.filter.recv, d.size);
  }

  lemma TalliedGrows(c: Command, r: SendState, d: Datagram, stamps: seq<SeqNo>)
    requires Tallied(c, r) && Consecutive(stamps, |stamps|) && |stamps| <= Wanted(c)
    requires Legal(d, c.token) ==> Genuine(d, c, stamps, r.numbers)
    ensures Tallied(c, SendRecv(r, d, c))
  {
    if Legal(d, c.token) {
      LegalReceived(r, d, c);
      RunGrows(r.numbers, d.number);
    }
  }

  /** The result of a client, heard over such a channel. */
  predicate Heard(c: Command, stat: NetStat) {
    stat.loss == 0.0 && 0 <= stat.recvPackets <= Wanted(c) && stat.recvBytes == stat.recvPackets * BufferSize(c)
  }

  lemma TalliedReport(c: Command, r: SendState, outside: nat, elapsed: Nanos)
    requires Tallied(c, r)
    ensures Heard(c, SendResult(r, outside, elapsed))
    ensures SendResult(r, outside, elapsed).recvPackets == |Numbers(r.numbers)|
  {
    FilterCounts(r.numbers);
    NumbersBelow(r.numbers, Wanted(c));
  }

  // --------------------------------------------------------- along the echoes

  lemma {:induction false} AllDifferent(ns: seq<int>)
    requires Distinct(ns)
    ensures |Numbers(ns)| == |ns|
  {
    if ns != [] {
      var front, n := ns[..|ns| - 1], ns[|ns| - 1];
      assert ns == front + [n];
      DistinctGrows(front, n);
      AllDifferent(front);
      assert Numbers(ns) == Numbers(front) + {n};
    }
  }

  /** Different numbers below a bound are no more than the bound. */
  lemma NoMoreThan(ns: seq<int>, n: nat)
    requires Distinct(ns) && AllBelow(ns, n)
    ensures |ns| <= n
  {
    AllDifferent(ns);
    NumbersBelow(ns, n);
  }

  /** The pings a client has accepted are different ones that were sent. */
  ghost predicate PingsTraced(r: EchoState, sent: nat) {
    Distinct(NumbersIn(r.accepted)) && AllBelow(NumbersIn(r.accepted), sent)
  }

  /** From the pings that were sent over those that were accepted and those that
      were echoed to the echoes that have been counted. */
  ghost predicate Traced(l: Link) {
    l.sender.Some? && l.sender.value.cmd.kind.Ping? ==>
      var x := l.sender.value;
      && x.echoes.n == |l.returned| && Distinct(l.returned) && AllBelow(l.returned, |l.echoed|)
      && |l.echoed| <= x.sendPackets
      && match l.client.receiver
         case Some(EchoR(_, r)) => PingsTraced(r, x.sendPackets) && (!l.closed ==> l.echoed == r.echoed)
         case Some(SendR(_, _)) => false
         case None => !x.started ==> l.echoed == []
  }

  /** No more echoes are counted than pings were sent. */
  lemma EchoesWithinPings(l: Link)
    requires Traced(l) && l.sender.Some? && l.sender.value.cmd.kind.Ping?
    ensures l.sender.value.echoes.n <= |l.echoed| <= l.sender.value.sendPackets
  {
    NoMoreThan(l.returned, |l.echoed|);
  }

  lemma BeginTraced(l: Link, c: Command)
    requires Resting(l)
    ensures Traced(Begin(l, c))
  {
  }

  /** Steps of the server that count no echo. */
  lemma ServerKeepsTrace(l: Link, l': Link)
    requires Traced(l) && l.sender.Some? && l'.sender.Some? && SameEchoes(l.sender.value, l'.sender.value)
    requires l'.client == l.client && l'.echoed == l.echoed && l'.returned == l.returned && l'.closed == l.closed
    ensures Traced(l')
  {
  }

  lemma EchoTraced(l: Link, p: Pacing, legal: bool, delay: int, index: nat)
    requires Traced(l) && FaithfulAt(l, p, ServerEcho(legal, delay, index))
    ensures Traced(EchoArrives(l, legal, delay, index))
  {
    DistinctGrows(l.returned, index);
  }

  lemma AcceptedTraced(r: EchoState, d: Datagram, c: Command, sent: nat)
    requires PingsTraced(r, sent) && (Legal(d, c.token) ==> 0 <= d.number < sent && d.number !in NumbersIn(r.accepted))
    ensures PingsTraced(EchoRecv(r, d, c), sent) && EchoRecv(r, d, c).echoed == r.echoed
  {
    DistinctGrows(NumbersIn(r.accepted), d.number);
    assert NumbersIn(r.accepted + [d]) == NumbersIn(r.accepted) + [d.number];
  }

  lemma GetTraced(l: Link, p: Pacing, sock: Client.Sock, d: Datagram)
    requires Sound(l) && Traced(l) && FaithfulAt(l, p, ClientGet(sock, d))
    ensures Traced(ClientGets(l, sock, d))
  {
    if l.sender.Some? && l.sender.value.cmd.kind.Ping? && l.client.receiver.Some? && sock.Data? {
      SentInOrder(l);
      AcceptedTraced(l.client.receiver.value.echo, d, l.client.receiver.value.cmd, l.sender.value.sendPackets);
    }
  }

  lemma ReadTraced(l: Link)
    requires Sound(l) && Traced(l) && l.toClient != []
    ensures Traced(ClientReads(l))
  {
  }

  /** What is echoed has been accepted. */
  lemma EchoesAccepted(r: EchoState, budget: nat, sent: nat)
    requires EchoSound(r) && PingsTraced(r, sent)
    ensures var r' := EchoSend(r, budget);
            |r.echoed| <= |r'.echoed| <= sent && PingsTraced(r', sent)
  {
    NoMoreThan(NumbersIn(r.accepted), sent);
  }

  lemma WriteTraced(l: Link, budget: nat)
    requires Sound(l) && Traced(l) && !l.closed && Client.DataWrite(l.client)
    ensures Traced(ClientEchoes(l, budget))
  {
    if l.sender.Some? && l.sender.value.cmd.kind.Ping? {
      EchoesAccepted(l.client.receiver.value.echo, budget, l.sender.value.sendPackets);
    }
  }

  lemma AnswerTraced(l: Link, budget: nat, k: Nanos)
    requires Sound(l) && Traced(l) && !l.closed && l.client.receiver.Some? && l.client.controlWrite
    ensures Traced(ClientAnswers(l, budget, k))
  {
    if l.sender.Some? && l.sender.value.cmd.kind.Ping? {
      EchoesAccepted(l.client.receiver.value.echo, budget, l.sender.value.sendPackets);
    }
  }

  // ------------------------------------------------------- over perfect channels

  /** The packets of a command, from the first one on, as they were stamped. */
  predicate InOrderOf(hs: seq<Handed>, c: Command) {
    forall i :: 0 <= i < |hs| ==>
      && MeantFor(c, hs[i]) && IsPacketOf(c, hs[i].d) && hs[i].d.number == i && hs[i].d.sequence == Wrap(i)
      && hs[i].d.size == BufferSize(c)
  }

  /** A client has been handed the packets of its command one by one, and all of them
      when it has read the stop. */
  predicate Whole(l: Link) {
    match l.sender
    case None => l.handed == []
    case Some(x) =>
      && InOrderOf(l.handed, x.cmd) && |l.handed| <= Wanted(x.cmd)
      && (if l.client.receiver.None? then l.handed == [] else l.told == 0) && (l.client.controlWrite ==> |l.handed| == Wanted(x.cmd))
  }

  /** All stamps of a command that is being stopped have been written. */
  ghost predicate StampedOut(l: Link, p: Pacing) {
    l.sender.Some? && AwaitsResult(PhaseOf(l, l.sender.value)) ==> |StampsFor(l, p)| == Wanted(l.sender.value.cmd)
  }

  lemma GetWhole(l: Link, p: Pacing, sock: Client.Sock, d: Datagram)
    requires Whole(l) && PerfectAt(l, p, ClientGet(sock, d)) && Sound(l)
    requires Consecutive(StampsFor(l, p), |StampsFor(l, p)|) && |StampsFor(l, p)| <= Wanted(l.sender.value.cmd)
    ensures Whole(ClientGets(l, sock, d))
  {
    var next := l.handed + [Handed(sock, d)];
    assert forall i :: 0 <= i < |l.handed| ==> next[i] == l.handed[i];
  }

  lemma ReadWhole(l: Link, p: Pacing)
    requires Whole(l) && PerfectAt(l, p, ClientRead) && Sound(l) && l.toClient != [] && StampedOut(l, p)
    ensures Whole(ClientReads(l))
  {
    ClientReadsSound(l);
  }

  lemma AnswerWhole(l: Link, budget: nat, k: Nanos)
    requires Whole(l) && l.client.receiver.Some?
    ensures Whole(ClientAnswers(l, budget, k))
  {
  }

  lemma SameWhole(l: Link, l': Link)
    requires Whole(l) && l'.client == l.client && l'.handed == l.handed && l'.told == l.told
    requires if l.sender.None? then l'.sender.None? else l'.sender.Some? && l'.sender.value.cmd == l.sender.value.cmd
    ensures Whole(l')
  {
  }

  lemma {:induction false} FilteredInOrder(ds: seq<Datagram>)
    requires forall i :: 0 <= i < |ds| ==> ds[i].sequence == Wrap(i)
    ensures FilterOver(ds) == Run(UpTo(|ds|))
  {
    if ds == [] {
      assert UpTo(0) == [];
    } else {
      var n := |ds| - 1;
      FilteredInOrder(ds[..n]);
      assert UpTo(|ds|)[..n] == UpTo(n);
    }
  }

  lemma {:induction false} InOrderPackets(hs: seq<Handed>, c: Command)
    requires InOrderOf(hs, c)
    ensures |Packets(hs, c)| == |hs| && forall i :: 0 <= i < |hs| ==> Packets(hs, c)[i] == hs[i].d
    ensures Rejected(hs, c) == Astray(hs, c) == 0
  {
    if hs != [] { InOrderPackets(hs[..|hs| - 1], c); }
  }

  /** All packets of `c` were received, and nothing else. */
  predicate AllReceived(c: Command, stat: NetStat) {
    && stat.recvPackets == Wanted(c) && stat.illegalPackets == 0 && stat.duplicatePackets == 0 && stat.reorderPackets == 0
  }

  /** A client that has read the stop reports exactly the packets of its command. */
  lemma AllReported(l: Link, budget: nat, k: Nanos)
    requires Whole(l) && Routed(l) && Sound(l) && l.client.controlWrite && l.sender.Some? && !l.sender.value.cmd.kind.Ping?
    ensures l.client.receiver.Some? && AllReceived(l.sender.value.cmd, Client.AfterResult(l.client, budget, k).1)
  {
    var c := l.sender.value.cmd;
    ClientAnswersSound(l, budget, k);
    ClientReports(l, budget, k);
    assert l.handed[..0] == [] && l.handed[0..] == l.handed;
    InOrderPackets(l.handed, c);
    FilteredInOrder(Packets(l.handed, c));
    InOrderIsPerfect(|l.handed|);
    FreshCounted(Packets(l.handed, c));
  }
}
