/** The runs in which no ping below one has been started: the messages between the
    server and its peers are in their order throughout, each sender is in one phase,
    and the barrier of a multicast command holds. */
module ServerRuns {
  import opened Wrappers
  import opened NetStats
  import opened Commands
  import opened SpeedGauge
  import opened MulticastPacing
  import opened CommandSenders
  import opened CommandReceivers
  import opened Peers
  import opened Server
  import opened ServerInvariant
  import opened SteadyRuns
  import Client

  // ------------------------------------------------------------ the invariant

  /** The commands that have been taken from the queue are pushable. */
  ghost predicate Proper(s: State) {
    (forall x :: x in s.completed ==> Pushable(x.cmd)) && (s.current.Some? ==> Pushable(s.current.value))
  }

  ghost predicate Members(s: State) {
    forall p :: p in s.links ==> Member(s.links[p])
  }

  /** A peer that succeeded in a command of its own has sent all of it. */
  predicate Exact(c: Command, o: Outcome) {
    o.Some? ==> o.value.sendPackets == Wanted(c) && o.value.sendBytes == Wanted(c) * BufferSize(c)
  }

  predicate AllExact(c: Command, os: seq<Outcome>) {
    forall i :: 0 <= i < |os| ==> Exact(c, os[i])
  }

  /** What the barrier and the shared counter mean for one peer. */
  predicate Shares(barrierOpen: bool, count: nat, l: Link) {
    l.sender.Some? ==>
      var x := l.sender.value;
      && (!barrierOpen ==> !l.data && !x.clock && !x.stoping && x.sendPackets == 0)
      && (barrierOpen ==> x.started && (!x.clock && !x.stoping ==> l.data))
      && (x.stoping ==> count >= x.cmd.count)
  }

  ghost predicate AllShare(s: State) {
    forall p :: p in s.ready && p in s.links ==> Shares(s.barrierOpen, s.pacing.count, s.links[p])
  }

  ghost predicate PhasedOf(s: State, c: Command) {
    if c.kind.Multicast? then AllShare(s) && (!s.barrierOpen ==> s.pacing == RESTARTED) else AllExact(c, s.outcomes)
  }

  ghost predicate Phased(s: State) {
    s.running && s.current.Some? ==> PhasedOf(s, s.current.value)
  }

  ghost predicate FinalsExact(s: State) {
    forall x :: x in s.completed && !x.cmd.kind.Multicast? ==> AllExact(x.cmd, x.outcomes)
  }

  /** Until the barrier of a multicast command opens, no peer that was given a
      command has finished it. */
  ghost predicate Waiting(s: State) {
    s.running && s.current.Some? && s.current.value.kind.Multicast? && !s.barrierOpen ==>
      forall p :: p in s.links && s.links[p].command.Some? ==> s.links[p].reporting
  }

  ghost predicate Good(s: State) {
    Steady(s) && Members(s) && Phased(s) && FinalsExact(s) && Waiting(s)
  }

  // -------------------------------------- what a step does to a peer's share

  /** A step of one peer that does not touch its payload. */
  predicate Aside(l: Link, l': Link) {
    && l'.reporting == l.reporting && SentBy(l') == SentBy(l) && l'.command == l.command
    && l'.authed == l.authed && (l'.sender.Some? <==> l.sender.Some?)
    && (l.sender.Some? ==> l'.sender.value.cmd == l.sender.value.cmd)
  }

  lemma SendsAside(l: Link, ok: bool, barrierOpen: bool, count: nat)
    requires Sound(l) && l.control && l.sender.Some?
    ensures Aside(l, ServerSends(l, ok).0)
    ensures Shares(barrierOpen, count, l) ==> Shares(barrierOpen, count, ServerSends(l, ok).0)
  {
  }

  lemma ReadsAside(l: Link, k: Nanos, barrierOpen: bool, count: nat)
    requires Sound(l) && l.sender.Some?
    ensures Aside(l, ServerReads(l, k).0)
    ensures l.sender.value.cmd.kind.Multicast? && Shares(barrierOpen, count, l) ==>
              Shares(barrierOpen, count, ServerReads(l, k).0)
  {
  }

  /** The result of a sender that is done. */
  lemma FinishedReport(l: Link, k: Nanos)
    requires Sound(l) && l.sender.Some? && ServerReads(l, k).1.Finished?
    ensures var x, stat, c := l.sender.value, ServerReads(l, k).1.stat, l.sender.value.cmd;
            && stat.sendBytes == x.sendPackets * BufferSize(c)
            && (c.kind.Multicast? ==> x.stoping)
            && (!c.kind.Multicast? ==> Exact(c, Some(stat)))
  {
  }

  lemma WritesAside(l: Link, p: Pacing, now: Clock, ok: bool)
    requires Sound(l) && l.data && l.sender.Some?
    ensures var l' := ServerWrites(l, p, now, ok).0;
            && l'.reporting == l.reporting && l'.command == l.command && l'.authed == l.authed
            && l'.sender.Some? && l'.sender.value.cmd == l.sender.value.cmd
    ensures !l.sender.value.cmd.kind.Multicast? ==> ServerWrites(l, p, now, ok).1 == p
  {
  }

  /** The shared counter moves by what the peer has sent, or a send has failed. */
  lemma WritesShared(l: Link, p: Pacing, now: Clock, ok: bool, barrierOpen: bool)
    requires Sound(l) && l.data && l.sender.Some? && l.sender.value.cmd.kind.Multicast?
    requires PacingSound(p, l.sender.value.cmd) && SentBy(l) <= p.count && Shares(barrierOpen, p.count, l)
    ensures barrierOpen
    ensures var (l', p', e) := ServerWrites(l, p, now, ok);
            && PacingSound(p', l.sender.value.cmd) && p'.count >= p.count
            && Shares(barrierOpen, p'.count, l')
            && p'.count - p.count == p'.failed - p.failed + SentBy(l') - SentBy(l)
            && (p'.failed == p.failed || e.Remove?)
  {
    var x, c := DeskOf(l), l.sender.value.cmd;
    if !x.s.stoping && !TryStop(x.s, p) { PacedSendSound(p, c, now, ok); }
  }

  lemma TimerAside(l: Link, p: Pacing, barrierOpen: bool)
    requires Sound(l) && l.sender.Some? && l.sender.value.timer
    ensures Aside(l, TimerFires(l, p))
    ensures l.sender.value.cmd.kind.Multicast? && PacingSound(p, l.sender.value.cmd) && SentBy(l) <= p.count &&
            Shares(barrierOpen, p.count, l) ==>
              Shares(barrierOpen, p.count, TimerFires(l, p))
  {
  }

  // ------------------------------------------------ what a handler leaves behind

  /** How the handler of a peer that takes part in `c` may change its link and the
      shared counter. */
  ghost predicate Keeps(s: State, c: Command, l: Link, pacing: Pacing, e: Effect) {
    if c.kind.Multicast? then
      && pacing.count >= s.pacing.count && Shares(s.barrierOpen, pacing.count, l)
      && (!s.barrierOpen ==> pacing == RESTARTED && !e.Finished?)
    else pacing == s.pacing && (e.Finished? ==> Exact(c, Some(e.stat)))
  }

  ghost predicate Fair(s: State, p: PeerId, l: Link, pacing: Pacing, e: Effect)
    requires p in s.links
  {
    && l.reporting == s.links[p].reporting && l.command == s.links[p].command
    && (e.Continue? ==> Member(l))
    && (e.Finished? ==> l.reporting && Member(l.(sender := None, reporting := false)))
    && (if l.reporting then s.current.Some? ==> Keeps(s, s.current.value, l, pacing, e) else pacing == s.pacing)
  }

  lemma StoppedLinks(s: State, p: PeerId, o: Outcome)
    requires p in s.links
    ensures Stopped(s, p, o).links == s.links[p := s.links[p].(reporting := false)]
  {
  }

  lemma ErasedLinks(s: State, p: PeerId)
    requires p in s.links
    ensures Erase(s, p).links == s.links - {p}
  {
    StoppedLinks(s, p, None);
  }

  lemma CompletedLinks(s: State, p: PeerId, stat: NetStat)
    requires p in s.links
    ensures Complete(s, p, stat).links == s.links[p := s.links[p].(sender := None, reporting := false)]
  {
    StoppedLinks(s, p, Some(stat));
  }

  lemma LeftMembers(s: State, t: State, p: PeerId)
    requires (forall q :: q in s.links && q != p ==> Member(s.links[q])) && t.links == s.links - {p}
    ensures Members(t)
  {
  }

  lemma DoneMembers(s: State, t: State, p: PeerId)
    requires (forall q :: q in s.links && q != p ==> Member(s.links[q])) && p in s.links
    requires Member(s.links[p].(sender := None, reporting := false))
    requires t.links == s.links[p := s.links[p].(sender := None, reporting := false)]
    ensures Members(t)
  {
  }

  lemma HandledMembers(s: State, p: PeerId, l: Link, e: Effect)
    requires Members(s) && (e.Continue? ==> Member(l)) && (e.Finished? ==> Member(l.(sender := None, reporting := false)))
    ensures Members(Handled(s, p, l, e))
  {
    var t := s.(links := s.links[p := l]);
    match e
    case Continue =>
    case Remove =>
      ErasedLinks(t, p);
      LeftMembers(t, Erase(t, p), p);
    case Finished(stat) =>
      CompletedLinks(t, p, stat);
      DoneMembers(t, Complete(t, p, stat), p);
  }

  lemma HandledWaiting(s: State, p: PeerId, l: Link, e: Effect)
    requires Waiting(s) && p in s.links && l.reporting == s.links[p].reporting && l.command == s.links[p].command
    requires e.Finished? && s.running && s.current.Some? && s.current.value.kind.Multicast? ==> s.barrierOpen
    ensures Waiting(Handled(s, p, l, e))
  {
  }

  /** Only the links of the peers that take part matter. */
  lemma PhasedFrame(s: State, peers: seq<PeerId>, links: map<PeerId, Link>)
    requires Phased(s) && forall q :: q in s.ready ==> q in s.links && q in links && links[q] == s.links[q]
    ensures Phased(s.(peers := peers, links := links))
  {
  }

  lemma UpdatedPhased(s: State, p: PeerId, l: Link, pacing: Pacing, e: Effect)
    requires Good(s) && !s.halted && p in s.links && Fair(s, p, l, pacing, e)
    ensures Phased(s.(pacing := pacing, links := s.links[p := l]))
  {
    if !l.reporting { PhasedFrame(s, s.peers, s.links[p := l]); }
  }

  lemma StoppedPhased(s: State, p: PeerId, o: Outcome)
    requires Shape(s) && s.running && p in s.ready && Phased(s) && FinalsExact(s)
    requires s.current.Some? && !s.current.value.kind.Multicast? ==> Exact(s.current.value, o)
    ensures Phased(Stopped(s, p, o)) && FinalsExact(Stopped(s, p, o))
  {
    WithoutMembers(s.ready, p);
    assert Phased(Noted(s, p, o)) && FinalsExact(Noted(s, p, o));
  }

  lemma ErasePhased(s: State, p: PeerId)
    requires Frame(s) && !s.halted && p in s.links && Phased(s) && FinalsExact(s)
    ensures Phased(Erase(s, p)) && FinalsExact(Erase(s, p))
  {
    if s.links[p].reporting {
      StoppedPhased(s, p, None);
      StoppedFrame(s, p, None);
      var t := Stopped(s, p, None);
      PhasedFrame(t, Without(t.peers, p), t.links - {p});
    } else {
      PhasedFrame(s, Without(s.peers, p), s.links - {p});
    }
  }

  lemma CompletePhased(s: State, p: PeerId, stat: NetStat)
    requires Frame(s) && !s.halted && p in s.links && s.links[p].reporting && Phased(s) && FinalsExact(s)
    requires s.current.Some? && !s.current.value.kind.Multicast? ==> Exact(s.current.value, Some(stat))
    ensures Phased(Complete(s, p, stat)) && FinalsExact(Complete(s, p, stat))
  {
    StoppedPhased(s, p, Some(stat));
    StoppedFrame(s, p, Some(stat));
    var t := Stopped(s, p, Some(stat));
    PhasedFrame(t, t.peers, t.links[p := t.links[p].(sender := None)]);
  }

  lemma HandledPhased(s: State, p: PeerId, l: Link, pacing: Pacing, e: Effect)
    requires Good(s) && !s.halted && p in s.links && Fair(s, p, l, pacing, e)
    ensures Phased(Handled(s.(pacing := pacing), p, l, e)) && FinalsExact(Handled(s.(pacing := pacing), p, l, e))
  {
    var t := s.(pacing := pacing, links := s.links[p := l]);
    UpdatedPhased(s, p, l, pacing, e);
    match e
    case Continue =>
    case Remove => ErasePhased(t, p);
    case Finished(stat) => CompletePhased(t, p, stat);
  }

  lemma FairKeepsRest(s: State, p: PeerId, l: Link, pacing: Pacing, e: Effect)
    requires Good(s) && !s.halted && p in s.links && Fair(s, p, l, pacing, e)
    ensures var t := Handled(s.(pacing := pacing), p, l, e);
            Members(t) && Phased(t) && FinalsExact(t) && Waiting(t)
  {
    HandledMembers(s.(pacing := pacing), p, l, e);
    HandledPhased(s, p, l, pacing, e);
    HandledWaiting(s.(pacing := pacing), p, l, e);
  }

  // --------------------------------------------------- the events of one peer

  lemma PeerInPool(s: State, p: PeerId)
    requires Good(s) && !s.halted && p in s.links && s.links[p].sender.Some?
    ensures p in s.ready && s.running && s.current == Some(s.links[p].sender.value.cmd) && s.links[p].reporting
    ensures TrafficOf(s, s.links[p].sender.value.cmd) && PhasedOf(s, s.links[p].sender.value.cmd)
    ensures s.links[p].sender.value.cmd.kind.Multicast? ==>
              && PacingSound(s.pacing, s.links[p].sender.value.cmd)
              && Shares(s.barrierOpen, s.pacing.count, s.links[p]) && SentBy(s.links[p]) <= s.pacing.count
  {
    PeerIsPaced(s, p);
  }

  /** What an event of one peer does is within what its handler may do. */
  ghost predicate EventFair(s: State, p: PeerId, e: PeerEvent)
    requires p in s.links && PeerEnabled(s.links[p], e)
  {
    var (l, pacing, f) := PeerStep(s.links[p], s.pacing, e);
    Fair(s, p, l, pacing, f)
  }

  /** An event can happen at a peer of a running server. */
  ghost predicate Possible(s: State, p: PeerId, e: PeerEvent) {
    Good(s) && !s.halted && p in s.links && PeerEnabled(s.links[p], e)
  }

  lemma ServerSendFair(s: State, p: PeerId, ok: bool)
    requires Possible(s, p, ServerSend(ok))
    ensures EventFair(s, p, ServerSend(ok))
  {
    PeerInPool(s, p);
    ServerSendsSound(s.links[p], ok);
    SendsAside(s.links[p], ok, s.barrierOpen, s.pacing.count);
  }

  lemma ServerReadFair(s: State, p: PeerId, k: Nanos)
    requires Possible(s, p, ServerRead(k))
    ensures EventFair(s, p, ServerRead(k))
  {
    var l := s.links[p];
    if l.sender.Some? { PartnerReadFair(s, p, k); } else { StrangerReads(l, k); }
  }

  /** A peer without a command can only bring its cookie, or be gone. */
  lemma StrangerReads(l: Link, k: Nanos)
    requires Sound(l) && l.sender.None? && (l.toServer != [] || l.closed)
    ensures var (l', e) := ServerReads(l, k);
            && l'.sender.None? && !e.Finished? && (e.Continue? ==> Sound(l'))
            && l'.reporting == l.reporting && l'.command == l.command && (l.authed ==> l'.authed)
  {
    ServerReadsSound(l, k);
  }

  lemma PartnerReadFair(s: State, p: PeerId, k: Nanos)
    requires Possible(s, p, ServerRead(k)) && s.links[p].sender.Some?
    ensures EventFair(s, p, ServerRead(k))
  {
    var l := s.links[p];
    PeerInPool(s, p);
    ServerReadsSound(l, k);
    ReadsAside(l, k, s.barrierOpen, s.pacing.count);
    if ServerReads(l, k).1.Finished? { FinishedReport(l, k); }
  }

  lemma ServerWriteFair(s: State, p: PeerId, now: Clock, ok: bool)
    requires Possible(s, p, ServerWrite(now, ok))
    ensures EventFair(s, p, ServerWrite(now, ok))
  {
    var l := s.links[p];
    ServerWritesSound(l, s.pacing, now, ok);
    if l.sender.Some? {
      PeerInPool(s, p);
      WritesAside(l, s.pacing, now, ok);
      if l.sender.value.cmd.kind.Multicast? { WritesShared(l, s.pacing, now, ok, s.barrierOpen); }
    }
  }

  lemma TimerFair(s: State, p: PeerId)
    requires Possible(s, p, TimerRunsOut)
    ensures EventFair(s, p, TimerRunsOut)
  {
    PeerInPool(s, p);
    TimerFiresSound(s.links[p], s.pacing);
    TimerAside(s.links[p], s.pacing, s.barrierOpen);
  }

  /** A step that leaves the sender alone, but for the echoes it counts. */
  ghost predicate Quiet(l: Link, l': Link) {
    && Sound(l') && Aside(l, l') && l'.data == l.data
    && (l.sender.Some? ==>
          l'.sender.value.(echoes := l.sender.value.echoes, illegalEchoes := l.sender.value.illegalEchoes) == l.sender.value)
  }

  lemma QuietFair(s: State, p: PeerId, l: Link, e: Effect)
    requires Good(s) && !s.halted && p in s.links && Quiet(s.links[p], l) && !e.Finished?
    ensures Fair(s, p, l, s.pacing, e)
  {
    if l.sender.Some? { PeerInPool(s, p); }
  }

  predicate IsQuiet(e: PeerEvent) {
    !e.ServerSend? && !e.ServerRead? && !e.ServerWrite? && !e.TimerRunsOut? && !e.ServerDataFails?
  }

  /** An echo changes its counts and its record, and nothing else. */
  predicate EchoedOnly(l: Link, l': Link) {
    && l.sender.Some? && l'.sender.Some? && l'.(sender := l.sender, returned := l.returned, delays := l.delays, badEchoes := l.badEchoes) == l
    && l'.sender.value.(echoes := l.sender.value.echoes, illegalEchoes := l.sender.value.illegalEchoes) == l.sender.value
  }

  lemma EchoCounted(l: Link, l': Link)
    requires Sound(l) && Sound(l') && EchoedOnly(l, l')
    ensures Quiet(l, l')
  {
  }

  lemma CountedOnly(x: Desk, legal: bool, delay: int)
    ensures var y := RecvEcho(x, legal, delay);
            && y.s.(echoes := x.s.echoes, illegalEchoes := x.s.illegalEchoes) == x.s
            && y.control == x.control && y.data == x.data
  {
    EchoOnlyCounts(x, legal, delay);
  }

  lemma EchoCountsOnly(l: Link, legal: bool, delay: int, index: nat)
    requires l.sender.Some?
    ensures EchoedOnly(l, EchoArrives(l, legal, delay, index))
  {
    if l.sender.value.cmd.kind.Ping? {
      CountedOnly(DeskOf(l), legal, delay);
    }
  }

  lemma EchoQuiet(l: Link, legal: bool, delay: int, index: nat)
    requires Sound(l)
    ensures Quiet(l, EchoArrives(l, legal, delay, index))
  {
    EchoArrivesSound(l, legal, delay, index);
    if l.sender.Some? {
      EchoCountsOnly(l, legal, delay, index);
      EchoCounted(l, EchoArrives(l, legal, delay, index));
    }
  }

  lemma ClientQuiet(l: Link, p: Pacing, e: PeerEvent)
    requires Sound(l) && PeerEnabled(l, e) && IsQuiet(e) && !e.ServerEcho?
    ensures Quiet(l, PeerStep(l, p, e).0)
  {
    match e
    case ClientRead => ReadQuiet(l);
    case ClientAnswer(budget, k) => AnswerQuiet(l, budget, k);
    case ClientGet(sock, d) => GetQuiet(l, sock, d);
    case ClientEcho(budget) => WriteQuiet(l, budget);
    case Disconnect(lost) => CloseSound(l, lost);
  }

  lemma GetQuiet(l: Link, sock: Client.Sock, d: Datagram)
    requires Sound(l)
    ensures Quiet(l, ClientGets(l, sock, d))
  {
    ClientGetsSound(l, sock, d);
  }

  lemma WriteQuiet(l: Link, budget: nat)
    requires Sound(l) && Client.DataWrite(l.client)
    ensures Quiet(l, ClientEchoes(l, budget))
  {
    ClientEchoesSound(l, budget);
  }

  lemma ReadQuiet(l: Link)
    requires Sound(l) && l.toClient != []
    ensures Quiet(l, ClientReads(l))
  {
    ClientReadsSound(l);
  }

  lemma AnswerQuiet(l: Link, budget: nat, k: Nanos)
    requires Sound(l) && l.client.receiver.Some? && l.client.controlWrite
    ensures Quiet(l, ClientAnswers(l, budget, k))
  {
    ClientAnswersSound(l, budget, k);
  }

  lemma QuietEventFair(s: State, p: PeerId, e: PeerEvent)
    requires Possible(s, p, e) && IsQuiet(e)
    ensures EventFair(s, p, e)
  {
    if e.ServerEcho? { EchoQuiet(s.links[p], e.legal, e.delay, e.index); } else { ClientQuiet(s.links[p], s.pacing, e); }
    QuietFair(s, p, PeerStep(s.links[p], s.pacing, e).0, Continue);
  }

  lemma EventsAreFair(s: State, p: PeerId, e: PeerEvent)
    requires Possible(s, p, e)
    ensures EventFair(s, p, e)
  {
    match e
    case ServerSend(ok) => ServerSendFair(s, p, ok);
    case ServerRead(k) => ServerReadFair(s, p, k);
    case ServerWrite(now, ok) => ServerWriteFair(s, p, now, ok);
    case TimerRunsOut => TimerFair(s, p);
    case ServerDataFails => QuietFair(s, p, s.links[p], Remove);
    case _ => QuietEventFair(s, p, e);
  }

  lemma PeerEventGood(s: State, p: PeerId, e: PeerEvent)
    requires Possible(s, p, e)
    ensures Good(AtPeer(s, p, e))
  {
    EventsAreFair(s, p, e);
    AtPeerSteady(s, p, e);
    var (l, pacing, f) := PeerStep(s.links[p], s.pacing, e);
    FairKeepsRest(s, p, l, pacing, f);
  }

  // ------------------------------------------------- the events of the server

  /** When the barrier opens, every peer that takes part has acknowledged. */
  lemma OpenGood(s: State)
    requires Good(s) && !s.halted
    ensures Good(OpenIfReady(s))
  {
    var t := OpenIfReady(s);
    OpenSteady(s);
    if t != s {
      forall p | p in s.links ensures Member(t.links[p]) && Shares(true, s.pacing.count, t.links[p]) {
        assert Attached(s.current, s.pacing.count, s.links[p]);
        if HasPayload(s.links[p]) {
          PeerInPool(s, p);
          OpenLink(s.links[p], s.pacing.count);
        }
      }
    }
  }

  lemma OpenLink(l: Link, count: nat)
    requires Member(l) && l.sender.Some? && l.sender.value.started && l.sender.value.cmd.kind.Multicast?
    requires Shares(false, count, l)
    ensures Member(l.(data := true)) && Shares(true, count, l.(data := true))
  {
  }

  lemma StartLink(l: Link, c: Command)
    requires Member(l) && l.sender.None? && l.authed && Pushable(c)
    ensures Member(Begin(l, c)) && Shares(false, 0, Begin(l, c)) && Begin(l, c).reporting
  {
    BeginSound(l, c);
  }

  lemma StartedPeer(s: State, t: State, p: PeerId)
    requires Members(s) && !s.running && s.queue != [] && Pushable(s.queue[0]) && t == TakeNext(s) && t.running
    requires p in s.links && s.links[p].sender.None? && (p in t.ready <==> s.links[p].authed)
    ensures p in t.links && Member(t.links[p]) && (p in t.ready ==> Shares(false, 0, t.links[p]))
    ensures t.links[p].command.Some? ==> t.links[p].reporting
  {
    if p in t.ready { StartLink(s.links[p], s.queue[0]); }
  }

  lemma StartedPhased(s: State, t: State)
    requires !s.running && t == TakeNext(s) && t.running
    requires forall p :: p in t.ready && p in t.links ==> Shares(false, 0, t.links[p])
    ensures Phased(t)
  {
  }

  lemma StartGood(s: State)
    requires Good(s) && !s.halted && !s.running && s.queue != [] && Authed(s.peers, s.links) != [] && Pushable(s.queue[0])
    ensures Good(TakeNext(s))
  {
    var t := TakeNext(s);
    StartSteady(s);
    StartFrame(s);
    AuthedMembers(s.peers, s.links);
    forall p | p in t.links
      ensures Member(t.links[p]) && (p in t.ready ==> Shares(false, 0, t.links[p]))
      ensures t.links[p].command.Some? ==> t.links[p].reporting
    {
      assert Attached(s.current, s.pacing.count, s.links[p]);
      StartedPeer(s, t, p);
    }
    StartedPhased(s, t);
  }

  lemma TakeNextGood(s: State)
    requires Good(s) && !s.halted && Proper(TakeNext(s))
    ensures Good(TakeNext(s))
  {
    if !s.running && s.queue != [] {
      assert s.ready == [];
      if Authed(s.peers, s.links) == [] { DrainSteady(s); DrainedCommands(s.queue); } else { StartGood(s); }
    }
  }

  lemma JoinedMembers(s: State, l: Link)
    requires Members(s) && Member(l)
    ensures Members(Joined(s, l))
  {
  }

  lemma JoinedWaiting(s: State, l: Link)
    requires Waiting(s) && l.command.None?
    ensures Waiting(Joined(s, l))
  {
  }

  lemma JoinedPhased(s: State, l: Link)
    requires Shape(s) && Phased(s)
    ensures Phased(Joined(s, l))
  {
    assert s.nextId !in s.links;
    PhasedFrame(s, s.peers + [s.nextId], s.links[s.nextId := l]);
  }

  lemma ConnectGood(s: State)
    requires Good(s) && !s.halted
    ensures Good(Connected(s))
  {
    NewLinkSound();
    ConnectSteady(s);
    JoinedMembers(s, NEW_LINK);
    JoinedWaiting(s, NEW_LINK);
    JoinedPhased(s, NEW_LINK);
  }

  lemma StepGood(s: State, e: Event)
    requires Good(s) && Enabled(s, e) && Proper(Step(s, e))
    ensures Good(Step(s, e))
  {
    match e
    case Push(c) => PushSteady(s, c);
    case Connect => ConnectGood(s);
    case ProcessNext => TakeNextGood(s);
    case OpenWhenReady => OpenGood(s);
    case At(p, x) => PeerEventGood(s, p, x);
  }
}
