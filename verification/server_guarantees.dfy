/** What holds in every run of the server, its peers and its clients. */
module ServerGuarantees {
  import opened Wrappers
  import opened NetStats
  import opened Aggregates
  import opened Commands
  import opened SpeedGauge
  import opened MulticastPacing
  import opened CommandSenders
  import opened Peers
  import opened Server
  import opened ServerInvariant
  import opened SteadyRuns
  import opened ServerRuns
  import Client

  /** The state after a run; None if some event of it was not enabled. */
  function After(es: seq<Event>): Option<State> {
    if es == [] then Some(INITIAL)
    else
      var s, e := After(es[..|es| - 1]), es[|es| - 1];
      if s.Some? && Enabled(s.value, e) then Some(Step(s.value, e)) else None
  }

  ghost predicate LeadsTo(es: seq<Event>, s: State) { After(es) == Some(s) }

  /** Some run leads to this state. */
  ghost predicate Reachable(s: State) {
    exists es :: LeadsTo(es, s)
  }

  function Pushes(es: seq<Event>): seq<Command> {
    if es == [] then []
    else
      var e := es[|es| - 1];
      Pushes(es[..|es| - 1]) + if e.Push? then [e.cmd] else []
  }

  lemma {:induction false} RunsAreSteady(es: seq<Event>)
    requires After(es).Some?
    ensures Steady(After(es).value)
  {
    if es != [] {
      RunsAreSteady(es[..|es| - 1]);
      StepSteady(After(es[..|es| - 1]).value, es[|es| - 1]);
    }
  }

  lemma ReachableIsSteady(s: State)
    requires Reachable(s)
    ensures Steady(s)
  {
    var es :| LeadsTo(es, s);
    RunsAreSteady(es);
  }

  // ------------------------------------------------------ the queue of commands

  lemma StoppedQueue(s: State, p: PeerId, o: Outcome)
    requires p in s.links
    ensures var t := Stopped(s, p, o);
            t.pushed == s.pushed && t.queue == s.queue && s.completed <= t.completed
  {
  }

  /** A handler pushes nothing, and what has been answered stays answered. */
  lemma HandledQueue(s: State, p: PeerId, l: Link, e: Effect)
    ensures var t := Handled(s, p, l, e);
            t.pushed == s.pushed && t.queue == s.queue && s.completed <= t.completed
  {
    var t := s.(links := s.links[p := l]);
    if !e.Continue? { StoppedQueue(t, p, if e.Finished? then Some(e.stat) else None); }
  }

  lemma AtPeerQueue(s: State, p: PeerId, e: PeerEvent)
    requires p in s.links && PeerEnabled(s.links[p], e)
    ensures var t := AtPeer(s, p, e);
            t.pushed == s.pushed && t.queue == s.queue && s.completed <= t.completed
  {
    var (l, pacing, f) := PeerStep(s.links[p], s.pacing, e);
    HandledQueue(s.(pacing := pacing), p, l, f);
  }

  lemma StepPushes(s: State, e: Event)
    requires Enabled(s, e)
    ensures Step(s, e).pushed == s.pushed + if e.Push? then [e.cmd] else []
  {
    if e.At? { AtPeerQueue(s, e.p, e.e); }
  }

  lemma {:induction false} PushedAreThePushes(es: seq<Event>)
    requires After(es).Some?
    ensures After(es).value.pushed == Pushes(es)
  {
    if es != [] {
      PushedAreThePushes(es[..|es| - 1]);
      StepPushes(After(es[..|es| - 1]).value, es[|es| - 1]);
    }
  }

  /** Every pushed command is answered once at most, and in the order of the
      pushes: those answered, the one that runs and those that wait make up all
      that were pushed. */
  lemma ExactlyOnceInOrder(es: seq<Event>, s: State)
    requires LeadsTo(es, s)
    ensures Pushes(es) == CommandsOf(s.completed) + Running(s.current) + s.queue
  {
    RunsAreSteady(es);
    PushedAreThePushes(es);
  }

  /** A callback that has fired stays fired. */
  lemma CompletedGrows(s: State, e: Event)
    requires Enabled(s, e)
    ensures s.completed <= Step(s, e).completed
  {
    if e.At? { AtPeerQueue(s, e.p, e.e); }
  }

  /** When no peer is ready, every command that waits is answered, without a result,
      and none is left behind. */
  lemma NobodyReady(s: State)
    requires Reachable(s) && Enabled(s, ProcessNext) && !s.running
    requires forall p :: p in s.links ==> !s.links[p].authed
    ensures var t := Step(s, ProcessNext);
            && t.queue == [] && !t.running && t.links == s.links && CommandsOf(t.completed) == t.pushed == s.pushed
            && s.completed <= t.completed
            && forall i :: |s.completed| <= i < |t.completed| ==> t.completed[i].final.NoResult?
  {
    ReachableIsSteady(s);
    NoneAuthed(s);
    NothingStarts(s);
    DrainedLast(s.completed, s.queue);
  }

  lemma AtRest(s: State)
    requires Steady(s) && !s.halted && !s.running
    ensures s.ready == [] && s.current.None? && s.pushed == CommandsOf(s.completed) + s.queue
  {
  }

  lemma TakesNothing(s: State)
    requires !s.running && s.ready == [] && Authed(s.peers, s.links) == []
    ensures TakeNext(s) == s.(queue := [], completed := s.completed + Drained(s.queue))
  {
    assert s.completed + [] == s.completed;
  }

  lemma NothingStarts(s: State)
    requires Steady(s) && !s.halted && !s.running && Authed(s.peers, s.links) == []
    ensures TakeNext(s) == s.(queue := [], completed := s.completed + Drained(s.queue))
    ensures CommandsOf(s.completed + Drained(s.queue)) == s.pushed
  {
    AtRest(s);
    TakesNothing(s);
    DrainedCommands(s.queue);
    assert CommandsOf(s.completed + Drained(s.queue)) == CommandsOf(s.completed) + CommandsOf(Drained(s.queue));
  }

  lemma NoneAuthed(s: State)
    requires Shape(s) && forall p :: p in s.links ==> !s.links[p].authed
    ensures Authed(s.peers, s.links) == []
  {
    AuthedMembers(s.peers, s.links);
    if Authed(s.peers, s.links) != [] { assert Authed(s.peers, s.links)[0] in Authed(s.peers, s.links); }
  }

  lemma DrainedLast(done: seq<Completion>, queue: seq<Command>)
    ensures var all := done + Drained(queue);
            forall i :: |done| <= i < |all| ==> all[i].final.NoResult?
  {
    DrainedCommands(queue);
    var all := done + Drained(queue);
    forall i | |done| <= i < |all| ensures all[i].final.NoResult? {
      assert all[i] == Drained(queue)[i - |done|] && all[i] in Drained(queue);
    }
  }

  /** A peer about to run `c`, of which nothing has been sent. */
  predicate AboutTo(l: Link, c: Command) {
    l.reporting && l.control && l.sender.Some? && l.sender.value.cmd == c && l.sender.value.starting && SentBy(l) == 0
  }

  /** Otherwise the command that has waited longest starts at exactly the ready peers,
      and nothing changes at the others. */
  lemma OldestStarts(s: State, p: PeerId)
    requires Reachable(s) && Enabled(s, ProcessNext) && !s.running && s.queue != [] && p in s.links && s.links[p].authed
    ensures var t := Step(s, ProcessNext);
            && t.running && t.current == Some(s.queue[0]) && t.queue == s.queue[1..] && t.completed == s.completed
            && Distinct(t.ready) && t.peersCount == |t.ready| && t.outcomes == [] && t.pacing == RESTARTED
            && t.links.Keys == s.links.Keys && (forall q :: q in t.ready <==> q in s.links && s.links[q].authed)
            && forall q :: q in s.links ==> if s.links[q].authed then AboutTo(t.links[q], s.queue[0]) else t.links[q] == s.links[q]
  {
    ReachableIsSteady(s);
    AuthedMembers(s.peers, s.links);
    assert IsAuthed(s.links, p) && p in Authed(s.peers, s.links);
    assert [] + Authed(s.peers, s.links) == Authed(s.peers, s.links);
  }

  // ------------------------------------- runs without a ping that asks for nothing

  lemma SettledCommand(s: State)
    ensures var t := Settle(s);
            t.current == s.current || (t.current.None? && exists x :: x in t.completed && Some(x.cmd) == s.current)
  {
    var t := Settle(s);
    if t.current != s.current { assert t.completed[|s.completed|] in t.completed; }
  }

  /** The running command stays, or its callback fires. */
  lemma HandledCommand(s: State, p: PeerId, l: Link, e: Effect)
    ensures var t := Handled(s, p, l, e);
            t.current == s.current || (t.current.None? && exists x :: x in t.completed && Some(x.cmd) == s.current)
  {
    var t := s.(links := s.links[p := l]);
    if !e.Continue? { SettledCommand(Noted(t, p, if e.Finished? then Some(e.stat) else None)); }
  }

  lemma CommandKept(s: State, e: Event)
    requires Steady(s) && Enabled(s, e) && s.current.Some?
    ensures var t := Step(s, e);
            t.current == s.current || exists x :: x in t.completed && Some(x.cmd) == s.current
  {
    if e.At? {
      var (l, pacing, f) := PeerStep(s.links[e.p], s.pacing, e.e);
      HandledCommand(s.(pacing := pacing), e.p, l, f);
    }
  }

  lemma ProperBefore(s: State, e: Event)
    requires Steady(s) && Enabled(s, e) && Proper(Step(s, e))
    ensures Proper(s)
  {
    CompletedGrows(s, e);
    if s.current.Some? { CommandKept(s, e); }
    forall x | x in s.completed ensures Pushable(x.cmd) { assert x in Step(s, e).completed; }
  }

  /** The invariant of server, peers and clients, in every run that has started no
      ping below one. */
  lemma {:induction false} RunsAreGood(es: seq<Event>)
    requires After(es).Some? && Proper(After(es).value)
    ensures Good(After(es).value)
  {
    if es != [] {
      var s, e := After(es[..|es| - 1]).value, es[|es| - 1];
      RunsAreSteady(es[..|es| - 1]);
      ProperBefore(s, e);
      RunsAreGood(es[..|es| - 1]);
      StepGood(s, e);
    }
  }

  /** Such is every run in which none is pushed. */
  lemma PushableIsProper(s: State)
    requires Reachable(s) && forall c :: c in s.pushed ==> Pushable(c)
    ensures Proper(s)
  {
    ReachableIsSteady(s);
    var done := CommandsOf(s.completed);
    forall x | x in s.completed ensures Pushable(x.cmd) {
      var i :| 0 <= i < |s.completed| && s.completed[i] == x;
      assert s.pushed[i] == done[i] == x.cmd;
    }
    if s.current.Some? { assert s.pushed[|done|] == s.current.value; }
  }

  lemma PushableRunsAreProper(es: seq<Event>, s: State)
    requires LeadsTo(es, s) && forall c :: c in Pushes(es) ==> Pushable(c)
    ensures Proper(s)
  {
    PushedAreThePushes(es);
    PushableIsProper(s);
  }

  lemma ReachableIsGood(s: State)
    requires Reachable(s) && Proper(s)
    ensures Good(s)
  {
    var es :| LeadsTo(es, s);
    RunsAreGood(es);
  }

  // ------------------------------------------------------------- peer accounts

  /** While a command runs, every peer it was given to takes part, has succeeded
      or has failed, and exactly those that take part have OnStopped set. */
  lemma PeerAccounting(s: State)
    requires Reachable(s) && s.running
    ensures s.ready != [] && s.peersCount == |s.ready| + Successes(s.outcomes) + s.totals.failed
    ensures s.totals.stat.Some? <==> Successes(s.outcomes) > 0
    ensures forall p :: p in s.ready <==> p in s.links && s.links[p].reporting
  {
    ReachableIsSteady(s);
    CountsOfCollect(s.outcomes);
  }

  /** Over the whole run of a command no peer reports twice, and none that has
      reported can report again. */
  lemma ReportsOnce(s: State)
    requires Reachable(s) && s.running
    ensures |s.reporters| == |s.outcomes| == s.peersCount - |s.ready|
    ensures forall i, j :: 0 <= i < j < |s.reporters| ==> s.reporters[i] != s.reporters[j]
    ensures forall p :: p in s.reporters && p in s.links ==> p !in s.ready && !s.links[p].reporting
  {
    ReachableIsSteady(s);
    assert OnceEach(s);
  }

  lemma HaltedIsUndefined(c: Command, os: seq<Outcome>, lost: nat)
    requires HaltedBy(c, os) && if c.kind.Multicast? then SharedSound(c, os, lost) else AllPaid(c, os)
    ensures FinalOf(os, c.kind.Multicast?).Undefined?
  {
    CountsOfCollect(os);
    if !c.kind.Multicast? { OwnFinal(c, os); }
  }

  /** The server ends with a division by zero exactly after a command that some peer
      answered and that was a send which asked for no packet, a ping which asked for
      none and sent none, or a multicast command that lost a peer and whose other
      peers have sent nothing: it has ended after such a command, and no command
      that was answered is one. */
  lemma HaltsExactly(s: State)
    requires Reachable(s)
    ensures s.halted <==> s.current.Some? && s.ready == []
    ensures s.halted ==> HaltedBy(s.current.value, s.outcomes)
    ensures forall i :: 0 <= i < |s.completed| ==> !HaltedBy(s.completed[i].cmd, s.completed[i].outcomes)
  {
    ReachableIsSteady(s);
    forall i | 0 <= i < |s.completed| && HaltedBy(s.completed[i].cmd, s.completed[i].outcomes) ensures false {
      assert CompletionSound(s.completed[i]);
      HaltedIsUndefined(s.completed[i].cmd, s.completed[i].outcomes, s.completed[i].lost);
    }
  }

  // ------------------------------------------------------------ what callbacks get

  /** The callback of a command gets the aggregate of the outcomes of its peers,
      and never an undefined one. Each success of a unicast command has sent the
      bytes of its count, and each of a ping those at least; the successes of a
      multicast command that lost no peer have sent its count together. */
  lemma CallbackResults(s: State, i: nat)
    requires Reachable(s) && i < |s.completed|
    ensures var x := s.completed[i];
            && CompletionSound(x)
            && (x.final.NoResult? <==> Successes(x.outcomes) == 0)
            && (x.final.Settled? ==> x.final.stat.peersCount == |x.outcomes| &&
                                     x.final.stat.peersFailed == |x.outcomes| - Successes(x.outcomes))
  {
    ReachableIsSteady(s);
    CountsOfCollect(s.completed[i].outcomes);
  }

  /** Each field of what a callback gets is the sum, the mean, the greatest or the least
      of what the successful peers reported. */
  lemma CallbackFields(s: State, i: nat, f: Field)
    requires Reachable(s) && i < |s.completed| && s.completed[i].final.Settled?
    ensures var x := s.completed[i];
            && Senders(x.outcomes) > 0 && Successes(x.outcomes) > 0
            && FinalField(x.outcomes, x.cmd.kind.Multicast?, f, Value(x.final.stat, f))
  {
    CallbackResults(s, i);
    FieldsOfFinal(s.completed[i].outcomes, s.completed[i].cmd.kind.Multicast?, f);
  }

  /** In a run that has started no ping below one, each success of a ping or a unicast
      command has sent its count exactly. */
  lemma CallbackExact(s: State, i: nat)
    requires Reachable(s) && Proper(s) && i < |s.completed| && !s.completed[i].cmd.kind.Multicast?
    ensures AllExact(s.completed[i].cmd, s.completed[i].outcomes)
  {
    ReachableIsGood(s);
    assert s.completed[i] in s.completed;
  }

  // --------------------------------------------------------- the control channel

  /** The beginning of the exchange of one command. */
  predicate InOrder(log: seq<Message>, c: Command) {
    && |log| <= 4
    && (|log| >= 1 ==> log[0] == Main(c)) && (|log| >= 2 ==> log[1] == Ack)
    && (|log| >= 3 ==> log[2] == Message.Stop) && (|log| >= 4 ==> log[3].Result?)
  }

  lemma LogInOrder(log: seq<Message>, c: Command, ph: Phase)
    requires LogMatches(log, c, ph)
    ensures InOrder(log, c)
  {
    if |log| == 4 { assert log[..3][0] == log[0] && log[..3][1] == log[1] && log[..3][2] == log[2]; }
  }

  /** The control protocol of every peer: one message at a time, in the order
      command, acknowledgement, stop, result. */
  lemma ControlProtocol(s: State, p: PeerId)
    requires Reachable(s) && Proper(s) && p in s.links
    ensures var l := s.links[p];
            && |l.toClient| + |l.toServer| <= 1
            && (l.control ==> l.sender.Some? && SendCommandAsserts(l.sender.value))
            && (l.client.controlWrite ==> l.client.receiver.Some?)
            && (PeerEnabled(l, ClientRead) ==>
                  if l.client.receiver.Some? then l.toClient == [Message.Stop] else |l.toClient| == 1 && l.toClient[0].Main?)
            && (l.sender.Some? ==> InOrder(l.log, l.sender.value.cmd))
  {
    ReachableIsGood(s);
    var l := s.links[p];
    OneMessageInFlight(l);
    if l.toClient != [] { ClientReadsSound(l); }
    if l.control { ServerSendsSound(l, true); }
    if l.sender.Some? { LogInOrder(l.log, l.sender.value.cmd, PhaseOf(l, l.sender.value)); }
  }

  /** A command that completes at a peer has exchanged exactly its four messages. */
  lemma CompletedInOrder(s: State, p: PeerId, k: Nanos)
    requires Reachable(s) && Proper(s) && p in s.links && ServerReads(s.links[p], k).1.Finished?
    ensures var l := s.links[p];
            && l.sender.Some? && |l.log| == 4
            && l.log[..3] == [Main(l.sender.value.cmd), Ack, Message.Stop] && l.log[3].Result?
  {
    ReachableIsGood(s);
    CompletedExchange(s.links[p], k);
  }

  /** What the sender of a ping or unicast command has sent so far: the numbers
      0, 1, 2, ..., at most its count, and all of it once it has stopped. */
  lemma PayloadInOrder(s: State, p: PeerId)
    requires Reachable(s) && Proper(s) && p in s.links && s.links[p].sender.Some?
    requires !s.links[p].sender.value.cmd.kind.Multicast?
    ensures var x := s.links[p].sender.value;
            && Consecutive(x.stamps, x.sendPackets) && x.sendPackets <= Wanted(x.cmd)
            && (x.stopping || x.waitingResult ==> x.sendPackets == Wanted(x.cmd))
  {
    ReachableIsGood(s);
    SentInOrder(s.links[p]);
  }

  lemma SentInOrder(l: Link)
    requires Sound(l) && l.sender.Some? && !l.sender.value.cmd.kind.Multicast?
    ensures var x := l.sender.value;
            && Consecutive(x.stamps, x.sendPackets) && x.sendPackets <= Wanted(x.cmd)
            && (x.stopping || x.waitingResult ==> x.sendPackets == Wanted(x.cmd))
  {
    assert PayloadCounted(l, l.sender.value, PhaseOf(l, l.sender.value));
  }

  /** No client forgets a datagram it has read: each is in a result it has sent or
      among the pending ones. What a client echoes is what it accepted, in order. */
  lemma ClientsForgetNothing(s: State, p: PeerId)
    requires Reachable(s) && Proper(s) && p in s.links
    ensures var c := s.links[p].client;
            && c.read == c.reported + Client.Pending(c)
            && (c.receiver.Some? && c.receiver.value.EchoR? ==>
                  var r := c.receiver.value.echo;
                  r.accepted == r.echoed + r.queue && r.recv == r.sent + |r.queue| && (r.writable <==> r.queue != []))
  {
    ReachableIsGood(s);
    assert Client.Sound(s.links[p].client);
  }

  // ------------------------------------------------------------------- multicast

  /** A peer has acknowledged its command. */
  predicate Acknowledged(l: Link) {
    l.sender.Some? && l.sender.value.started && |l.log| >= 2 && l.log[..2] == [Main(l.sender.value.cmd), Ack]
  }

  lemma StartedMeansAcknowledged(l: Link)
    requires Sound(l) && l.sender.Some? && l.sender.value.started
    ensures Acknowledged(l)
  {
    assert LogMatches(l.log, l.sender.value.cmd, PhaseOf(l, l.sender.value));
  }

  /** No peer may write payload of a multicast command, and no datagram of it has
      left, before every peer that takes part has acknowledged the command. */
  lemma MulticastBarrier(s: State, p: PeerId, q: PeerId)
    requires Reachable(s) && Proper(s) && s.running && s.current.Some? && s.current.value.kind.Multicast?
    requires (p in s.links && s.links[p].data) || s.pacing.count > 0
    requires q in s.ready
    ensures q in s.links && Acknowledged(s.links[q])
  {
    ReachableIsGood(s);
    if p in s.links && s.links[p].data { PeerInPool(s, p); }
    assert s.barrierOpen && s.links[q].sender.Some?;
    assert Shares(s.barrierOpen, s.pacing.count, s.links[q]);
    StartedMeansAcknowledged(s.links[q]);
  }

  /** The counter of a multicast command is what all its peers have sent together,
      the numbers in its datagrams are 0, 1, 2, ..., and there are no more than
      the command asks for. */
  lemma MulticastConservation(s: State)
    requires Reachable(s) && s.running && s.current.Some?
    requires s.current.value.kind.Multicast?
    ensures s.pacing.count == SumSent(s.ready, s.links) + s.sentBySuccess + s.sentByLost + s.pacing.failed
    ensures Consecutive(s.pacing.stamps, s.pacing.count) && s.pacing.count <= Wanted(s.current.value)
    ensures Successes(s.outcomes) > 0 ==> s.pacing.count == Wanted(s.current.value)
  {
    ReachableIsSteady(s);
  }

  /** The datagrams of a multicast command are as far apart as its interval, whichever
      peers send them: by the clock, `n` more of them take `n` intervals. */
  lemma MulticastPace(s: State, n: nat)
    requires Reachable(s) && s.running && s.current.Some? && s.current.value.kind.Multicast?
    requires n < |s.pacing.times|
    ensures |s.pacing.times| == s.pacing.count && Spaced(s.pacing.times, s.current.value.interval)
    ensures var gap := s.current.value.interval;
            gap > 0 ==> s.pacing.times[n] - s.pacing.times[0] >= n * (gap * 1000)
  {
    ReachableIsSteady(s);
    if s.current.value.interval > 0 { SpacedTotal(s.pacing.times, s.current.value.interval, n); }
  }

  lemma EarlyWriteSkips(l: Link, p: Pacing, now: Clock, ok: bool)
    requires l.sender.Some? && l.sender.value.cmd.kind.Multicast?
    requires Waited(p.begin, now) < l.sender.value.cmd.interval
    ensures var (l', p', e) := ServerWrites(l, p, now, ok);
            p' == p && e == Continue && SentBy(l') == SentBy(l)
  {
  }

  /** A write before the interval is over leaves the counter, the stamps and the packets
      of all peers as they are. */
  lemma EarlyWriteWaits(s: State, p: PeerId, now: Clock, ok: bool)
    requires Reachable(s) && Enabled(s, At(p, ServerWrite(now, ok)))
    requires s.links[p].sender.Some? && s.links[p].sender.value.cmd.kind.Multicast?
    requires Waited(s.pacing.begin, now) < s.links[p].sender.value.cmd.interval
    ensures var t := Step(s, At(p, ServerWrite(now, ok)));
            && t.pacing == s.pacing && t.ready == s.ready && t.links.Keys == s.links.Keys
            && forall q :: q in s.links ==> SentBy(t.links[q]) == SentBy(s.links[q])
  {
    EarlyWriteSkips(s.links[p], s.pacing, now, ok);
  }
}
