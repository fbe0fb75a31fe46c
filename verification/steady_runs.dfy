/** Every event of every run keeps what ServerInvariant says, whatever the commands,
    the channels and the clients do. */
module SteadyRuns {
  import opened Wrappers
  import opened Arithmetic
  import opened NetStats
  import opened SpeedGauge
  import opened Commands
  import opened MulticastPacing
  import opened CommandSenders
  import opened Peers
  import opened Server
  import opened ServerInvariant

  // ------------------------------------------------ what an event does to a peer

  /** How an event of a peer that takes part in `c` may change the shared socket. */
  ghost predicate Moves(c: Command, p: Pacing, l: Link, p': Pacing, l': Link, e: Effect) {
    if c.kind.Multicast? then
      && PacingSound(p', c) && p'.count >= p.count
      && p'.count - p.count == p'.failed - p.failed + SentBy(l') - SentBy(l)
      && (p'.failed == p.failed || e.Remove?)
      && (e.Finished? ==> SharedReport(c, p'.count, l', Some(e.stat)))
    else p' == p && (e.Finished? ==> Paid(c, Some(e.stat)))
  }

  ghost predicate Behaves(current: Option<Command>, p: Pacing, l: Link, p': Pacing, l': Link, e: Effect) {
    && l'.reporting == l.reporting
    && (e.Continue? ==> Attached(current, p'.count, l'))
    && (e.Finished? ==> FreshResults(l'))
    && if l.sender.Some? then Moves(l.sender.value.cmd, p, l, p', l', e) else p' == p && !e.Finished?
  }

  /** A peer of a server, and the shared socket as its command needs it. */
  ghost predicate Paced(current: Option<Command>, p: Pacing, l: Link) {
    && Attached(current, p.count, l)
    && (l.sender.Some? ==>
          var c := l.sender.value.cmd;
          if c.kind.Multicast? then PacingSound(p, c) && SentBy(l) <= p.count else p == RESTARTED)
  }

  ghost predicate StepBehaves(current: Option<Command>, p: Pacing, l: Link, e: PeerEvent)
    requires PeerEnabled(l, e)
  {
    var (l', p', f) := PeerStep(l, p, e);
    Behaves(current, p, l, p', l', f)
  }

  /** A step that changes nothing but the sender and its write bits. */
  lemma DeskBehaves(current: Option<Command>, p: Pacing, l: Link, p': Pacing, l': Link, e: Effect)
    requires Paced(current, p, l) && l.sender.Some? && l'.sender.Some? && !e.Finished?
    requires l'.reporting == l.reporting && l'.toServer == l.toServer && l'.sender.value.cmd == l.sender.value.cmd
    requires Paying(l'.sender.value, p'.count) && Moves(l.sender.value.cmd, p, l, p', l', e)
    ensures Behaves(current, p, l, p', l', e)
  {
  }

  lemma SendPays(x: Desk, ok: bool, count: nat)
    requires Paying(x.s, count)
    ensures var (y, _, e) := SendCommand(x, ok);
            Paying(y.s, count) && y.s.cmd == x.s.cmd && y.s.sendPackets == x.s.sendPackets && !e.Finished?
  {
  }

  lemma SendBehaves(current: Option<Command>, p: Pacing, l: Link, ok: bool)
    requires Paced(current, p, l) && PeerEnabled(l, ServerSend(ok))
    ensures StepBehaves(current, p, l, ServerSend(ok))
  {
    SendPays(DeskOf(l), ok, p.count);
    DeskBehaves(current, p, l, p, ServerSends(l, ok).0, ServerSends(l, ok).1);
  }

  /** The packets of a sender that is done, in bytes. */
  lemma FinishedBytes(x: Sender, count: nat, stat: NetStat, k: Nanos)
    requires Paying(x, count) && x.waitingResult && stat.sendBytes == 0
    ensures OnStop(x, stat, k).sendBytes == x.sendPackets * BufferSize(x.cmd)
    ensures !x.cmd.kind.Multicast? ==> Paid(x.cmd, Some(OnStop(x, stat, k)))
  {
    MulMonotone(BufferSize(x.cmd), Wanted(x.cmd), if Wanted(x.cmd) <= x.sendPackets then x.sendPackets else Wanted(x.cmd));
  }

  lemma RecvPays(x: Desk, m: Message, k: Nanos, count: nat)
    requires Paying(x.s, count)
    ensures var (y, e) := RecvCommand(x, m, k);
            && y.s.cmd == x.s.cmd && y.s.sendPackets == x.s.sendPackets && (e.Continue? ==> Paying(y.s, count))
            && (e.Finished? ==> x.s.waitingResult && m.Result? && e.stat == OnStop(x.s, m.stat, k))
  {
  }

  lemma ReadBehaves(current: Option<Command>, p: Pacing, l: Link, k: Nanos)
    requires Paced(current, p, l) && PeerEnabled(l, ServerRead(k))
    ensures StepBehaves(current, p, l, ServerRead(k))
  {
    if l.sender.Some? && l.toServer != [] && l.authed {
      var m := ReadAll(l.toServer);
      RecvPays(DeskOf(l.(toServer := [])), m, k, p.count);
      if ServerReads(l, k).1.Finished? {
        assert l.toServer[0] in l.toServer;
        FinishedBytes(l.sender.value, p.count, m.stat, k);
      }
    }
  }

  lemma PingWritePays(x: Desk, count: nat)
    requires x.s.cmd.kind.Ping? && Paying(x.s, count)
    ensures Paying(SendPing(x).s, count) && SendPing(x).s.cmd == x.s.cmd
  {
    var y := SendPing(x).s;
    assert y.cmd == x.s.cmd && y.stopping == x.s.stopping && y.waitingResult == x.s.waitingResult;
  }

  lemma StopPays(x: Desk, count: nat)
    requires Paying(x.s, count) && Spent(x.s, count)
    ensures Paying(NoMorePayload(x).s, count) && Paying(StopSending(x).s, count)
    ensures NoMorePayload(x).s.cmd == StopSending(x).s.cmd == x.s.cmd
    ensures NoMorePayload(x).s.sendPackets == StopSending(x).s.sendPackets == x.s.sendPackets
  {
  }

  lemma UnicastWritePays(x: Desk, ok: bool, count: nat)
    requires x.s.cmd.kind.Unicast? && Paying(x.s, count) && x.s.sendPackets < x.s.cmd.count
    ensures Paying(SendUnicast(x, ok).s, count) && SendUnicast(x, ok).s.cmd == x.s.cmd
  {
  }

  lemma OwnWritePays(x: Desk, p: Pacing, now: Clock, ok: bool)
    requires !x.s.cmd.kind.Multicast? && Paying(x.s, p.count)
    ensures var (y, p', e) := SendData(x, p, now, ok);
            Paying(y.s, p.count) && y.s.cmd == x.s.cmd && p' == p && !e.Finished?
  {
    if x.s.cmd.kind.Ping? { PingWritePays(x, p.count); }
    else if TryStop(x.s, RESTARTED) { StopPays(x, p.count); }
    else { UnicastWritePays(x, ok, p.count); }
  }

  lemma OwnWriteBehaves(current: Option<Command>, p: Pacing, l: Link, now: Clock, ok: bool)
    requires Paced(current, p, l) && l.sender.Some? && !l.sender.value.cmd.kind.Multicast?
    requires PeerEnabled(l, ServerWrite(now, ok))
    ensures StepBehaves(current, p, l, ServerWrite(now, ok))
  {
    var (l', p', e) := ServerWrites(l, p, now, ok);
    OwnWritePays(DeskOf(l), p, now, ok);
    DeskBehaves(current, p, l, p', l', e);
  }

  lemma SharedAttemptPays(x: Desk, r: Attempt, count: nat, count': nat)
    requires x.s.cmd.kind.Multicast? && Paying(x.s, count) && count <= count'
    ensures var y := SendMulticast(x, r);
            && Paying(y.s, count') && y.s.cmd == x.s.cmd
            && y.s.sendPackets == if r.Sent? then x.s.sendPackets + 1 else x.s.sendPackets
  {
  }

  /** The packets sent over the shared socket are those it counts. */
  lemma SharedWritePays(x: Desk, p: Pacing, now: Clock, ok: bool)
    requires x.s.cmd.kind.Multicast? && Paying(x.s, p.count) && PacingSound(p, x.s.cmd)
    ensures var (y, p', e) := SendData(x, p, now, ok);
            && Paying(y.s, p'.count) && y.s.cmd == x.s.cmd && !e.Finished? && PacingSound(p', x.s.cmd) && p'.count >= p.count
            && p'.count - p.count == p'.failed - p.failed + y.s.sendPackets - x.s.sendPackets
            && (p'.failed == p.failed || e.Remove?)
  {
    if x.s.stoping {
    } else if TryStop(x.s, p) {
      StopPays(x, p.count);
    } else {
      PacedSendSound(p, x.s.cmd, now, ok);
      SharedAttemptPays(x, PacedSend(p, x.s.cmd, now, ok).1, p.count, PacedSend(p, x.s.cmd, now, ok).0.count);
    }
  }

  lemma SharedWriteBehaves(current: Option<Command>, p: Pacing, l: Link, now: Clock, ok: bool)
    requires Paced(current, p, l) && l.sender.Some? && l.sender.value.cmd.kind.Multicast?
    requires PeerEnabled(l, ServerWrite(now, ok))
    ensures StepBehaves(current, p, l, ServerWrite(now, ok))
  {
    var (l', p', e) := ServerWrites(l, p, now, ok);
    SharedWritePays(DeskOf(l), p, now, ok);
    DeskBehaves(current, p, l, p', l', e);
  }

  lemma TimerPays(x: Desk, p: Pacing)
    requires Paying(x.s, p.count) && if x.s.cmd.kind.Multicast? then PacingSound(p, x.s.cmd) else p == RESTARTED
    ensures var y := Timeout(x, p);
            Paying(y.s, p.count) && y.s.cmd == x.s.cmd && y.s.sendPackets == x.s.sendPackets
  {
    var y := x.(s := x.s.(timer := false));
    if !x.s.stopping && Spent(y.s, p.count) { StopPays(y, p.count); }
  }

  lemma TimerBehaves(current: Option<Command>, p: Pacing, l: Link)
    requires Paced(current, p, l) && PeerEnabled(l, TimerRunsOut)
    ensures StepBehaves(current, p, l, TimerRunsOut)
  {
    TimerPays(DeskOf(l), p);
    DeskBehaves(current, p, l, p, TimerFires(l, p), Continue);
  }

  lemma EchoBehaves(current: Option<Command>, p: Pacing, l: Link, legal: bool, delay: int, index: nat)
    requires Paced(current, p, l)
    ensures StepBehaves(current, p, l, ServerEcho(legal, delay, index))
  {
    if l.sender.Some? { EchoOnlyCounts(DeskOf(l), legal, delay); }
  }

  lemma ClientReadBehaves(current: Option<Command>, p: Pacing, l: Link)
    requires Paced(current, p, l) && PeerEnabled(l, ClientRead)
    ensures StepBehaves(current, p, l, ClientRead)
  {
  }

  lemma ClientAnswerBehaves(current: Option<Command>, p: Pacing, l: Link, budget: nat, k: Nanos)
    requires Paced(current, p, l) && PeerEnabled(l, ClientAnswer(budget, k))
    ensures StepBehaves(current, p, l, ClientAnswer(budget, k))
  {
  }

  lemma WriteBehaves(current: Option<Command>, p: Pacing, l: Link, now: Clock, ok: bool)
    requires Paced(current, p, l) && PeerEnabled(l, ServerWrite(now, ok))
    ensures StepBehaves(current, p, l, ServerWrite(now, ok))
  {
    if l.sender.Some? {
      if l.sender.value.cmd.kind.Multicast? { SharedWriteBehaves(current, p, l, now, ok); }
      else { OwnWriteBehaves(current, p, l, now, ok); }
    }
  }

  lemma QuietBehaves(current: Option<Command>, p: Pacing, l: Link, e: PeerEvent)
    requires Paced(current, p, l) && PeerEnabled(l, e) && (e.ServerDataFails? || e.Disconnect?)
    ensures StepBehaves(current, p, l, e)
  {
  }

  lemma HandlingBehaves(current: Option<Command>, p: Pacing, l: Link, e: PeerEvent)
    requires Paced(current, p, l) && PeerEnabled(l, e) && (e.ClientGet? || e.ClientEcho?)
    ensures StepBehaves(current, p, l, e)
  {
  }

  lemma PeersBehave(current: Option<Command>, p: Pacing, l: Link, e: PeerEvent)
    requires Paced(current, p, l) && PeerEnabled(l, e)
    ensures StepBehaves(current, p, l, e)
  {
    match e
    case ServerSend(ok) => SendBehaves(current, p, l, ok);
    case ServerRead(k) => ReadBehaves(current, p, l, k);
    case ServerWrite(now, ok) => WriteBehaves(current, p, l, now, ok);
    case ServerEcho(legal, delay, index) => EchoBehaves(current, p, l, legal, delay, index);
    case TimerRunsOut => TimerBehaves(current, p, l);
    case ClientRead => ClientReadBehaves(current, p, l);
    case ClientAnswer(budget, k) => ClientAnswerBehaves(current, p, l, budget, k);
    case ServerDataFails => QuietBehaves(current, p, l, e);
    case Disconnect(_) => QuietBehaves(current, p, l, e);
    case _ => HandlingBehaves(current, p, l, e);
  }

  // --------------------------------------------------------- at the whole server

  /** A peer that takes part has sent no more than the shared counter. */
  lemma PeerIsPaced(s: State, p: PeerId)
    requires Steady(s) && !s.halted && p in s.links
    ensures Paced(s.current, s.pacing, s.links[p])
    ensures s.links[p].sender.Some? ==> p in s.ready && s.running && s.current == Some(s.links[p].sender.value.cmd)
  {
    assert Attached(s.current, s.pacing.count, s.links[p]);
    if s.links[p].sender.Some? && s.links[p].sender.value.cmd.kind.Multicast? {
      SumSentUpdate(s.ready, s.links, p, s.links[p]);
    }
  }

  lemma MovesFits(s: State, c: Command, p: PeerId, l: Link, pacing: Pacing, e: Effect)
    requires Shape(s) && p in s.ready && TrafficOf(s, c) && s.current == Some(c) && Moves(c, s.pacing, s.links[p], pacing, l, e)
    ensures var t := s.(pacing := pacing, links := s.links[p := l]);
            && (e.Continue? ==> TrafficOf(t, c))
            && (e.Remove? ==> Fits(t, p, None))
            && (e.Finished? ==> Fits(t, p, Some(e.stat)))
  {
    if c.kind.Multicast? { PoolUpdate(s, c, p, l, pacing); }
  }

  lemma HandledTraffic(s: State, p: PeerId, l: Link, pacing: Pacing, e: Effect)
    requires Steady(s) && !s.halted && p in s.links && Behaves(s.current, s.pacing, s.links[p], pacing, l, e)
    ensures var t := s.(pacing := pacing, links := s.links[p := l]);
            if e.Continue? || !l.reporting then Traffic(t)
            else Fits(t, p, if e.Finished? then Some(e.stat) else None)
  {
    assert Attached(s.current, s.pacing.count, s.links[p]);
    if l.reporting {
      MovesFits(s, s.current.value, p, l, pacing, e);
    } else {
      TrafficFrame(s, s.peers, s.links[p := l]);
    }
  }

  /** The others see no more than the shared counter go up. */
  lemma OthersAttached(s: State, p: PeerId, l: Link, pacing: Pacing, e: Effect)
    requires Steady(s) && !s.halted && p in s.links && Behaves(s.current, s.pacing, s.links[p], pacing, l, e)
    ensures AttachedBut(s.(pacing := pacing, links := s.links[p := l]), p)
  {
    assert Attached(s.current, s.pacing.count, s.links[p]);
    forall q | q in s.links && q != p ensures Attached(s.current, pacing.count, s.links[q]) {
      assert Attached(s.current, s.pacing.count, s.links[q]);
    }
  }

  lemma UpdateSteady(s: State, p: PeerId, l: Link, pacing: Pacing)
    requires Steady(s) && !s.halted && p in s.links && l.reporting == s.links[p].reporting
    requires var t := s.(pacing := pacing, links := s.links[p := l]); Traffic(t) && AttachedBut(t, p)
    requires Attached(s.current, pacing.count, l)
    ensures Steady(s.(pacing := pacing, links := s.links[p := l]))
  {
  }

  lemma HandledSteady(s: State, p: PeerId, l: Link, pacing: Pacing, e: Effect)
    requires Steady(s) && !s.halted && p in s.links && Behaves(s.current, s.pacing, s.links[p], pacing, l, e)
    ensures Steady(Handled(s.(pacing := pacing), p, l, e))
  {
    var t := s.(pacing := pacing, links := s.links[p := l]);
    assert Attached(s.current, s.pacing.count, s.links[p]);
    HandledTraffic(s, p, l, pacing, e);
    OthersAttached(s, p, l, pacing, e);
    match e
    case Continue => UpdateSteady(s, p, l, pacing);
    case Remove => EraseSteady(t, p);
    case Finished(stat) => CompleteSteady(t, p, stat);
  }

  lemma AtPeerSteady(s: State, p: PeerId, e: PeerEvent)
    requires Steady(s) && !s.halted && p in s.links && PeerEnabled(s.links[p], e)
    ensures Steady(AtPeer(s, p, e))
  {
    PeerIsPaced(s, p);
    PeersBehave(s.current, s.pacing, s.links[p], e);
    var (l, pacing, f) := PeerStep(s.links[p], s.pacing, e);
    HandledSteady(s, p, l, pacing, f);
  }

  // ------------------------------------------------- the events of the server

  lemma ConnectSteady(s: State)
    requires Steady(s) && !s.halted
    ensures Steady(Connected(s))
  {
    assert s.nextId !in s.links;
    DistinctGrows(s.peers, s.nextId);
    TrafficFrame(s, s.peers + [s.nextId], s.links[s.nextId := NEW_LINK]);
  }

  lemma PushSteady(s: State, c: Command)
    requires Steady(s) && Enabled(s, Push(c))
    ensures Steady(Step(s, Push(c)))
  {
  }

  /** Opening the barrier touches nothing but it and the write bits. */
  lemma OpenKeepsLinks(s: State)
    ensures var t := OpenIfReady(s);
            && t == s.(links := t.links, barrierOpen := t.barrierOpen) && t.links.Keys == s.links.Keys
            && forall p :: p in s.links ==> t.links[p] == s.links[p].(data := t.links[p].data)
  {
  }

  lemma SameButBits(s: State, t: State)
    requires Shape(s) && AllAttached(s) && t == s.(links := t.links, barrierOpen := t.barrierOpen)
    requires t.links.Keys == s.links.Keys
    requires forall p :: p in s.links ==> t.links[p] == s.links[p].(data := t.links[p].data)
    ensures Shape(t) && AllAttached(t)
  {
    forall p | p in t.links ensures Attached(t.current, t.pacing.count, t.links[p]) {
      assert Attached(s.current, s.pacing.count, s.links[p]);
    }
  }

  lemma OpenSteady(s: State)
    requires Steady(s) && !s.halted
    ensures Steady(OpenIfReady(s))
  {
    OpenKeepsLinks(s);
    SameButBits(s, OpenIfReady(s));
    TrafficFrame(s, s.peers, OpenIfReady(s).links);
  }

  lemma {:induction false} DrainedCommands(queue: seq<Command>)
    ensures CommandsOf(Drained(queue)) == queue
    ensures forall x :: x in Drained(queue) ==> x.outcomes == [] && x.final == NoResult && x.lost == 0
  {
    if queue != [] {
      var front, c := queue[..|queue| - 1], queue[|queue| - 1];
      DrainedCommands(front);
      assert CommandsOf(Drained(queue)) == CommandsOf(Drained(front)) + [c];
    }
  }

  lemma DrainSteady(s: State)
    requires Steady(s) && !s.halted && !s.running
    ensures Steady(s.(queue := [], completed := s.completed + Drained(s.queue)))
  {
    DrainedCommands(s.queue);
    assert CommandsOf(s.completed + Drained(s.queue)) == CommandsOf(s.completed) + CommandsOf(Drained(s.queue));
  }

  lemma StartShape(s: State, t: State)
    requires Shape(s) && !s.running && s.ready == [] && t == TakeNext(s) && t.running
    requires Distinct(t.ready) && forall p :: p in t.ready <==> p in s.peers && IsAuthed(s.links, p)
    ensures Shape(t)
  {
  }

  lemma StartFlow(s: State, t: State)
    requires Flow(s) && s.current.None? && s.queue != [] && t == TakeNext(s) && !s.running && t.running
    ensures Flow(t)
  {
    assert t.pushed == CommandsOf(t.completed) + Running(t.current) + t.queue;
  }

  lemma StartFrame(s: State)
    requires Frame(s) && !s.halted && !s.running && s.queue != [] && Authed(s.peers, s.links) != []
    ensures Frame(TakeNext(s)) && TakeNext(s).ready == Authed(s.peers, s.links) && TakeNext(s).running
  {
    AuthedMembers(s.peers, s.links);
    assert s.ready == [] && [] + Authed(s.peers, s.links) == Authed(s.peers, s.links);
    StartShape(s, TakeNext(s));
    StartFlow(s, TakeNext(s));
  }

  lemma StartAttached(s: State, l: Link, current: Option<Command>)
    requires Attached(s.current, s.pacing.count, l) && l.sender.None? && current.Some?
    ensures Attached(current, 0, l) && Attached(current, 0, Begin(l, current.value)) && SentBy(Begin(l, current.value)) == 0
  {
  }

  lemma StartTraffic(s: State, t: State)
    requires t == TakeNext(s) && !s.running && t.running
    requires forall p :: p in t.ready ==> p in t.links && SentBy(t.links[p]) == 0
    ensures Traffic(t)
  {
    SumSentZero(t.ready, t.links);
  }

  lemma StartSteady(s: State)
    requires Steady(s) && !s.halted && !s.running && s.queue != [] && Authed(s.peers, s.links) != []
    ensures Steady(TakeNext(s))
  {
    var t := TakeNext(s);
    StartFrame(s);
    forall p | p in t.links
      ensures Attached(t.current, 0, t.links[p]) && (p in t.ready ==> SentBy(t.links[p]) == 0)
    {
      StartAttached(s, s.links[p], t.current);
    }
    StartTraffic(s, t);
  }

  lemma TakeNextSteady(s: State)
    requires Steady(s) && !s.halted
    ensures Steady(TakeNext(s))
  {
    if !s.running && s.queue != [] {
      assert s.ready == [];
      if Authed(s.peers, s.links) == [] { DrainSteady(s); } else { StartSteady(s); }
    }
  }

  lemma StepSteady(s: State, e: Event)
    requires Steady(s) && Enabled(s, e)
    ensures Steady(Step(s, e))
  {
    match e
    case Push(c) => PushSteady(s, c);
    case Connect => ConnectSteady(s);
    case ProcessNext => TakeNextSteady(s);
    case OpenWhenReady => OpenSteady(s);
    case At(p, x) => AtPeerSteady(s, p, x);
  }
}
