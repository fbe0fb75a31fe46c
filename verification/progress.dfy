/** A running command comes to its end: something that brings it closer is due until
    all its peers are stuck, and only so many such steps can be taken. */
module Progress {
  import opened Wrappers
  import opened Arithmetic
  import opened NetStats
  import opened SpeedGauge
  import opened Commands
  import opened MulticastPacing
  import opened CommandSenders
  import opened Peers
  import opened Server
  import opened ServerInvariant
  import opened SteadyRuns
  import opened ServerRuns
  import opened ServerGuarantees
  import Client

  // -------------------------------------------------------- how far a peer is

  /** The packets that sender `x` has still to see sent. */
  function PacketsLeft(x: Sender, p: Pacing): nat {
    var n := if x.cmd.kind.Multicast? then p.count else x.sendPackets;
    if x.cmd.count > n then x.cmd.count - n else 0
  }

  /** A bound on the steps that a peer has before it: a packet takes two, since
      the timer comes between two packets. */
  function Rank(l: Link, p: Pacing): nat {
    if l.sender.None? then 0
    else
      var x := l.sender.value;
      match PhaseOf(l, x)
      case Starting => 10 + 2 * Wanted(x.cmd)
      case CommandSent => 9 + 2 * Wanted(x.cmd)
      case AckSent => 8 + 2 * Wanted(x.cmd)
      case Payload => 6 + 2 * PacketsLeft(x, p) + if l.data then 0 else 1
      case Draining => 5
      case StopReady => 4
      case StopSent => 3
      case Answering => 2
      case ResultSent => 1
  }

  lemma RankBounds(l: Link, p: Pacing)
    requires l.sender.Some?
    ensures 1 <= Rank(l, p) <= 10 + 2 * Wanted(l.sender.value.cmd)
  {
  }

  /** The shared socket finds that the interval is not over. */
  predicate SkipsAt(l: Link, p: Pacing, e: PeerEvent) {
    e.ServerWrite? && l.sender.Some? &&
    var x := l.sender.value;
    x.cmd.kind.Multicast? && !TryStop(x, p) && Waited(p.begin, e.now) < x.cmd.interval
  }

  /** The events that bring a peer closer to its end. A timer that runs out while
      the peer may write anyway changes nothing. */
  predicate AdvancesAt(l: Link, p: Pacing, e: PeerEvent) {
    l.sender.Some? && !SkipsAt(l, p, e) &&
    (e.ServerSend? || e.ServerRead? || e.ClientRead? || e.ClientAnswer? || e.ServerDataFails? ||
     (e.ServerWrite? && l.data) || (e.TimerRunsOut? && !l.data))
  }

  /** What a step does to the rank of its peer. */
  ghost predicate RankFalls(l: Link, p: Pacing, e: PeerEvent)
    requires PeerEnabled(l, e)
  {
    var (l', p', f) := PeerStep(l, p, e);
    && p.count <= p'.count
    && (f.Continue? ==>
          && l'.sender.Some?
          && (AdvancesAt(l, p, e) ==> Rank(l', p') < Rank(l, p))
          && Rank(l', p') <= Rank(l, p) + if SkipsAt(l, p, e) then 1 else 0)
  }

  /** A peer that takes part, whose shared socket is sound. */
  ghost predicate TakesPart(l: Link, p: Pacing) {
    && Sound(l) && l.sender.Some?
    && (if l.sender.value.cmd.kind.Multicast? then PacingSound(p, l.sender.value.cmd) && SentBy(l) <= p.count else p == RESTARTED)
  }

  lemma SendFalls(l: Link, p: Pacing, ok: bool)
    requires TakesPart(l, p) && PeerEnabled(l, ServerSend(ok))
    ensures RankFalls(l, p, ServerSend(ok))
  {
  }

  lemma ReadFalls(l: Link, p: Pacing, k: Nanos)
    requires TakesPart(l, p) && PeerEnabled(l, ServerRead(k))
    ensures RankFalls(l, p, ServerRead(k))
  {
  }

  lemma PingWriteFalls(l: Link, p: Pacing, now: Clock, ok: bool)
    requires TakesPart(l, p) && PeerEnabled(l, ServerWrite(now, ok)) && l.sender.value.cmd.kind.Ping?
    ensures RankFalls(l, p, ServerWrite(now, ok))
  {
  }

  lemma UnicastWriteFalls(l: Link, p: Pacing, now: Clock, ok: bool)
    requires TakesPart(l, p) && PeerEnabled(l, ServerWrite(now, ok)) && l.sender.value.cmd.kind.Unicast?
    ensures RankFalls(l, p, ServerWrite(now, ok))
  {
  }

  lemma MulticastWriteFalls(l: Link, p: Pacing, now: Clock, ok: bool)
    requires TakesPart(l, p) && PeerEnabled(l, ServerWrite(now, ok)) && l.sender.value.cmd.kind.Multicast?
    ensures RankFalls(l, p, ServerWrite(now, ok))
  {
  }

  lemma TimerFalls(l: Link, p: Pacing)
    requires TakesPart(l, p) && PeerEnabled(l, TimerRunsOut)
    ensures RankFalls(l, p, TimerRunsOut)
  {
  }

  lemma ClientReadFalls(l: Link, p: Pacing)
    requires TakesPart(l, p) && PeerEnabled(l, ClientRead)
    ensures RankFalls(l, p, ClientRead)
  {
  }

  lemma ClientAnswerFalls(l: Link, p: Pacing, budget: nat, k: Nanos)
    requires TakesPart(l, p) && PeerEnabled(l, ClientAnswer(budget, k))
    ensures RankFalls(l, p, ClientAnswer(budget, k))
  {
  }

  /** The client and the network leave the phase alone. */
  lemma ClientKeepsRank(l: Link, p: Pacing, e: PeerEvent)
    requires TakesPart(l, p) && PeerEnabled(l, e) && (e.ClientGet? || e.ClientEcho? || e.Disconnect?)
    ensures RankFalls(l, p, e)
  {
    var l' := PeerStep(l, p, e).0;
    SamePhaseSameRank(l, l', p);
  }

  lemma SamePhaseSameRank(l: Link, l': Link, p: Pacing)
    requires l.sender.Some? && l'.sender == l.sender && l'.data == l.data && l'.control == l.control
    requires l'.client.controlWrite == l.client.controlWrite && (l'.client.receiver.None? <==> l.client.receiver.None?)
    ensures Rank(l', p) == Rank(l, p)
  {
  }

  lemma EchoKeepsRank(l: Link, p: Pacing, legal: bool, delay: int, index: nat)
    requires TakesPart(l, p)
    ensures RankFalls(l, p, ServerEcho(legal, delay, index))
  {
    EchoOnlyCounts(DeskOf(l), legal, delay);
  }

  lemma DataFailureLeaves(l: Link, p: Pacing)
    requires TakesPart(l, p) && PeerEnabled(l, ServerDataFails)
    ensures RankFalls(l, p, ServerDataFails)
  {
  }

  lemma EveryStepFalls(l: Link, p: Pacing, e: PeerEvent)
    requires TakesPart(l, p) && PeerEnabled(l, e)
    ensures RankFalls(l, p, e)
  {
    match e
    case ServerSend(ok) => SendFalls(l, p, ok);
    case ServerRead(k) => ReadFalls(l, p, k);
    case ServerWrite(now, ok) =>
      match l.sender.value.cmd.kind {
        case Ping => PingWriteFalls(l, p, now, ok);
        case Unicast => UnicastWriteFalls(l, p, now, ok);
        case Multicast => MulticastWriteFalls(l, p, now, ok);
      }
    case TimerRunsOut => TimerFalls(l, p);
    case ClientRead => ClientReadFalls(l, p);
    case ClientAnswer(budget, k) => ClientAnswerFalls(l, p, budget, k);
    case ServerEcho(legal, delay, index) => EchoKeepsRank(l, p, legal, delay, index);
    case ServerDataFails => DataFailureLeaves(l, p);
    case _ => ClientKeepsRank(l, p, e);
  }

  // ----------------------------------------------------- all peers together

  function Ranks(links: map<PeerId, Link>, p: Pacing): map<PeerId, nat> { map q | q in links :: Rank(links[q], p) }

  /** How many more steps the running command can take, at most. */
  function StepsLeft(s: State): nat { if s.running then Total(s.ready, Ranks(s.links, s.pacing)) else 0 }

  lemma OthersFall(l: Link, p: Pacing, p': Pacing)
    requires p.count <= p'.count
    ensures Rank(l, p') <= Rank(l, p)
  {
  }

  // ------------------------------------------------------------- every event

  predicate Skips(s: State, e: Event) { e.At? && e.p in s.links && SkipsAt(s.links[e.p], s.pacing, e.e) }

  /** The events that bring the running command closer to its end. */
  predicate Advances(s: State, e: Event) {
    && Enabled(s, e)
    && match e
       case OpenWhenReady => OpenIfReady(s) != s
       case At(p, x) => AdvancesAt(s.links[p], s.pacing, x)
       case _ => false
  }

  /** What an event does to the running command of `s`. */
  ghost predicate Closer(s: State, t: State, advances: bool, skips: bool) {
    && (t.running ==> t.current == s.current)
    && StepsLeft(t) <= StepsLeft(s) + (if skips then 1 else 0)
    && (advances ==> StepsLeft(t) < StepsLeft(s))
  }

  lemma PeerTakesPart(s: State, p: PeerId)
    requires Good(s) && !s.halted && p in s.links && s.links[p].sender.Some?
    ensures TakesPart(s.links[p], s.pacing) && p in s.ready && s.running
  {
    PeerInPool(s, p);
  }

  /** A peer that stays. */
  lemma StayCloser(s: State, p: PeerId, l: Link, pacing: Pacing, advances: bool, skips: bool)
    requires Shape(s) && s.running && p in s.ready && s.pacing.count <= pacing.count
    requires Rank(l, pacing) <= Rank(s.links[p], s.pacing) + (if skips then 1 else 0)
    requires advances ==> Rank(l, pacing) < Rank(s.links[p], s.pacing)
    ensures Closer(s, s.(pacing := pacing, links := s.links[p := l]), advances, skips)
  {
    forall q | q in s.ready && q != p ensures Rank(s.links[q], pacing) <= Rank(s.links[q], s.pacing) {
      OthersFall(s.links[q], s.pacing, pacing);
    }
    WithoutMembers(s.ready, p);
    TotalMoves(s.ready, Ranks(s.links, s.pacing), Ranks(s.links[p := l], pacing), p);
  }

  /** A peer that leaves or is done. */
  lemma LeaveCloser(s: State, p: PeerId, pacing: Pacing, t: State)
    requires Shape(s) && s.running && p in s.ready && s.links[p].sender.Some? && s.pacing.count <= pacing.count
    requires forall q :: q in s.ready && q != p ==> q in t.links && t.links[q] == s.links[q]
    requires t.ready == Without(s.ready, p) && t.pacing == pacing && (t.running ==> t.current == s.current)
    ensures Closer(s, t, true, false)
  {
    WithoutMembers(s.ready, p);
    RankBounds(s.links[p], s.pacing);
    TotalWithout(s.ready, Ranks(s.links, s.pacing), p);
    forall q | q in t.ready ensures Rank(t.links[q], pacing) <= Rank(s.links[q], s.pacing) {
      OthersFall(s.links[q], s.pacing, pacing);
    }
    TotalFalls(t.ready, Ranks(s.links, s.pacing), Ranks(t.links, pacing));
  }

  lemma StoppedLeaves(s: State, p: PeerId, o: Outcome)
    requires Shape(s) && p in s.ready
    ensures var t := Stopped(s, p, o);
            && t.ready == Without(s.ready, p) && t.pacing == s.pacing && (t.running ==> t.current == s.current)
            && t.links == s.links[p := s.links[p].(reporting := false)]
  {
  }

  lemma RemovedCloser(s: State, p: PeerId, l: Link, pacing: Pacing)
    requires Shape(s) && s.running && p in s.ready && s.links[p].sender.Some? && s.pacing.count <= pacing.count && l.reporting
    ensures Closer(s, Handled(s.(pacing := pacing), p, l, Remove), true, false)
  {
    StoppedLeaves(s.(pacing := pacing, links := s.links[p := l]), p, None);
    LeaveCloser(s, p, pacing, Handled(s.(pacing := pacing), p, l, Remove));
  }

  lemma FinishedCloser(s: State, p: PeerId, l: Link, pacing: Pacing, stat: NetStat)
    requires Shape(s) && s.running && p in s.ready && s.links[p].sender.Some? && s.pacing.count <= pacing.count && l.reporting
    ensures Closer(s, Handled(s.(pacing := pacing), p, l, Finished(stat)), true, false)
  {
    StoppedLeaves(s.(pacing := pacing, links := s.links[p := l]), p, Some(stat));
    LeaveCloser(s, p, pacing, Handled(s.(pacing := pacing), p, l, Finished(stat)));
  }

  lemma StepRanks(s: State, p: PeerId, e: PeerEvent)
    requires Possible(s, p, e) && s.links[p].sender.Some?
    ensures p in s.ready && RankFalls(s.links[p], s.pacing, e) && PeerStep(s.links[p], s.pacing, e).0.reporting
  {
    PeerTakesPart(s, p);
    EveryStepFalls(s.links[p], s.pacing, e);
    EventsAreFair(s, p, e);
  }

  lemma AtPeerCloser(s: State, p: PeerId, e: PeerEvent)
    requires Possible(s, p, e) && s.running && s.links[p].sender.Some?
    ensures Closer(s, AtPeer(s, p, e), AdvancesAt(s.links[p], s.pacing, e), SkipsAt(s.links[p], s.pacing, e))
  {
    var (l, pacing, f) := PeerStep(s.links[p], s.pacing, e);
    StepRanks(s, p, e);
    match f
    case Continue => StayCloser(s, p, l, pacing, AdvancesAt(s.links[p], s.pacing, e), SkipsAt(s.links[p], s.pacing, e));
    case Remove => RemovedCloser(s, p, l, pacing);
    case Finished(stat) => FinishedCloser(s, p, l, pacing, stat);
  }

  /** The peers that take part are left as they are. */
  lemma SameCloser(s: State, t: State)
    requires s.ready == t.ready && s.pacing == t.pacing && s.running == t.running && s.current == t.current
    requires forall q :: q in s.ready ==> q in s.links && q in t.links && t.links[q] == s.links[q]
    ensures Closer(s, t, false, false)
  {
    TotalFalls(s.ready, Ranks(s.links, s.pacing), Ranks(t.links, t.pacing));
  }

  /** A step of a peer that takes no part, or has just joined. */
  lemma OutsiderCloser(s: State, p: PeerId, e: PeerEvent)
    requires Possible(s, p, e) && s.running && s.links[p].sender.None?
    ensures Closer(s, AtPeer(s, p, e), false, false)
  {
    var l, t := s.links[p], AtPeer(s, p, e);
    assert Attached(s.current, s.pacing.count, l) && Sound(l) && !l.reporting && p !in s.ready;
    EventsAreFair(s, p, e);
    var (l', pacing, f) := PeerStep(l, s.pacing, e);
    assert !l'.reporting && pacing == s.pacing && !f.Finished?;
    SameCloser(s, t);
  }

  /** The barrier opens: every peer may write. */
  lemma OpenCloser(s: State)
    requires Good(s) && !s.halted && s.running
    ensures Closer(s, OpenIfReady(s), OpenIfReady(s) != s, false)
  {
    var t := OpenIfReady(s);
    if t != s {
      forall q | q in s.ready ensures Rank(t.links[q], s.pacing) < Rank(s.links[q], s.pacing) {
        PeerStarted(s, q);
        MayWrite(s.links[q], s.pacing);
      }
      assert s.ready[0] in s.ready;
      WithoutMembers(s.ready, s.ready[0]);
      TotalMoves(s.ready, Ranks(s.links, s.pacing), Ranks(t.links, s.pacing), s.ready[0]);
    }
  }

  lemma PeerStarted(s: State, q: PeerId)
    requires Good(s) && !s.halted && q in s.ready && OpenIfReady(s) != s
    ensures q in s.links && OpenIfReady(s).links[q] == s.links[q].(data := true)
    ensures TakesPart(s.links[q], s.pacing) && s.links[q].sender.value.started && !s.links[q].data
    ensures !s.links[q].sender.value.stoping && s.links[q].sender.value.cmd.kind.Multicast?
  {
    assert Attached(s.current, s.pacing.count, s.links[q]);
    PeerTakesPart(s, q);
    assert Shares(s.barrierOpen, s.pacing.count, s.links[q]);
  }

  lemma MayWrite(l: Link, p: Pacing)
    requires TakesPart(l, p) && l.sender.value.started && !l.sender.value.stoping && l.sender.value.cmd.kind.Multicast? && !l.data
    ensures Rank(l.(data := true), p) < Rank(l, p)
  {
  }

  /** While a command runs, no event takes it further from its end, but for a
      skipped send, which costs one step; the events that advance it bring it
      closer. */
  lemma EveryEventCloser(s: State, e: Event)
    requires Good(s) && s.running && Enabled(s, e)
    ensures Closer(s, Step(s, e), Advances(s, e), Skips(s, e))
  {
    match e
    case Push(_) => SameCloser(s, Step(s, e));
    case Connect => SameCloser(s, Step(s, e));
    case ProcessNext => SameCloser(s, Step(s, e));
    case OpenWhenReady => OpenCloser(s);
    case At(p, x) =>
      if s.links[p].sender.Some? { AtPeerCloser(s, p, x); } else { OutsiderCloser(s, p, x); }
  }

  // ------------------------------------------------------------- whole runs

  /** A run from `s` on, throughout which a command runs. */
  predicate Runs(s: State, es: seq<Event>)
    decreases |es|
  {
    s.running && (es == [] || (Enabled(s, es[0]) && Runs(Step(s, es[0]), es[1..])))
  }

  function Advancing(s: State, es: seq<Event>): nat
    requires Runs(s, es)
    decreases |es|
  {
    if es == [] then 0 else (if Advances(s, es[0]) then 1 else 0) + Advancing(Step(s, es[0]), es[1..])
  }

  function Skipped(s: State, es: seq<Event>): nat
    requires Runs(s, es)
    decreases |es|
  {
    if es == [] then 0 else (if Skips(s, es[0]) then 1 else 0) + Skipped(Step(s, es[0]), es[1..])
  }

  lemma SettledProper(s: State)
    requires Proper(s)
    ensures Proper(Settle(s))
  {
  }

  lemma HandledProper(s: State, p: PeerId, l: Link, e: Effect)
    requires Proper(s)
    ensures Proper(Handled(s, p, l, e))
  {
    var t := s.(links := s.links[p := l]);
    if !e.Continue? { SettledProper(Noted(t, p, if e.Finished? then Some(e.stat) else None)); }
  }

  /** Until the running command ends, no other is started. */
  lemma ProperKept(s: State, e: Event)
    requires Steady(s) && Proper(s) && s.running && Enabled(s, e)
    ensures Proper(Step(s, e))
  {
    if e.At? {
      var (l, pacing, f) := PeerStep(s.links[e.p], s.pacing, e.e);
      HandledProper(s.(pacing := pacing), e.p, l, f);
    }
  }

  lemma {:induction false} AdvancesAreBounded(s: State, es: seq<Event>)
    requires Good(s) && Proper(s) && Runs(s, es)
    ensures Advancing(s, es) <= StepsLeft(s) + Skipped(s, es)
    decreases |es|
  {
    if es != [] {
      EveryEventCloser(s, es[0]);
      ProperKept(s, es[0]);
      StepGood(s, es[0]);
      AdvancesAreBounded(Step(s, es[0]), es[1..]);
    }
  }

  lemma {:induction false} TotalBound(ps: seq<PeerId>, m: map<PeerId, nat>, most: nat)
    requires forall q :: q in ps ==> q in m && m[q] <= most
    ensures Total(ps, m) <= |ps| * most
  {
    if ps != [] {
      var n := |ps| - 1;
      assert ps[n] in ps && forall q :: q in ps[..n] ==> q in ps;
      TotalBound(ps[..n], m, most);
      OneMoreTimes(n, most);
    }
  }

  lemma OneMoreTimes(n: nat, most: nat)
    ensures (n + 1) * most == n * most + most
  {
  }

  lemma MeasureBound(s: State, c: Command)
    requires Good(s) && s.running && s.current == Some(c)
    ensures StepsLeft(s) <= |s.ready| * (10 + 2 * Wanted(c))
  {
    forall q | q in s.ready ensures q in s.links && Rank(s.links[q], s.pacing) <= 10 + 2 * Wanted(c) {
      assert Attached(s.current, s.pacing.count, s.links[q]);
      PeerTakesPart(s, q);
      PeerInPool(s, q);
      RankBounds(s.links[q], s.pacing);
    }
    TotalBound(s.ready, Ranks(s.links, s.pacing), 10 + 2 * Wanted(c));
  }

  lemma AdvancesAreFew(s: State, c: Command, es: seq<Event>)
    requires Good(s) && Proper(s) && s.running && s.current == Some(c) && Runs(s, es)
    ensures Advancing(s, es) <= |s.ready| * (10 + 2 * Wanted(c)) + Skipped(s, es)
  {
    AdvancesAreBounded(s, es);
    MeasureBound(s, c);
  }

  /** A command that runs comes to its end: however the events are interleaved,
      while it runs the steps that advance it are no more than a fixed number for
      each peer and two for each packet and peer, plus the sends that the shared
      socket skipped. */
  lemma CommandsEnd(s: State, c: Command, es: seq<Event>)
    requires Reachable(s) && Proper(s) && s.running && s.current == Some(c) && Runs(s, es)
    ensures Advancing(s, es) <= |s.ready| * (10 + 2 * Wanted(c)) + Skipped(s, es)
  {
    ReachableIsGood(s);
    AdvancesAreFew(s, c, es);
  }

  // --------------------------------------------------------- always something due

  /** Nothing is lost with this event: no socket fails and no client goes away. */
  predicate BenignAt(l: Link, e: PeerEvent) {
    match e
    case ServerSend(ok) => ok
    case ServerWrite(_, ok) => ok
    case ServerDataFails => false
    case ClientEcho(budget) => Client.AfterWrite(l.client, budget).1
    case Disconnect(_) => false
    case _ => true
  }

  predicate Benign(s: State, e: Event) { e.At? && e.p in s.links ==> BenignAt(s.links[e.p], e.e) }

  /** An event that brings the running command closer to its end, at no loss. */
  predicate Helps(s: State, e: Event) { Advances(s, e) && Benign(s, e) }

  /** A time at which the shared socket sends. */
  function Due(p: Pacing, c: Command): Clock { if c.interval > 0 then p.begin + c.interval * 1000 else p.begin }

  lemma DueIsDue(p: Pacing, c: Command)
    ensures Waited(p.begin, Due(p, c)) >= c.interval
  {
    if c.interval > 0 { Multiples(c.interval); }
  }

  lemma Multiples(n: nat)
    ensures Quot(n * 1000, 1000) == n
  {
  }

  lemma BusyStep(l: Link, p: Pacing, k: Nanos) returns (x: PeerEvent)
    requires l.sender.Some? && Busy(l) && (l.client.controlWrite ==> l.client.receiver.Some?)
    ensures PeerEnabled(l, x) && AdvancesAt(l, p, x) && BenignAt(l, x)
  {
    if l.toServer != [] || l.closed {
      x := ServerRead(k);
    } else if l.control {
      x := ServerSend(true);
    } else if l.data {
      x := ServerWrite(Due(p, l.sender.value.cmd), true);
      DueIsDue(p, l.sender.value.cmd);
    } else if l.toClient != [] {
      x := ClientRead;
    } else if l.client.controlWrite {
      x := ClientAnswer(0, k);
    } else {
      x := TimerRunsOut;
    }
  }

  lemma BusyHelps(s: State, p: PeerId, k: Nanos)
    requires Good(s) && !s.halted && p in s.links && s.links[p].sender.Some? && Busy(s.links[p])
    ensures exists e :: Helps(s, e)
  {
    var l := s.links[p];
    if l.client.controlWrite { ClientAnswersSound(l, 0, k); }
    var x := BusyStep(l, s.pacing, k);
    assert Helps(s, At(p, x));
  }

  /** A command runs, and if it is a ping its interval is positive, as EchoCommand
      makes sure of. */
  predicate Repeats(s: State) {
    s.running && s.current.Some? && (s.current.value.kind.Ping? ==> s.current.value.interval > 0)
  }

  ghost predicate AllStuck(s: State) { forall q :: q in s.ready ==> q in s.links && Stuck(s.links[q]) }

  /** A peer without a step of its own waits for the barrier, or is stuck. */
  lemma IdlePeer(s: State, q: PeerId)
    requires Good(s) && Repeats(s) && q in s.ready && !Busy(s.links[q])
    ensures s.links[q].sender.Some? && (s.current.value.kind.Multicast? ==> (Stuck(s.links[q]) <==> s.barrierOpen))
    ensures !Stuck(s.links[q]) ==> s.current.value.kind.Multicast? && s.links[q].sender.value.started
  {
    assert Attached(s.current, s.pacing.count, s.links[q]);
    PeerInPool(s, q);
    BusyUnlessStuck(s.links[q]);
  }

  lemma AllWaitForTheBarrier(s: State)
    requires Good(s) && Repeats(s) && !AllStuck(s)
    requires forall p :: p in s.ready && p in s.links ==> !Busy(s.links[p])
    ensures MulticastReady(s) && s.current.value.kind.Multicast? && !s.barrierOpen
  {
    var q :| q in s.ready && q in s.links && !Stuck(s.links[q]);
    IdlePeer(s, q);
    forall p | p in s.ready ensures s.links[p].sender.Some? && s.links[p].sender.value.started { IdlePeer(s, p); }
  }

  lemma SomethingIsDue(s: State)
    requires Good(s) && Repeats(s) && !AllStuck(s)
    ensures exists e :: Helps(s, e)
  {
    if q :| q in s.ready && Busy(s.links[q]) {
      assert Attached(s.current, s.pacing.count, s.links[q]);
      BusyHelps(s, q, 0);
    } else {
      AllWaitForTheBarrier(s);
      assert OpenIfReady(s).barrierOpen;
      assert Helps(s, OpenWhenReady);
    }
  }

  lemma StuckPeer(s: State, q: PeerId)
    requires Good(s) && Repeats(s) && q in s.ready && Stuck(s.links[q])
    ensures !Busy(s.links[q]) && (s.current.value.kind.Multicast? ==> s.barrierOpen)
  {
    PeerInPool(s, q);
    BusyUnlessStuck(s.links[q]);
  }

  lemma NothingHelps(s: State, e: Event)
    requires Good(s) && Repeats(s) && AllStuck(s)
    ensures !Helps(s, e)
  {
    assert s.ready[0] in s.ready;
    StuckPeer(s, s.ready[0]);
    if e.At? && e.p in s.links && s.links[e.p].sender.Some? {
      PeerInPool(s, e.p);
      StuckPeer(s, e.p);
    }
  }

  /** While a command runs, something that helps it on is due if and only if not all
      of its peers are stuck. */
  lemma StuckExactly(s: State)
    requires Reachable(s) && Proper(s) && Repeats(s)
    ensures (exists e :: Helps(s, e)) <==> exists q :: q in s.ready && q in s.links && !Stuck(s.links[q])
  {
    ReachableIsGood(s);
    if AllStuck(s) {
      forall e ensures !Helps(s, e) { NothingHelps(s, e); }
    } else {
      SomethingIsDue(s);
    }
    assert forall q :: q in s.ready ==> q in s.links;
  }

  /** With a positive wait a command that runs is never stuck. */
  lemma NoDeadlock(s: State)
    requires Reachable(s) && Proper(s) && Repeats(s) && s.current.value.wait > 0
    ensures exists e :: Helps(s, e)
  {
    ReachableIsGood(s);
    assert s.ready[0] in s.ready;
    assert Attached(s.current, s.pacing.count, s.links[s.ready[0]]);
    SomethingIsDue(s);
  }

  // ------------------------------------------------------- how commands end

  /** A run from `s` on in which nothing is lost. */
  predicate Lossless(s: State, es: seq<Event>)
    decreases |es|
  {
    es == [] || (Enabled(s, es[0]) && Benign(s, es[0]) && Lossless(Step(s, es[0]), es[1..]))
  }

  function Last(s: State, es: seq<Event>): State
    requires Lossless(s, es)
    decreases |es|
  {
    if es == [] then s else Last(Step(s, es[0]), es[1..])
  }

  /** The running command is over after such a run: its callback has fired, or the
      server has divided by zero. */
  predicate EndsBy(s: State, es: seq<Event>) { Lossless(s, es) && !Last(s, es).running }

  /** The same, and each event helps. */
  predicate Ends(s: State, es: seq<Event>)
    decreases |es|
  {
    if es == [] then !s.running else s.running && Helps(s, es[0]) && Ends(Step(s, es[0]), es[1..])
  }

  lemma {:induction false} EndsIsLossless(s: State, es: seq<Event>)
    requires Ends(s, es)
    ensures EndsBy(s, es)
    decreases |es|
  {
    if es != [] { EndsIsLossless(Step(s, es[0]), es[1..]); }
  }

  /** The wait is positive, or all clients that take part are gone. */
  ghost predicate CanEnd(s: State) {
    s.current.Some? && (s.current.value.wait > 0 || forall q :: q in s.ready && q in s.links ==> s.links[q].closed)
  }

  lemma NotAllStuck(s: State)
    requires Good(s) && Repeats(s) && CanEnd(s)
    ensures !AllStuck(s)
  {
    var q := s.ready[0];
    assert q in s.ready && Attached(s.current, s.pacing.count, s.links[q]);
  }

  lemma SettledReady(s: State)
    ensures Settle(s).ready == s.ready && Settle(s).links == s.links && (s.ready != [] ==> Settle(s) == s)
  {
  }

  lemma ClosedStays(l: Link, p: Pacing, e: PeerEvent)
    requires PeerEnabled(l, e)
    ensures l.closed ==> PeerStep(l, p, e).0.closed
    ensures PeerStep(l, p, e).0.reporting == l.reporting
  {
  }

  lemma HandledReady(s: State, p: PeerId, l: Link, e: Effect, q: PeerId)
    requires Shape(s) && p in s.links && l.reporting == s.links[p].reporting
    ensures q in Handled(s, p, l, e).ready <==> q in s.ready && (q == p ==> e.Continue?)
    ensures q in Handled(s, p, l, e).ready ==> q in Handled(s, p, l, e).links
    ensures q in Handled(s, p, l, e).ready ==> Handled(s, p, l, e).links[q] == if q == p then l else s.links[q]
  {
    var t := s.(links := s.links[p := l]);
    WithoutMembers(s.ready, p);
    if !e.Continue? { SettledReady(Noted(t, p, if e.Finished? then Some(e.stat) else None)); }
  }

  lemma ReadyShrinksAt(s: State, p: PeerId, e: PeerEvent, q: PeerId)
    requires Possible(s, p, e) && q in AtPeer(s, p, e).ready
    ensures q in s.ready && q in AtPeer(s, p, e).links && (s.links[q].closed ==> AtPeer(s, p, e).links[q].closed)
  {
    var (l, pacing, f) := PeerStep(s.links[p], s.pacing, e);
    ClosedStays(s.links[p], s.pacing, e);
    HandledReady(s.(pacing := pacing), p, l, f, q);
  }

  /** The peers that take part afterwards did so before; who is gone stays gone. */
  lemma ReadyShrinks(s: State, e: Event, q: PeerId)
    requires Good(s) && s.running && Enabled(s, e) && q in Step(s, e).ready
    ensures q in s.ready && q in Step(s, e).links && (s.links[q].closed ==> Step(s, e).links[q].closed)
  {
    if e.At? { ReadyShrinksAt(s, e.p, e.e, q); }
  }

  lemma {:induction false} EndsWithin(s: State) returns (es: seq<Event>)
    requires Good(s) && Proper(s) && (s.running ==> Repeats(s) && CanEnd(s))
    ensures Ends(s, es) && |es| <= StepsLeft(s)
    decreases StepsLeft(s)
  {
    if !s.running { return []; }
    NotAllStuck(s);
    SomethingIsDue(s);
    var e :| Helps(s, e);
    EveryEventCloser(s, e);
    ProperKept(s, e);
    StepGood(s, e);
    forall q | q in Step(s, e).ready ensures q in s.ready && (s.links[q].closed ==> Step(s, e).links[q].closed) {
      ReadyShrinks(s, e, q);
    }
    var rest := EndsWithin(Step(s, e));
    es := [e] + rest;
    assert es[1..] == rest;
  }

  // ------------------------------------------------------ and how they do not

  /** Without a wait, a client that stays keeps its peer in the command. */
  lemma StaysOpen(l: Link, p: Pacing, e: PeerEvent)
    requires TakesPart(l, p) && !l.closed && l.sender.value.cmd.wait <= 0 && PeerEnabled(l, e) && BenignAt(l, e)
    ensures var (l', _, f) := PeerStep(l, p, e);
            f == Continue && !l'.closed
  {
    match e
    case ServerSend(ok) => ServerSendsSound(l, ok);
    case ServerRead(k) => ServerReadsSound(l, k);
    case ServerWrite(_, _) =>
    case ServerEcho(_, _, _) =>
    case ServerDataFails =>
    case TimerRunsOut =>
    case ClientRead => ClientReadsSound(l);
    case ClientAnswer(_, _) =>
    case ClientGet(_, _) =>
    case ClientEcho(_) =>
    case Disconnect(_) =>
  }

  /** A peer that takes part, and whose client stays. */
  ghost predicate StaysIn(s: State, q: PeerId) { q in s.ready && q in s.links && !s.links[q].closed }

  lemma StaysInAt(s: State, p: PeerId, e: PeerEvent, q: PeerId)
    requires Possible(s, p, e) && s.running && s.current.Some? && s.current.value.wait <= 0 && BenignAt(s.links[p], e)
    requires StaysIn(s, q)
    ensures StaysIn(AtPeer(s, p, e), q)
  {
    var (l, pacing, f) := PeerStep(s.links[p], s.pacing, e);
    ClosedStays(s.links[p], s.pacing, e);
    if p == q {
      assert Attached(s.current, s.pacing.count, s.links[p]);
      PeerTakesPart(s, p);
      StaysOpen(s.links[p], s.pacing, e);
    }
    HandledReady(s.(pacing := pacing), p, l, f, q);
  }

  lemma StaysInAnyway(s: State, e: Event, q: PeerId)
    requires Steady(s) && s.running && StaysIn(s, q) && Enabled(s, e) && !e.At?
    ensures StaysIn(Step(s, e), q)
  {
  }

  lemma StillRuns(s: State, e: Event, q: PeerId)
    requires Good(s) && s.running && s.current.Some? && s.current.value.wait <= 0
    requires Enabled(s, e) && Benign(s, e) && StaysIn(s, q)
    ensures StaysIn(Step(s, e), q) && Step(s, e).running && Step(s, e).current == s.current
  {
    if e.At? { StaysInAt(s, e.p, e.e, q); } else { StaysInAnyway(s, e, q); }
    StepSteady(s, e);
    EveryEventCloser(s, e);
  }

  lemma {:induction false} RunsForever(s: State, es: seq<Event>, q: PeerId)
    requires Good(s) && Proper(s) && s.running && s.current.Some? && s.current.value.wait <= 0
    requires Lossless(s, es) && StaysIn(s, q)
    ensures Last(s, es).running && Last(s, es).current == s.current
    decreases |es|
  {
    if es != [] {
      StillRuns(s, es[0], q);
      ProperKept(s, es[0]);
      StepGood(s, es[0]);
      RunsForever(Step(s, es[0]), es[1..], q);
    }
  }

  lemma NoEnd(s: State, es: seq<Event>)
    requires Good(s) && Proper(s) && Repeats(s) && !CanEnd(s)
    ensures !EndsBy(s, es)
  {
    var q :| q in s.ready && q in s.links && !s.links[q].closed;
    if Lossless(s, es) { RunsForever(s, es, q); }
  }

  /** A command that runs can be brought to its end without a loss if and only if its
      wait is positive or all clients that take part are gone; and then no more
      events are needed than its measure says. */
  lemma EndsExactly(s: State)
    requires Reachable(s) && Proper(s) && Repeats(s)
    ensures (exists es :: EndsBy(s, es)) <==> CanEnd(s)
    ensures CanEnd(s) ==> exists es :: Ends(s, es) && |es| <= StepsLeft(s)
  {
    ReachableIsGood(s);
    if CanEnd(s) {
      var es := EndsWithin(s);
      EndsIsLossless(s, es);
    } else {
      forall es ensures !EndsBy(s, es) { NoEnd(s, es); }
    }
  }

  lemma StuckStays(l: Link, p: Pacing, e: PeerEvent)
    requires TakesPart(l, p) && Stuck(l) && !Busy(l) && PeerEnabled(l, e) && BenignAt(l, e)
    ensures var (l', p', f) := PeerStep(l, p, e);
            f == Continue && p' == p && Stuck(l')
  {
    if e.ServerEcho? { EchoOnlyCounts(DeskOf(l), e.legal, e.delay); }
  }

  lemma StuckOneStays(s: State, p: PeerId, e: PeerEvent)
    requires Possible(s, p, e) && Repeats(s) && AllStuck(s) && BenignAt(s.links[p], e) && p in s.ready
    ensures var (l, pacing, f) := PeerStep(s.links[p], s.pacing, e);
            f == Continue && pacing == s.pacing && Stuck(l)
  {
    assert Attached(s.current, s.pacing.count, s.links[p]);
    PeerTakesPart(s, p);
    StuckPeer(s, p);
    StuckStays(s.links[p], s.pacing, e);
  }

  lemma OthersStayStuck(s: State, p: PeerId, l: Link, f: Effect)
    requires Shape(s) && p in s.links && l.reporting == s.links[p].reporting && AllStuck(s)
    requires p in s.ready ==> f == Continue && Stuck(l)
    ensures AllStuck(Handled(s, p, l, f))
  {
    forall q | q in Handled(s, p, l, f).ready ensures q in Handled(s, p, l, f).links && Stuck(Handled(s, p, l, f).links[q]) {
      HandledReady(s, p, l, f, q);
    }
  }

  lemma StuckPeersStay(s: State, p: PeerId, e: PeerEvent)
    requires Possible(s, p, e) && Repeats(s) && AllStuck(s) && BenignAt(s.links[p], e)
    ensures AllStuck(AtPeer(s, p, e))
  {
    var (l, pacing, f) := PeerStep(s.links[p], s.pacing, e);
    ClosedStays(s.links[p], s.pacing, e);
    if p in s.ready { StuckOneStays(s, p, e); }
    OthersStayStuck(s.(pacing := pacing), p, l, f);
  }

  lemma HandledAnswers(s: State, p: PeerId, l: Link, e: Effect)
    requires s.running && Handled(s, p, l, e).running
    ensures Handled(s, p, l, e).completed == s.completed
  {
    var t := s.(links := s.links[p := l]);
    if !e.Continue? {
      var u := Noted(t, p, if e.Finished? then Some(e.stat) else None);
      assert Settle(u).running ==> Settle(u) == u;
    }
  }

  /** What was answered and what waits in the queue, while a command runs. */
  lemma NothingAnswered(s: State, e: Event)
    requires Good(s) && s.running && Enabled(s, e) && Step(s, e).running
    ensures Step(s, e).completed == s.completed && s.queue <= Step(s, e).queue
  {
    if e.At? {
      var (l, pacing, f) := PeerStep(s.links[e.p], s.pacing, e.e);
      AtPeerQueue(s, e.p, e.e);
      HandledAnswers(s.(pacing := pacing), e.p, l, f);
    }
  }

  /** What a stuck command keeps. */
  ghost predicate StuckSince(s: State, t: State) {
    AllStuck(t) && t.running && t.current == s.current && t.completed == s.completed && s.queue <= t.queue
  }

  lemma {:induction false} StaysStuck(s: State, es: seq<Event>)
    requires Good(s) && Proper(s) && Repeats(s) && AllStuck(s) && Lossless(s, es)
    ensures StuckSince(s, Last(s, es))
    decreases |es|
  {
    if es != [] {
      StuckThen(s, es[0]);
      ProperKept(s, es[0]);
      StepGood(s, es[0]);
      StaysStuck(Step(s, es[0]), es[1..]);
    }
  }

  /** Nothing but a loss gets a command out of this: once all its peers are stuck,
      they stay so, no callback fires, and the queue waits. */
  lemma StuckForever(s: State, es: seq<Event>)
    requires Reachable(s) && Proper(s) && Repeats(s) && AllStuck(s) && Lossless(s, es)
    ensures StuckSince(s, Last(s, es))
  {
    ReachableIsGood(s);
    StaysStuck(s, es);
  }

  lemma StuckAnyway(s: State, e: Event)
    requires Good(s) && Repeats(s) && AllStuck(s) && Enabled(s, e) && !e.At?
    ensures AllStuck(Step(s, e))
  {
    StuckPeer(s, s.ready[0]);
  }

  lemma StuckRuns(s: State, e: Event)
    requires Good(s) && Repeats(s) && AllStuck(s) && Enabled(s, e) && Benign(s, e)
    ensures Step(s, e).running && Step(s, e).current == s.current
  {
    var q := s.ready[0];
    assert q in s.ready && StaysIn(s, q);
    PeerInPool(s, q);
    StillRuns(s, e, q);
  }

  lemma StuckThen(s: State, e: Event)
    requires Good(s) && Repeats(s) && AllStuck(s) && Enabled(s, e) && Benign(s, e)
    ensures Repeats(Step(s, e)) && StuckSince(s, Step(s, e))
  {
    StuckRuns(s, e);
    if e.At? { StuckPeersStay(s, e.p, e.e); } else { StuckAnyway(s, e); }
    NothingAnswered(s, e);
  }
}
