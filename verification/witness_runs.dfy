/** Concrete runs, step by step and over faithful channels: three that end in a
    division by zero, one whose callback gets a negative loss, one that never ends,
    and one in which payload leaves before its command. */
module WitnessRuns {
  import opened Wrappers
  import opened SequenceWindow
  import opened DuplicateFilter
  import opened NetStats
  import opened Commands
  import opened MulticastPacing
  import opened CommandSenders
  import opened CommandReceivers
  import opened Peers
  import opened Server
  import opened ServerRuns
  import opened Channels
  import opened ServerGuarantees
  import opened EndToEnd
  import opened Progress
  import opened WitnessSteps
  import Client

  // ------------------------------------------ commands that ask for no packet

  /** One peer runs the command. */
  function Alone(c: Command, l: Link): State { AllAt(1, c, [], false, l) }

  lemma AloneWith(c: Command, l: Link, l': Link)
    ensures Alone(c, l).links == map[0 := l] && With(Alone(c, l), 0, l') == Alone(c, l')
  {
    assert Numbered(1) == [0];
    assert Everywhere(1, l) == map[0 := l] && Everywhere(1, l') == map[0 := l'];
  }

  lemma GetsReadyAlone(ch: Channel, c: Command)
    requires !c.kind.Multicast?
    ensures ReachableOver(ch, Alone(c, Ready(c, true)))
  {
    OneQueued(ch, 1, c);
    assert [c] + [] == [c];
    Launches(ch, 1, c, []);
    AloneWith(c, Given(c), Ready(c, true));
    GetsReady(ch, Alone(c, Given(c)), 0, c);
  }

  /** After the push of `c` alone, the server has divided by zero. */
  predicate DividesByZero(s: State, c: Command) { s.halted && s.pushed == [c] }

  /** The last step of a sender that has sent nothing. */
  lemma NothingHalts(c: Command, l: Link, l': Link, stat: NetStat)
    requires l'.reporting && stat.sendBytes == 0 && !c.kind.Multicast?
    ensures DividesByZero(Handled(Alone(c, l), 0, l', Finished(stat)), c)
  {
    AloneWith(c, l, l');
    assert Numbered(1) == [0] && [0][..0] == [] && Without([0], 0) == [];
  }

  lemma NothingReported(c: Command)
    requires !c.kind.Multicast?
    ensures ReportOf(SenderAt(c, 0, false, []), Attentive(c)).sendBytes == 0
  {
  }

  lemma ReportsInVain(c: Command, x: Sender, data: bool, client: Client.State, t: Trail)
    requires !c.kind.Multicast? && x == SenderAt(c, 0, false, []) && client == Attentive(c)
    requires FaithfullyReachable(Alone(c, Answered(x, data, client, t)))
    ensures exists s :: FaithfullyReachable(s) && DividesByZero(s, c)
  {
    var l := Answered(x, data, client, t);
    AloneWith(c, l, l);
    Finishes(x, data, RESTARTED, client, t);
    var l', stat := PeerStep(l, RESTARTED, ServerRead(0)).0, ReportOf(x, client);
    FinishOnward(FaithfulChannel, Alone(c, l), 0, l, l', stat);
    NothingReported(c);
    NothingHalts(c, l, l', stat);
  }

  /** A sender that has sent nothing stops, its client answers, and the server
      divides by the number of peers that sent. */
  lemma StopsInVain(c: Command, data: bool, t: Trail)
    requires !c.kind.Multicast? && c.wait > 0
    requires FaithfullyReachable(Alone(c, Drains(SenderAt(c, 0, false, []), data, Attentive(c), t)))
    ensures exists s :: FaithfullyReachable(s) && DividesByZero(s, c)
  {
    var x, client := SenderAt(c, 0, false, []), Attentive(c);
    var s, l := Alone(c, Drains(x, data, client, t)), Answered(x, data, client, Ticked(t));
    AloneWith(c, Drains(x, data, client, t), Drains(x, data, client, t));
    StopsAndAnswers(FaithfulChannel, s, 0, x, data, client, t);
    AloneWith(c, Drains(x, data, client, t), l);
    ReportsInVain(c, x, data, client, Ticked(t));
  }

  /** One peer runs a unicast command of no packet: its sender stops at once. */
  lemma EmptySendHalts(c: Command)
    requires c.kind.Unicast? && c.wait > 0 && c.count < 1
    ensures exists s :: FaithfullyReachable(s) && DividesByZero(s, c)
  {
    var x, client := SenderAt(c, 0, false, []), Attentive(c);
    GetsReadyAlone(FaithfulChannel, c);
    AloneWith(c, Ready(c, true), Ready(c, true));
    RunsOut(FaithfulChannel, Alone(c, Ready(c, true)), 0, x, client, FRESH);
    AloneWith(c, Ready(c, true), Drains(x, false, client, Wrote(FRESH)));
    StopsInVain(c, false, Wrote(FRESH));
  }

  /** One peer runs a ping of no packet, and its timer runs out before its data socket
      is written. */
  lemma EmptyPingHalts(c: Command)
    requires c.kind.Ping? && c.interval > 0 && c.wait > 0 && c.count < 1
    ensures exists s :: FaithfullyReachable(s) && DividesByZero(s, c)
  {
    var x, client := SenderAt(c, 0, false, []), Attentive(c);
    GetsReadyAlone(FaithfulChannel, c);
    AloneWith(c, Ready(c, true), Drains(x, true, client, Ticked(FRESH)));
    PingRunsOut(x, true, RESTARTED, client, FRESH);
    PeerOnward(FaithfulChannel, Alone(c, Ready(c, true)), 0, TimerRunsOut, Ready(c, true), Drains(x, true, client, Ticked(FRESH)));
    StopsInVain(c, true, Ticked(FRESH));
  }

  lemma HaltedCommand(s: State, c: Command)
    requires Reachable(s) && DividesByZero(s, c)
    ensures s.current == Some(c)
  {
    ReachableIsSteady(s);
    assert s.pushed[|s.completed|] == s.current.value;
  }

  /** A ping or a unicast command can make the server divide by zero on its own, even
      over faithful channels, if and only if it asks for no packet. */
  lemma NoPacketDividesByZero(c: Command)
    requires !c.kind.Multicast? && c.wait > 0 && (c.kind.Ping? ==> c.interval > 0)
    ensures c.count < 1 ==> exists s :: FaithfullyReachable(s) && DividesByZero(s, c)
    ensures c.count >= 1 ==> forall s :: Reachable(s) ==> !DividesByZero(s, c)
  {
    if c.count < 1 {
      if c.kind.Ping? { EmptyPingHalts(c); } else { EmptySendHalts(c); }
    } else {
      forall s | Reachable(s) ensures !DividesByZero(s, c) {
        HaltsExactly(s);
        if DividesByZero(s, c) { HaltedCommand(s, c); }
      }
    }
  }

  // --------------------------------------- a write bit that outlives its ping

  /** Both peers run the ping, the other command waits. */
  function BothPing(c: Command, next: Command, first: Link, second: Link): State {
    State([next], Some(c), true, false, [0, 1], [0, 1], map[0 := first, 1 := second], 2,
          NO_REPORTS, 2, RESTARTED, false, [c, next], [], [], [], 0, 0)
  }

  lemma BothPingWith(c: Command, next: Command, first: Link, second: Link, l: Link)
    ensures With(BothPing(c, next, first, second), 0, l) == BothPing(c, next, l, second)
    ensures With(BothPing(c, next, first, second), 1, l) == BothPing(c, next, first, l)
  {
    assert (map[0 := first, 1 := second])[0 := l] == map[0 := l, 1 := second];
    assert (map[0 := first, 1 := second])[1 := l] == map[0 := first, 1 := l];
  }

  lemma BothGiven(c: Command, next: Command, l: Link)
    ensures AllAt(2, c, [next], false, l) == BothPing(c, next, l, l)
  {
    assert Numbered(2) == [0, 1] && [c] + [next] == [c, next];
    assert Everywhere(2, l) == map[0 := l, 1 := l];
  }

  lemma BothPingStarts(c: Command, next: Command)
    ensures FaithfullyReachable(BothPing(c, next, Given(c), Given(c)))
  {
    OneQueued(FaithfulChannel, 2, c);
    AnotherPushed(FaithfulChannel, 2, [c], next, [c] + [next]);
    Launches(FaithfulChannel, 2, c, [next]);
    BothGiven(c, next, Given(c));
  }

  predicate AsksForNoPing(c: Command) { c.kind.Ping? && c.interval > 0 && c.wait > 0 && c.count < 1 }

  const SILENT: Trail := Ticked(Ticked(FRESH))
  const SPOKEN: Trail := Ticked(Ticked(Wrote(FRESH)))

  /** The first peer has sent nothing and keeps its write bit. */
  function Silent(c: Command): Link { Answered(SenderAt(c, 0, false, []), true, Attentive(c), SILENT) }

  /** The second peer has sent one ping. */
  function Spoken(c: Command): Link { Answered(SenderAt(c, 1, false, [0]), false, Attentive(c), SPOKEN) }

  lemma FirstStaysSilent(c: Command, next: Command)
    requires AsksForNoPing(c)
    ensures FaithfullyReachable(BothPing(c, next, Silent(c), Given(c)))
  {
    var g, r, x, client := Given(c), Ready(c, true), SenderAt(c, 0, false, []), Attentive(c);
    var s := BothPing(c, next, g, g);
    BothPingStarts(c, next);
    GetsReady(FaithfulChannel, s, 0, c);
    PingRunsOut(x, true, RESTARTED, client, FRESH);
    NextOnward(FaithfulChannel, s, 0, TimerRunsOut, r, Drains(x, true, client, Ticked(FRESH)));
    StopsAndAnswers(FaithfulChannel, s, 0, x, true, client, Ticked(FRESH));
    BothPingWith(c, next, g, g, Silent(c));
  }

  lemma FirstStamp(stamps: seq<SeqNo>)
    requires stamps == []
    ensures stamps + [Wrap(0)] == [0]
  {
  }

  lemma SecondSpeaks(c: Command, next: Command)
    requires AsksForNoPing(c)
    ensures FaithfullyReachable(BothPing(c, next, Silent(c), Spoken(c)))
  {
    var g, r, x, client := Given(c), Ready(c, true), SenderAt(c, 1, false, [0]), Attentive(c);
    var s := BothPing(c, next, Silent(c), g);
    FirstStaysSilent(c, next);
    GetsReady(FaithfulChannel, s, 1, c);
    FirstStamp([]);
    PingSends(SenderAt(c, 0, false, []), x, RESTARTED, client, FRESH);
    NextOnward(FaithfulChannel, s, 1, ServerWrite(0, true), r, AtPayload(x, false, client, Wrote(FRESH)));
    PingRunsOut(x, false, RESTARTED, client, Wrote(FRESH));
    NextOnward(FaithfulChannel, s, 1, TimerRunsOut, AtPayload(x, false, client, Wrote(FRESH)), Drains(x, false, client, Ticked(Wrote(FRESH))));
    StopsAndAnswers(FaithfulChannel, s, 1, x, false, client, Ticked(Wrote(FRESH)));
    BothPingWith(c, next, Silent(c), g, Spoken(c));
  }

  /** What is left of a peer that is done. */
  function Done(l: Link): Link { l.(reporting := false, sender := None) }

  lemma TheOther(ps: seq<PeerId>)
    requires ps == [0, 1]
    ensures Without(ps, 0) == [1]
  {
    assert ps[..1] == [0] && ps[..1][..0] == [] && Without([0], 0) == [];
  }

  /** The first of two peers reports. */
  lemma FirstReports(s: State, l: Link, stat: NetStat)
    requires s.ready == [0, 1] && 0 in s.links && l.reporting && s.totals == NO_REPORTS
    ensures var t := Handled(s, 0, l, Finished(stat));
            && t.ready == [1] && t.links == s.links[0 := Done(l)] && t.totals.stat.Some? && t.totals.failed == 0
            && t.peers == s.peers && t.queue == s.queue && t.pushed == s.pushed && t.current == s.current && t.halted == s.halted
            && t.pacing == s.pacing && t.peersCount == s.peersCount
  {
    TheOther(s.ready);
  }

  /** The second one has sent something, and the command is over. */
  lemma SecondReports(t: State, c: Command, l: Link, stat: NetStat)
    requires t.ready == [1] && 1 in t.links && t.current == Some(c) && !c.kind.Multicast? && t.peersCount == 2 && !t.halted
    requires l.reporting && stat.sendBytes > 0 && t.totals.stat.Some? && t.totals.failed == 0
    ensures var u := Handled(t, 1, l, Finished(stat));
            && u.ready == [] && u.peers == t.peers && u.links == t.links[1 := Done(l)] && u.queue == t.queue && u.pushed == t.pushed
            && !u.running && !u.halted
  {
    assert [1][..0] == [] && Without([1], 1) == [];
  }

  /** The next command is given to the first peer. */
  lemma FirstGetsTheNext(u: State, c: Command)
    requires u.peers == Numbered(2) && u.ready == [] && u.queue == [c] && !u.running && !u.halted
    requires IsAuthed(u.links, 0) && IsAuthed(u.links, 1)
    ensures var v := TakeNext(u);
            !v.halted && v.pacing == RESTARTED && v.pushed == u.pushed && 0 in v.links && v.links[0] == Begin(u.links[0], c)
  {
    AllAuthed(2, u.links);
    assert u.ready + Numbered(2) == Numbered(2) && Numbered(2)[0] == 0;
  }

  lemma SomethingReported(c: Command)
    requires c.kind.Ping?
    ensures ReportOf(SenderAt(c, 1, false, [0]), Attentive(c)).sendBytes == BufferSize(c) > 0
  {
  }

  /** A peer of a ping, about to report, with what it reports and leaves behind. */
  ghost predicate AboutToReport(l: Link, l': Link, stat: NetStat) {
    && PeerEnabled(l, ServerRead(0)) && PeerStep(l, RESTARTED, ServerRead(0)) == (l', RESTARTED, Finished(stat))
    && l'.authed && l'.reporting
  }

  lemma ReportsFollow(x: Sender, data: bool, client: Client.State, t: Trail) returns (l: Link, stat: NetStat)
    requires Sending(x) && client.receiver.Some?
    ensures AboutToReport(Answered(x, data, client, t), l, stat) && l.data == data && stat == ReportOf(x, client)
  {
    Finishes(x, data, RESTARTED, client, t);
    l, stat := PeerStep(Answered(x, data, client, t), RESTARTED, ServerRead(0)).0, ReportOf(x, client);
  }

  /** The first peer has reported, and the second is about to. */
  ghost predicate OneToGo(t: State, c: Command) {
    && FaithfullyReachable(t) && t.ready == [1] && t.current == Some(c) && !c.kind.Multicast? && t.peersCount == 2 && !t.halted
    && t.totals.stat.Some? && t.totals.failed == 0 && t.pacing == RESTARTED
  }

  lemma FirstIsDone(s: State, c: Command, l: Link, l': Link, stat: NetStat) returns (t: State)
    requires FaithfullyReachable(s) && s.ready == [0, 1] && 0 in s.links && s.links[0] == l
    requires s.current == Some(c) && !c.kind.Multicast? && s.peersCount == 2 && !s.halted
    requires s.totals == NO_REPORTS && s.pacing == RESTARTED && AboutToReport(l, l', stat)
    ensures OneToGo(t, c) && t.links == s.links[0 := Done(l')] && t.queue == s.queue && t.pushed == s.pushed && t.peers == s.peers
  {
    t := Handled(s, 0, l', Finished(stat));
    FinishOnward(FaithfulChannel, s, 0, l, l', stat);
    FirstReports(s, l', stat);
  }

  lemma SecondIsDone(t: State, c: Command, l: Link, l': Link, stat: NetStat) returns (u: State)
    requires OneToGo(t, c) && 1 in t.links && t.links[1] == l && AboutToReport(l, l', stat) && stat.sendBytes > 0
    ensures FaithfullyReachable(u) && !u.halted && !u.running && u.ready == [] && u.queue == t.queue && u.pushed == t.pushed && u.peers == t.peers
    ensures u.links == t.links[1 := Done(l')]
  {
    u := Handled(t, 1, l', Finished(stat));
    FinishOnward(FaithfulChannel, t, 1, l, l', stat);
    SecondReports(t, c, l', stat);
  }

  lemma BothAreDone(s: State, c: Command, l0: Link, a: NetStat, l1: Link, b: NetStat) returns (u: State)
    requires FaithfullyReachable(s) && s.ready == [0, 1] && s.current == Some(c) && !c.kind.Multicast?
    requires s.peersCount == 2 && s.totals == NO_REPORTS && s.pacing == RESTARTED && !s.halted
    requires 0 in s.links && AboutToReport(s.links[0], l0, a)
    requires 1 in s.links && AboutToReport(s.links[1], l1, b) && b.sendBytes > 0
    ensures FaithfullyReachable(u) && !u.halted && !u.running && u.ready == []
    ensures u.queue == s.queue && u.pushed == s.pushed && u.peers == s.peers
    ensures IsAuthed(u.links, 0) && IsAuthed(u.links, 1) && u.links[0] == Done(l0)
  {
    var t := FirstIsDone(s, c, s.links[0], l0, a);
    u := SecondIsDone(t, c, s.links[1], l1, b);
  }

  /** The next command is given to them. */
  lemma NextIsGiven(u: State, c: Command) returns (v: State)
    requires FaithfullyReachable(u) && u.peers == [0, 1] && u.ready == [] && u.queue == [c] && !u.running && !u.halted
    requires IsAuthed(u.links, 0) && IsAuthed(u.links, 1)
    ensures FaithfullyReachable(v) && !v.halted && v.pacing == RESTARTED && v.pushed == u.pushed
    ensures 0 in v.links && v.links[0] == Begin(u.links[0], c)
  {
    assert Numbered(2) == [0, 1];
    FirstGetsTheNext(u, c);
    Onward(FaithfulChannel, u, ProcessNext);
    v := TakeNext(u);
  }

  /** Payload of a command has left a peer that is still to be told of the command. */
  predicate TooEarly(l: Link) { l.sender.Some? && l.sender.value.starting && SentBy(l) > 0 }

  ghost predicate SomeTooEarly(s: State) { exists p :: p in s.links && TooEarly(s.links[p]) }

  lemma WritesTooEarly(v: State, l: Link, c: Command)
    requires FaithfullyReachable(v) && !v.halted && v.pacing == RESTARTED && 0 in v.links && v.links[0] == Begin(l, c)
    requires l.data && c.kind.Unicast? && c.count >= 1
    ensures exists s :: FaithfullyReachable(s) && s.pushed == v.pushed && SomeTooEarly(s)
  {
    StaleWriteBit(l, c, 0);
    var l' := PeerStep(v.links[0], RESTARTED, ServerWrite(0, true)).0;
    PeerOnward(FaithfulChannel, v, 0, ServerWrite(0, true), Begin(l, c), l');
    assert With(v, 0, l').links[0] == l';
  }

  /** A peer with its write bit set is given the command. */
  lemma BitIsLeft(u: State, l: Link, c: Command)
    requires FaithfullyReachable(u) && u.peers == [0, 1] && u.ready == [] && u.queue == [c] && !u.running && !u.halted
    requires IsAuthed(u.links, 0) && IsAuthed(u.links, 1) && u.links[0] == l && l.data && c.kind.Unicast? && c.count >= 1
    ensures exists s :: FaithfullyReachable(s) && s.pushed == u.pushed && SomeTooEarly(s)
  {
    var v := NextIsGiven(u, c);
    WritesTooEarly(v, l, c);
  }

  /** Two peers are about to report to `c`, the first with its write bit set. */
  lemma NextIsTooEarly(s: State, c: Command, x0: Sender, x1: Sender, t0: Trail, t1: Trail, next: Command)
    requires FaithfullyReachable(s) && s.ready == s.peers == [0, 1] && s.queue == [next] && s.current == Some(c)
    requires s.peersCount == 2 && s.totals == NO_REPORTS && s.pacing == RESTARTED && !s.halted
    requires Sending(x0) && Sending(x1) && !c.kind.Multicast? && next.kind.Unicast? && next.count >= 1
    requires 0 in s.links && s.links[0] == Answered(x0, true, Attentive(c), t0)
    requires 1 in s.links && s.links[1] == Answered(x1, false, Attentive(c), t1)
    requires ReportOf(x1, Attentive(c)).sendBytes > 0
    ensures exists t :: FaithfullyReachable(t) && t.pushed == s.pushed && SomeTooEarly(t)
  {
    var l0, a := ReportsFollow(x0, true, Attentive(c), t0);
    var l1, b := ReportsFollow(x1, false, Attentive(c), t1);
    var u := BothAreDone(s, c, l0, a, l1, b);
    BitIsLeft(u, Done(l0), next);
  }

  /** No run does this that has started no ping below one. */
  lemma NeverTooEarly(s: State)
    requires Reachable(s) && Proper(s)
    ensures !SomeTooEarly(s)
  {
    ReachableIsGood(s);
    forall p | p in s.links ensures !TooEarly(s.links[p]) { assert Member(s.links[p]); }
  }

  /** Two peers run a ping, then a send. Payload of the send can leave before its
      command if and only if the ping asks for none: a peer that has sent no ping
      keeps its write bit. */
  lemma EmptyPingMakesTheNextTooEarly(c: Command, next: Command)
    requires c.kind.Ping? && c.interval > 0 && c.wait > 0 && next.kind.Unicast? && next.count >= 1
    ensures c.count < 1 ==> exists s :: FaithfullyReachable(s) && s.pushed == [c, next] && SomeTooEarly(s)
    ensures c.count >= 1 ==> forall s :: Reachable(s) && s.pushed == [c, next] ==> !SomeTooEarly(s)
  {
    if c.count < 1 {
      SecondSpeaks(c, next);
      SomethingReported(c);
      NextIsTooEarly(BothPing(c, next, Silent(c), Spoken(c)), c, SenderAt(c, 0, false, []), SenderAt(c, 1, false, [0]), SILENT, SPOKEN, next);
    } else {
      forall s | Reachable(s) && s.pushed == [c, next] ensures !SomeTooEarly(s) {
        PushableIsProper(s);
        NeverTooEarly(s);
      }
    }
  }

  // ------------------------------------------------------- a send without a wait

  /** What "send count 1 wait 0" is resolved to. */
  const NO_WAIT: Command := Command(0, Unicast, 1, 0, 0, 1472, 100, 'a')

  lemma AloneIsStuck(c: Command, l: Link)
    requires c.kind.Unicast? && l.sender.Some? && l.sender.value.cmd == c && Stuck(l)
    ensures var s := Alone(c, l); Proper(s) && Repeats(s) && AllStuck(s)
  {
    AloneWith(c, l, l);
    assert Numbered(1) == [0];
  }

  predicate AsksForOne(c: Command) { c.kind.Unicast? && c.count == 1 && c.interval <= 0 }

  /** The sender of such a command once it has sent its packet. */
  function SentOne(c: Command): Sender { SenderAt(c, 1, true, [0]) }

  lemma OnlyPacketLeaves(ch: Channel, c: Command)
    requires AsksForOne(c)
    ensures ReachableOver(ch, Alone(c, AtPayload(SentOne(c), true, Attentive(c), Wrote(FRESH))))
  {
    var r, l := Ready(c, true), AtPayload(SentOne(c), true, Attentive(c), Wrote(FRESH));
    GetsReadyAlone(ch, c);
    FirstStamp([]);
    UnicastSends(SenderAt(c, 0, false, []), SentOne(c), RESTARTED, Attentive(c), FRESH);
    AloneWith(c, r, l);
    PeerOnward(ch, Alone(c, r), 0, ServerWrite(0, true), r, l);
  }

  lemma OnlyPacketIsOver(c: Command, l: Link)
    requires AsksForOne(c) && l == Drains(SentOne(c), false, Attentive(c), Wrote(Wrote(FRESH)))
    ensures FaithfullyReachable(Alone(c, l))
  {
    var a := AtPayload(SentOne(c), true, Attentive(c), Wrote(FRESH));
    OnlyPacketLeaves(FaithfulChannel, c);
    AloneWith(c, a, a);
    AloneWith(c, a, l);
    RunsOut(FaithfulChannel, Alone(c, a), 0, SentOne(c), Attentive(c), Wrote(FRESH));
  }

  /** One peer runs the command: its packet is sent, and the stop never is. */
  lemma NoWaitIsStuck()
    ensures exists s :: FaithfullyReachable(s) && Proper(s) && Repeats(s) && s.current == Some(NO_WAIT) && AllStuck(s)
  {
    var l := Drains(SentOne(NO_WAIT), false, Attentive(NO_WAIT), Wrote(Wrote(FRESH)));
    OnlyPacketIsOver(NO_WAIT, l);
    AloneIsStuck(NO_WAIT, l);
  }

  // ------------------------------------------- a multicast command at two peers

  function Pair(c: Command, open: bool, first: Link, second: Link, pacing: Pacing): State {
    State([], Some(c), true, open, [0, 1], [0, 1], map[0 := first, 1 := second], 2,
          NO_REPORTS, 2, pacing, false, [c], [], [], [], 0, 0)
  }

  lemma PairFirst(c: Command, open: bool, first: Link, first': Link, second: Link, p: Pacing, p': Pacing)
    ensures With(Pair(c, open, first, second, p), 0, first').(pacing := p') == Pair(c, open, first', second, p')
    ensures With(Pair(c, open, first, second, p), 0, first') == Pair(c, open, first', second, p)
  {
    assert (map[0 := first, 1 := second])[0 := first'] == map[0 := first', 1 := second];
  }

  lemma PairSecond(c: Command, open: bool, first: Link, second: Link, second': Link, p: Pacing, p': Pacing)
    ensures With(Pair(c, open, first, second, p), 1, second').(pacing := p') == Pair(c, open, first, second', p')
    ensures With(Pair(c, open, first, second, p), 1, second') == Pair(c, open, first, second', p)
  {
    assert (map[0 := first, 1 := second])[1 := second'] == map[0 := first, 1 := second'];
  }

  /** The first peer was lost when it had sent `lost` packets. */
  function OneLeft(c: Command, second: Link, pacing: Pacing, lost: nat): State {
    State([], Some(c), true, true, [1], [1], map[1 := second], 2,
          Totals(None, 1, 0), 2, pacing, false, [c], [], [None], [0], 0, lost)
  }

  lemma BothAreGiven(c: Command)
    requires c.kind.Multicast?
    ensures FaithfullyReachable(Pair(c, false, Given(c), Given(c), RESTARTED))
  {
    OneQueued(FaithfulChannel, 2, c);
    assert [c] + [] == [c];
    Launches(FaithfulChannel, 2, c, []);
    assert Numbered(2) == [0, 1];
    assert Everywhere(2, Given(c)) == map[0 := Given(c), 1 := Given(c)];
  }

  lemma BothReady(c: Command)
    requires c.kind.Multicast?
    ensures FaithfullyReachable(Pair(c, false, Ready(c, false), Ready(c, false), RESTARTED))
  {
    var g, r := Given(c), Ready(c, false);
    BothAreGiven(c);
    GetsReady(FaithfulChannel, Pair(c, false, g, g, RESTARTED), 0, c);
    PairFirst(c, false, g, r, g, RESTARTED, RESTARTED);
    GetsReady(FaithfulChannel, Pair(c, false, r, g, RESTARTED), 1, c);
    PairSecond(c, false, r, g, r, RESTARTED, RESTARTED);
  }

  lemma Opens(c: Command)
    requires c.kind.Multicast?
    ensures OpenIfReady(Pair(c, false, Ready(c, false), Ready(c, false), RESTARTED))
              == Pair(c, true, Ready(c, true), Ready(c, true), RESTARTED)
  {
    var s := Pair(c, false, Ready(c, false), Ready(c, false), RESTARTED);
    assert s.links[0] == s.links[1] == Ready(c, false);
    assert MulticastReady(s);
  }

  lemma BothMaySend(c: Command)
    requires c.kind.Multicast?
    ensures FaithfullyReachable(Pair(c, true, Ready(c, true), Ready(c, true), RESTARTED))
  {
    BothReady(c);
    Opens(c);
    Onward(FaithfulChannel, Pair(c, false, Ready(c, false), Ready(c, false), RESTARTED), OpenWhenReady);
  }

  lemma FirstIsLost(c: Command, first: Link, first': Link, second: Link, pacing: Pacing)
    requires first'.reporting
    ensures Handled(Pair(c, true, first, second, pacing), 0, first', Remove) == OneLeft(c, second, pacing, SentBy(first'))
  {
    TheOther([0, 1]);
  }

  lemma LeftWith(c: Command, l: Link, l': Link, pacing: Pacing, lost: nat)
    ensures With(OneLeft(c, l, pacing, lost), 1, l') == OneLeft(c, l', pacing, lost)
  {
  }

  /** The other peer stops, and its client answers. */
  lemma OtherAnswers(c: Command, x: Sender, client: Client.State, pacing: Pacing, lost: nat, t: Trail)
    requires FaithfullyReachable(OneLeft(c, AtPayload(x, true, client, t), pacing, lost))
    requires x == SenderAt(c, x.sendPackets, x.clock, []) && c.kind.Multicast? && c.wait > 0 && pacing.finished && client.receiver.Some?
    ensures FaithfullyReachable(OneLeft(c, Answered(x, false, client, Ticked(Wrote(t))), pacing, lost))
  {
    var s := OneLeft(c, AtPayload(x, true, client, t), pacing, lost);
    LeftWith(c, AtPayload(x, true, client, t), AtPayload(x, true, client, t), pacing, lost);
    RunsOut(FaithfulChannel, s, 1, x, client, t);
    StopsAndAnswers(FaithfulChannel, s, 1, x, false, client, Wrote(t));
    LeftWith(c, AtPayload(x, true, client, t), Answered(x, false, client, Ticked(Wrote(t))), pacing, lost);
  }

  /** What the last report of the command leads to. */
  ghost predicate LastSettled(t: State, c: Command, stat: NetStat, lost: nat) {
    var final := FinalOf([None, Some(stat)], c.kind.Multicast?);
    if final.Undefined? then t.halted && t.current == Some(c)
    else t.current.None? && t.completed == [Completion(c, final, [None, Some(stat)], lost)]
  }

  lemma OtherFinishes(c: Command, x: Sender, client: Client.State, pacing: Pacing, lost: nat, t: Trail) returns (s: State)
    requires client.receiver.Some? && FaithfullyReachable(OneLeft(c, Answered(x, false, client, t), pacing, lost))
    requires x == SenderAt(c, x.sendPackets, x.clock, [])
    ensures FaithfullyReachable(s) && LastSettled(s, c, ReportOf(x, client), lost + pacing.failed)
  {
    var l := Answered(x, false, client, t);
    Finishes(x, false, pacing, client, t);
    var l' := PeerStep(l, pacing, ServerRead(0)).0;
    FinishOnward(FaithfulChannel, OneLeft(c, l, pacing, lost), 1, l, l', ReportOf(x, client));
    LastReport(c, l, l', pacing, lost, ReportOf(x, client));
    s := Handled(OneLeft(c, l, pacing, lost), 1, l', Finished(ReportOf(x, client)));
  }

  lemma LastReport(c: Command, l: Link, l': Link, pacing: Pacing, lost: nat, stat: NetStat)
    requires l'.reporting
    ensures LastSettled(Handled(OneLeft(c, l, pacing, lost), 1, l', Finished(stat)), c, stat, lost + pacing.failed)
  {
    var none: seq<Completion> := [];
    assert Without([1], 1) == [] && [None] + [Some(stat)] == [None, Some(stat)];
    LastTotals(stat);
    assert none + [Completion(c, FinalOf([None, Some(stat)], c.kind.Multicast?), [None, Some(stat)], lost + pacing.failed)]
        == [Completion(c, FinalOf([None, Some(stat)], c.kind.Multicast?), [None, Some(stat)], lost + pacing.failed)];
  }

  lemma LastTotals(stat: NetStat)
    ensures Collect([None, Some(stat)]) == Report(Totals(None, 1, 0), Some(stat))
  {
    var os: seq<Outcome> := [None, Some(stat)];
    assert os[..1] == [None] && os[..1][..0] == [];
    assert Collect(os[..1]) == Totals(None, 1, 0);
  }

  lemma OtherEnds(c: Command, x: Sender, client: Client.State, pacing: Pacing, lost: nat, t: Trail) returns (s: State, stat: NetStat)
    requires FaithfullyReachable(OneLeft(c, AtPayload(x, true, client, t), pacing, lost))
    requires x == SenderAt(c, x.sendPackets, x.clock, []) && c.kind.Multicast? && c.wait > 0 && pacing.finished
    requires client.receiver.Some?
    ensures FaithfullyReachable(s) && LastSettled(s, c, stat, lost + pacing.failed) && stat == ReportOf(x, client)
  {
    OtherAnswers(c, x, client, pacing, lost, t);
    s := OtherFinishes(c, x, client, pacing, lost, Ticked(Wrote(t)));
    stat := ReportOf(x, client);
  }

  // ------------------------------------------------- the only datagram is lost

  const CAST: Command := Command(0, Multicast, 1, 0, 1, 16, 100, 'a')
  const ALL_SENT: Pacing := Pacing(1, true, 0, [0], [0], 1)

  lemma OnlyDatagramFails()
    ensures PacedSend(RESTARTED, CAST, 0, false) == (ALL_SENT, Attempt.Failed)
  {
    var none: seq<SeqNo> := [];
    assert Wrap(0) == 0 && none + [0] == [0];
  }

  lemma LosesTheDatagram()
    ensures PeerEnabled(Ready(CAST, true), ServerWrite(0, false))
    ensures var (l, p, e) := PeerStep(Ready(CAST, true), RESTARTED, ServerWrite(0, false));
            p == ALL_SENT && e == Remove && l.reporting && SentBy(l) == 0
  {
    OnlyDatagramFails();
    var s := Ready(CAST, true).sender.value;
    assert !TryStop(s, RESTARTED) && !s.stoping;
  }

  lemma OnlyOneLeft()
    ensures FaithfullyReachable(OneLeft(CAST, Ready(CAST, true), ALL_SENT, 0))
  {
    var s, l := Pair(CAST, true, Ready(CAST, true), Ready(CAST, true), RESTARTED), Ready(CAST, true);
    BothMaySend(CAST);
    LosesTheDatagram();
    var l' := PeerStep(l, RESTARTED, ServerWrite(0, false)).0;
    LeaveOnward(FaithfulChannel, s, 0, ServerWrite(0, false), l, l', ALL_SENT);
    FirstIsLost(CAST, l, l', l, ALL_SENT);
  }

  lemma NothingWasSent(x: Sender, client: Client.State)
    requires x == SenderAt(CAST, 0, false, []) && client == Listening(CAST, NewSendState(), 0, false)
    ensures FinalOf([None, Some(ReportOf(x, client))], true).Undefined?
  {
    LastTotals(ReportOf(x, client));
  }

  /** Two peers join a multicast command and acknowledge it; the first is lost
      with the only datagram, the second stops without having sent one, and its
      result makes the server divide by zero. */
  lemma ServerCanDivideByZero()
    ensures exists s :: FaithfullyReachable(s) && s.halted && s.current == Some(CAST)
  {
    var x, client := SenderAt(CAST, 0, false, []), Listening(CAST, NewSendState(), 0, false);
    OnlyOneLeft();
    var s, stat := OtherEnds(CAST, x, client, ALL_SENT, 0, FRESH);
    NothingWasSent(x, client);
  }

  // ------------------------------------------ a lost peer whose packet is received

  const TWO: Command := Command(0, Multicast, 2, 0, 1, 16, 100, 'a')
  const ONE_SENT: Pacing := Pacing(1, false, 0, [0], [0], 0)
  const BOTH_SENT: Pacing := Pacing(2, true, 0, [0, 1], [0, 0], 0)

  /** Packet `n` of the command, as it arrives. */
  function Copy(n: SeqNo): Datagram { Datagram(16, n, 16, 'a', 0, 0, n) }

  function AfterOne(): SendState { SendRecv(NewSendState(), Copy(0), TWO) }

  function AfterBoth(): SendState { SendRecv(AfterOne(), Copy(1), TWO) }

  lemma CopiesAdmissible()
    ensures Admissible([0]) && Admissible([0, 1]) && |Numbers([0, 1])| == 2
  {
    InOrderHistory(1);
    InOrderHistory(2);
    assert UpTo(1) == [0] && UpTo(2) == [0, 1];
  }

  lemma NextCopy(r: SendState, d: Datagram, stamps: seq<SeqNo>)
    requires Tallied(TWO, r) && Legal(d, TWO.token) && Genuine(d, TWO, stamps, r.numbers)
    requires Consecutive(stamps, |stamps|) && |stamps| <= 2
    ensures Tallied(TWO, SendRecv(r, d, TWO)) && SendRecv(r, d, TWO).numbers == r.numbers + [d.number]
  {
    TalliedGrows(TWO, r, d, stamps);
    LegalReceived(r, d, TWO);
  }

  lemma FirstCopy()
    ensures Genuine(Copy(0), TWO, ONE_SENT.stamps, NewSendState().numbers)
    ensures Tallied(TWO, AfterOne()) && AfterOne().numbers == [0]
    ensures AfterOne() == SendRecv(NewSendState(), Copy(0), TWO)
  {
    var none: seq<int> := [];
    CopiesAdmissible();
    assert none + [0] == [0];
    NothingTallied(TWO);
    NextCopy(NewSendState(), Copy(0), ONE_SENT.stamps);
  }

  lemma SecondIsGenuine(r: SendState)
    requires r.numbers == [0]
    ensures Genuine(Copy(1), TWO, BOTH_SENT.stamps, r.numbers)
  {
    CopiesAdmissible();
    assert [0] + [1] == [0, 1];
  }

  lemma StampsOfTwo()
    ensures Consecutive(BOTH_SENT.stamps, 2)
  {
  }

  lemma AfterTheFirst(r: SendState, d: Datagram)
    requires Tallied(TWO, r) && r.numbers == [0] && d == Copy(1)
    ensures Genuine(d, TWO, BOTH_SENT.stamps, r.numbers)
    ensures Tallied(TWO, SendRecv(r, d, TWO)) && SendRecv(r, d, TWO).numbers == [0, 1]
  {
    SecondIsGenuine(r);
    StampsOfTwo();
    NextCopy(r, d, BOTH_SENT.stamps);
    assert [0] + [1] == [0, 1];
  }

  lemma SecondCopy()
    ensures Genuine(Copy(1), TWO, BOTH_SENT.stamps, AfterOne().numbers)
    ensures Tallied(TWO, AfterBoth()) && AfterBoth().numbers == [0, 1]
  {
    FirstCopy();
    AfterTheFirst(AfterOne(), Copy(1));
  }

  lemma FirstSends()
    ensures PacedSend(RESTARTED, TWO, 0, true) == (ONE_SENT, Attempt.Sent)
    ensures PacedSend(ONE_SENT, TWO, 0, true) == (BOTH_SENT, Attempt.Sent)
  {
    var none: seq<SeqNo> := [];
    var times: seq<Clock> := [0];
    assert none + [0] == [0] && [0] + [1] == [0, 1] && times + [0] == [0, 0];
  }

  /** A peer sends one packet. */
  lemma PeerSends(client: Client.State, t: Trail, p: Pacing, p': Pacing)
    requires PacedSend(p, TWO, 0, true) == (p', Attempt.Sent) && !p.finished
    ensures var l, l' := AtPayload(SenderAt(TWO, 0, false, []), true, client, t), AtPayload(SenderAt(TWO, 1, true, []), true, client, Wrote(t));
            PeerEnabled(l, ServerWrite(0, true)) && PeerStep(l, p, ServerWrite(0, true)) == (l', p', Continue)
  {
    assert !TryStop(SenderAt(TWO, 0, false, []), p);
  }

  /** A client receives one packet. */
  lemma ClientReceives(x: Sender, r: SendState, n: nat, t: Trail, d: Datagram, p: Pacing)
    requires x.cmd == TWO && Genuine(d, TWO, p.stamps, r.numbers)
    ensures var l := AtPayload(x, true, Listening(TWO, r, n, false), t);
            var l' := AtPayload(x, true, Listening(TWO, SendRecv(r, d, TWO), n + 1, false), Got(t, Handed(Client.Group, d)));
            && PeerEnabled(l, ClientGet(Client.Group, d)) && PeerStep(l, p, ClientGet(Client.Group, d)) == (l', p, Continue)
            && FaithfulAt(l, p, ClientGet(Client.Group, d))
  {
  }

  const ONE_TAKEN: Trail := Got(FRESH, Handed(Client.Group, Copy(0)))
  const BOTH_TAKEN: Trail := Got(Wrote(ONE_TAKEN), Handed(Client.Group, Copy(1)))

  function Sender0(): Link { AtPayload(SenderAt(TWO, 1, true, []), true, Listening(TWO, NewSendState(), 0, false), Wrote(FRESH)) }

  /** The second peer, when it has sent `sent` packets and received `n`. */
  function Peer1(sent: nat, clock: bool, r: SendState, n: nat, t: Trail): Link {
    AtPayload(SenderAt(TWO, sent, clock, []), true, Listening(TWO, r, n, false), t)
  }

  lemma FirstPacketLeaves()
    ensures FaithfullyReachable(Pair(TWO, true, Sender0(), Peer1(0, false, NewSendState(), 0, FRESH), ONE_SENT))
  {
    var l := Ready(TWO, true);
    BothMaySend(TWO);
    FirstSends();
    PeerSends(Listening(TWO, NewSendState(), 0, false), FRESH, RESTARTED, ONE_SENT);
    PayOnward(FaithfulChannel, Pair(TWO, true, l, l, RESTARTED), 0, l, Sender0(), ONE_SENT);
    PairFirst(TWO, true, l, Sender0(), l, RESTARTED, ONE_SENT);
  }

  /** The second peer receives one packet. */
  lemma PacketArrives(sent: nat, clock: bool, r: SendState, r': SendState, n: nat, n': nat, t: Trail, d: Datagram, p: Pacing)
    requires n' == n + 1 && Genuine(d, TWO, p.stamps, r.numbers) && r' == SendRecv(r, d, TWO)
    requires FaithfullyReachable(Pair(TWO, true, Sender0(), Peer1(sent, clock, r, n, t), p))
    ensures FaithfullyReachable(Pair(TWO, true, Sender0(), Peer1(sent, clock, r', n', Got(t, Handed(Client.Group, d))), p))
  {
    var l, l' := Peer1(sent, clock, r, n, t), Peer1(sent, clock, r', n', Got(t, Handed(Client.Group, d)));
    ClientReceives(SenderAt(TWO, sent, clock, []), r, n, t, d, p);
    PeerOnward(FaithfulChannel, Pair(TWO, true, Sender0(), l, p), 1, ClientGet(Client.Group, d), l, l');
    PairSecond(TWO, true, Sender0(), l, l', p, p);
  }

  lemma FirstPacketArrives()
    ensures FaithfullyReachable(Pair(TWO, true, Sender0(), Peer1(0, false, AfterOne(), 1, ONE_TAKEN), ONE_SENT))
  {
    FirstPacketLeaves();
    FirstCopy();
    PacketArrives(0, false, NewSendState(), AfterOne(), 0, 1, FRESH, Copy(0), ONE_SENT);
  }

  lemma SecondPacketLeaves()
    ensures FaithfullyReachable(Pair(TWO, true, Sender0(), Peer1(1, true, AfterOne(), 1, Wrote(ONE_TAKEN)), BOTH_SENT))
  {
    var l, l' := Peer1(0, false, AfterOne(), 1, ONE_TAKEN), Peer1(1, true, AfterOne(), 1, Wrote(ONE_TAKEN));
    FirstPacketArrives();
    FirstSends();
    PeerSends(Listening(TWO, AfterOne(), 1, false), ONE_TAKEN, ONE_SENT, BOTH_SENT);
    PayOnward(FaithfulChannel, Pair(TWO, true, Sender0(), l, ONE_SENT), 1, l, l', BOTH_SENT);
    PairSecond(TWO, true, Sender0(), l, l', ONE_SENT, BOTH_SENT);
  }

  lemma SecondPacketArrives()
    ensures FaithfullyReachable(Pair(TWO, true, Sender0(), Peer1(1, true, AfterBoth(), 2, BOTH_TAKEN), BOTH_SENT))
  {
    SecondPacketLeaves();
    SecondCopy();
    PacketArrives(1, true, AfterOne(), AfterBoth(), 1, 2, Wrote(ONE_TAKEN), Copy(1), BOTH_SENT);
  }

  lemma SenderOfFirstIsLost()
    ensures FaithfullyReachable(OneLeft(TWO, Peer1(1, true, AfterBoth(), 2, BOTH_TAKEN), BOTH_SENT, 1))
  {
    var l := Peer1(1, true, AfterBoth(), 2, BOTH_TAKEN);
    SecondPacketArrives();
    LeaveOnward(FaithfulChannel, Pair(TWO, true, Sender0(), l, BOTH_SENT), 0, ServerDataFails, Sender0(), Sender0(), BOTH_SENT);
    FirstIsLost(TWO, Sender0(), Sender0(), l, BOTH_SENT);
  }

  /** The result of the peer that is left: both packets received, one sent. */
  lemma ReceivedMoreThanSent(x: Sender, r: SendState, client: Client.State)
    requires x == SenderAt(TWO, 1, true, []) && Tallied(TWO, r) && r.numbers == [0, 1] && client == Listening(TWO, r, 2, false)
    ensures MoreThanSent(ReportOf(x, client))
  {
    CopiesAdmissible();
    TalliedReport(TWO, r, 0, 0);
  }

  predicate MoreThanSent(stat: NetStat) { stat.recvPackets == 2 && stat.sendBytes == 16 }

  lemma FirstOfTwo(stat: NetStat)
    ensures var os := [None, Some(stat)]; Successes(os[..1]) == 0 && ReceivedPackets(os[..1]) == 0
  {
    var os: seq<Outcome> := [None, Some(stat)];
    var first := os[..1];
    assert first == [None] && first[..0] == [];
  }

  lemma LossOfTheLast(stat: NetStat)
    requires stat.recvPackets == 2 && stat.sendBytes == 16
    ensures var os := [None, Some(stat)]; FinalOf(os, true).Settled? && Successes(os) == 1 && Missing(TWO, os) == 0
  {
    var os: seq<Outcome> := [None, Some(stat)];
    assert os[..1] == [None] && os[..1][..0] == [];
    FirstOfTwo(stat);
    LastTotals(stat);
  }

  lemma OnlyCompletion(s: State, c: Command)
    requires |s.completed| == 1 && s.completed[0].cmd == c && s.current.None? && Pushable(c)
    ensures Proper(s)
  {
  }

  /** One command has been answered, with a negative loss. */
  predicate ToldNegativeLoss(s: State) {
    |s.completed| == 1 && s.completed[0].final.Settled? && s.completed[0].final.stat.loss < 0.0
  }

  lemma NegativeLoss(t: State, stat: NetStat)
    requires FaithfullyReachable(t) && MoreThanSent(stat) && LastSettled(t, TWO, stat, 1)
    ensures ToldNegativeLoss(t)
  {
    LossOfTheLast(stat);
    OnlyCompletion(t, TWO);
    FaithfulSharedLoss(t, 0);
  }

  /** The peer that is left has received both packets. */
  lemma BothReceived(x: Sender, client: Client.State, t: Trail)
    requires x == SenderAt(TWO, x.sendPackets, x.clock, []) && client.receiver.Some? && MoreThanSent(ReportOf(x, client))
    requires FaithfullyReachable(OneLeft(TWO, AtPayload(x, true, client, t), BOTH_SENT, 1))
    ensures exists s :: FaithfullyReachable(s) && ToldNegativeLoss(s)
  {
    var s, stat := OtherEnds(TWO, x, client, BOTH_SENT, 1, t);
    NegativeLoss(s, stat);
  }

  /** Two peers send one packet each, and the second receives both; then the first
      is lost, and the callback is told a negative loss. */
  lemma LostPeerMakesLossNegative()
    ensures exists s :: FaithfullyReachable(s) && ToldNegativeLoss(s)
  {
    SenderOfFirstIsLost();
    SecondCopy();
    var x, client := SenderAt(TWO, 1, true, []), Listening(TWO, AfterBoth(), 2, false);
    ReceivedMoreThanSent(x, AfterBoth(), client);
    BothReceived(x, client, BOTH_TAKEN);
  }
}
