/** The steps from which runs are put together: what one peer goes through in a
    command, and how peers join and are given one. */
module WitnessSteps {
  import opened Wrappers
  import opened SequenceWindow
  import opened NetStats
  import opened Commands
  import opened MulticastPacing
  import opened CommandSenders
  import opened CommandReceivers
  import opened Peers
  import opened Server
  import opened Channels
  import Client

  lemma Onward(ch: Channel, s: State, e: Event)
    requires ReachableOver(ch, s) && Enabled(s, e) && Allowed(ch, s, e)
    ensures ReachableOver(ch, Step(s, e))
  {
    var es :| LeadsToOver(ch, es, s);
    assert (es + [e])[..|es|] == es;
    assert LeadsToOver(ch, es + [e], Step(s, e));
  }

  function With(s: State, p: PeerId, l: Link): State { s.(links := s.links[p := l]) }

  /** One step of a peer that neither leaves nor finishes nor sends payload. */
  lemma PeerOnward(ch: Channel, s: State, p: PeerId, e: PeerEvent, l: Link, l': Link)
    requires ReachableOver(ch, s) && !s.halted && p in s.links && s.links[p] == l && PeerEnabled(l, e)
    requires PeerStep(l, s.pacing, e) == (l', s.pacing, Continue) && AllowedAt(ch, l, s.pacing, e)
    ensures ReachableOver(ch, With(s, p, l'))
  {
    Onward(ch, s, At(p, e));
  }

  /** The next step of a peer that has just made one. */
  lemma NextOnward(ch: Channel, s: State, p: PeerId, e: PeerEvent, l: Link, l': Link)
    requires p in s.links && ReachableOver(ch, With(s, p, l)) && !s.halted && PeerEnabled(l, e)
    requires PeerStep(l, s.pacing, e) == (l', s.pacing, Continue) && AllowedAt(ch, l, s.pacing, e)
    ensures ReachableOver(ch, With(s, p, l'))
  {
    PeerOnward(ch, With(s, p, l), p, e, l, l');
    assert s.links[p := l][p := l'] == s.links[p := l'];
  }

  /** One step of a peer that sends payload. */
  lemma PayOnward(ch: Channel, s: State, p: PeerId, l: Link, l': Link, pacing: Pacing)
    requires ReachableOver(ch, s) && !s.halted && p in s.links && s.links[p] == l && PeerEnabled(l, ServerWrite(0, true))
    requires PeerStep(l, s.pacing, ServerWrite(0, true)) == (l', pacing, Continue)
    ensures ReachableOver(ch, With(s, p, l').(pacing := pacing))
  {
    Onward(ch, s, At(p, ServerWrite(0, true)));
  }

  /** One step with which a peer leaves. */
  lemma LeaveOnward(ch: Channel, s: State, p: PeerId, e: PeerEvent, l: Link, l': Link, pacing: Pacing)
    requires ReachableOver(ch, s) && !s.halted && p in s.links && s.links[p] == l && PeerEnabled(l, e)
    requires PeerStep(l, s.pacing, e) == (l', pacing, Remove) && AllowedAt(ch, l, s.pacing, e)
    ensures ReachableOver(ch, Handled(s.(pacing := pacing), p, l', Remove))
  {
    Onward(ch, s, At(p, e));
  }

  /** The last step of a peer, and what it leads to. */
  lemma FinishOnward(ch: Channel, s: State, p: PeerId, l: Link, l': Link, stat: NetStat)
    requires ReachableOver(ch, s) && !s.halted && p in s.links && s.links[p] == l && PeerEnabled(l, ServerRead(0))
    requires PeerStep(l, s.pacing, ServerRead(0)) == (l', s.pacing, Finished(stat))
    ensures ReachableOver(ch, Handled(s, p, l', Finished(stat)))
  {
    Onward(ch, s, At(p, ServerRead(0)));
  }

  // ------------------------------------------------------ what a peer goes through

  const NO_MESSAGES: seq<Message> := []

  function OneMessage(c: Command): seq<Message> { [Main(c)] }
  function TwoMessages(c: Command): seq<Message> { [Main(c), Ack] }
  function ThreeMessages(c: Command): seq<Message> { [Main(c), Ack, Message.Stop] }

  /** A client that has read `n` datagrams of `c`. */
  function Listening(c: Command, r: SendState, n: nat, bit: bool): Client.State {
    Client.State(Some(Client.SendR(c, r)), 0, bit, n, 0)
  }

  /** A client that has just been told of `c`. */
  function Attentive(c: Command): Client.State { Client.State(Some(Client.NewReceiver(c)), 0, false, 0, 0) }

  /** A peer that has nothing to do, and one that runs a command. */
  function Idle(): Link { Link(true, false, None, None, false, false, [], [], false, Client.IDLE, [], [], [], [], 0, [], [], 0) }

  /** What a peer has done for its payload, and what its client was handed. */
  datatype Trail = Trail(beats: seq<Beat>, handed: seq<Handed>)

  const FRESH: Trail := Trail([], [])

  function Wrote(t: Trail): Trail { t.(beats := t.beats + [Write]) }
  function Ticked(t: Trail): Trail { t.(beats := t.beats + [Tick]) }
  function Got(t: Trail, h: Handed): Trail { t.(handed := t.handed + [h]) }

  function Busied(s: Sender, control: bool, data: bool, toClient: seq<Message>, toServer: seq<Message>,
                  client: Client.State, log: seq<Message>, t: Trail): Link
  {
    Link(true, true, Some(s.cmd), Some(s), control, data, toClient, toServer, false, client, log, [], [], [], 0,
         t.beats, t.handed, 0)
  }

  function Given(c: Command): Link { Busied(NewSender(c).(starting := true), true, false, [], [], Client.IDLE, [], FRESH) }

  function HasSent(c: Command): Link {
    Busied(NewSender(c).(waitingAck := true), false, false, OneMessage(c), [], Client.IDLE, OneMessage(c), FRESH)
  }

  function HasHeard(c: Command): Link {
    Busied(NewSender(c).(waitingAck := true), false, false, [], [Ack], Attentive(c), TwoMessages(c), FRESH)
  }

  /** A sender that may send payload, after `n` packets. */
  function SenderAt(c: Command, n: nat, clock: bool, stamps: seq<SeqNo>): Sender {
    NewSender(c).(started := true, timer := c.kind.Ping? && c.interval > 0, sendPackets := n, clock := clock, stamps := stamps)
  }

  /** The peer of sender `x` at its payload, and through the end of the command. */
  function AtPayload(x: Sender, data: bool, client: Client.State, t: Trail): Link {
    Busied(x, false, data, [], [], client, TwoMessages(x.cmd), t)
  }

  function Ended(x: Sender): Sender { x.(stoping := !x.cmd.kind.Ping?, timer := false) }

  function Drains(x: Sender, data: bool, client: Client.State, t: Trail): Link {
    AtPayload(Ended(x).(stopping := true, timer := x.cmd.wait > 0), data, client, t)
  }

  function Stops(x: Sender, data: bool, client: Client.State, t: Trail): Link {
    Busied(Ended(x).(stopping := true), true, data, [], [], client, TwoMessages(x.cmd), t)
  }

  function ToldToStop(x: Sender, data: bool, client: Client.State, t: Trail): Link {
    Busied(Ended(x).(waitingResult := true), false, data, [Message.Stop], [], client, ThreeMessages(x.cmd), t)
  }

  function Answers(x: Sender, data: bool, client: Client.State, t: Trail): Link {
    Busied(Ended(x).(waitingResult := true), false, data, [], [], client.(controlWrite := true), ThreeMessages(x.cmd), t)
  }

  function Answered(x: Sender, data: bool, client: Client.State, t: Trail): Link
    requires client.receiver.Some?
  {
    var (c, stat) := Client.AfterResult(client, 0, 0);
    Busied(Ended(x).(waitingResult := true), false, data, [], [Result(stat)], c, ThreeMessages(x.cmd) + [Result(stat)],
           t.(handed := []))
      .(echoed := Client.Echoed(Client.AfterWrite(client, 0).0))
  }

  /** A sender whose payload goes on. */
  predicate Sending(x: Sender) { x == SenderAt(x.cmd, x.sendPackets, x.clock, x.stamps) }

  lemma Sends(c: Command, p: Pacing)
    ensures PeerEnabled(Given(c), ServerSend(true)) && PeerStep(Given(c), p, ServerSend(true)) == (HasSent(c), p, Continue)
  {
    assert NO_MESSAGES + [Main(c)] == OneMessage(c);
  }

  lemma Hears(c: Command, p: Pacing)
    ensures PeerEnabled(HasSent(c), ClientRead) && PeerStep(HasSent(c), p, ClientRead) == (HasHeard(c), p, Continue)
  {
    assert NO_MESSAGES + [Ack] == [Ack] && OneMessage(c) + [Ack] == TwoMessages(c);
  }

  /** A peer that is ready for payload; only a multicast sender may not yet write. */
  function Ready(c: Command, data: bool): Link { AtPayload(SenderAt(c, 0, false, []), data, Attentive(c), FRESH) }

  lemma Acknowledges(c: Command, p: Pacing)
    ensures PeerEnabled(HasHeard(c), ServerRead(0))
    ensures PeerStep(HasHeard(c), p, ServerRead(0)) == (Ready(c, !c.kind.Multicast?), p, Continue)
  {
  }

  /** A ping sends one packet. */
  lemma PingSends(x: Sender, x': Sender, p: Pacing, client: Client.State, t: Trail)
    requires Sending(x) && x.cmd.kind.Ping?
    requires x' == SenderAt(x.cmd, x.sendPackets + 1, x.clock, x.stamps + [Wrap(x.sendPackets)])
    ensures var l := AtPayload(x, true, client, t);
            && PeerEnabled(l, ServerWrite(0, true))
            && PeerStep(l, p, ServerWrite(0, true)) == (AtPayload(x', false, client, Wrote(t)), p, Continue)
  {
  }

  /** So does a unicast sender without an interval. */
  lemma UnicastSends(x: Sender, x': Sender, p: Pacing, client: Client.State, t: Trail)
    requires Sending(x) && x.cmd.kind.Unicast? && x.cmd.interval <= 0 && !TryStop(x, RESTARTED)
    requires x' == SenderAt(x.cmd, x.sendPackets + 1, true, x.stamps + [Wrap(x.sendPackets)])
    ensures var l := AtPayload(x, true, client, t);
            && PeerEnabled(l, ServerWrite(0, true))
            && PeerStep(l, p, ServerWrite(0, true)) == (AtPayload(x', true, client, Wrote(t)), p, Continue)
  {
  }

  /** A sender finds that it has nothing more to send. */
  lemma Finds(x: Sender, p: Pacing, client: Client.State, t: Trail)
    requires Sending(x) && if x.cmd.kind.Unicast? then TryStop(x, RESTARTED) else x.cmd.kind.Multicast? && TryStop(x, p)
    ensures var l := AtPayload(x, true, client, t);
            && PeerEnabled(l, ServerWrite(0, true))
            && PeerStep(l, p, ServerWrite(0, true)) == (Drains(x, false, client, Wrote(t)), p, Continue)
  {
  }

  /** So does a ping whose timer runs out; its write bit stays as it is. */
  lemma PingRunsOut(x: Sender, data: bool, p: Pacing, client: Client.State, t: Trail)
    requires Sending(x) && x.cmd.kind.Ping? && x.cmd.interval > 0 && x.sendPackets >= x.cmd.count
    ensures var l := AtPayload(x, data, client, t);
            PeerEnabled(l, TimerRunsOut) && PeerStep(l, p, TimerRunsOut) == (Drains(x, data, client, Ticked(t)), p, Continue)
  {
  }

  lemma Waits(x: Sender, data: bool, p: Pacing, client: Client.State, t: Trail)
    requires Sending(x) && x.cmd.wait > 0
    ensures PeerEnabled(Drains(x, data, client, t), TimerRunsOut)
    ensures PeerStep(Drains(x, data, client, t), p, TimerRunsOut) == (Stops(x, data, client, Ticked(t)), p, Continue)
  {
  }

  lemma SendsStop(x: Sender, data: bool, p: Pacing, client: Client.State, t: Trail)
    requires Sending(x)
    ensures PeerEnabled(Stops(x, data, client, t), ServerSend(true))
    ensures PeerStep(Stops(x, data, client, t), p, ServerSend(true)) == (ToldToStop(x, data, client, t), p, Continue)
  {
    assert NO_MESSAGES + [Message.Stop] == [Message.Stop] && TwoMessages(x.cmd) + [Message.Stop] == ThreeMessages(x.cmd);
  }

  lemma HearsStop(x: Sender, data: bool, p: Pacing, client: Client.State, t: Trail)
    requires client.receiver.Some?
    ensures PeerEnabled(ToldToStop(x, data, client, t), ClientRead)
    ensures PeerStep(ToldToStop(x, data, client, t), p, ClientRead) == (Answers(x, data, client, t), p, Continue)
  {
    assert NO_MESSAGES + NO_MESSAGES == NO_MESSAGES && ThreeMessages(x.cmd) + NO_MESSAGES == ThreeMessages(x.cmd);
  }

  lemma SendsResult(x: Sender, data: bool, p: Pacing, client: Client.State, t: Trail)
    requires client.receiver.Some?
    ensures PeerEnabled(Answers(x, data, client, t), ClientAnswer(0, 0))
    ensures PeerStep(Answers(x, data, client, t), p, ClientAnswer(0, 0)) == (Answered(x, data, client, t), p, Continue)
  {
    var stat := Client.AfterResult(client, 0, 0).1;
    assert NO_MESSAGES + [Result(stat)] == [Result(stat)];
  }

  /** What the sender makes of the result of the client. */
  function ReportOf(x: Sender, client: Client.State): NetStat
    requires client.receiver.Some?
  {
    OnStop(Ended(x).(waitingResult := true), Client.AfterResult(client, 0, 0).1, 0)
  }

  lemma Finishes(x: Sender, data: bool, p: Pacing, client: Client.State, t: Trail)
    requires client.receiver.Some? && Sending(x)
    ensures PeerEnabled(Answered(x, data, client, t), ServerRead(0))
    ensures var (l, p', e) := PeerStep(Answered(x, data, client, t), p, ServerRead(0));
            && p' == p && e == Finished(ReportOf(x, client)) && l.authed && l.reporting && l.data == data
            && l.sender.Some? && SentBy(l) == x.sendPackets
  {
  }

  /** A peer gets a command and acknowledges it. */
  lemma GetsReady(ch: Channel, s: State, q: PeerId, c: Command)
    requires ReachableOver(ch, s) && !s.halted && q in s.links && s.links[q] == Given(c)
    ensures ReachableOver(ch, With(s, q, Ready(c, !c.kind.Multicast?)))
  {
    Sends(c, s.pacing);
    PeerOnward(ch, s, q, ServerSend(true), Given(c), HasSent(c));
    Hears(c, s.pacing);
    NextOnward(ch, s, q, ClientRead, HasSent(c), HasHeard(c));
    Acknowledges(c, s.pacing);
    NextOnward(ch, s, q, ServerRead(0), HasHeard(c), Ready(c, !c.kind.Multicast?));
  }

  /** Over a perfect channel the client has been handed all packets when it reads the
      stop. */
  predicate MayHear(ch: Channel, x: Sender, p: Pacing, t: Trail) {
    ch.PerfectChannel? ==> |t.handed| == |if x.cmd.kind.Multicast? then p.stamps else x.stamps|
  }

  /** A peer that has nothing more to send stops, and its client answers. */
  lemma StopsAndAnswers(ch: Channel, s: State, q: PeerId, x: Sender, data: bool, client: Client.State, t: Trail)
    requires q in s.links && ReachableOver(ch, With(s, q, Drains(x, data, client, t))) && !s.halted
    requires Sending(x) && x.cmd.wait > 0 && client.receiver.Some? && MayHear(ch, x, s.pacing, t)
    ensures ReachableOver(ch, With(s, q, Answered(x, data, client, Ticked(t))))
  {
    var u := Ticked(t);
    Waits(x, data, s.pacing, client, t);
    NextOnward(ch, s, q, TimerRunsOut, Drains(x, data, client, t), Stops(x, data, client, u));
    SendsStop(x, data, s.pacing, client, u);
    NextOnward(ch, s, q, ServerSend(true), Stops(x, data, client, u), ToldToStop(x, data, client, u));
    HearsStop(x, data, s.pacing, client, u);
    NextOnward(ch, s, q, ClientRead, ToldToStop(x, data, client, u), Answers(x, data, client, u));
    SendsResult(x, data, s.pacing, client, u);
    NextOnward(ch, s, q, ClientAnswer(0, 0), Answers(x, data, client, u), Answered(x, data, client, u));
  }

  lemma RunsOut(ch: Channel, s: State, q: PeerId, x: Sender, client: Client.State, t: Trail)
    requires q in s.links && ReachableOver(ch, With(s, q, AtPayload(x, true, client, t))) && !s.halted
    requires Sending(x) && if x.cmd.kind.Unicast? then TryStop(x, RESTARTED) else x.cmd.kind.Multicast? && TryStop(x, s.pacing)
    ensures ReachableOver(ch, With(s, q, Drains(x, false, client, Wrote(t))))
  {
    Finds(x, s.pacing, client, t);
    NextOnward(ch, s, q, ServerWrite(0, true), AtPayload(x, true, client, t), Drains(x, false, client, Wrote(t)));
  }

  // ---------------------------------------------------------- how they gather

  function Numbered(n: nat): seq<PeerId> { seq(n, i => i) }

  /** The peers 0, 1, ..., each with the link `l`. */
  function Everywhere(n: nat, l: Link): map<PeerId, Link> { map p | p in Numbered(n) :: l }

  lemma EverywhereAt(n: nat, l: Link)
    ensures forall p :: p in Everywhere(n, l) <==> 0 <= p < n
  {
    forall p: PeerId | p < n ensures p in Everywhere(n, l) { assert Numbered(n)[p] == p; }
  }

  /** `n` peers that wait for the commands of the queue. */
  function Gathered(n: nat, queue: seq<Command>): State {
    State(queue, None, false, false, Numbered(n), [], Everywhere(n, Idle()), n,
          NO_REPORTS, 0, RESTARTED, false, queue, [], [], [], 0, 0)
  }

  /** The first command of them runs at all peers, each with the link `l`. */
  function AllAt(n: nat, c: Command, rest: seq<Command>, open: bool, l: Link): State {
    State(rest, Some(c), true, open, Numbered(n), Numbered(n), Everywhere(n, l), n,
          NO_REPORTS, n, RESTARTED, false, [c] + rest, [], [], [], 0, 0)
  }

  lemma Authenticates(p: Pacing)
    ensures PeerEnabled(NEW_LINK, ServerRead(0)) && PeerStep(NEW_LINK, p, ServerRead(0)) == (Idle(), p, Continue)
  {
  }

  lemma OneMore(n: nat)
    ensures Numbered(n + 1) == Numbered(n) + [n]
    ensures Numbered(n + 1)[..n] == Numbered(n) && n !in Numbered(n)
    ensures With(Step(Gathered(n, []), Connect), n, Idle()) == Gathered(n + 1, [])
  {
    EverywhereAt(n, Idle());
    EverywhereAt(n + 1, Idle());
    assert Everywhere(n, Idle())[n := NEW_LINK][n := Idle()] == Everywhere(n + 1, Idle());
  }

  /** Any number of peers can join. */
  lemma {:induction false} Gathers(ch: Channel, n: nat)
    ensures ReachableOver(ch, Gathered(n, []))
  {
    if n == 0 {
      NobodyThere(ch, n);
    } else {
      Gathers(ch, n - 1);
      AnotherJoins(ch, n - 1, n);
    }
  }

  lemma NobodyThere(ch: Channel, n: nat)
    requires n == 0
    ensures ReachableOver(ch, Gathered(n, []))
  {
    assert LeadsToOver(ch, [], INITIAL);
    assert Everywhere(0, Idle()) == map[];
  }

  lemma AnotherJoins(ch: Channel, n: nat, n': nat)
    requires n' == n + 1 && ReachableOver(ch, Gathered(n, []))
    ensures ReachableOver(ch, Gathered(n', []))
  {
    Onward(ch, Gathered(n, []), Connect);
    Authenticates(RESTARTED);
    OneMore(n);
    PeerOnward(ch, Step(Gathered(n, []), Connect), n, ServerRead(0), NEW_LINK, Idle());
  }

  lemma {:induction false} AllAuthed(n: nat, links: map<PeerId, Link>)
    requires forall p :: 0 <= p < n ==> IsAuthed(links, p)
    ensures Authed(Numbered(n), links) == Numbered(n)
  {
    if n > 0 {
      OneMore(n - 1);
      AllAuthed(n - 1, links);
    }
  }

  lemma AllBegin(n: nat, c: Command, rest: seq<Command>)
    requires n > 0
    ensures TakeNext(Gathered(n, [c] + rest)) == AllAt(n, c, rest, false, Given(c))
  {
    AllReady(n, [c] + rest);
    assert Numbered(n)[0] == 0;
    AllLaunched(n, c, rest);
  }

  lemma AllReady(n: nat, queue: seq<Command>)
    ensures var s := Gathered(n, queue); s.ready + Authed(s.peers, s.links) == Numbered(n)
  {
    var s := Gathered(n, queue);
    EverywhereAt(n, Idle());
    AllAuthed(n, s.links);
    assert s.ready + Numbered(n) == Numbered(n);
  }

  lemma AllLaunched(n: nat, c: Command, rest: seq<Command>)
    ensures Launched(Gathered(n, [c] + rest).(ready := Numbered(n)), c) == AllAt(n, c, rest, false, Given(c))
  {
    assert ([c] + rest)[1..] == rest;
    AllGiven(n, c);
  }

  lemma AllGiven(n: nat, c: Command)
    ensures Begun(Everywhere(n, Idle()), Numbered(n), c) == Everywhere(n, Given(c))
  {
    assert Begin(Idle(), c) == Given(c);
  }

  lemma AnotherPushed(ch: Channel, n: nat, front: seq<Command>, c: Command, queue: seq<Command>)
    requires queue == front + [c] && ReachableOver(ch, Gathered(n, front))
    ensures ReachableOver(ch, Gathered(n, queue))
  {
    Onward(ch, Gathered(n, front), Push(c));
  }

  lemma OneQueued(ch: Channel, n: nat, c: Command)
    ensures ReachableOver(ch, Gathered(n, [c]))
  {
    Gathers(ch, n);
    AnotherPushed(ch, n, [], c, [c]);
  }

  /** The first command of the queue is given to all peers. */
  lemma Launches(ch: Channel, n: nat, c: Command, rest: seq<Command>)
    requires n > 0 && ReachableOver(ch, Gathered(n, [c] + rest))
    ensures ReachableOver(ch, AllAt(n, c, rest, false, Given(c)))
  {
    Onward(ch, Gathered(n, [c] + rest), ProcessNext);
    AllBegin(n, c, rest);
  }
}
