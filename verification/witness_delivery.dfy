/** A run over perfect channels: a packet that is sent, received and reported. */
module WitnessDelivery {
  import opened Wrappers
  import opened DuplicateFilter
  import opened NetStats
  import opened Commands
  import opened MulticastPacing
  import opened CommandSenders
  import opened CommandReceivers
  import opened Peers
  import opened Server
  import opened ClientLedger
  import opened Channels
  import opened FigureGuarantees
  import opened WitnessSteps
  import opened WitnessRuns
  import Client

  /** The packet of a command that asks for one, as it arrives. */
  function OnlyPacket(c: Command): Datagram { Datagram(BufferSize(c), 0, BufferSize(c), c.token, 0, 0, 0) }

  /** The client once it has received it. */
  function Received(c: Command): SendState { SendRecv(NewSendState(), OnlyPacket(c), c) }

  const LEFT: Trail := Wrote(FRESH)

  function Arrived(c: Command): Trail { Got(LEFT, Handed(Client.Data, OnlyPacket(c))) }

  lemma PacketIsNext(c: Command, d: Datagram, r: SendState)
    requires AsksForOne(c) && d == OnlyPacket(c) && r.numbers == []
    ensures IsPacketOf(c, d) && Stamped(d, c, [0]) && Genuine(d, c, [0], r.numbers)
  {
    InOrderHistory(1);
    assert UpTo(1) == [0] && r.numbers + [0] == [0];
  }

  lemma ClientTakes(x: Sender, t: Trail, d: Datagram)
    requires x == SentOne(x.cmd) && AsksForOne(x.cmd) && d == OnlyPacket(x.cmd) && t.handed == []
    ensures var l := AtPayload(x, true, Listening(x.cmd, NewSendState(), 0, false), t);
            var l' := AtPayload(x, true, Listening(x.cmd, SendRecv(NewSendState(), d, x.cmd), 1, false), Got(t, Handed(Client.Data, d)));
            && PeerEnabled(l, ClientGet(Client.Data, d))
            && PeerStep(l, RESTARTED, ClientGet(Client.Data, d)) == (l', RESTARTED, Continue)
            && AllowedAt(PerfectChannel, l, RESTARTED, ClientGet(Client.Data, d))
  {
    PacketIsNext(x.cmd, d, NewSendState());
  }

  lemma OnlyPacketArrives(c: Command)
    requires AsksForOne(c)
    ensures PerfectlyReachable(Alone(c, AtPayload(SentOne(c), true, Listening(c, Received(c), 1, false), Arrived(c))))
  {
    var l := AtPayload(SentOne(c), true, Attentive(c), LEFT);
    var l' := AtPayload(SentOne(c), true, Listening(c, Received(c), 1, false), Arrived(c));
    OnlyPacketLeaves(PerfectChannel, c);
    ClientTakes(SentOne(c), LEFT, OnlyPacket(c));
    AloneWith(c, l, l);
    AloneWith(c, l, l');
    PeerOnward(PerfectChannel, Alone(c, l), 0, ClientGet(Client.Data, OnlyPacket(c)), l, l');
  }

  lemma ResultArrives(c: Command, client: Client.State, t: Trail)
    requires AsksForOne(c) && c.wait > 0 && client.receiver.Some? && |t.handed| == 1
    requires PerfectlyReachable(Alone(c, AtPayload(SentOne(c), true, client, t)))
    ensures PerfectlyReachable(Alone(c, Answered(SentOne(c), false, client, Ticked(Wrote(t)))))
  {
    var x, s := SentOne(c), Alone(c, AtPayload(SentOne(c), true, client, t));
    AloneWith(c, AtPayload(x, true, client, t), AtPayload(x, true, client, t));
    RunsOut(PerfectChannel, s, 0, x, client, t);
    StopsAndAnswers(PerfectChannel, s, 0, x, false, client, Wrote(t));
    AloneWith(c, AtPayload(x, true, client, t), Answered(x, false, client, Ticked(Wrote(t))));
  }

  /** The report of the only peer ends the command. */
  lemma OnlyReport(c: Command, l: Link, l': Link, stat: NetStat)
    requires l'.reporting && stat.sendBytes > 0 && !c.kind.Multicast?
    ensures var s := Handled(Alone(c, l), 0, l', Finished(stat));
            && |s.completed| == 1 && s.completed[0].cmd == c && s.completed[0].final.Settled?
            && s.completed[0].outcomes == [Some(stat)] && s.current.None?
  {
    AloneWith(c, l, l');
    assert Numbered(1) == [0] && Without([0], 0) == [];
    var none: seq<Outcome> := [];
    assert none + [Some(stat)] == [Some(stat)] && [Some(stat)][..0] == none;
  }

  lemma SentSomething(c: Command, client: Client.State)
    requires AsksForOne(c) && client.receiver.Some?
    ensures ReportOf(SentOne(c), client).sendBytes > 0
  {
  }

  lemma OneSuccess(stat: NetStat)
    ensures Successes([Some(stat)]) == 1
  {
    var os: seq<Outcome> := [Some(stat)];
    assert os[..0] == [];
  }

  /** What the callback of the command is told. */
  ghost predicate ToldOfOne(s: State, c: Command) {
    && |s.completed| == 1 && s.completed[0].cmd == c && s.completed[0].final.Settled?
    && s.completed[0].final.stat.recvPackets == 1 && s.completed[0].final.stat.loss == 0.0
  }

  lemma IsToldOfOne(s: State, c: Command, stat: NetStat)
    requires PerfectlyReachable(s) && AsksForOne(c) && |s.completed| == 1 && s.completed[0].cmd == c
    requires s.completed[0].final.Settled? && s.completed[0].outcomes == [Some(stat)] && s.current.None?
    ensures ToldOfOne(s, c)
  {
    OnlyCompletion(s, c);
    OneSuccess(stat);
    PerfectCallback(s, 0);
  }

  lemma Reports(c: Command, client: Client.State, t: Trail)
    requires AsksForOne(c) && client.receiver.Some? && PerfectlyReachable(Alone(c, Answered(SentOne(c), false, client, t)))
    ensures exists s :: PerfectlyReachable(s) && ToldOfOne(s, c)
  {
    var x, l := SentOne(c), Answered(SentOne(c), false, client, t);
    AloneWith(c, l, l);
    Finishes(x, false, RESTARTED, client, t);
    var l', stat := PeerStep(l, RESTARTED, ServerRead(0)).0, ReportOf(x, client);
    FinishOnward(PerfectChannel, Alone(c, l), 0, l, l', stat);
    SentSomething(c, client);
    OnlyReport(c, l, l', stat);
    IsToldOfOne(Handled(Alone(c, l), 0, l', Finished(stat)), c, stat);
  }

  /** One peer runs a unicast command of one packet, which arrives: the callback
      counts it, and the loss is zero. */
  lemma OnePacketIsReported(c: Command)
    requires AsksForOne(c) && c.wait > 0
    ensures exists s :: PerfectlyReachable(s) && ToldOfOne(s, c)
  {
    var client, t := Listening(c, Received(c), 1, false), Arrived(c);
    OnlyPacketArrives(c);
    ResultArrives(c, client, t);
    Reports(c, client, Ticked(Wrote(t)));
  }
}
