/** The figures that peers report, over whole runs: wherever a result is, it holds the
    delays, counts and rates of what was measured; over faithful channels it counts
    no more than was sent, and over perfect ones all of it. */
module ReportedFigures {
  import opened Wrappers
  import opened DelayStatistics
  import opened NetStats
  import opened SpeedGauge
  import opened Commands
  import opened MulticastPacing
  import opened CommandSenders
  import opened CommandReceivers
  import opened Peers
  import opened Server
  import opened ServerInvariant
  import opened ServerRuns
  import opened ServerGuarantees
  import opened PayloadRhythm
  import opened ClientLedger
  import opened PeerReports
  import opened Channels
  import Client

  // `ch` says over which channels the run has come so far.

  predicate Careful(ch: Channel) { !ch.AnyChannel? }

  ghost predicate ReceiverTallied(c: Client.State, ch: Channel) {
    Careful(ch) && c.receiver.Some? && c.receiver.value.SendR? ==> Tallied(c.receiver.value.cmd, c.receiver.value.send)
  }

  /** The echo figures of a sender are those of the echoes that came back. */
  predicate EchoesKept(l: Link) {
    l.sender.Some? ==>
      var x := l.sender.value;
      x.echoes == EchoAll(l.delays, x.cmd.timeout) && x.illegalEchoes == l.badEchoes && |l.delays| == |l.returned|
  }

  /** The result of a client, for the command of its peer. */
  ghost predicate ResultMeasured(stat: NetStat, sender: Option<Sender>, ch: Channel) {
    && Blank(stat) && stat.minDelay <= stat.delay <= stat.maxDelay
    && (sender.Some? ==>
          var c := sender.value.cmd;
          if c.kind.Ping? then EchoBlank(stat)
          else
            && stat.sendPackets == 0 && SendMeasured(stat, c.timeout)
            && (Careful(ch) ==> Heard(c, stat)) && (ch.PerfectChannel? ==> AllReceived(c, stat)))
  }

  ghost predicate ResultsMeasured(l: Link, ch: Channel) {
    forall m :: m in l.toServer && m.Result? ==> ResultMeasured(m.stat, l.sender, ch)
  }

  ghost predicate Measured(l: Link, ch: Channel) {
    && ReceiverTallied(l.client, ch) && EchoesKept(l) && Rhythm(l) && Routed(l)
    && (Careful(ch) ==> Traced(l)) && (ch.PerfectChannel? ==> Whole(l)) && ResultsMeasured(l, ch)
  }

  /** What a peer reports for `c` over faithful channels: no more packets than were
      sent, and as many bytes. */
  predicate Honest(c: Command, s: NetStat) {
    0 <= s.recvPackets <= Wanted(c) && s.recvBytes == s.recvPackets * BufferSize(c)
  }

  /** Over any channels, the loss of a command that is not multicast is the share of
      its count that was not received. */
  ghost predicate Told(c: Command, s: NetStat, ch: Channel) {
    && Timed(s) && Sampled(c, s) && (!c.kind.Multicast? ==> s.loss == LossOf(s.recvPackets, Wanted(c)))
    && (Careful(ch) ==> Honest(c, s)) && (ch.PerfectChannel? && !c.kind.Ping? ==> AllReceived(c, s))
  }

  ghost predicate AllTold(c: Command, os: seq<Outcome>, ch: Channel) {
    forall i :: 0 <= i < |os| && os[i].Some? ==> Told(c, os[i].value, ch)
  }

  // ------------------------------------------------------- the steps of a client

  /** A sender numbers its datagrams 0, 1, 2, ... and writes no more than its count;
      `p` is sound for a multicast command that runs at `l`, and has come to its count
      when the sender stops. */
  ghost predicate Stamping(l: Link, p: Pacing) {
    Sound(l) &&
    (l.sender.Some? && l.sender.value.cmd.kind.Multicast? ==>
       PacingSound(p, l.sender.value.cmd) && (l.sender.value.stoping ==> p.count >= l.sender.value.cmd.count))
  }

  lemma StampsInOrder(l: Link, p: Pacing)
    requires Stamping(l, p) && l.sender.Some?
    ensures Consecutive(StampsFor(l, p), |StampsFor(l, p)|) && |StampsFor(l, p)| <= Wanted(l.sender.value.cmd)
    ensures StampedOut(l, p)
  {
    if !l.sender.value.cmd.kind.Multicast? { SentInOrder(l); }
  }

  lemma ReceiverHasSender(l: Link)
    requires Sound(l) && l.client.receiver.Some?
    ensures l.sender.Some? && l.sender.value.cmd == l.client.receiver.value.cmd
  {
  }

  lemma GetTallied(l: Link, p: Pacing, sock: Client.Sock, d: Datagram, ch: Channel)
    requires Stamping(l, p) && ReceiverTallied(l.client, ch) && AllowedAt(ch, l, p, ClientGet(sock, d))
    ensures ReceiverTallied(ClientGets(l, sock, d).client, ch)
  {
    var c := l.client;
    if Careful(ch) && c.receiver.Some? && c.receiver.value.SendR? && Client.SockOf(c.receiver.value.cmd) == sock {
      ReceiverHasSender(l);
      StampsInOrder(l, p);
      TalliedGrows(c.receiver.value.cmd, c.receiver.value.send, d, StampsFor(l, p));
    }
  }

  lemma ReadTallied(l: Link, ch: Channel)
    requires ReceiverTallied(l.client, ch)
    ensures ReceiverTallied(ClientReads(l).client, ch)
  {
    var m := ReadAll(l.toClient);
    if m.Main? { NothingTallied(m.cmd); }
  }

  lemma ClientTallied(l: Link, p: Pacing, e: PeerEvent, ch: Channel)
    requires Stamping(l, p) && ReceiverTallied(l.client, ch) && PeerEnabled(l, e) && IsQuiet(e) && AllowedAt(ch, l, p, e)
    ensures ReceiverTallied(PeerStep(l, p, e).0.client, ch)
  {
    match e
    case ClientGet(sock, d) => GetTallied(l, p, sock, d, ch);
    case ClientRead => ReadTallied(l, ch);
    case ServerEcho(legal, delay, index) => EchoKeepsLedger(l, legal, delay, index);
    case _ =>
  }

  lemma ClientTraced(l: Link, p: Pacing, e: PeerEvent)
    requires Sound(l) && Traced(l) && PeerEnabled(l, e) && IsQuiet(e) && FaithfulAt(l, p, e)
    ensures Traced(PeerStep(l, p, e).0)
  {
    match e
    case ServerEcho(legal, delay, index) => EchoTraced(l, p, legal, delay, index);
    case ClientRead => ReadTraced(l);
    case ClientAnswer(budget, k) => AnswerTraced(l, budget, k);
    case ClientGet(sock, d) => GetTraced(l, p, sock, d);
    case ClientEcho(budget) => WriteTraced(l, budget);
    case Disconnect(_) =>
  }

  lemma EchoWhole(l: Link, budget: nat)
    requires Whole(l) && Client.DataWrite(l.client)
    ensures Whole(ClientEchoes(l, budget))
  {
  }

  lemma ClientWhole(l: Link, p: Pacing, e: PeerEvent)
    requires Stamping(l, p) && Whole(l) && PeerEnabled(l, e) && IsQuiet(e) && PerfectAt(l, p, e)
    ensures Whole(PeerStep(l, p, e).0)
  {
    if l.sender.Some? { StampsInOrder(l, p); }
    match e
    case ServerEcho(legal, delay, index) =>
      EchoQuiet(l, legal, delay, index);
      EchoKeepsLedger(l, legal, delay, index);
      SameWhole(l, EchoArrives(l, legal, delay, index));
    case ClientRead => ReadWhole(l, p);
    case ClientAnswer(budget, k) => AnswerWhole(l, budget, k);
    case ClientGet(sock, d) => GetWhole(l, p, sock, d);
    case ClientEcho(budget) => EchoWhole(l, budget);
    case Disconnect(_) =>
  }

  lemma EchoKept(l: Link, legal: bool, delay: int, index: nat)
    requires EchoesKept(l)
    ensures EchoesKept(EchoArrives(l, legal, delay, index))
  {
    if l.sender.Some? && legal { assert (l.delays + [delay])[..|l.delays|] == l.delays; }
  }

  lemma ClientKeepsEchoes(l: Link, p: Pacing, e: PeerEvent)
    requires EchoesKept(l) && PeerEnabled(l, e) && IsQuiet(e)
    ensures EchoesKept(PeerStep(l, p, e).0)
  {
    if e.ServerEcho? { EchoKept(l, e.legal, e.delay, e.index); }
  }

  lemma SendAnswers(r: SendState, c: Command, ds: seq<Datagram>, outside: nat, k: Nanos)
    requires SendKept(r, ds, c.timeout)
    ensures var stat := SendResult(r, outside, k);
            && Blank(stat) && stat.sendPackets == 0 && SendMeasured(stat, c.timeout)
            && stat.minDelay <= stat.delay <= stat.maxDelay
  {
    FreshCounted(ds);
    SendResultMeasured(r, DelaysIn(Fresh(ds)), c.timeout, outside, k);
  }

  /** What the client sends as its result. */
  lemma AnswerMeasured(l: Link, budget: nat, k: Nanos, ch: Channel)
    requires Measured(l, ch) && Sound(l) && l.client.controlWrite
    ensures l.client.receiver.Some? && ResultMeasured(Client.AfterResult(l.client, budget, k).1, l.sender, ch)
  {
    ClientAnswersSound(l, budget, k);
    ReceiverHasSender(l);
    match l.client.receiver.value
    case SendR(c, r) =>
      SendAnswers(r, c, Packets(l.handed[l.told..], c), l.client.illegal, k);
      if Careful(ch) { TalliedReport(c, r, l.client.illegal, k); }
      if ch.PerfectChannel? { AllReported(l, budget, k); }
    case EchoR(_, _) =>
  }

  lemma SameResults(l: Link, l': Link, ch: Channel)
    requires ResultsMeasured(l, ch) && (l'.toServer == l.toServer || forall m :: m in l'.toServer ==> !m.Result?)
    requires if l.sender.None? then l'.sender.None? else l'.sender.Some? && l'.sender.value.cmd == l.sender.value.cmd
    ensures ResultsMeasured(l', ch)
  {
  }

  lemma EchoKeepsChannel(l: Link, legal: bool, delay: int, index: nat)
    ensures EchoArrives(l, legal, delay, index).toServer == l.toServer
  {
  }

  lemma ReadResults(l: Link, ch: Channel)
    requires ResultsMeasured(l, ch) && Sound(l) && l.toClient != []
    ensures ResultsMeasured(ClientReads(l), ch)
  {
    OneMessageInFlight(l);
    assert l.toServer == [];
  }

  lemma EchoResults(l: Link, legal: bool, delay: int, index: nat, ch: Channel)
    requires ResultsMeasured(l, ch) && Sound(l)
    ensures ResultsMeasured(EchoArrives(l, legal, delay, index), ch)
  {
    EchoQuiet(l, legal, delay, index);
    EchoKeepsChannel(l, legal, delay, index);
    SameResults(l, EchoArrives(l, legal, delay, index), ch);
  }

  lemma AnswerResults(l: Link, budget: nat, k: Nanos, ch: Channel)
    requires Measured(l, ch) && Sound(l) && l.client.receiver.Some? && l.client.controlWrite
    ensures ResultsMeasured(ClientAnswers(l, budget, k), ch)
  {
    AnswerMeasured(l, budget, k, ch);
    ClientAnswersSound(l, budget, k);
  }

  lemma HandlingResults(l: Link, p: Pacing, e: PeerEvent, ch: Channel)
    requires Measured(l, ch) && PeerEnabled(l, e) && (e.ClientGet? || e.ClientEcho? || e.Disconnect?)
    ensures ResultsMeasured(PeerStep(l, p, e).0, ch)
  {
    SameResults(l, PeerStep(l, p, e).0, ch);
  }

  lemma ClientResults(l: Link, p: Pacing, e: PeerEvent, ch: Channel)
    requires Measured(l, ch) && Sound(l) && PeerEnabled(l, e) && IsQuiet(e)
    ensures ResultsMeasured(PeerStep(l, p, e).0, ch)
  {
    match e
    case ClientAnswer(budget, k) => AnswerResults(l, budget, k, ch);
    case ClientRead => ReadResults(l, ch);
    case ServerEcho(legal, delay, index) => EchoResults(l, legal, delay, index, ch);
    case _ => HandlingResults(l, p, e, ch);
  }

  lemma ClientStepMeasured(l: Link, p: Pacing, e: PeerEvent, ch: Channel)
    requires Stamping(l, p) && Measured(l, ch) && PeerEnabled(l, e) && IsQuiet(e) && AllowedAt(ch, l, p, e)
    ensures Measured(PeerStep(l, p, e).0, ch)
  {
    ClientTallied(l, p, e, ch);
    ClientKeepsEchoes(l, p, e);
    QuietStepRhythm(l, p, e);
    StepRouted(l, p, e);
    if Careful(ch) { ClientTraced(l, p, e); }
    if ch.PerfectChannel? { ClientWhole(l, p, e); }
    ClientResults(l, p, e, ch);
  }

  // --------------------------------------------------- the steps of the server

  /** The loss is that of a sender that has sent all, and over faithful channels the
      counts are honest. */
  lemma ReportIsHonest(x: Sender, stat: NetStat, k: Nanos, ch: Channel)
    requires stat.loss == 0.0 && (!x.cmd.kind.Multicast? ==> x.sendPackets == Wanted(x.cmd))
    requires Careful(ch) ==> if x.cmd.kind.Ping? then x.echoes.n <= x.sendPackets else Heard(x.cmd, stat)
    ensures var r := OnStop(x, stat, k);
            && (!x.cmd.kind.Multicast? ==> r.loss == LossOf(r.recvPackets, Wanted(x.cmd)))
            && (Careful(ch) ==> Honest(x.cmd, r))
  {
  }

  lemma ReportIsTold(x: Sender, stat: NetStat, k: Nanos, xs: seq<int>, ch: Channel)
    requires ResultMeasured(stat, Some(x), ch) && x.echoes == EchoAll(xs, x.cmd.timeout)
    requires (!x.cmd.kind.Multicast? ==> x.sendPackets == Wanted(x.cmd)) && (x.cmd.kind.Ping? ==> x.sendPackets > 0)
    requires Careful(ch) && x.cmd.kind.Ping? ==> x.echoes.n <= x.sendPackets
    ensures Told(x.cmd, OnStop(x, stat, k), ch)
  {
    ReportIsTimed(x, stat, k, xs);
    ReportIsHonest(x, stat, k, ch);
    if x.cmd.kind.Ping? {
      PingReported(x, stat, k, xs);
    } else {
      SendReported(x, stat, k);
      SendFieldsKept(x, stat, k);
    }
  }

  /** The other steps of the server leave the client and the echoes alone. */
  predicate SameFigures(l: Link, l': Link) {
    && l'.client == l.client && l'.handed == l.handed && l'.told == l.told
    && l'.echoed == l.echoed && l'.returned == l.returned && l'.closed == l.closed
    && l'.delays == l.delays && l'.badEchoes == l.badEchoes
    && (l.sender.Some? <==> l'.sender.Some?)
    && (l.sender.Some? ==> SameEchoes(l.sender.value, l'.sender.value))
  }

  lemma SendsFigures(l: Link, ok: bool)
    requires l.sender.Some?
    ensures SameFigures(l, ServerSends(l, ok).0) && ServerSends(l, ok).0.toServer == l.toServer
  {
  }

  lemma WritesFigures(l: Link, p: Pacing, now: Clock, ok: bool)
    ensures SameFigures(l, ServerWrites(l, p, now, ok).0) && ServerWrites(l, p, now, ok).0.toServer == l.toServer
  {
    if l.sender.Some? { PayloadKeepsEchoes(DeskOf(l), p, now, ok); }
  }

  lemma TimerFigures(l: Link, p: Pacing)
    requires l.sender.Some?
    ensures SameFigures(l, TimerFires(l, p)) && TimerFires(l, p).toServer == l.toServer
  {
    TimerKeepsEchoes(DeskOf(l), p);
  }

  lemma ReadsFigures(l: Link, k: Nanos)
    ensures SameFigures(l, ServerReads(l, k).0) && ServerReads(l, k).0.toServer == []
  {
    var l' := l.(toServer := []);
    if l'.sender.Some? { ReadKeepsEchoes(DeskOf(l'), ReadAll(l.toServer), k); }
  }

  lemma FiguresKept(l: Link, l': Link, ch: Channel)
    requires Measured(l, ch) && SameFigures(l, l') && Rhythm(l') && (l'.toServer == l.toServer || l'.toServer == [])
    ensures Measured(l', ch)
  {
    if l.sender.Some? && Careful(ch) { ServerKeepsTrace(l, l'); }
    if l.client.receiver.Some? { SameLedger(l, l'); }
    if ch.PerfectChannel? { SameWhole(l, l'); }
    SameResults(l, l', ch);
  }

  lemma ServerStepFigures(l: Link, p: Pacing, e: PeerEvent)
    requires PeerEnabled(l, e) && !IsQuiet(e)
    ensures var l' := PeerStep(l, p, e).0;
            SameFigures(l, l') && (l'.toServer == l.toServer || l'.toServer == [])
  {
    match e
    case ServerSend(ok) => SendsFigures(l, ok);
    case ServerRead(k) => ReadsFigures(l, k);
    case ServerWrite(now, ok) => WritesFigures(l, p, now, ok);
    case TimerRunsOut => TimerFigures(l, p);
    case ServerDataFails =>
  }

  lemma ServerStepMeasured(l: Link, p: Pacing, e: PeerEvent, ch: Channel)
    requires Sound(l) && Measured(l, ch) && PeerEnabled(l, e) && !IsQuiet(e)
    ensures Measured(PeerStep(l, p, e).0, ch)
  {
    ServerStepFigures(l, p, e);
    StepRhythm(l, p, e);
    FiguresKept(l, PeerStep(l, p, e).0, ch);
  }

  lemma FinishedSender(l: Link, k: Nanos)
    requires Sound(l) && ServerReads(l, k).1.Finished?
    ensures l.sender.Some? && |l.toServer| == 1 && l.toServer[0].Result? && l.client.receiver.None?
    ensures ServerReads(l, k).1.stat == OnStop(l.sender.value, l.toServer[0].stat, k)
    ensures var x := l.sender.value;
            (!x.cmd.kind.Multicast? ==> x.sendPackets == Wanted(x.cmd)) && (x.cmd.kind.Ping? ==> x.sendPackets > 0)
  {
  }

  lemma FinishIsTold(l: Link, k: Nanos, ch: Channel)
    requires Sound(l) && Measured(l, ch) && ServerReads(l, k).1.Finished?
    ensures l.sender.Some? && Told(l.sender.value.cmd, ServerReads(l, k).1.stat, ch) && l.client.receiver.None?
  {
    FinishedSender(l, k);
    assert l.toServer[0] in l.toServer;
    if Careful(ch) && l.sender.value.cmd.kind.Ping? { EchoesWithinPings(l); }
    ReportIsTold(l.sender.value, l.toServer[0].stat, k, l.delays, ch);
  }

  lemma FinishesOnly(l: Link, p: Pacing, e: PeerEvent)
    requires Sound(l) && PeerEnabled(l, e) && PeerStep(l, p, e).2.Finished?
    ensures e.ServerRead?
  {
    if e.ServerWrite? { ServerWritesSound(l, p, e.now, e.ok); }
  }

  lemma PeerStepMeasured(l: Link, p: Pacing, e: PeerEvent, ch: Channel)
    requires Stamping(l, p) && Measured(l, ch) && PeerEnabled(l, e) && AllowedAt(ch, l, p, e)
    ensures Measured(PeerStep(l, p, e).0, ch)
  {
    if IsQuiet(e) { ClientStepMeasured(l, p, e, ch); } else { ServerStepMeasured(l, p, e, ch); }
  }

  lemma PeerFinishTold(l: Link, p: Pacing, e: PeerEvent, ch: Channel)
    requires Sound(l) && Measured(l, ch) && PeerEnabled(l, e)
    ensures var (l', _, f) := PeerStep(l, p, e);
            f.Finished? ==> l.sender.Some? && Told(l.sender.value.cmd, f.stat, ch) && l'.client.receiver.None?
  {
    if PeerStep(l, p, e).2.Finished? {
      FinishesOnly(l, p, e);
      FinishIsTold(l, e.k, ch);
      ReadsFigures(l, e.k);
    }
  }

  // --------------------------------------------------------- in the whole server

  ghost predicate Figures(s: State, ch: Channel) {
    && (forall p :: p in s.links ==> Measured(s.links[p], ch))
    && (s.current.Some? ==> AllTold(s.current.value, s.outcomes, ch))
    && forall x :: x in s.completed ==> AllTold(x.cmd, x.outcomes, ch)
  }

  lemma StopMeasured(l: Link, ch: Channel)
    requires Measured(l, ch)
    ensures Measured(l.(reporting := false), ch)
  {
  }

  lemma StoppedFigures(s: State, p: PeerId, o: Outcome, ch: Channel)
    requires Figures(s, ch) && p in s.links
    requires o.Some? && s.current.Some? ==> Told(s.current.value, o.value, ch)
    ensures Figures(Stopped(s, p, o), ch)
  {
    var t := Noted(s, p, o);
    assert t.current.Some? ==> AllTold(t.current.value, t.outcomes, ch);
    StopMeasured(s.links[p], ch);
    assert Figures(t, ch);
    SettleFigures(t, ch);
  }

  lemma SettleFigures(t: State, ch: Channel)
    requires Figures(t, ch)
    ensures Figures(Settle(t), ch)
  {
  }

  lemma EraseFigures(s: State, p: PeerId, ch: Channel)
    requires Figures(s, ch) && p in s.links
    ensures Figures(Erase(s, p), ch)
  {
    if s.links[p].reporting { StoppedFigures(s, p, None, ch); }
  }

  /** A sender is dropped; what it has heard has been read. */
  lemma ReleaseMeasured(l: Link, ch: Channel)
    requires Measured(l, ch) && l.client.receiver.None?
    ensures Measured(l.(sender := None), ch)
  {
  }

  lemma LinkFigures(s: State, p: PeerId, l: Link, ch: Channel)
    requires Figures(s, ch) && p in s.links && Measured(l, ch)
    ensures Figures(s.(links := s.links[p := l]), ch)
  {
  }

  lemma ReleasedFigures(s: State, p: PeerId, ch: Channel)
    requires Figures(s, ch) && p in s.links && s.links[p].client.receiver.None?
    ensures Figures(s.(links := s.links[p := s.links[p].(sender := None)]), ch)
  {
    ReleaseMeasured(s.links[p], ch);
    LinkFigures(s, p, s.links[p].(sender := None), ch);
  }

  lemma CompleteFigures(s: State, p: PeerId, stat: NetStat, ch: Channel)
    requires Figures(s, ch) && p in s.links && s.links[p].client.receiver.None?
    requires s.current.Some? ==> Told(s.current.value, stat, ch)
    ensures Figures(Complete(s, p, stat), ch)
  {
    if s.links[p].reporting {
      StoppedFigures(s, p, Some(stat), ch);
      StoppedLinks(s, p, Some(stat));
      ReleasedFigures(Stopped(s, p, Some(stat)), p, ch);
    } else {
      ReleasedFigures(s, p, ch);
    }
  }

  lemma HandledFigures(s: State, p: PeerId, l: Link, e: Effect, ch: Channel)
    requires Figures(s, ch) && p in s.links && Measured(l, ch)
    requires e.Finished? ==> l.client.receiver.None? && (s.current.Some? ==> Told(s.current.value, e.stat, ch))
    ensures Figures(Handled(s, p, l, e), ch)
  {
    var t := s.(links := s.links[p := l]);
    LinkFigures(s, p, l, ch);
    match e
    case Continue =>
    case Remove => EraseFigures(t, p, ch);
    case Finished(stat) => CompleteFigures(t, p, stat, ch);
  }

  lemma BeginKept(l: Link, c: Command)
    ensures var l' := Begin(l, c);
            EchoesKept(l') && l'.client == l.client && l'.handed == l.handed && l'.told == l.told && l'.toServer == l.toServer
  {
  }

  lemma BeginMeasured(l: Link, c: Command, ch: Channel)
    requires Measured(l, ch) && Resting(l)
    ensures Measured(Begin(l, c), ch)
  {
    BeginTraced(l, c);
    BeginRhythm(l, c);
    BeginKept(l, c);
    SameResults(l, Begin(l, c).(sender := l.sender), ch);
  }

  lemma {:induction false} DrainedTold(queue: seq<Command>, ch: Channel)
    ensures forall x :: x in Drained(queue) ==> AllTold(x.cmd, x.outcomes, ch)
  {
    if queue != [] { DrainedTold(queue[..|queue| - 1], ch); }
  }

  lemma LaunchedFigures(s: State, c: Command, ch: Channel)
    requires Figures(s, ch) && s.queue != [] && forall p :: p in s.links ==> Measured(Begin(s.links[p], c), ch)
    ensures Figures(Launched(s, c), ch)
  {
  }

  lemma TakeNextFigures(s: State, ch: Channel)
    requires Good(s) && !s.halted && Figures(s, ch)
    ensures Figures(TakeNext(s), ch)
  {
    DrainedTold(s.queue, ch);
    if !s.running && s.queue != [] {
      AllBeginMeasured(s, s.queue[0], ch);
      LaunchedFigures(s.(ready := s.ready + Authed(s.peers, s.links)), s.queue[0], ch);
    }
  }

  lemma AllBeginMeasured(s: State, c: Command, ch: Channel)
    requires Good(s) && !s.halted && !s.running && Figures(s, ch)
    ensures forall p :: p in s.links ==> Measured(Begin(s.links[p], c), ch)
  {
    forall p | p in s.links ensures Measured(Begin(s.links[p], c), ch) {
      NotRunning(s, p);
      BeginMeasured(s.links[p], c, ch);
    }
  }

  lemma NotRunning(s: State, p: PeerId)
    requires Good(s) && !s.halted && !s.running && p in s.links
    ensures Resting(s.links[p])
  {
    assert Member(s.links[p]) && Attached(s.current, s.pacing.count, s.links[p]);
  }

  lemma PeerStamping(s: State, p: PeerId)
    requires Good(s) && !s.halted && p in s.links
    ensures Stamping(s.links[p], s.pacing)
    ensures s.links[p].sender.Some? ==> s.current == Some(s.links[p].sender.value.cmd)
  {
    if s.links[p].sender.Some? { PeerInPool(s, p); }
  }

  lemma AtPeerFigures(s: State, p: PeerId, e: PeerEvent, ch: Channel)
    requires Possible(s, p, e) && Figures(s, ch) && AllowedAt(ch, s.links[p], s.pacing, e)
    ensures Figures(AtPeer(s, p, e), ch)
  {
    PeerStamping(s, p);
    PeerStepMeasured(s.links[p], s.pacing, e, ch);
    PeerFinishTold(s.links[p], s.pacing, e, ch);
    var (l, pacing, f) := PeerStep(s.links[p], s.pacing, e);
    HandledFigures(s.(pacing := pacing), p, l, f, ch);
  }

  lemma NewMeasured(ch: Channel)
    ensures Measured(NEW_LINK, ch)
  {
  }

  lemma OpenMeasured(l: Link, count: nat, ch: Channel)
    requires Measured(l, ch) && Shares(false, count, l) && (l.sender.Some? ==> l.sender.value.cmd.kind.Multicast?)
    ensures Measured(l.(data := true), ch)
  {
    OpenRhythm(l, count);
    if l.sender.Some? && Careful(ch) { ServerKeepsTrace(l, l.(data := true)); }
  }

  lemma OpenFigures(s: State, ch: Channel)
    requires Good(s) && !s.halted && Figures(s, ch)
    ensures Figures(OpenIfReady(s), ch)
  {
    var t := OpenIfReady(s);
    if t != s {
      forall p | p in s.links ensures Measured(t.links[p], ch) {
        if s.links[p].sender.Some? { PeerInPool(s, p); }
        OpenMeasured(s.links[p], s.pacing.count, ch);
      }
    }
  }

  lemma StepFigures(s: State, e: Event, ch: Channel)
    requires Good(s) && Figures(s, ch) && Enabled(s, e) && Allowed(ch, s, e)
    ensures Figures(Step(s, e), ch)
  {
    match e
    case Push(_) =>
    case Connect => NewMeasured(ch);
    case ProcessNext => TakeNextFigures(s, ch);
    case OpenWhenReady => OpenFigures(s, ch);
    case At(p, x) => AtPeerFigures(s, p, x, ch);
  }

  lemma {:induction false} RunsHaveFigures(es: seq<Event>, ch: Channel)
    requires AfterOver(ch, es).Some? && Proper(AfterOver(ch, es).value)
    ensures Figures(AfterOver(ch, es).value, ch)
  {
    if es != [] {
      var front := es[..|es| - 1];
      var s, e := AfterOver(ch, front).value, es[|es| - 1];
      RunsOverAreRuns(ch, front);
      RunsAreSteady(front);
      ProperBefore(s, e);
      RunsAreGood(front);
      RunsHaveFigures(front, ch);
      StepFigures(s, e, ch);
    }
  }

  lemma {:induction false} AnyRunIsARun(es: seq<Event>)
    ensures AfterOver(AnyChannel, es) == After(es)
  {
    if es != [] { AnyRunIsARun(es[..|es| - 1]); }
  }

  lemma ReachableHasFigures(s: State)
    requires Reachable(s) && Proper(s)
    ensures Figures(s, AnyChannel)
  {
    var es :| LeadsTo(es, s);
    AnyRunIsARun(es);
    RunsHaveFigures(es, AnyChannel);
  }

  lemma ReachableOverHasFigures(s: State, ch: Channel)
    requires ReachableOver(ch, s) && Proper(s)
    ensures Reachable(s) && Figures(s, ch)
  {
    var es :| LeadsToOver(ch, es, s);
    RunsOverAreRuns(ch, es);
    assert LeadsTo(es, s);
    RunsHaveFigures(es, ch);
  }

  /** In every callback the averaged times and delays lie between the aggregated
      extremes, and so does the averaged speed of a command that is not
      multicast. */
  lemma CallbackAverages(s: State, i: nat)
    requires Reachable(s) && Proper(s) && i < |s.completed| && s.completed[i].final.Settled?
    ensures var x := s.completed[i];
            var f := x.final.stat;
            && f.minSendTime <= f.sendTime <= f.maxSendTime
            && f.minRecvTime <= f.recvTime <= f.maxRecvTime
            && f.minDelay <= f.delay <= f.maxDelay
            && (!x.cmd.kind.Multicast? ==> f.minSendSpeed <= f.sendAvgSpeed <= f.maxSendSpeed)
  {
    ReachableIsGood(s);
    ReachableHasFigures(s);
    var x := s.completed[i];
    assert AllTold(x.cmd, x.outcomes, AnyChannel);
    AveragesBetweenExtremes(x.outcomes, x.cmd.kind.Multicast?);
  }
}
