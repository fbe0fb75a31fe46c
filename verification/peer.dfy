/** One peer: the server's half, the client's half, and the control channel in
    between, with every step either half can take. */
module Peers {
  import opened Wrappers
  import opened NetStats
  import opened Commands
  import opened SpeedGauge
  import opened MulticastPacing
  import opened CommandSenders
  import opened CommandReceivers
  import Client

  /** `reporting` says that OnStopped of the peer is set, `command` is the last
      command it was given; `control` and `data` are the write bits the server
      keeps for its sockets. The others are records of the running command: `log` has
      its messages, `echoed` what its client has echoed, `returned` which of these, by
      their position, have come back and `delays` after how long, `badEchoes` counts
      the echoes that were illegal, and `beats` has the handlers of its payload. `handed`
      has the datagrams that its client was handed since its last result, of which the
      first `told` came before it was told of the command. */
  datatype Beat = Write | Tick

  datatype Handed = Handed(sock: Client.Sock, d: Datagram)

  datatype Link = Link(
    authed: bool, reporting: bool, command: Option<Command>, sender: Option<Sender>, control: bool, data: bool,
    toClient: seq<Message>, toServer: seq<Message>, closed: bool, client: Client.State, log: seq<Message>,
    echoed: seq<Datagram>, returned: seq<nat>, delays: seq<int>, badEchoes: nat, beats: seq<Beat>,
    handed: seq<Handed>, told: nat)

  /** Just accepted; the client sends its cookie on its own. */
  const NEW_LINK: Link :=
    Link(false, false, None, None, false, false, [], [Cookie], false, Client.IDLE, [], [], [], [], 0, [], [], 0)

  function DeskOf(l: Link): Desk
    requires l.sender.Some?
  {
    Desk(l.sender.value, l.control, l.data)
  }

  function WithDesk(l: Link, x: Desk): Link { l.(sender := Some(x.s), control := x.control, data := x.data) }

  // ------------------------------------------------------ the server's steps

  /** Peer::SetCommand and Peer::Start; the server hangs in its closure. */
  function Begin(l: Link, c: Command): Link {
    WithDesk(l.(reporting := true, command := Some(c), log := [], echoed := [], returned := [], delays := [],
                badEchoes := 0, beats := []),
             StartSending(Desk(NewSender(c), l.control, l.data)))
  }

  function ServerSends(l: Link, ok: bool): (Link, Effect)
    requires l.sender.Some?
  {
    var (x, out, e) := SendCommand(DeskOf(l), ok);
    var l' := WithDesk(l, x);
    (l'.(toClient := l.toClient + out, log := l.log + out), e)
  }

  /** Peer::RecvCommand; an empty stream that reads is one that was closed. */
  function ServerReads(l: Link, k: Nanos): (Link, Effect) {
    var m, l' := ReadAll(l.toServer), l.(toServer := []);
    if l.toServer == [] then (l', Remove)
    else if !l.authed then (if m.Cookie? then (l'.(authed := true), Continue) else (l', Remove))
    else if l.sender.None? then (l', Remove)
    else
      var (x, e) := RecvCommand(DeskOf(l'), m, k);
      (WithDesk(l', x), e)
  }

  /** Peer::SendData does nothing when the command is over. */
  function ServerWrites(l: Link, p: Pacing, now: Clock, ok: bool): (Link, Pacing, Effect) {
    if l.sender.None? then (l, p, Continue)
    else
      var (x, p', e) := SendData(DeskOf(l), p, now, ok);
      (WithDesk(l, x).(beats := l.beats + [Write]), p', e)
  }

  function TimerFires(l: Link, p: Pacing): Link
    requires l.sender.Some?
  {
    WithDesk(l, Timeout(DeskOf(l), p)).(beats := l.beats + [Tick])
  }

  /** A datagram at the data socket; `index` records which echo it is, if any. */
  function EchoArrives(l: Link, legal: bool, delay: int, index: nat): Link {
    if l.sender.Some? && l.sender.value.cmd.kind.Ping? then
      var l' := WithDesk(l, RecvEcho(DeskOf(l), legal, delay));
      if legal then l'.(returned := l.returned + [index], delays := l.delays + [delay])
      else l'.(badEchoes := l.badEchoes + 1)
    else l
  }

  // ------------------------------------------------------ the client's steps

  function ClientReads(l: Link): Link {
    var m := ReadAll(l.toClient);
    var r := Client.AfterCommand(l.client, m);
    l.(client := r.client, toClient := [], toServer := l.toServer + r.replies, log := l.log + r.replies,
       closed := l.closed || !r.alive, told := if m.Main? then |l.handed| else l.told)
  }

  function ClientAnswers(l: Link, budget: nat, k: Nanos): Link
    requires l.client.receiver.Some?
  {
    var (c, stat) := Client.AfterResult(l.client, budget, k);
    l.(client := c, toServer := l.toServer + [Result(stat)], log := l.log + [Result(stat)],
       echoed := Client.Echoed(Client.AfterWrite(l.client, budget).0), handed := [], told := 0)
  }

  function ClientGets(l: Link, sock: Client.Sock, d: Datagram): Link {
    l.(client := Client.AfterDatagram(l.client, sock, d), handed := l.handed + [Handed(sock, d)])
  }

  /** A send that fails ends the client. */
  function ClientEchoes(l: Link, budget: nat): Link {
    var (c, ok) := Client.AfterWrite(l.client, budget);
    var l' := l.(echoed := Client.Echoed(c));
    if ok then l'.(client := c) else l'.(closed := true)
  }

  /** The client goes away; what it sent last may be lost with it. */
  function Close(l: Link, lost: bool): Link { l.(closed := true, toServer := if lost then [] else l.toServer) }

  // ------------------------------------------------------ all steps of a peer

  datatype PeerEvent =
    | ServerSend(ok: bool)
    | ServerRead(k: Nanos)
    | ServerWrite(now: Clock, ok: bool)
    | ServerEcho(legal: bool, delay: int, index: nat)
    | ServerDataFails
    | TimerRunsOut
    | ClientRead
    | ClientAnswer(budget: nat, clock: Nanos)
    | ClientGet(sock: Client.Sock, d: Datagram)
    | ClientEcho(budget: nat)
    | Disconnect(lost: bool)

  /** A socket is written only while its write bit is set, a stream is read only
      when there is something in it or it was closed, a read of the data socket can
      fail once the peer has one, a timer runs out only while it is armed, and a
      client that is gone does nothing. */
  predicate PeerEnabled(l: Link, e: PeerEvent) {
    match e
    case ServerSend(_) => l.sender.Some? && l.control
    case ServerRead(_) => l.toServer != [] || l.closed
    case ServerWrite(_, _) => l.data || l.sender.None?
    case ServerEcho(_, _, _) => true
    case ServerDataFails => l.authed
    case TimerRunsOut => l.sender.Some? && l.sender.value.timer
    case ClientRead => !l.closed && l.toClient != []
    case ClientAnswer(_, _) => !l.closed && l.client.receiver.Some? && l.client.controlWrite
    case ClientGet(_, _) => !l.closed
    case ClientEcho(_) => !l.closed && Client.DataWrite(l.client)
    case Disconnect(_) => !l.closed
  }

  function PeerStep(l: Link, p: Pacing, e: PeerEvent): (Link, Pacing, Effect)
    requires PeerEnabled(l, e)
  {
    match e
    case ServerSend(ok) => var (l', f) := ServerSends(l, ok); (l', p, f)
    case ServerRead(k) => var (l', f) := ServerReads(l, k); (l', p, f)
    case ServerWrite(now, ok) => ServerWrites(l, p, now, ok)
    case ServerEcho(legal, delay, index) => (EchoArrives(l, legal, delay, index), p, Continue)
    case ServerDataFails => (l, p, Remove)
    case TimerRunsOut => (TimerFires(l, p), p, Continue)
    case ClientRead => (ClientReads(l), p, Continue)
    case ClientAnswer(budget, k) => (ClientAnswers(l, budget, k), p, Continue)
    case ClientGet(sock, d) => (ClientGets(l, sock, d), p, Continue)
    case ClientEcho(budget) => (ClientEchoes(l, budget), p, Continue)
    case Disconnect(lost) => (Close(l, lost), p, Continue)
  }

  // ------------------------------------------------------ the life of a command

  datatype Phase = Starting | CommandSent | AckSent | Payload | Draining | StopReady | StopSent | Answering | ResultSent

  predicate BeforePayload(ph: Phase) { ph.Starting? || ph.CommandSent? || ph.AckSent? }

  predicate AfterPayload(ph: Phase) { !BeforePayload(ph) && !ph.Payload? }

  predicate AwaitsResult(ph: Phase) { ph.StopSent? || ph.Answering? || ph.ResultSent? }

  /** The flags of the sender in a phase. */
  predicate FlagsMatch(s: Sender, ph: Phase) {
    && (s.starting <==> ph.Starting?)
    && (s.waitingAck <==> ph.CommandSent? || ph.AckSent?)
    && (s.started <==> !BeforePayload(ph))
    && (s.stopping <==> ph.Draining? || ph.StopReady?)
    && (s.waitingResult <==> AwaitsResult(ph))
    && !s.stopped
    && (s.stoping <==> AfterPayload(ph) && !s.cmd.kind.Ping?)
  }

  /** The channel and the client in a phase. What the client sent last may have
      been lost when it went away. */
  predicate ChannelMatches(l: Link, c: Command, ph: Phase) {
    && l.toClient == (if ph.CommandSent? then [Main(c)] else if ph.StopSent? then [Message.Stop] else [])
    && ( || (l.closed && l.toServer == [])
         || (if ph.AckSent? then l.toServer == [Ack]
             else if ph.ResultSent? then |l.toServer| == 1 && l.toServer[0].Result? && NothingSent(l.toServer[0].stat, c)
             else l.toServer == []))
    && (l.client.controlWrite <==> ph.Answering?)
    && (l.client.receiver.Some? <==> !(ph.Starting? || ph.CommandSent? || ph.ResultSent?))
    && (l.client.receiver.Some? ==> l.client.receiver.value.cmd == c)
  }

  /** A client says nothing about sending, save how many echoes it sent. */
  predicate NothingSent(stat: NetStat, c: Command) { stat.sendBytes == 0 && (c.kind.Ping? || stat.sendPackets == 0) }

  /** The messages of the running command so far. */
  predicate LogMatches(log: seq<Message>, c: Command, ph: Phase) {
    match ph
    case Starting => log == []
    case CommandSent => log == [Main(c)]
    case StopSent => log == [Main(c), Ack, Message.Stop]
    case Answering => log == [Main(c), Ack, Message.Stop]
    case ResultSent => |log| == 4 && log[..3] == [Main(c), Ack, Message.Stop] && log[3].Result?
    case _ => log == [Main(c), Ack]
  }

  /** The write bits and the timer of the server in a phase. */
  predicate TimersMatch(l: Link, s: Sender, ph: Phase) {
    && (l.control <==> ph.Starting? || ph.StopReady?)
    && (BeforePayload(ph) ==> !l.data && !s.timer && !s.clock && s.sendPackets == 0)
    && (ph.Payload? ==> PayloadArmed(l, s))
    && (AfterPayload(ph) ==> !l.data && (s.timer <==> ph.Draining? && s.cmd.wait > 0))
    && (ph.StopReady? || AwaitsResult(ph) ==> s.cmd.wait > 0)
  }

  /** While payload is sent, a next attempt is always scheduled, save for a
      multicast command that still waits for its other peers. */
  predicate PayloadArmed(l: Link, s: Sender) {
    match s.cmd.kind
    case Ping => (s.timer <==> s.cmd.interval > 0) && !s.clock
    case Unicast => (!s.clock ==> l.data) && (s.timer <==> s.clock && s.cmd.interval > 0) && (s.timer || l.data)
    case Multicast => (s.timer <==> s.clock && s.cmd.interval > 0) && (s.clock ==> s.timer || l.data)
  }

  /** What a sender on a socket of its own has sent. */
  predicate PayloadCounted(l: Link, s: Sender, ph: Phase) {
    && Pushable(s.cmd)
    && (!s.cmd.kind.Multicast? ==>
          && Consecutive(s.stamps, s.sendPackets)
          && s.sendPackets <= Wanted(s.cmd)
          && (AfterPayload(ph) ==> s.sendPackets == Wanted(s.cmd)))
    && (s.cmd.kind.Ping? && l.data ==> s.sendPackets < s.cmd.count)
  }

  predicate InPhase(l: Link, s: Sender, ph: Phase) {
    FlagsMatch(s, ph) && ChannelMatches(l, s.cmd, ph) && LogMatches(l.log, s.cmd, ph) && TimersMatch(l, s, ph) &&
    PayloadCounted(l, s, ph)
  }

  /** No command runs at this peer. */
  predicate Resting(l: Link) {
    && !l.reporting && !l.control && !l.data
    && l.toClient == [] && l.client.receiver.None? && !l.client.controlWrite
    && ((l.closed && l.toServer == []) || l.toServer == if l.authed then [] else [Cookie])
  }

  /** The phase is decided by the flags, the write bits and the channel. */
  function PhaseOf(l: Link, s: Sender): Phase {
    if s.starting then Starting
    else if s.waitingAck then (if l.client.receiver.None? then CommandSent else AckSent)
    else if s.stopping then (if l.control then StopReady else Draining)
    else if s.waitingResult then
      (if l.client.receiver.None? then ResultSent else if l.client.controlWrite then Answering else StopSent)
    else Payload
  }

  ghost predicate Sound(l: Link) {
    && Client.Sound(l.client)
    && match l.sender
       case None => Resting(l)
       case Some(s) => l.authed && l.reporting && l.command == Some(s.cmd) && InPhase(l, s, PhaseOf(l, s))
  }

  /** What a server knows of each of its peers. */
  ghost predicate Member(l: Link) { Sound(l) && (l.command.Some? ==> l.authed) }

  // ------------------------------------------------------ every step keeps it

  lemma NewLinkSound()
    ensures Member(NEW_LINK) && !NEW_LINK.reporting && NEW_LINK.command.None?
  {
  }

  lemma BeginSound(l: Link, c: Command)
    requires Sound(l) && l.sender.None? && l.authed && Pushable(c)
    ensures Sound(Begin(l, c))
  {
  }

  /** When the control socket is written, the assertions of SendCommand hold and
      the message goes into an empty channel. */
  lemma ServerSendsSound(l: Link, ok: bool)
    requires Sound(l) && l.control
    ensures l.sender.Some? && SendCommandAsserts(l.sender.value) && l.toClient == l.toServer == []
    ensures var (l', e) := ServerSends(l, ok);
            if ok then e == Continue && Sound(l') else e == Remove
  {
  }

  /** What the server reads is the one message it waits for: its cookie, the
      acknowledgement or the result; anything else means that the client is gone. */
  lemma ServerReadsSound(l: Link, k: Nanos)
    requires Sound(l) && (l.toServer != [] || l.closed)
    ensures var (l', e) := ServerReads(l, k);
            match e
            case Continue => Sound(l')
            case Remove => l.closed && l.toServer == []
            case Finished(_) =>
              && l.sender.Some? && PhaseOf(l, l.sender.value) == ResultSent
              && Sound(l'.(sender := None, reporting := false))
  {
  }

  /** The one kind of message that a peer can take in its state. */
  predicate Awaited(l: Link, m: Message) {
    if !l.authed then m.Cookie?
    else match l.sender
      case None => false
      case Some(s) => if s.waitingResult then m.Result? else s.waitingAck && m.Ack?
  }

  /** In any state at all, a peer outlasts a read if and only if it takes exactly one
      message, the awaited one; and its command ends with a result and nothing else. */
  lemma OnlyTheAwaited(l: Link, k: Nanos)
    requires l.toServer != [] || l.closed
    ensures var (l', e) := ServerReads(l, k);
            && (!e.Remove? <==> |l.toServer| == 1 && Awaited(l, l.toServer[0]))
            && (e.Finished? <==> !e.Remove? && l.toServer[0].Result?)
            && (e.Continue? && l.toServer[0].Ack? ==> l'.sender.value.started && !l'.sender.value.waitingAck)
  {
  }

  /** A client outlasts a read unless an acknowledgement or a result reaches its
      receiver; it answers every command, and several messages in one read it does
      not see. */
  lemma OnlyTheAnswered(l: Link)
    requires l.toClient != []
    ensures var l', m := ClientReads(l), ReadAll(l.toClient);
            && (l'.closed <==> l.closed || (l.client.receiver.Some? && (m.Ack? || m.Result?)))
            && (l'.toServer == l.toServer + [Ack] <==> m.Main? || (l.client.receiver.None? && IsPrivate(m)))
            && (l'.toServer == l.toServer || l'.toServer == l.toServer + [Ack])
            && (|l.toClient| > 1 ==> l'.client == l.client && l'.toServer == l.toServer)
  {
  }

  lemma PingWritesSound(l: Link, p: Pacing, now: Clock, ok: bool)
    requires Sound(l) && l.data && l.sender.Some? && l.sender.value.cmd.kind.Ping?
    ensures Sound(ServerWrites(l, p, now, ok).0)
  {
  }

  lemma UnicastWritesSound(l: Link, p: Pacing, now: Clock, ok: bool)
    requires Sound(l) && l.data && l.sender.Some? && l.sender.value.cmd.kind.Unicast?
    ensures Sound(ServerWrites(l, p, now, ok).0)
  {
  }

  lemma MulticastWritesSound(l: Link, p: Pacing, now: Clock, ok: bool)
    requires Sound(l) && l.data && l.sender.Some? && l.sender.value.cmd.kind.Multicast?
    ensures Sound(ServerWrites(l, p, now, ok).0)
  {
  }

  lemma ServerWritesSound(l: Link, p: Pacing, now: Clock, ok: bool)
    requires Sound(l) && (l.data || l.sender.None?)
    ensures Sound(ServerWrites(l, p, now, ok).0) && !ServerWrites(l, p, now, ok).2.Finished?
    ensures l.sender.Some? ==> !l.sender.value.stopping  // the assertion of Stop
  {
    if l.sender.Some? {
      match l.sender.value.cmd.kind
      case Ping => PingWritesSound(l, p, now, ok);
      case Unicast => UnicastWritesSound(l, p, now, ok);
      case Multicast => MulticastWritesSound(l, p, now, ok);
    }
  }

  lemma TimerFiresSound(l: Link, p: Pacing)
    requires Sound(l) && l.sender.Some? && l.sender.value.timer
    requires !l.sender.value.cmd.kind.Multicast? ==> !p.finished
    ensures Sound(TimerFires(l, p))
  {
  }

  lemma EchoArrivesSound(l: Link, legal: bool, delay: int, index: nat)
    requires Sound(l)
    ensures Sound(EchoArrives(l, legal, delay, index))
  {
  }

  /** The client reads one message, and it is one that its assertions allow: a
      command while it has no receiver, or a stop while it has one. */
  lemma ClientReadsSound(l: Link)
    requires Sound(l) && l.toClient != []
    ensures var m, c := ReadAll(l.toClient), l.client;
            && (c.receiver.None? ==> m.Main? && Client.AfterCommand(c, m).client.receiver.Some?)
            && (c.receiver.Some? ==> m == Message.Stop)
            && Client.AfterCommand(c, m).alive
    ensures Sound(ClientReads(l))
  {
    Client.CommandCounts(l.client, ReadAll(l.toClient));
  }

  lemma ClientAnswersSound(l: Link, budget: nat, k: Nanos)
    requires Sound(l) && l.client.controlWrite
    ensures l.client.receiver.Some? && l.toClient == l.toServer == []
    ensures Sound(ClientAnswers(l, budget, k))
  {
    Client.ResultCounts(l.client, budget, k);
  }

  lemma ClientGetsSound(l: Link, sock: Client.Sock, d: Datagram)
    requires Sound(l)
    ensures Sound(ClientGets(l, sock, d))
  {
    Client.DatagramCounts(l.client, sock, d);
  }

  lemma ClientEchoesSound(l: Link, budget: nat)
    requires Sound(l) && Client.DataWrite(l.client)
    ensures Sound(ClientEchoes(l, budget))
  {
    Client.WriteCounts(l.client, budget);
  }

  lemma CloseSound(l: Link, lost: bool)
    requires Sound(l)
    ensures Sound(Close(l, lost))
  {
  }

  // ------------------------------------------------------ what follows

  /** At most one message is under way in the two directions together, so every
      read of the frameless stream is one whole message. */
  lemma OneMessageInFlight(l: Link)
    requires Sound(l)
    ensures |l.toClient| + |l.toServer| <= 1
  {
  }

  /** A command that completes has exchanged exactly these messages. */
  lemma CompletedExchange(l: Link, k: Nanos)
    requires Sound(l) && ServerReads(l, k).1.Finished?
    ensures l.sender.Some? && |l.log| == 4
    ensures l.log[..3] == [Main(l.sender.value.cmd), Ack, Message.Stop] && l.log[3].Result?
  {
  }

  /** Why a ping asks for a packet: acknowledged, it may write, and its timer is set
      at the same time. When the timer runs out first, the ping stops with its
      write bit still set if and only if its count is below one, so that payload
      may leave while it waits to stop. */
  lemma EmptyPing(l: Link, c: Command, p: Pacing)
    requires c.kind.Ping? && c.interval > 0 && l.sender == Some(NewSender(c).(waitingAck := true))
    ensures var x := AfterAck(DeskOf(l).(s := NewSender(c).(started := true)));
            var l' := TimerFires(WithDesk(l, x), p);
            x.s.timer && x.data && l'.data && (l'.sender.value.stopping <==> c.count < 1)
  {
  }

  lemma ReadKeepsBit(l: Link, k: Nanos)
    requires l.data
    ensures ServerReads(l, k).0.data
  {
  }

  lemma TimerKeepsBit(x: Desk, p: Pacing)
    requires x.s.cmd.kind.Ping? && x.data
    ensures Timeout(x, p).data
  {
  }

  /** Nothing but a write takes the bit back, to the end of the ping and after it. */
  lemma OnlyWritesClear(l: Link, p: Pacing, e: PeerEvent)
    requires PeerEnabled(l, e) && !e.ServerWrite? && l.data && (l.sender.Some? ==> l.sender.value.cmd.kind.Ping?)
    ensures PeerStep(l, p, e).0.data
  {
    match e
    case ServerRead(k) => ReadKeepsBit(l, k);
    case TimerRunsOut => TimerKeepsBit(DeskOf(l), p);
    case _ =>
  }

  /** The next command finds it, and its sender writes payload before the client
      has been told of the command. */
  lemma StaleWriteBit(l: Link, c: Command, now: Clock)
    requires l.data && !c.kind.Ping? && c.count >= 1 && (c.kind.Multicast? ==> Waited(0, now) >= c.interval)
    ensures var (l', _, e) := ServerWrites(Begin(l, c), RESTARTED, now, true);
            e == Continue && l'.sender.value.starting && l'.sender.value.sendPackets == 1
  {
  }

  /** Something can still happen at this peer. */
  predicate Busy(l: Link) {
    l.control || l.data || l.toServer != [] || l.closed || l.toClient != [] || l.client.controlWrite ||
    (l.sender.Some? && l.sender.value.timer)
  }

  /** A peer that waits for a timer which was never armed: its payload is over, but
      the wait before the stop is not positive, and the client stays. */
  predicate Stuck(l: Link) {
    l.sender.Some? && PhaseOf(l, l.sender.value) == Draining && l.sender.value.cmd.wait <= 0 && !l.closed
  }

  /** At every peer of a running command, of which a ping has an interval to repeat,
      a step is due, unless it is stuck or waits for the barrier of a multicast
      command; a stuck one has no step. */
  lemma BusyUnlessStuck(l: Link)
    requires Sound(l) && l.sender.Some?
    requires l.sender.value.cmd.kind.Ping? ==> l.sender.value.cmd.interval > 0
    ensures Busy(l) || Stuck(l) || (l.sender.value.cmd.kind.Multicast? && l.sender.value.started && !l.sender.value.clock)
    ensures Stuck(l) ==> !Busy(l)
  {
  }
}
