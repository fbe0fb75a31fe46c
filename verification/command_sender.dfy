/** The sender that runs one command at one peer: flags, a timer, the write bits
    of its two sockets, and what it counts. */
module CommandSenders {
  import opened Arithmetic
  import opened SequenceWindow
  import opened DelayStatistics
  import opened NetStats
  import opened SpeedGauge
  import opened Commands
  import opened MulticastPacing

  /** `timer` says that the timeout is armed, `clock` that the first payload has
      been tried, `stoping` is the flag of the payload of "send"; `stamps` records
      the numbers this sender wrote itself. */
  datatype Sender = Sender(
    cmd: Command, starting: bool, waitingAck: bool, started: bool, stopping: bool, waitingResult: bool, stopped: bool,
    timer: bool, stoping: bool, clock: bool, sendPackets: nat, stamps: seq<SeqNo>,
    echoes: EchoDelays, illegalEchoes: nat)

  function NewSender(c: Command): Sender {
    Sender(c, false, false, false, false, false, false, false, false, false, 0, [], NO_ECHOES, 0)
  }

  /** A sender and the write bits of its control and data sockets. */
  datatype Desk = Desk(s: Sender, control: bool, data: bool)

  /** What a handler means for the peer: go on, remove it, or the result is in. */
  datatype Effect = Continue | Remove | Finished(stat: NetStat)

  function StartSending(x: Desk): Desk { Desk(x.s.(starting := true), true, x.data) }

  /** Stopping waits to let the client receive what is under way; a wait that is not
      positive disarms the timer. */
  function StopSending(x: Desk): Desk { x.(s := x.s.(stopping := true, timer := x.s.cmd.wait > 0)) }

  /** The assertions of SendCommand. */
  predicate SendCommandAsserts(s: Sender) {
    !s.stopped && (s.starting || (s.stopping && s.started && !s.waitingResult))
  }

  function SendCommand(x: Desk, ok: bool): (Desk, seq<Message>, Effect) {
    var s, failed := x.s, if ok then Continue else Remove;
    if s.stopped then (x.(control := false), [], Remove)
    else if s.starting then
      (Desk(s.(starting := false, waitingAck := true), false, x.data), if ok then [Main(s.cmd)] else [], failed)
    else if s.stopping then
      (Desk(s.(stopping := false, waitingResult := true), false, x.data), if ok then [Message.Stop] else [], failed)
    else (x.(control := false), [], Remove)
  }

  function AfterAck(x: Desk): Desk {
    match x.s.cmd.kind
    case Ping => Desk(x.s.(timer := x.s.cmd.interval > 0), x.control, true)
    case Unicast => x.(data := true)
    case Multicast => x
  }

  function RecvCommand(x: Desk, m: Message, k: Nanos): (Desk, Effect) {
    var s := x.s;
    if m.Garbled? || m.Cookie? then (x, Remove)
    else if s.waitingResult then
      (x.(s := s.(waitingResult := false, stopped := true)), if m.Result? then Finished(OnStop(s, m.stat, k)) else Remove)
    else if s.waitingAck then
      var y := x.(s := s.(waitingAck := false, started := true));
      if m.Ack? then (AfterAck(y), Continue) else (y, Remove)
    else (x, Remove)
  }

  // -------------------------------------------------------------- payload

  predicate TryStop(s: Sender, p: Pacing) { s.sendPackets >= s.cmd.count || p.finished }

  function NoMorePayload(x: Desk): Desk { StopSending(Desk(x.s.(stoping := true), x.control, false)) }

  /** The timer has run out. */
  function Timeout(x: Desk, p: Pacing): Desk {
    var y := x.(s := x.s.(timer := false));
    if x.s.stopping then y.(control := true) else AfterInterval(y, p)
  }

  function AfterInterval(x: Desk, p: Pacing): Desk {
    var again := Desk(x.s.(timer := x.s.cmd.interval > 0), x.control, true);
    match x.s.cmd.kind
    case Ping => if x.s.sendPackets >= x.s.cmd.count then StopSending(x) else again
    case _ => if x.s.stoping then x else if TryStop(x.s, p) then NoMorePayload(x) else again
  }

  /** EchoCommandSender::SendData counts before it sends. */
  function SendPing(x: Desk): Desk {
    Desk(x.s.(sendPackets := x.s.sendPackets + 1, stamps := x.s.stamps + [Wrap(x.s.sendPackets)]), x.control, false)
  }

  /** SendCommandSender::SendData on the socket of one peer. */
  function SendUnicast(x: Desk, ok: bool): Desk {
    var y := FirstPayload(x);
    if ok then y.(s := y.s.(sendPackets := y.s.sendPackets + 1, stamps := y.s.stamps + [Wrap(y.s.sendPackets)])) else y
  }

  /** The same on the shared socket, which decides whether and under which
      number the datagram leaves. */
  function SendMulticast(x: Desk, r: Attempt): Desk {
    var y := FirstPayload(x);
    if r.Sent? then y.(s := y.s.(sendPackets := y.s.sendPackets + 1)) else y
  }

  /** The data socket can be written. */
  function SendData(x: Desk, p: Pacing, now: Clock, ok: bool): (Desk, Pacing, Effect) {
    var failed := if ok then Continue else Remove;
    match x.s.cmd.kind
    case Ping => (SendPing(x), p, failed)
    case Unicast =>
      if TryStop(x.s, RESTARTED) then (NoMorePayload(x), p, Continue) else (SendUnicast(x, ok), p, failed)
    case Multicast =>
      if x.s.stoping then (x, p, Continue)
      else if TryStop(x.s, p) then (NoMorePayload(x), p, Continue)
      else
        var (p', r) := PacedSend(p, x.s.cmd, now, ok);
        (SendMulticast(x, r), p', if r.Failed? then Remove else Continue)
  }

  /** The first time, the clock and the timer start; with an interval, the next
      datagram waits for the timer. */
  function FirstPayload(x: Desk): Desk {
    var s := if x.s.clock then x.s else x.s.(clock := true, timer := x.s.cmd.interval > 0);
    Desk(s, x.control, x.data && s.cmd.interval <= 0)
  }

  /** An echo has come back, `delay` nanoseconds after it was sent. */
  function RecvEcho(x: Desk, legal: bool, delay: int): Desk {
    if legal then x.(s := x.s.(echoes := Echo(x.s.echoes, delay, x.s.cmd.timeout)))
    else x.(s := x.s.(illegalEchoes := x.s.illegalEchoes + 1))
  }

  /** An echo changes the counts of echoes and nothing else. */
  lemma EchoOnlyCounts(x: Desk, legal: bool, delay: int)
    ensures var s' := RecvEcho(x, legal, delay).s;
            RecvEcho(x, legal, delay) == x.(s := x.s.(echoes := s'.echoes, illegalEchoes := s'.illegalEchoes))
  {
  }

  predicate SameEchoes(s: Sender, s': Sender) {
    && s'.cmd == s.cmd && s'.echoes == s.echoes && s'.illegalEchoes == s.illegalEchoes
    && s.sendPackets <= s'.sendPackets && (s.started ==> s'.started)
  }

  lemma AttemptKeepsEchoes(x: Desk, ok: bool, r: Attempt)
    ensures SameEchoes(x.s, NoMorePayload(x).s) && SameEchoes(x.s, SendPing(x).s)
    ensures SameEchoes(x.s, SendUnicast(x, ok).s) && SameEchoes(x.s, SendMulticast(x, r).s)
  {
    assert SameEchoes(x.s, FirstPayload(x).s);
  }

  /** Sending payload changes neither the command nor the counts of echoes, and
      takes back no packet. */
  lemma PayloadKeepsEchoes(x: Desk, p: Pacing, now: Clock, ok: bool)
    ensures SameEchoes(x.s, SendData(x, p, now, ok).0.s)
  {
    AttemptKeepsEchoes(x, ok, PacedSend(p, x.s.cmd, now, ok).1);
  }

  lemma AckKeepsEchoes(x: Desk)
    ensures SameEchoes(x.s, AfterAck(x).s)
  {
  }

  lemma ReadKeepsEchoes(x: Desk, m: Message, k: Nanos)
    ensures SameEchoes(x.s, RecvCommand(x, m, k).0.s)
  {
    AckKeepsEchoes(x.(s := x.s.(waitingAck := false, started := true)));
  }

  lemma StopKeepsEchoes(x: Desk)
    ensures SameEchoes(x.s, StopSending(x).s) && SameEchoes(x.s, NoMorePayload(x).s)
  {
  }

  lemma IntervalKeepsEchoes(x: Desk, p: Pacing)
    ensures SameEchoes(x.s, AfterInterval(x, p).s)
  {
    StopKeepsEchoes(x);
    assert SameEchoes(x.s, x.s.(timer := x.s.cmd.interval > 0));
    match x.s.cmd.kind
    case Ping =>
    case Unicast =>
    case Multicast =>
  }

  lemma TimerKeepsEchoes(x: Desk, p: Pacing)
    ensures SameEchoes(x.s, Timeout(x, p).s)
  {
    IntervalKeepsEchoes(x.(s := x.s.(timer := false)), p);
  }

  // --------------------------------------------------------------- result

  /** One less the share received; a sender that sent nothing has no loss here. */
  function LossOf(recv: int, sent: nat): real {
    if sent == 0 then 0.0 else 1.0 - recv as real / sent as real
  }

  lemma ShareReceived(got: nat, sent: nat)
    requires sent > 0
    ensures 0.0 <= LossOf(got, sent) <= 1.0 <==> got <= sent
  {
    ShareSigns(got as real, sent as real);
  }

  /** The result of the client, completed with what the sender knows; `elapsed` is
      the time from its first payload to its last. */
  function OnStop(s: Sender, stat: NetStat, elapsed: Nanos): NetStat {
    match s.cmd.kind
    case Ping =>
      var d, n := PingReport(s.echoes), BufferSize(s.cmd);
      var counted := stat.(
        delay := d.delay, maxDelay := d.maxDelay, minDelay := d.minDelay, jitter := d.jitter, jitterStd := d.jitterStd,
        sendBytes := s.sendPackets * n, recvBytes := s.echoes.n * n,
        sendPackets := s.sendPackets, recvPackets := s.echoes.n,
        illegalPackets := stat.illegalPackets + s.illegalEchoes, timeoutPackets := s.echoes.timeouts,
        loss := LossOf(s.echoes.n, s.sendPackets), sendTime := elapsed / NANOS);
      if elapsed < NANOS then counted
      else counted.(sendPps := PerSecond(s.sendPackets, elapsed), recvPps := PerSecond(s.echoes.n, elapsed),
                    sendSpeed := PerSecond(s.sendPackets * n, elapsed), recvSpeed := PerSecond(s.echoes.n * n, elapsed))
    case _ =>
      if s.sendPackets == 0 then stat
      else
        var bytes := s.sendPackets * BufferSize(s.cmd);
        var timed := stat.(sendBytes := bytes, sendPackets := s.sendPackets, sendTime := elapsed / NANOS,
                           loss := LossOf(stat.recvPackets, s.sendPackets));
        if elapsed <= NANOS then timed
        else timed.(sendPps := PerSecond(s.sendPackets, elapsed), sendSpeed := PerSecond(bytes, elapsed))
  }

  /** Bytes are reported as sent exactly by a sender that sent something. */
  lemma SentBytesExactly(s: Sender, stat: NetStat, k: Nanos)
    requires stat.sendBytes == 0
    ensures 0 <= OnStop(s, stat, k).sendBytes
    ensures OnStop(s, stat, k).sendBytes > 0 <==> s.sendPackets > 0
  {
    MulMonotone(s.sendPackets, 1, BufferSize(s.cmd));
  }

  // --------------------------------------------------------- the sender itself

  /** The flags in place. Virtual calls are decided by the kind of the command. */
  class CommandSender {
    const command: Command
    const multicast: MultiCastSock
    var isStarting: bool
    var isWaitingAck: bool
    var isStarted: bool
    var isStopping: bool
    var isWaitingResult: bool
    var isStopped: bool
    var timer: bool
    var isStoping: bool
    var clock: bool
    var sendPackets: nat
    var stamps: seq<SeqNo>
    var echoes: EchoDelays
    var illegalEchoes: nat
    var controlWrite: bool
    var dataWrite: bool

    ghost function View(): Desk
      reads this
    {
      Desk(Sender(command, isStarting, isWaitingAck, isStarted, isStopping, isWaitingResult, isStopped,
                  timer, isStoping, clock, sendPackets, stamps, echoes, illegalEchoes),
           controlWrite, dataWrite)
    }

    constructor (c: Command, m: MultiCastSock)
      ensures View() == Desk(NewSender(c), false, false) && multicast == m
    {
      command, multicast := c, m;
      isStarting, isWaitingAck, isStarted, isStopping, isWaitingResult, isStopped := false, false, false, false, false, false;
      timer, isStoping, clock, sendPackets, stamps, echoes, illegalEchoes := false, false, false, 0, [], NO_ECHOES, 0;
      controlWrite, dataWrite := false, false;
    }

    method Start()
      modifies this
      ensures View() == StartSending(old(View()))
    {
      isStarting := true;
      controlWrite := true;
    }

    method SetTimeout(microseconds: int)
      modifies this`timer
      ensures timer == (microseconds > 0)
    {
      timer := microseconds > 0;
    }

    method Stop()
      modifies this`isStopping, this`timer
      ensures View() == StopSending(old(View()))
    {
      isStopping := true;
      SetTimeout(command.wait);
    }

    /** `ok` is the outcome of the write on the control socket. */
    method SendControl(ok: bool) returns (out: seq<Message>, e: Effect)
      modifies this
      ensures (View(), out, e) == SendCommand(old(View()), ok)
    {
      controlWrite := false;
      if isStopped { return [], Remove; }
      if isStarting {
        isStarting, isWaitingAck := false, true;
        if !ok { return [], Remove; }
        return [Main(command)], Continue;
      }
      if isStopping {
        isStopping, isWaitingResult := false, true;
        if !ok { return [], Remove; }
        return [Message.Stop], Continue;
      }
      return [], Remove;
    }

    method OnStart()
      modifies this`dataWrite, this`timer
      ensures View() == AfterAck(old(View()))
    {
      if command.kind.Ping? {
        dataWrite := true;
        SetTimeout(command.interval);
      } else if command.kind.Unicast? {
        dataWrite := true;
      }
    }

    method RecvControl(m: Message, k: Nanos) returns (e: Effect)
      modifies this
      ensures (View(), e) == RecvCommand(old(View()), m, k)
    {
      if m.Garbled? || m.Cookie? { return Remove; }
      if isWaitingResult {
        isWaitingResult, isStopped := false, true;
        if !m.Result? { return Remove; }
        var stat := Complete(m.stat, k);
        return Finished(stat);
      }
      if isWaitingAck {
        isWaitingAck, isStarted := false, true;
        if !m.Ack? { return Remove; }
        OnStart();
        return Continue;
      }
      return Remove;
    }

    /** The result of the client, completed. */
    method Complete(client: NetStat, elapsed: Nanos) returns (stat: NetStat)
      ensures stat == OnStop(View().s, client, elapsed)
    {
      stat := client;
      if command.kind.Ping? {
        var d, n := PingReport(echoes), BufferSize(command);
        stat := stat.(delay := d.delay, maxDelay := d.maxDelay, minDelay := d.minDelay, jitter := d.jitter, jitterStd := d.jitterStd);
        stat := stat.(sendBytes := sendPackets * n, recvBytes := echoes.n * n, sendPackets := sendPackets, recvPackets := echoes.n);
        stat := stat.(illegalPackets := stat.illegalPackets + illegalEchoes, timeoutPackets := echoes.timeouts);
        stat := stat.(loss := LossOf(echoes.n, sendPackets), sendTime := elapsed / NANOS);
        if elapsed >= NANOS {
          stat := stat.(sendPps := PerSecond(sendPackets, elapsed), recvPps := PerSecond(echoes.n, elapsed));
          stat := stat.(sendSpeed := PerSecond(sendPackets * n, elapsed), recvSpeed := PerSecond(echoes.n * n, elapsed));
        }
      } else if sendPackets > 0 {
        var bytes := sendPackets * BufferSize(command);
        stat := stat.(sendBytes := bytes, sendPackets := sendPackets, sendTime := elapsed / NANOS);
        if elapsed > NANOS {
          stat := stat.(sendPps := PerSecond(sendPackets, elapsed), sendSpeed := PerSecond(bytes, elapsed));
        }
        stat := stat.(loss := LossOf(stat.recvPackets, sendPackets));
      }
    }

    method BeginPayload()
      modifies this`clock, this`timer, this`dataWrite
      ensures View() == FirstPayload(old(View()))
    {
      if !clock {
        clock := true;
        SetTimeout(command.interval);
      }
      if command.interval > 0 { dataWrite := false; }
    }

    method StopPayload()
      modifies this`isStoping, this`dataWrite, this`isStopping, this`timer
      ensures View() == NoMorePayload(old(View()))
    {
      isStoping, dataWrite := true, false;
      Stop();
    }

    /** `now` is the time, and `ok` the outcome of the send. */
    method SendPayload(now: Clock, ok: bool) returns (e: Effect)
      modifies this, multicast
      ensures (View(), multicast.View(), e) == SendData(old(View()), old(multicast.View()), now, ok)
    {
      e := Continue;
      match command.kind {
        case Ping =>
          stamps := stamps + [Wrap(sendPackets)];
          sendPackets := sendPackets + 1;
          dataWrite := false;
          if !ok { e := Remove; }
        case Unicast =>
          if sendPackets >= command.count {
            StopPayload();
          } else {
            BeginPayload();
            if ok {
              stamps := stamps + [Wrap(sendPackets)];
              sendPackets := sendPackets + 1;
            } else {
              e := Remove;
            }
          }
        case Multicast =>
          e := SendShared(now, ok);
      }
    }

    method SendShared(now: Clock, ok: bool) returns (e: Effect)
      requires command.kind.Multicast?
      modifies this, multicast
      ensures (View(), multicast.View(), e) == SendData(old(View()), old(multicast.View()), now, ok)
    {
      e := Continue;
      if isStoping { return; }
      if sendPackets >= command.count || multicast.finished {
        StopPayload();
        return;
      }
      BeginPayload();
      var r := multicast.Send(command, now, ok);
      if r.Sent? { sendPackets := sendPackets + 1; }
      if r.Failed? { e := Remove; }
    }

    /** The timeout has run out. */
    method Expire()
      modifies this
      ensures View() == Timeout(old(View()), multicast.View())
    {
      timer := false;
      if isStopping {
        controlWrite := true;
      } else {
        OnTimeout();
      }
    }

    method OnTimeout()
      modifies this`isStoping, this`dataWrite, this`isStopping, this`timer
      ensures View() == AfterInterval(old(View()), multicast.View())
    {
      if command.kind.Ping? {
        if sendPackets >= command.count {
          Stop();
          return;
        }
      } else if isStoping {
        return;
      } else if sendPackets >= command.count || multicast.finished {
        StopPayload();
        return;
      }
      dataWrite := true;
      SetTimeout(command.interval);
    }
  }
}
