/** The client: at most one receiver, a count of the datagrams that came while
    none listened, and the control messages it answers. */
module Client {
  import opened Wrappers
  import opened NetStats
  import opened Commands
  import opened SpeedGauge
  import opened CommandReceivers

  datatype Receiver =
    | SendR(cmd: Command, send: SendState)
    | EchoR(cmd: Command, echo: EchoState)

  /** The sockets a datagram can arrive on. */
  datatype Sock = Data | Group

  function SockOf(c: Command): Sock { if c.kind.Multicast? then Group else Data }

  /** `controlWrite` is the write bit of the control socket. `read` counts the
      datagrams read that the client accounts for, `reported` those in results. */
  datatype State = State(receiver: Option<Receiver>, illegal: nat, controlWrite: bool, read: nat, reported: nat)

  const IDLE: State := State(None, 0, false, 0, 0)

  function NewReceiver(c: Command): Receiver {
    if c.kind.Ping? then EchoR(c, NewEchoState()) else SendR(c, NewSendState())
  }

  /** What follows from a control message: the replies, and whether the client
      goes on. */
  datatype Reaction = Reaction(client: State, replies: seq<Message>, alive: bool)

  function AfterCommand(c: State, m: Message): Reaction {
    if m.Garbled? || m.Cookie? then Reaction(c, [], true)
    else if c.receiver.Some? && IsPrivate(m) then
      if m.Stop? then Reaction(c.(controlWrite := true), [], true) else Reaction(c, [], false)
    else
      Reaction(c.(receiver := if m.Main? then Some(NewReceiver(m.cmd)) else None), [Ack], true)
  }

  /** The result is sent and the receiver is dropped. A last echo is attempted. */
  function AfterResult(c: State, budget: nat, k: Nanos): (r: (State, NetStat))
    requires c.receiver.Some?
  {
    var stat := match c.receiver.value
      case SendR(_, s) => SendResult(s, c.illegal, k)
      case EchoR(_, e) => EchoResult(EchoSend(e, budget), c.illegal);
    (State(None, 0, false, c.read, c.reported + Reported(stat)), stat)
  }

  function Reported(stat: NetStat): nat {
    var n := stat.recvPackets + stat.duplicatePackets + stat.illegalPackets;
    if n < 0 then 0 else n
  }

  function AfterDatagram(c: State, sock: Sock, d: Datagram): State {
    match c.receiver
    case Some(r) =>
      if SockOf(r.cmd) != sock then RecvOutside(c, d)
      else
        var r' := match r
          case SendR(cmd, s) => SendR(cmd, SendRecv(s, d, cmd))
          case EchoR(cmd, e) => EchoR(cmd, EchoRecv(e, d, cmd));
        c.(receiver := Some(r'), read := c.read + 1)
    case None => RecvOutside(c, d)
  }

  /** An empty datagram looks like an error and is not counted. */
  function RecvOutside(c: State, d: Datagram): State {
    if d.size == 0 then c else c.(illegal := c.illegal + 1, read := c.read + 1)
  }

  /** The data socket can be written; false when a send fails. */
  function AfterWrite(c: State, budget: nat): (State, bool) {
    match c.receiver
    case Some(EchoR(cmd, e)) => (c.(receiver := Some(EchoR(cmd, EchoSend(e, budget)))), |e.queue| <= budget)
    case Some(SendR(_, _)) => (c, false)
    case None => (c, true)
  }

  /** What the receiver of a ping has echoed. */
  function Echoed(c: State): seq<Datagram> {
    match c.receiver
    case Some(EchoR(_, e)) => e.echoed
    case _ => []
  }

  predicate DataWrite(c: State) { c.receiver.Some? && c.receiver.value.EchoR? && c.receiver.value.echo.writable }

  /** The datagrams counted but not yet reported. */
  function Pending(c: State): nat {
    c.illegal + match c.receiver
    case Some(SendR(_, s)) => s.filter.recv + s.filter.duplicate + s.illegal
    case Some(EchoR(_, e)) => e.recv + e.illegal
    case None => 0
  }

  ghost predicate Sound(c: State) {
    && c.read == c.reported + Pending(c)
    && (c.receiver.Some? && c.receiver.value.EchoR? ==> c.receiver.value.cmd.kind.Ping? && EchoSound(c.receiver.value.echo))
    && (c.receiver.Some? && c.receiver.value.SendR? ==> !c.receiver.value.cmd.kind.Ping?)
  }

  // ------------------------------------------------ nothing read is forgotten

  lemma DatagramCounts(c: State, sock: Sock, d: Datagram)
    requires Sound(c)
    ensures Sound(AfterDatagram(c, sock, d))
    ensures AfterDatagram(c, sock, d).read ==
              if d.size > 0 || (c.receiver.Some? && SockOf(c.receiver.value.cmd) == sock) then c.read + 1 else c.read
  {
  }

  lemma WriteCounts(c: State, budget: nat)
    requires Sound(c) && DataWrite(c)
    ensures AfterWrite(c, budget).1 ==> Sound(AfterWrite(c, budget).0)
    ensures AfterWrite(c, budget).0.read == AfterWrite(c, budget).0.reported + Pending(AfterWrite(c, budget).0)
  {
  }

  /** A result reports exactly the datagrams that were pending. */
  lemma ResultCounts(c: State, budget: nat, k: Nanos)
    requires Sound(c) && c.receiver.Some?
    ensures var (c', stat) := AfterResult(c, budget, k);
            && Sound(c') && Pending(c') == 0
            && stat.recvPackets + stat.duplicatePackets + stat.illegalPackets == Pending(c)
            && stat.sendBytes == 0 && (c.receiver.value.SendR? ==> stat.sendPackets == 0)
  {
  }

  /** A control message forgets datagrams if and only if it replaces a receiver
      that has counted some. */
  lemma CommandCounts(c: State, m: Message)
    requires Sound(c)
    ensures Sound(AfterCommand(c, m).client) <==>
              !(c.receiver.Some? && m.Main? && Pending(c) > c.illegal)
  {
  }

  // ---------------------------------------------------------- the client itself

  /** The client with its receiver in place; at most one of the two is set. */
  class NetSnoopClient {
    var sender: SendCommandReceiver?
    var echoer: EchoCommandReceiver?
    var illegal: nat
    var controlWrite: bool
    ghost var read: nat
    ghost var reported: nat

    ghost predicate Valid()
      reads this, sender
    {
      && (sender != null ==> echoer == null && sender.Valid() && !sender.command.kind.Ping?)
      && (echoer != null ==> echoer.command.kind.Ping?)
    }

    ghost function Objects(): set<object>
      reads this, sender
    {
      (if sender != null then {sender as object, sender.packets as object} else {}) + {this as object} +
      if echoer != null then {echoer as object} else {}
    }

    ghost function View(): State
      requires Valid()
      reads this, sender, Objects()
    {
      State(if sender != null then Some(SendR(sender.command, sender.View()))
            else if echoer != null then Some(EchoR(echoer.command, echoer.View()))
            else None,
            illegal, controlWrite, read, reported)
    }

    constructor ()
      ensures Valid() && View() == IDLE
    {
      sender, echoer, illegal, controlWrite, read, reported := null, null, 0, false, 0, 0;
    }

    method RecvCommand(m: Message) returns (replies: seq<Message>, alive: bool)
      requires Valid()
      modifies this
      ensures Valid() && Reaction(View(), replies, alive) == AfterCommand(old(View()), m)
    {
      if m.Garbled? || m.Cookie? { return [], true; }
      if (sender != null || echoer != null) && IsPrivate(m) {
        if !m.Stop? { return [], false; }
        controlWrite := true;
        return [], true;
      }
      replies, alive := [Ack], true;
      sender, echoer := null, null;
      if m.Main? {
        if m.cmd.kind.Ping? {
          echoer := new EchoCommandReceiver(m.cmd);
        } else {
          sender := new SendCommandReceiver(m.cmd);
        }
      }
    }

    method RecvData(sock: Sock, d: Datagram)
      requires Valid()
      modifies Objects()
      ensures Valid() && View() == AfterDatagram(old(View()), sock, d)
    {
      if sender != null && SockOf(sender.command) == sock {
        sender.Recv(d);
        read := read + 1;
      } else if echoer != null && SockOf(echoer.command) == sock {
        echoer.Recv(d);
        read := read + 1;
      } else if d.size > 0 {
        illegal, read := illegal + 1, read + 1;
      }
    }

    method SendData(budget: nat) returns (ok: bool)
      requires Valid()
      modifies Objects()
      ensures Valid() && (View(), ok) == AfterWrite(old(View()), budget)
    {
      if echoer != null {
        ok := echoer.Send(budget);
      } else {
        ok := sender == null;
      }
    }

    method SendCommand(budget: nat, k: Nanos) returns (stat: NetStat)
      requires Valid() && View().receiver.Some?
      modifies Objects()
      ensures Valid() && (View(), stat) == AfterResult(old(View()), budget, k)
    {
      if sender != null {
        stat := sender.Result(illegal, k);
      } else {
        if |echoer.queue| > 0 {
          var sent := echoer.Send(budget);
        }
        stat := EchoResult(EchoState(echoer.recvCount, echoer.sendCount, echoer.queue, echoer.illegal, echoer.writable, [], []), illegal);
      }
      reported := reported + Reported(stat);
      sender, echoer, illegal, controlWrite := null, null, 0, false;
    }
  }
}
