/** What a client makes of the datagrams it is handed, by these datagrams alone: which
    count as packets, which are rejected, and which come on the wrong socket. */
module ClientLedger {
  import opened Wrappers
  import opened DuplicateFilter
  import opened DelayStatistics
  import opened NetStats
  import opened SpeedGauge
  import opened Commands
  import opened MulticastPacing
  import opened CommandReceivers
  import opened Peers
  import opened ServerRuns
  import Client

  // -------------------------------------------------- sorting the datagrams

  /** Multicast packets come over the group, all others over the data socket. */
  predicate MeantFor(c: Command, h: Handed) {
    if c.kind.Multicast? then h.sock == Client.Group else h.sock == Client.Data
  }

  /** A whole head, the token of the command, and the length that the head names. */
  predicate IsPacketOf(c: Command, d: Datagram) { d.size >= 16 && d.token == c.token && d.length == d.size }

  function Packets(hs: seq<Handed>, c: Command): seq<Datagram> {
    if hs == [] then []
    else
      var h := hs[|hs| - 1];
      Packets(hs[..|hs| - 1], c) + if MeantFor(c, h) && IsPacketOf(c, h.d) then [h.d] else []
  }

  /** On the right socket, but not a packet. */
  function Rejected(hs: seq<Handed>, c: Command): nat {
    if hs == [] then 0
    else
      var h := hs[|hs| - 1];
      Rejected(hs[..|hs| - 1], c) + if MeantFor(c, h) && !IsPacketOf(c, h.d) then 1 else 0
  }

  /** On the wrong socket; an empty datagram there looks like an error. */
  function Astray(hs: seq<Handed>, c: Command): nat {
    if hs == [] then 0
    else
      var h := hs[|hs| - 1];
      Astray(hs[..|hs| - 1], c) + if !MeantFor(c, h) && h.d.size > 0 then 1 else 0
  }

  function NotEmpty(hs: seq<Handed>): nat {
    if hs == [] then 0 else NotEmpty(hs[..|hs| - 1]) + if hs[|hs| - 1].d.size > 0 then 1 else 0
  }

  lemma NextHanded(hs: seq<Handed>, h: Handed, c: Command)
    ensures Packets(hs + [h], c) == if MeantFor(c, h) && IsPacketOf(c, h.d) then Packets(hs, c) + [h.d] else Packets(hs, c)
    ensures Rejected(hs + [h], c) == Rejected(hs, c) + if MeantFor(c, h) && !IsPacketOf(c, h.d) then 1 else 0
    ensures Astray(hs + [h], c) == Astray(hs, c) + if !MeantFor(c, h) && h.d.size > 0 then 1 else 0
    ensures NotEmpty(hs + [h]) == NotEmpty(hs) + if h.d.size > 0 then 1 else 0
  {
    assert (hs + [h])[..|hs|] == hs;
    assert Packets(hs, c) + [] == Packets(hs, c);
  }

  // -------------------------------------------------- what is done with packets

  function NumbersIn(ds: seq<Datagram>): seq<int> { seq(|ds|, i requires 0 <= i < |ds| => ds[i].number) }

  function FilterOver(ds: seq<Datagram>): Filter {
    if ds == [] then NO_ARRIVALS else Arrive(FilterOver(ds[..|ds| - 1]), ds[|ds| - 1].sequence)
  }

  /** The packets that were no duplicates for the filter. */
  function Fresh(ds: seq<Datagram>): seq<Datagram> {
    if ds == [] then []
    else
      var front, d := ds[..|ds| - 1], ds[|ds| - 1];
      Fresh(front) + if FilterOver(front).window.bits[d.sequence] then [] else [d]
  }

  function DelaysIn(ds: seq<Datagram>): seq<int> { seq(|ds|, i requires 0 <= i < |ds| => ds[i].delay) }

  function SamplesIn(ds: seq<Datagram>): seq<Sample> {
    seq(|ds|, i requires 0 <= i < |ds| => Sample(ds[i].size, ds[i].window))
  }

  function BytesIn(ds: seq<Datagram>): nat {
    if ds == [] then 0 else BytesIn(ds[..|ds| - 1]) + ds[|ds| - 1].size
  }

  lemma NextFields(ds: seq<Datagram>, d: Datagram)
    ensures NumbersIn(ds + [d]) == NumbersIn(ds) + [d.number]
    ensures DelaysIn(ds + [d]) == DelaysIn(ds) + [d.delay]
    ensures SamplesIn(ds + [d]) == SamplesIn(ds) + [Sample(d.size, d.window)]
  {
  }

  lemma NextBytes(ds: seq<Datagram>, d: Datagram)
    ensures BytesIn(ds + [d]) == BytesIn(ds) + d.size
  {
    assert (ds + [d])[..|ds|] == ds;
  }

  lemma NextPacket(ds: seq<Datagram>, d: Datagram)
    ensures FilterOver(ds + [d]) == Arrive(FilterOver(ds), d.sequence)
    ensures Fresh(ds + [d]) == if FilterOver(ds).window.bits[d.sequence] then Fresh(ds) else Fresh(ds) + [d]
  {
    assert (ds + [d])[..|ds|] == ds;
    assert Fresh(ds) + [] == Fresh(ds);
  }

  lemma {:induction false} FreshCounted(ds: seq<Datagram>)
    ensures FilterOver(ds).recv == |Fresh(ds)| && FilterOver(ds).duplicate == |ds| - |Fresh(ds)|
  {
    if ds != [] { FreshCounted(ds[..|ds| - 1]); }
  }

  /** The receiver of a "send" after the packets `ds`. */
  predicate SendKept(r: SendState, ds: seq<Datagram>, timeout: int) {
    && r.filter == FilterOver(ds) && r.numbers == NumbersIn(ds) && r.bytes == BytesIn(Fresh(ds))
    && r.delays == ObserveAll(DelaysIn(Fresh(ds)), timeout) && r.gauge == MeasureAll(SamplesIn(Fresh(ds)))
  }

  lemma NothingKept(timeout: int)
    ensures SendKept(NewSendState(), [], timeout)
  {
    assert DelaysIn([]) == [] && SamplesIn([]) == [];
  }

  lemma MeasuredNext(xs: seq<int>, x: int, ms: seq<Sample>, m: Sample, timeout: int)
    ensures ObserveAll(xs + [x], timeout) == Observe(ObserveAll(xs, timeout), x, timeout)
    ensures MeasureAll(ms + [m]) == Measure(MeasureAll(ms), m.bytes, m.window)
  {
    assert (xs + [x])[..|xs|] == xs && (ms + [m])[..|ms|] == ms;
  }

  lemma DoubleKept(r: SendState, ds: seq<Datagram>, d: Datagram, c: Command)
    requires SendKept(r, ds, c.timeout) && IsPacketOf(c, d) && FilterOver(ds).window.bits[d.sequence]
    ensures SendKept(SendRecv(r, d, c), ds + [d], c.timeout) && SendRecv(r, d, c).illegal == r.illegal
  {
    NextFields(ds, d);
    NextPacket(ds, d);
    assert Legal(d, c.token);
  }

  lemma FreshKept(r: SendState, ds: seq<Datagram>, d: Datagram, c: Command)
    requires SendKept(r, ds, c.timeout) && IsPacketOf(c, d) && !FilterOver(ds).window.bits[d.sequence]
    ensures SendKept(SendRecv(r, d, c), ds + [d], c.timeout) && SendRecv(r, d, c).illegal == r.illegal
  {
    assert Legal(d, c.token);
    NextFields(ds, d);
    NextPacket(ds, d);
    TakenIn(r, d, c);
    FreshMeasured(Fresh(ds), d, c.timeout);
  }

  lemma TakenIn(r: SendState, d: Datagram, c: Command)
    requires Legal(d, c.token) && !r.filter.window.bits[d.sequence]
    ensures SendRecv(r, d, c) ==
              SendState(Arrive(r.filter, d.sequence), Observe(r.delays, d.delay, c.timeout), Measure(r.gauge, d.size, d.window),
                        r.bytes + d.size, r.illegal, r.numbers + [d.number])
  {
  }

  lemma FreshMeasured(ds: seq<Datagram>, d: Datagram, timeout: int)
    ensures ObserveAll(DelaysIn(ds + [d]), timeout) == Observe(ObserveAll(DelaysIn(ds), timeout), d.delay, timeout)
    ensures MeasureAll(SamplesIn(ds + [d])) == Measure(MeasureAll(SamplesIn(ds)), d.size, d.window)
    ensures BytesIn(ds + [d]) == BytesIn(ds) + d.size
  {
    NextFields(ds, d);
    NextBytes(ds, d);
    MeasuredNext(DelaysIn(ds), d.delay, SamplesIn(ds), Sample(d.size, d.window), timeout);
  }

  lemma PacketKept(r: SendState, ds: seq<Datagram>, d: Datagram, c: Command)
    requires SendKept(r, ds, c.timeout) && IsPacketOf(c, d)
    ensures SendKept(SendRecv(r, d, c), ds + [d], c.timeout) && SendRecv(r, d, c).illegal == r.illegal
  {
    if FilterOver(ds).window.bits[d.sequence] { DoubleKept(r, ds, d, c); } else { FreshKept(r, ds, d, c); }
  }

  lemma OtherKept(r: SendState, d: Datagram, c: Command)
    requires !IsPacketOf(c, d)
    ensures SendRecv(r, d, c) == r.(illegal := r.illegal + 1)
  {
  }

  // ------------------------------------------------------- at every client

  /** A receiver has taken in what came since it was told of its command. */
  predicate TookIn(r: Client.Receiver, hs: seq<Handed>) {
    match r
    case SendR(c, s) => SendKept(s, Packets(hs, c), c.timeout) && s.illegal == Rejected(hs, c)
    case EchoR(c, e) => e.accepted == Packets(hs, c) && e.illegal == Rejected(hs, c)
  }

  predicate Routed(l: Link) {
    match l.client.receiver
    case None => l.client.illegal == NotEmpty(l.handed)
    case Some(r) =>
      && l.told <= |l.handed|
      && l.client.illegal == NotEmpty(l.handed[..l.told]) + Astray(l.handed[l.told..], r.cmd)
      && TookIn(r, l.handed[l.told..])
  }

  lemma ReceiverGets(r: Client.Receiver, hs: seq<Handed>, h: Handed)
    requires TookIn(r, hs) && MeantFor(r.cmd, h)
    ensures r.SendR? ==> TookIn(Client.SendR(r.cmd, SendRecv(r.send, h.d, r.cmd)), hs + [h])
    ensures r.EchoR? ==> TookIn(Client.EchoR(r.cmd, EchoRecv(r.echo, h.d, r.cmd)), hs + [h])
  {
    NextHanded(hs, h, r.cmd);
    if r.SendR? {
      if IsPacketOf(r.cmd, h.d) { PacketKept(r.send, Packets(hs, r.cmd), h.d, r.cmd); } else { OtherKept(r.send, h.d, r.cmd); }
    }
  }

  lemma ReceiverMisses(r: Client.Receiver, hs: seq<Handed>, h: Handed)
    requires TookIn(r, hs) && !MeantFor(r.cmd, h)
    ensures TookIn(r, hs + [h])
  {
    NextHanded(hs, h, r.cmd);
  }

  /** The socket at which a receiver listens is the one its packets come over. */
  lemma GetsAsMeant(c: Client.State, sock: Client.Sock, d: Datagram)
    requires c.receiver.Some?
    ensures var r, c' := c.receiver.value, Client.AfterDatagram(c, sock, d);
            if MeantFor(r.cmd, Handed(sock, d)) then
              c'.illegal == c.illegal &&
              c'.receiver == Some(if r.SendR? then Client.SendR(r.cmd, SendRecv(r.send, d, r.cmd))
                                  else Client.EchoR(r.cmd, EchoRecv(r.echo, d, r.cmd)))
            else c'.receiver == c.receiver && c'.illegal == c.illegal + if d.size > 0 then 1 else 0
  {
  }

  /** One datagram at a client that listens: a packet of its command on the right socket
      is taken in, anything else there is illegal, and what comes on the other socket
      is outside the command. */
  lemma DatagramTaken(l: Link, sock: Client.Sock, d: Datagram)
    requires l.client.receiver.Some?
    ensures var r, c' := l.client.receiver.value, ClientGets(l, sock, d).client;
            if !MeantFor(r.cmd, Handed(sock, d)) then
              c'.receiver == Some(r) && (d.size > 0 ==> c'.illegal == l.client.illegal + 1)
            else
              && c'.receiver.Some? && c'.illegal == l.client.illegal
              && match r
                 case SendR(c, s) =>
                   c'.receiver.value.SendR? &&
                   var s' := c'.receiver.value.send;
                   if !IsPacketOf(c, d) then s'.illegal == s.illegal + 1 && s'.filter == s.filter
                   else if s.filter.window.bits[d.sequence] then s'.filter.duplicate == s.filter.duplicate + 1
                   else s'.filter.recv == s.filter.recv + 1 && s'.bytes == s.bytes + d.size
                 case EchoR(c, e) =>
                   c'.receiver.value.EchoR? &&
                   var e' := c'.receiver.value.echo;
                   if IsPacketOf(c, d) then e'.accepted == e.accepted + [d] && e'.queue == e.queue + [d] && e'.writable
                   else e'.illegal == e.illegal + 1 && e'.queue == e.queue
  {
    GetsAsMeant(l.client, sock, d);
  }

  lemma GetRouted(l: Link, sock: Client.Sock, d: Datagram)
    requires Routed(l)
    ensures Routed(ClientGets(l, sock, d))
  {
    var h, l' := Handed(sock, d), ClientGets(l, sock, d);
    match l.client.receiver
    case None => NextHanded(l.handed, h, DUMMY);
    case Some(r) =>
      GetsAsMeant(l.client, sock, d);
      assert l'.handed[..l'.told] == l.handed[..l.told] && l'.handed[l'.told..] == l.handed[l.told..] + [h];
      NextHanded(l.handed[l.told..], h, r.cmd);
      if MeantFor(r.cmd, h) { ReceiverGets(r, l.handed[l.told..], h); } else { ReceiverMisses(r, l.handed[l.told..], h); }
  }

  const DUMMY: Command := Command(0, Ping, 0, 0, 0, 0, 0, '$')

  lemma NewReceiverRouted(c: Command)
    ensures TookIn(Client.NewReceiver(c), [])
  {
    NothingKept(c.timeout);
  }

  lemma ReadRouted(l: Link)
    requires Routed(l) && Sound(l) && l.toClient != []
    ensures Routed(ClientReads(l))
  {
    ClientReadsSound(l);
    var m := ReadAll(l.toClient);
    if m.Main? {
      NewReceiverRouted(m.cmd);
      assert l.handed[..|l.handed|] == l.handed && l.handed[|l.handed|..] == [];
    }
  }

  lemma EchoTookIn(c: Command, e: EchoState, budget: nat, hs: seq<Handed>)
    requires TookIn(Client.EchoR(c, e), hs)
    ensures TookIn(Client.EchoR(c, EchoSend(e, budget)), hs)
  {
  }

  /** The receiver may change, as long as it has taken in the same. */
  lemma SameLedger(l: Link, l': Link)
    requires Routed(l) && l'.handed == l.handed && l'.told == l.told && l'.client.illegal == l.client.illegal
    requires if l.client.receiver.None? then l'.client.receiver.None?
             else l'.client.receiver.Some? && l'.client.receiver.value.cmd == l.client.receiver.value.cmd
    requires l.client.receiver.Some? ==> TookIn(l'.client.receiver.value, l.handed[l.told..])
    ensures Routed(l')
  {
  }

  lemma EchoRouted(l: Link, budget: nat)
    requires Routed(l) && Client.DataWrite(l.client)
    ensures Routed(ClientEchoes(l, budget))
  {
    var c, e := l.client.receiver.value.cmd, l.client.receiver.value.echo;
    EchoTookIn(c, e, budget, l.handed[l.told..]);
    assert Client.AfterWrite(l.client, budget).0 == l.client.(receiver := Some(Client.EchoR(c, EchoSend(e, budget))));
    SameLedger(l, ClientEchoes(l, budget));
  }

  lemma AnswerRouted(l: Link, budget: nat, k: Nanos)
    requires l.client.receiver.Some?
    ensures Routed(ClientAnswers(l, budget, k))
  {
  }

  lemma EchoKeepsLedger(l: Link, legal: bool, delay: int, index: nat)
    ensures var l' := EchoArrives(l, legal, delay, index);
            l'.client == l.client && l'.handed == l.handed && l'.told == l.told
  {
  }

  lemma StepRouted(l: Link, p: Pacing, e: PeerEvent)
    requires Routed(l) && Sound(l) && PeerEnabled(l, e) && IsQuiet(e)
    ensures Routed(PeerStep(l, p, e).0)
  {
    match e
    case ClientRead => ReadRouted(l);
    case ClientAnswer(budget, k) => AnswerRouted(l, budget, k);
    case ClientGet(sock, d) => GetRouted(l, sock, d);
    case ClientEcho(budget) => EchoRouted(l, budget);
    case Disconnect(lost) => SameLedger(l, Close(l, lost));
    case ServerEcho(legal, delay, index) =>
      EchoKeepsLedger(l, legal, delay, index);
      SameLedger(l, EchoArrives(l, legal, delay, index));
  }

  /** What a client reports, by the datagrams it was handed. */
  predicate ReportsHanded(stat: NetStat, c: Command, before: seq<Handed>, since: seq<Handed>) {
    var ds := Packets(since, c);
    && stat.illegalPackets == Rejected(since, c) + NotEmpty(before) + Astray(since, c)
    && (if c.kind.Ping? then stat.recvPackets == |ds|
        else
          && stat.recvPackets == |Fresh(ds)| && stat.duplicatePackets == |ds| - |Fresh(ds)|
          && stat.reorderPackets == FilterOver(ds).reorder && stat.recvBytes == BytesIn(Fresh(ds))
          && SendFigures(DelaysOf(stat), DelaysIn(Fresh(ds)))
          && stat.timeoutPackets == Late(DelaysIn(Fresh(ds)), c.timeout * 1000 * 1000))
  }

  lemma KeptFigures(s: SendState, ds: seq<Datagram>, timeout: int)
    requires SendKept(s, ds, timeout)
    ensures SendFigures(SendReport(s.delays), DelaysIn(Fresh(ds)))
    ensures s.delays.timeouts == Late(DelaysIn(Fresh(ds)), timeout * 1000 * 1000)
  {
    ObservedFigures(s.delays, DelaysIn(Fresh(ds)), timeout);
  }

  lemma SendReportsHanded(s: SendState, ds: seq<Datagram>, timeout: int, outside: nat, k: Nanos)
    requires SendKept(s, ds, timeout)
    ensures var stat := SendResult(s, outside, k);
            && stat.recvPackets == |Fresh(ds)| && stat.duplicatePackets == |ds| - |Fresh(ds)|
            && stat.reorderPackets == FilterOver(ds).reorder && stat.recvBytes == BytesIn(Fresh(ds))
            && SendFigures(DelaysOf(stat), DelaysIn(Fresh(ds)))
            && stat.timeoutPackets == Late(DelaysIn(Fresh(ds)), timeout * 1000 * 1000)
            && stat.illegalPackets == s.illegal + outside
  {
    FreshCounted(ds);
    KeptFigures(s, ds, timeout);
    ResultFields(s, outside, k);
  }

  lemma ClientReports(l: Link, budget: nat, k: Nanos)
    requires Routed(l) && Sound(l) && l.client.receiver.Some?
    ensures var stat, c := Client.AfterResult(l.client, budget, k).1, l.client.receiver.value.cmd;
            ReportsHanded(stat, c, l.handed[..l.told], l.handed[l.told..])
  {
    match l.client.receiver.value
    case SendR(c, s) => SendReportsHanded(s, Packets(l.handed[l.told..], c), c.timeout, l.client.illegal, k);
    case EchoR(c, e) =>
  }
}
