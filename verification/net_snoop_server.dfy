/** The server: a queue of commands, the peers, the closure that collects their
    reports, and the barrier of multicast commands. */
module Server {
  import opened Wrappers
  import opened NetStats
  import opened Commands
  import opened MulticastPacing
  import opened CommandSenders
  import opened Peers

  type PeerId = nat

  /** A command whose callback has fired, with what, and after which reports;
      `lost` records the multicast packets that no result speaks of: those of
      peers that were lost, and those whose send failed. */
  datatype Completion = Completion(cmd: Command, final: Final, outcomes: seq<Outcome>, lost: nat)

  /** `pushed`, `completed`, `outcomes`, `reporters` and the sums of the packets sent
      by peers that have left the command are records; `barrierOpen` is
      is_multicast_started_, and `halted` says that a final division by zero has
      ended the server. */
  datatype State = State(
    queue: seq<Command>, current: Option<Command>, running: bool, barrierOpen: bool,
    peers: seq<PeerId>, ready: seq<PeerId>, links: map<PeerId, Link>, nextId: PeerId,
    totals: Totals, peersCount: nat, pacing: Pacing, halted: bool,
    pushed: seq<Command>, completed: seq<Completion>, outcomes: seq<Outcome>, reporters: seq<PeerId>,
    sentBySuccess: nat, sentByLost: nat)

  const INITIAL: State :=
    State([], None, false, false, [], [], map[], 0, NO_REPORTS, 0, RESTARTED, false, [], [], [], [], 0, 0)

  predicate IsAuthed(links: map<PeerId, Link>, p: PeerId) { p in links && links[p].authed }

  function Authed(peers: seq<PeerId>, links: map<PeerId, Link>): seq<PeerId> {
    if peers == [] then []
    else
      var front, p := peers[..|peers| - 1], peers[|peers| - 1];
      Authed(front, links) + if IsAuthed(links, p) then [p] else []
  }

  function Without(ps: seq<PeerId>, p: PeerId): seq<PeerId> {
    if ps == [] then []
    else
      var front, q := ps[..|ps| - 1], ps[|ps| - 1];
      Without(front, p) + if q == p then [] else [q]
  }

  /** Every command of the queue is answered without a result. */
  function Drained(queue: seq<Command>): seq<Completion> {
    if queue == [] then [] else Drained(queue[..|queue| - 1]) + [Completion(queue[|queue| - 1], NoResult, [], 0)]
  }

  // ------------------------------------------------------------- the steps

  function TakeNext(s: State): State {
    if s.running || s.queue == [] then s
    else
      var t := s.(ready := s.ready + Authed(s.peers, s.links));
      if t.ready == [] then s.(queue := [], completed := s.completed + Drained(s.queue)) else Launched(t, s.queue[0])
  }

  function Begun(links: map<PeerId, Link>, ready: seq<PeerId>, c: Command): map<PeerId, Link> {
    map p | p in links :: if p in ready then Begin(links[p], c) else links[p]
  }

  /** The first command of the queue starts at all ready peers. */
  function Launched(s: State, c: Command): State
    requires s.queue != []
  {
    s.(queue := s.queue[1..], current := Some(c), running := true, barrierOpen := false,
       links := Begun(s.links, s.ready, c),
       totals := NO_REPORTS, peersCount := |s.ready|, pacing := RESTARTED,
       outcomes := [], reporters := [], sentBySuccess := 0, sentByLost := 0)
  }

  function SentBy(l: Link): nat { if l.sender.Some? then l.sender.value.sendPackets else 0 }

  /** The closure: one report of peer `p`. */
  function Noted(s: State, p: PeerId, o: Outcome): State
    requires p in s.links
  {
    var l := s.links[p];
    s.(ready := Without(s.ready, p), totals := Report(s.totals, o), outcomes := s.outcomes + [o],
       reporters := s.reporters + [p],
       links := s.links[p := l.(reporting := false)],
       sentBySuccess := if o.Some? then s.sentBySuccess + SentBy(l) else s.sentBySuccess,
       sentByLost := if o.Some? then s.sentByLost else s.sentByLost + SentBy(l))
  }

  /** After the last report the command is over. */
  function Settle(s: State): State {
    if s.ready != [] || s.current.None? then s
    else
      var c := s.current.value;
      var final := Finish(s.totals, s.peersCount, c.kind.Multicast?);
      if final.Undefined? then s.(running := false, halted := true)
      else s.(running := false, current := None,
              completed := s.completed + [Completion(c, final, s.outcomes, s.sentByLost + s.pacing.failed)])
  }

  function Stopped(s: State, p: PeerId, o: Outcome): State
    requires p in s.links
  {
    Settle(Noted(s, p, o))
  }

  /** A handler of peer `p` has failed: its sender is stopped and it is erased. */
  function Erase(s: State, p: PeerId): State
    requires p in s.links
  {
    var s' := if s.links[p].reporting then Stopped(s, p, None) else s;
    s'.(peers := Without(s.peers, p), links := s'.links - {p})
  }

  /** The sender of peer `p` is done with `stat`. */
  function Complete(s: State, p: PeerId, stat: NetStat): State
    requires p in s.links
  {
    var s' := if s.links[p].reporting then Stopped(s, p, Some(stat)) else s;
    s'.(links := s'.links[p := s'.links[p].(sender := None)])
  }

  /** What a handler of peer `p` leaves behind. */
  function Handled(s: State, p: PeerId, l: Link, e: Effect): State {
    var s' := s.(links := s.links[p := l]);
    match e
    case Continue => s'
    case Remove => Erase(s', p)
    case Finished(stat) => Complete(s', p, stat)
  }

  predicate IsPayloadStarted(l: Link) { l.sender.Some? && l.sender.value.started }

  predicate IsStarted(l: Link) { l.command.Some? ==> IsPayloadStarted(l) }

  /** Every peer that was given a command has acknowledged it. */
  predicate MulticastReady(s: State) {
    forall p :: p in s.peers ==> p in s.links && IsStarted(s.links[p])
  }

  predicate HasPayload(l: Link) { l.authed && l.command.Some? }

  function OpenIfReady(s: State): State {
    if MulticastReady(s) && s.current.Some? && s.current.value.kind.Multicast? && !s.barrierOpen then
      s.(barrierOpen := true,
         links := map p | p in s.links :: if HasPayload(s.links[p]) then s.links[p].(data := true) else s.links[p])
    else s
  }

  function Joined(s: State, l: Link): State {
    s.(peers := s.peers + [s.nextId], links := s.links[s.nextId := l], nextId := s.nextId + 1)
  }

  function Connected(s: State): State { Joined(s, NEW_LINK) }

  // ---------------------------------------------------------------- events

  /** Everything that can happen next, at the server, in the network or at a
      client; the order is arbitrary. */
  datatype Event =
    | Push(cmd: Command)
    | Connect
    | ProcessNext
    | OpenWhenReady
    | At(p: PeerId, e: PeerEvent)

  predicate Enabled(s: State, e: Event) {
    && !s.halted
    && (e.At? ==> e.p in s.links && PeerEnabled(s.links[e.p], e.e))
  }

  function AtPeer(s: State, p: PeerId, e: PeerEvent): State
    requires p in s.links && PeerEnabled(s.links[p], e)
  {
    var (l, pacing, f) := PeerStep(s.links[p], s.pacing, e);
    Handled(s.(pacing := pacing), p, l, f)
  }

  function Step(s: State, e: Event): State
    requires Enabled(s, e)
  {
    match e
    case Push(c) => s.(queue := s.queue + [c], pushed := s.pushed + [c])
    case Connect => Connected(s)
    case ProcessNext => TakeNext(s)
    case OpenWhenReady => OpenIfReady(s)
    case At(p, x) => AtPeer(s, p, x)
  }

  // --------------------------------------------------------- the server itself

  /** What a run records: see State. */
  datatype Ledger = Ledger(
    pushed: seq<Command>, completed: seq<Completion>, outcomes: seq<Outcome>, reporters: seq<PeerId>,
    sentBySuccess: nat, sentByLost: nat)

  function Recorded(r: Ledger, p: PeerId, o: Outcome, sent: nat): Ledger {
    var r' := r.(outcomes := r.outcomes + [o], reporters := r.reporters + [p]);
    if o.Some? then r'.(sentBySuccess := r.sentBySuccess + sent) else r'.(sentByLost := r.sentByLost + sent)
  }

  /** The server with its lists and counters in place. The counters that the
      closure of a command captures are fields here: one command runs at a time. */
  class NetSnoopServer {
    var commands: seq<Command>
    var currentCommand: Option<Command>
    var isRunning: bool
    var isMulticastStarted: bool
    var peers: seq<PeerId>
    var readyPeers: seq<PeerId>
    var links: map<PeerId, Link>
    var nextId: PeerId
    var netstat: Option<NetStat>
    var peersFailed: nat
    var peersActive: nat
    var peersCount: nat
    var pacing: Pacing
    var crashed: bool
    ghost var record: Ledger

    ghost function View(): State
      reads this
    {
      State(commands, currentCommand, isRunning, isMulticastStarted, peers, readyPeers, links, nextId,
            Totals(netstat, peersFailed, peersActive), peersCount, pacing, crashed,
            record.pushed, record.completed, record.outcomes, record.reporters, record.sentBySuccess, record.sentByLost)
    }

    constructor ()
      ensures View() == INITIAL
    {
      commands, currentCommand, isRunning, isMulticastStarted := [], None, false, false;
      peers, readyPeers, links, nextId := [], [], map[], 0;
      netstat, peersFailed, peersActive, peersCount, pacing, crashed := None, 0, 0, 0, RESTARTED, false;
      record := Ledger([], [], [], [], 0, 0);
    }

    method PushCommand(c: Command)
      modifies this
      ensures var s := old(View());
              View() == s.(queue := s.queue + [c], pushed := s.pushed + [c])
    {
      commands := commands + [c];
      record := record.(pushed := record.pushed + [c]);
    }

    method AcceptNewConnect()
      modifies this
      ensures View() == Connected(old(View()))
    {
      peers, links := peers + [nextId], links[nextId := NEW_LINK];
      nextId := nextId + 1;
    }

    /** The callback of a command fires. */
    method InvokeCallback(c: Command, final: Final, ghost os: seq<Outcome>, ghost lost: nat)
      modifies this`record
      ensures record == old(record).(completed := old(record).completed + [Completion(c, final, os, lost)])
    {
      record := record.(completed := record.completed + [Completion(c, final, os, lost)]);
    }

    method ProcessNextCommand()
      requires forall p :: p in readyPeers ==> p in links
      modifies this
      ensures View() == TakeNext(old(View()))
    {
      if isRunning || commands == [] { return; }
      CollectReady();
      if readyPeers == [] {
        Drain();
      } else {
        Launch(commands[0]);
      }
    }

    method CollectReady()
      requires forall p :: p in readyPeers ==> p in links
      modifies this`readyPeers
      ensures readyPeers == old(readyPeers) + Authed(peers, links)
      ensures forall p :: p in readyPeers ==> p in links
    {
      for i := 0 to |peers|
        invariant readyPeers == old(readyPeers) + Authed(peers[..i], links)
        invariant forall p :: p in readyPeers ==> p in links
      {
        assert peers[..i + 1][..i] == peers[..i];
        if peers[i] in links && links[peers[i]].authed { readyPeers := readyPeers + [peers[i]]; }
      }
      assert peers[..|peers|] == peers;
    }

    method Launch(c: Command)
      requires commands != [] && forall p :: p in readyPeers ==> p in links
      modifies this
      ensures View() == Launched(old(View()), c)
    {
      Restart();
      GiveCommand(c);
      Begin(c);
    }

    method Begin(c: Command)
      requires commands != []
      modifies this`commands, this`currentCommand, this`isRunning
      ensures View() == old(View()).(queue := old(commands)[1..], current := Some(c), running := true)
    {
      commands, currentCommand, isRunning := commands[1..], Some(c), true;
    }

    method Restart()
      modifies this`peersCount, this`netstat, this`peersFailed, this`peersActive, this`isMulticastStarted, this`pacing
      modifies this`record
      ensures peersCount == |readyPeers| && Totals(netstat, peersFailed, peersActive) == NO_REPORTS
      ensures !isMulticastStarted && pacing == RESTARTED
      ensures record == old(record).(outcomes := [], reporters := [], sentBySuccess := 0, sentByLost := 0)
    {
      peersCount, netstat, peersFailed, peersActive := |readyPeers|, None, 0, 0;
      isMulticastStarted, pacing := false, RESTARTED;
      record := record.(outcomes := [], reporters := [], sentBySuccess := 0, sentByLost := 0);
    }

    method Drain()
      modifies this`commands, this`record
      ensures commands == []
      ensures record == old(record).(completed := old(record).completed + Drained(old(commands)))
    {
      ghost var all := commands;
      ghost var n := 0;
      while commands != []
        invariant n + |commands| == |all| && commands == all[n..]
        invariant record == old(record).(completed := old(record).completed + Drained(all[..n]))
      {
        var command := commands[0];
        commands, n := commands[1..], n + 1;
        assert all[..n][..n - 1] == all[..n - 1];
        InvokeCallback(command, NoResult, [], 0);
      }
      assert all[..n] == all;
    }

    method GiveCommand(c: Command)
      requires forall p :: p in readyPeers ==> p in links
      modifies this`links
      ensures links == Begun(old(links), readyPeers, c)
    {
      for i := 0 to |readyPeers|
        invariant links == Begun(old(links), readyPeers[..i], c)
      {
        var p := readyPeers[i];
        assert readyPeers[..i + 1] == readyPeers[..i] + [p];
        links := links[p := Peers.Begin(links[p], c)];
      }
      assert readyPeers[..|readyPeers|] == readyPeers;
    }

    method RemoveIf(all: seq<PeerId>, p: PeerId) returns (rest: seq<PeerId>)
      ensures rest == Without(all, p)
    {
      rest := [];
      for i := 0 to |all|
        invariant rest == Without(all[..i], p)
      {
        assert all[..i + 1][..i] == all[..i];
        if all[i] != p { rest := rest + [all[i]]; }
      }
      assert all[..|all|] == all;
    }

    /** The closure that a command hangs into every peer it is given to. */
    method OnStopped(p: PeerId, o: Outcome)
      requires p in links
      modifies this
      ensures View() == Stopped(old(View()), p, o)
    {
      Note(p, o);
      assert View() == Noted(old(View()), p, o);
      SettleCommand();
    }

    method SettleCommand()
      modifies this`isRunning, this`crashed, this`record, this`currentCommand
      ensures View() == Settle(old(View()))
    {
      if readyPeers != [] || currentCommand.None? { return; }
      isRunning := false;
      var command := currentCommand.value;
      var final := Finish(Totals(netstat, peersFailed, peersActive), peersCount, command.kind.Multicast?);
      if final.Undefined? {
        crashed := true;
        return;
      }
      InvokeCallback(command, final, record.outcomes, record.sentByLost + pacing.failed);
      currentCommand := None;
    }

    method Note(p: PeerId, o: Outcome)
      requires p in links
      modifies this`readyPeers, this`links, this`netstat, this`peersActive, this`peersFailed, this`record
      ensures readyPeers == Without(old(readyPeers), p)
      ensures Totals(netstat, peersFailed, peersActive) == Report(old(Totals(netstat, peersFailed, peersActive)), o)
      ensures record == Recorded(old(record), p, o, SentBy(old(links)[p]))
      ensures links == old(links)[p := old(links)[p].(reporting := false)]
    {
      readyPeers := RemoveIf(readyPeers, p);
      record := Recorded(record, p, o, SentBy(links[p]));
      match o {
        case Some(stat) =>
          var report := Prepared(stat);
          netstat := if netstat.None? then Some(report) else Some(Add(netstat.value, report));
          if stat.sendBytes > 0 { peersActive := peersActive + 1; }
        case None =>
          peersFailed := peersFailed + 1;
      }
      links := links[p := links[p].(reporting := false)];
    }

    /** One handler of peer `p` and what follows from its outcome. */
    method Handle(p: PeerId, e: PeerEvent)
      requires p in links && PeerEnabled(links[p], e)
      modifies this
      ensures View() == AtPeer(old(View()), p, e)
    {
      var (l, shared, effect) := PeerStep(links[p], pacing, e);
      pacing := shared;
      Follow(p, l, effect);
    }

    /** The peer is left with `l`; it stays, leaves, or is done. */
    method Follow(p: PeerId, l: Link, effect: Effect)
      requires p in links
      modifies this
      ensures View() == Handled(old(View()), p, l, effect)
    {
      links := links[p := l];
      assert View() == old(View()).(links := old(View()).links[p := l]);
      if effect.Remove? {
        Remove(p);
      } else if effect.Finished? {
        FinishPeer(p, effect.stat);
      }
    }

    /** The peer is stopped and erased. */
    method Remove(p: PeerId)
      requires p in links
      modifies this
      ensures View() == Erase(old(View()), p)
    {
      if links[p].reporting { OnStopped(p, None); }
      ErasePeer(p);
    }

    method ErasePeer(p: PeerId)
      modifies this`peers, this`links
      ensures peers == Without(old(peers), p) && links == old(links) - {p}
    {
      peers := RemoveIf(peers, p);
      links := links - {p};
    }

    /** The sender of the peer reports its result and is dropped. */
    method FinishPeer(p: PeerId, stat: NetStat)
      requires p in links
      modifies this
      ensures View() == Complete(old(View()), p, stat)
    {
      if links[p].reporting { OnStopped(p, Some(stat)); }
      links := links[p := links[p].(sender := None)];
    }

    /** The end of a turn of the main loop. */
    method StartMulticast()
      requires forall p :: p in peers <==> p in links
      modifies this
      ensures View() == OpenIfReady(old(View()))
    {
      var isMulticastReady := AllStarted();
      if isMulticastReady && currentCommand.Some? && currentCommand.value.kind.Multicast? && !isMulticastStarted {
        isMulticastStarted := true;
        SetWriteBits();
      }
    }

    method AllStarted() returns (ready: bool)
      requires forall p :: p in peers ==> p in links
      ensures ready <==> MulticastReady(View())
    {
      ready := true;
      for i := 0 to |peers|
        invariant ready <==> forall p :: p in peers[..i] ==> IsStarted(links[p])
      {
        assert peers[..i + 1] == peers[..i] + [peers[i]];
        if links[peers[i]].command.Some? { ready := ready && IsPayloadStarted(links[peers[i]]); }
      }
      assert peers[..|peers|] == peers;
    }

    method SetWriteBits()
      requires forall p :: p in peers <==> p in links
      modifies this`links
      ensures links == map p | p in old(links) :: if HasPayload(old(links)[p]) then old(links)[p].(data := true) else old(links)[p]
    {
      for i := 0 to |peers|
        invariant links == map p | p in old(links) ::
                             if p in peers[..i] && HasPayload(old(links)[p]) then old(links)[p].(data := true) else old(links)[p]
      {
        var p := peers[i];
        assert peers[..i + 1] == peers[..i] + [p];
        if HasPayload(links[p]) { links := links[p := links[p].(data := true)]; }
      }
      assert peers[..|peers|] == peers;
    }
  }
}
