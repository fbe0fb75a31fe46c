/** What every event of every run keeps: the lists and the queue of the server, its
    accounts, and the conservation of packets. Nothing here depends on the order
    of the messages between the server and its peers. */
module ServerInvariant {
  import opened Wrappers
  import opened Arithmetic
  import opened NetStats
  import opened Commands
  import opened MulticastPacing
  import opened CommandSenders
  import opened Peers
  import opened Server

  // ---------------------------------------------------------- lists of peers

  ghost predicate Distinct<T(!new)>(ps: seq<T>) {
    forall i, j :: 0 <= i < j < |ps| ==> ps[i] != ps[j]
  }

  lemma DistinctGrows<T(!new)>(ps: seq<T>, q: T)
    ensures Distinct(ps + [q]) <==> Distinct(ps) && q !in ps
  {
    var qs := ps + [q];
    if Distinct(qs) {
      assert forall i :: 0 <= i < |ps| ==> qs[i] == ps[i] && qs[i] != qs[|ps|];
    }
  }

  lemma {:induction false} WithoutMembers(ps: seq<PeerId>, p: PeerId)
    requires Distinct(ps)
    ensures Distinct(Without(ps, p))
    ensures forall q :: q in Without(ps, p) <==> q in ps && q != p
    ensures |Without(ps, p)| == if p in ps then |ps| - 1 else |ps|
  {
    if ps != [] {
      var front, q := ps[..|ps| - 1], ps[|ps| - 1];
      assert ps == front + [q];
      DistinctGrows(front, q);
      WithoutMembers(front, p);
      DistinctGrows(Without(front, p), q);
      assert Without(ps, p) == Without(front, p) + if q == p then [] else [q];
    }
  }

  lemma {:induction false} AuthedMembers(peers: seq<PeerId>, links: map<PeerId, Link>)
    requires Distinct(peers)
    ensures Distinct(Authed(peers, links))
    ensures forall q :: q in Authed(peers, links) <==> q in peers && IsAuthed(links, q)
  {
    if peers != [] {
      var front, q := peers[..|peers| - 1], peers[|peers| - 1];
      assert peers == front + [q];
      DistinctGrows(front, q);
      AuthedMembers(front, links);
      DistinctGrows(Authed(front, links), q);
    }
  }

  lemma {:induction false} WithoutNone(ps: seq<PeerId>, p: PeerId)
    requires p !in ps
    ensures Without(ps, p) == ps
  {
    if ps != [] {
      var n := |ps| - 1;
      WithoutNone(ps[..n], p);
      assert ps == ps[..n] + [ps[n]];
    }
  }

  /** The sum of the numbers of the peers in a list. */
  function Total(ps: seq<PeerId>, m: map<PeerId, nat>): nat {
    if ps == [] then 0
    else
      var front, p := ps[..|ps| - 1], ps[|ps| - 1];
      Total(front, m) + if p in m then m[p] else 0
  }

  lemma OneMorePeer(front: seq<PeerId>, q: PeerId, m: map<PeerId, nat>, p: PeerId)
    ensures Total(front + [q], m) == Total(front, m) + if q in m then m[q] else 0
    ensures Without(front + [q], p) == Without(front, p) + if q == p then [] else [q]
  {
    assert (front + [q])[..|front|] == front;
  }

  /** All peers of the list have a number, and it is no more in `m'` than in `m`. */
  predicate AtMost(ps: seq<PeerId>, m': map<PeerId, nat>, m: map<PeerId, nat>) {
    forall p :: p in ps ==> p in m && p in m' && m'[p] <= m[p]
  }

  lemma {:induction false} TotalFalls(ps: seq<PeerId>, m: map<PeerId, nat>, m': map<PeerId, nat>)
    requires AtMost(ps, m', m)
    ensures Total(ps, m') <= Total(ps, m)
  {
    if ps != [] {
      var n := |ps| - 1;
      assert ps[n] in ps && forall q :: q in ps[..n] ==> q in ps;
      TotalFalls(ps[..n], m, m');
    }
  }

  /** One peer leaves the list. */
  lemma {:induction false} TotalWithout(ps: seq<PeerId>, m: map<PeerId, nat>, p: PeerId)
    requires Distinct(ps) && p in ps && p in m
    ensures Total(Without(ps, p), m) + m[p] == Total(ps, m)
  {
    var front, q := ps[..|ps| - 1], ps[|ps| - 1];
    assert ps == front + [q];
    DistinctGrows(front, q);
    OneMorePeer(front, q, m, p);
    if q == p {
      WithoutNone(front, p);
      assert Without(ps, p) == front;
    } else {
      TotalWithout(front, m, p);
      OneMorePeer(Without(front, p), q, m, p);
    }
  }

  /** One peer gets another number, the others no more than they had. */
  lemma TotalMoves(ps: seq<PeerId>, m: map<PeerId, nat>, m': map<PeerId, nat>, p: PeerId)
    requires Distinct(ps) && p in ps && p in m && p in m' && AtMost(Without(ps, p), m', m)
    ensures Total(ps, m') + m[p] <= Total(ps, m) + m'[p]
    ensures m[p] <= Total(ps, m)
  {
    TotalWithout(ps, m, p);
    TotalWithout(ps, m', p);
    TotalFalls(Without(ps, p), m, m');
  }

  function Sent(links: map<PeerId, Link>): map<PeerId, nat> { map p | p in links :: SentBy(links[p]) }

  /** The packets that the peers still taking part have sent. */
  function SumSent(ps: seq<PeerId>, links: map<PeerId, Link>): nat { Total(ps, Sent(links)) }

  lemma SumSentAgrees(ps: seq<PeerId>, links: map<PeerId, Link>, links': map<PeerId, Link>)
    requires forall p :: p in ps ==> p in links && p in links' && SentBy(links[p]) == SentBy(links'[p])
    ensures SumSent(ps, links) == SumSent(ps, links')
  {
    TotalFalls(ps, Sent(links), Sent(links'));
    TotalFalls(ps, Sent(links'), Sent(links));
  }

  lemma SumSentUpdate(ps: seq<PeerId>, links: map<PeerId, Link>, p: PeerId, l: Link)
    requires Distinct(ps) && p in ps && p in links && forall q :: q in ps ==> q in links
    ensures SumSent(ps, links[p := l]) == SumSent(ps, links) - SentBy(links[p]) + SentBy(l)
    ensures SentBy(links[p]) <= SumSent(ps, links)
  {
    WithoutMembers(ps, p);
    TotalMoves(ps, Sent(links), Sent(links[p := l]), p);
    TotalMoves(ps, Sent(links[p := l]), Sent(links), p);
  }

  lemma SumSentWithout(ps: seq<PeerId>, links: map<PeerId, Link>, p: PeerId)
    requires Distinct(ps) && p in ps && p in links
    ensures SumSent(Without(ps, p), links) == SumSent(ps, links) - SentBy(links[p])
  {
    TotalWithout(ps, Sent(links), p);
  }

  lemma {:induction false} SumSentZero(ps: seq<PeerId>, links: map<PeerId, Link>)
    requires forall p :: p in ps ==> p in links && SentBy(links[p]) == 0
    ensures SumSent(ps, links) == 0
  {
    if ps != [] {
      var n := |ps| - 1;
      assert forall p :: p in ps[..n] ==> p in ps;
      SumSentZero(ps[..n], links);
    }
  }

  // ------------------------------------------------------------ the invariant

  /** Peers and links belong together, and a peer takes part in the running
      command exactly while its OnStopped is set. */
  ghost predicate Shape(s: State) {
    && Distinct(s.peers) && Distinct(s.ready)
    && (forall p :: p in s.peers <==> p in s.links)
    && (forall p :: p in s.links ==> p < s.nextId)
    && (forall p :: p in s.ready <==> p in s.links && s.links[p].reporting)
  }

  function CommandsOf(cs: seq<Completion>): seq<Command> {
    seq(|cs|, i requires 0 <= i < |cs| => cs[i].cmd)
  }

  function Running(current: Option<Command>): seq<Command> {
    if current.Some? then [current.value] else []
  }

  /** No command is lost, doubled or overtaken. */
  ghost predicate Flow(s: State) { s.pushed == CommandsOf(s.completed) + Running(s.current) + s.queue }

  /** Each peer of the running command takes part or has reported, and no peer
      has reported twice. */
  ghost predicate OnceEach(s: State) {
    && Distinct(s.reporters) && (forall p :: p in s.ready ==> p !in s.reporters)
    && |s.reporters| == |s.outcomes| && s.peersCount == |s.ready| + |s.reporters|
  }

  ghost predicate Accounts(s: State) {
    && (s.running <==> s.ready != [])
    && (if s.halted then !s.running && s.current.Some? else s.running <==> s.current.Some?)
    && (s.running ==> s.totals == Collect(s.outcomes) && OnceEach(s))
  }

  ghost predicate Frame(s: State) { Shape(s) && Flow(s) && Accounts(s) }

  /** A sender that is on its way to its stop has nothing left to send. */
  predicate Spent(x: Sender, count: nat) {
    x.sendPackets >= x.cmd.count || (x.cmd.kind.Multicast? && count >= x.cmd.count)
  }

  predicate Paying(x: Sender, count: nat) {
    && (x.stopping || x.waitingResult ==> Spent(x, count))
    && (x.cmd.kind.Unicast? ==> x.sendPackets <= Wanted(x.cmd))
  }

  /** No result that is under way speaks of sending. */
  predicate FreshResults(l: Link) { forall m :: m in l.toServer && m.Result? ==> m.stat.sendBytes == 0 }

  /** A peer has a sender exactly while it takes part, and it is that of the running
      command; `count` is the shared counter. */
  ghost predicate Attached(current: Option<Command>, count: nat, l: Link) {
    && (l.sender.Some? <==> l.reporting)
    && (l.sender.Some? ==> current == Some(l.sender.value.cmd) && Paying(l.sender.value, count))
    && FreshResults(l)
  }

  ghost predicate AllAttached(s: State) {
    forall p :: p in s.links ==> Attached(s.current, s.pacing.count, s.links[p])
  }

  // ----------------------------------------------------------------- traffic

  /** A success of a ping or unicast command reports the bytes of its count, or of
      more when it is a ping. */
  predicate Paid(c: Command, o: Outcome) {
    o.Some? ==>
      && o.value.sendBytes >= Wanted(c) * BufferSize(c)
      && (c.kind.Unicast? ==> o.value.sendBytes == Wanted(c) * BufferSize(c))
  }

  predicate AllPaid(c: Command, os: seq<Outcome>) {
    forall i :: 0 <= i < |os| ==> Paid(c, os[i])
  }

  /** Conservation: the shared counter is what all peers have sent together. */
  ghost predicate Conserved(s: State) {
    s.pacing.count == SumSent(s.ready, s.links) + s.sentBySuccess + s.sentByLost + s.pacing.failed
  }

  ghost predicate Tally(s: State, c: Command) {
    && (forall i :: 0 <= i < |s.outcomes| && s.outcomes[i].Some? ==> 0 <= s.outcomes[i].value.sendBytes)
    && SentBytes(s.outcomes) == s.sentBySuccess * BufferSize(c)
    && (Successes(s.outcomes) > 0 ==> s.pacing.count >= c.count)
  }

  ghost predicate Pool(s: State, c: Command) { PacingSound(s.pacing, c) && Conserved(s) && Tally(s, c) }

  /** Packets are missing from the results only if a peer was lost. */
  ghost predicate Excused(s: State) {
    s.sentByLost + s.pacing.failed > 0 ==> Successes(s.outcomes) < |s.outcomes|
  }

  ghost predicate TrafficOf(s: State, c: Command) {
    if c.kind.Multicast? then Pool(s, c) && Excused(s) else s.pacing == RESTARTED && AllPaid(c, s.outcomes)
  }

  ghost predicate Traffic(s: State) {
    s.running && s.current.Some? ==> TrafficOf(s, s.current.value)
  }

  /** What the callback of a command is told. */
  ghost predicate CompletionSound(x: Completion) {
    && x.final == FinalOf(x.outcomes, x.cmd.kind.Multicast?)
    && !x.final.Undefined?
    && (if x.cmd.kind.Multicast? then SharedSound(x.cmd, x.outcomes, x.lost) else AllPaid(x.cmd, x.outcomes))
  }

  /** The successes of a multicast command have sent its count together, less what
      was lost; nothing is lost while no peer is. */
  predicate SharedSound(c: Command, os: seq<Outcome>, lost: nat) {
    && (forall i :: 0 <= i < |os| && os[i].Some? ==> 0 <= os[i].value.sendBytes)
    && (Successes(os) > 0 ==> lost <= Wanted(c) && SentBytes(os) == (Wanted(c) - lost) * BufferSize(c))
    && (Successes(os) == |os| ==> lost == 0)
  }

  ghost predicate Finals(s: State) {
    forall i :: 0 <= i < |s.completed| ==> CompletionSound(s.completed[i])
  }

  /** A command that makes the server divide by zero: some peer succeeded, and it
      was a send that asked for no packet, a ping that asked for none and sent none,
      or a multicast command in which a peer was lost and the others had sent
      nothing. */
  predicate HaltedBy(c: Command, os: seq<Outcome>) {
    0 < Successes(os) &&
    match c.kind
    case Ping => c.count < 1 && SentBytes(os) == 0
    case Unicast => c.count < 1
    case Multicast => c.count < 1 || (Successes(os) < |os| && SentBytes(os) == 0)
  }

  ghost predicate Halting(s: State) {
    s.halted ==> s.current.Some? && HaltedBy(s.current.value, s.outcomes)
  }

  ghost predicate Steady(s: State) {
    Frame(s) && AllAttached(s) && Traffic(s) && Finals(s) && Halting(s)
  }

  // ------------------------------------------------------ a report, in the lists

  /** The state between a report and what follows from it. */
  ghost predicate Midway(s: State) {
    && Shape(s) && Flow(s) && s.running && s.current.Some? && !s.halted
    && s.totals == Collect(s.outcomes) && OnceEach(s)
  }

  lemma NotedOnce(s: State, p: PeerId, o: Outcome)
    requires Shape(s) && OnceEach(s) && p in s.ready
    ensures OnceEach(Noted(s, p, o))
  {
    WithoutMembers(s.ready, p);
    DistinctGrows(s.reporters, p);
  }

  lemma NotedMidway(s: State, p: PeerId, o: Outcome)
    requires Frame(s) && !s.halted && p in s.links && s.links[p].reporting
    ensures Midway(Noted(s, p, o)) && p !in Noted(s, p, o).ready
  {
    WithoutMembers(s.ready, p);
    NotedOnce(s, p, o);
    assert (s.outcomes + [o])[..|s.outcomes|] == s.outcomes;
  }

  lemma SettleFrame(s: State)
    requires Midway(s)
    ensures Frame(Settle(s))
    ensures var t := Settle(s);
            && t.links == s.links && t.ready == s.ready && t.pacing == s.pacing
            && (t.current == s.current || (t.current.None? && t.ready == []))
  {
    var t := Settle(s);
    if s.ready == [] && t.current.None? {
      assert CommandsOf(t.completed) == CommandsOf(s.completed) + Running(s.current);
    }
  }

  lemma StoppedFrame(s: State, p: PeerId, o: Outcome)
    requires Frame(s) && !s.halted && p in s.links && s.links[p].reporting
    ensures var t := Stopped(s, p, o);
            && Frame(t) && p !in t.ready && t.links == s.links[p := s.links[p].(reporting := false)]
            && t.pacing == s.pacing && (t.current == s.current || (t.current.None? && t.ready == []))
  {
    NotedMidway(s, p, o);
    SettleFrame(Noted(s, p, o));
  }

  lemma LeftFrame(s: State, p: PeerId)
    requires Frame(s) && p in s.links && !s.links[p].reporting
    ensures Frame(s.(peers := Without(s.peers, p), links := s.links - {p}))
  {
    WithoutMembers(s.peers, p);
  }

  lemma SettledPeers(s: State)
    ensures Settle(s).peers == s.peers
  {
  }

  lemma ErasedAfter(s: State, p: PeerId)
    requires p in s.links && s.links[p].reporting
    ensures var t := Stopped(s, p, None);
            Erase(s, p) == t.(peers := Without(t.peers, p), links := t.links - {p})
  {
    SettledPeers(Noted(s, p, None));
  }

  lemma EraseFrame(s: State, p: PeerId)
    requires Frame(s) && !s.halted && p in s.links
    ensures Frame(Erase(s, p))
  {
    if s.links[p].reporting {
      StoppedFrame(s, p, None);
      LeftFrame(Stopped(s, p, None), p);
      ErasedAfter(s, p);
    } else {
      LeftFrame(s, p);
    }
  }

  lemma CompleteFrame(s: State, p: PeerId, stat: NetStat)
    requires Frame(s) && !s.halted && p in s.links && s.links[p].reporting
    ensures Frame(Complete(s, p, stat))
  {
    StoppedFrame(s, p, Some(stat));
  }

  // ------------------------------------------------------ a report, at the peers

  /** All peers but `p`, which is about to leave or is done. */
  ghost predicate AttachedBut(s: State, p: PeerId) {
    forall q :: q in s.links && q != p ==> Attached(s.current, s.pacing.count, s.links[q])
  }

  lemma StoppedAttached(s: State, p: PeerId, o: Outcome)
    requires Frame(s) && !s.halted && p in s.links && s.links[p].reporting && AttachedBut(s, p)
    ensures AttachedBut(Stopped(s, p, o), p)
  {
    StoppedFrame(s, p, o);
  }

  lemma EraseAttached(s: State, p: PeerId)
    requires Frame(s) && !s.halted && p in s.links && AttachedBut(s, p)
    ensures AllAttached(Erase(s, p))
  {
    if s.links[p].reporting { StoppedAttached(s, p, None); }
  }

  lemma CompleteAttached(s: State, p: PeerId, stat: NetStat)
    requires Frame(s) && !s.halted && p in s.links && s.links[p].reporting && AttachedBut(s, p) && FreshResults(s.links[p])
    ensures AllAttached(Complete(s, p, stat))
  {
    StoppedAttached(s, p, Some(stat));
    StoppedFrame(s, p, Some(stat));
  }

  // ------------------------------------------------------------ how it settles

  lemma AppendOutcome(os: seq<Outcome>, o: Outcome)
    ensures Collect(os + [o]) == Report(Collect(os), o)
    ensures Successes(os + [o]) == Successes(os) + if o.Some? then 1 else 0
    ensures SentBytes(os + [o]) == SentBytes(os) + if o.Some? then o.value.sendBytes else 0
  {
    assert (os + [o])[..|os|] == os;
  }

  lemma PaidCounted(c: Command, os: seq<Outcome>)
    requires AllPaid(c, os)
    ensures AllCounted(os)
    ensures c.count >= 1 ==> forall i :: 0 <= i < |os| && os[i].Some? ==> os[i].value.sendBytes > 0
    ensures c.count < 1 && c.kind.Unicast? ==> forall i :: 0 <= i < |os| && os[i].Some? ==> os[i].value.sendBytes == 0
  {
    MulMonotone(Wanted(c), 1, BufferSize(c));
    forall i | 0 <= i < |os| && os[i].Some? ensures 0 <= os[i].value.sendBytes { assert Paid(c, os[i]); }
  }

  lemma OwnFinal(c: Command, os: seq<Outcome>)
    requires !c.kind.Multicast? && AllPaid(c, os)
    ensures FinalOf(os, false).Undefined? <==> HaltedBy(c, os)
  {
    PaidCounted(c, os);
    UndefinedExactly(os, false);
    CountsOfCollect(os);
    ActiveBySentBytes(os);
    ActiveExactly(os);
    if Successes(os) > 0 { SomeSuccess(os); }
  }

  lemma {:induction false} SomeSuccess(os: seq<Outcome>)
    requires Successes(os) > 0
    ensures exists i :: 0 <= i < |os| && os[i].Some?
  {
    if os[|os| - 1].None? {
      SomeSuccess(os[..|os| - 1]);
      var i :| 0 <= i < |os| - 1 && os[..|os| - 1][i].Some?;
      assert os[i].Some?;
    }
  }

  lemma SharedFinal(s: State, c: Command)
    requires c.kind.Multicast? && Pool(s, c) && Excused(s) && s.ready == []
    ensures FinalOf(s.outcomes, true).Undefined? <==> HaltedBy(c, s.outcomes)
    ensures SharedSound(c, s.outcomes, s.sentByLost + s.pacing.failed)
  {
    var os := s.outcomes;
    CountsOfCollect(os);
    ActiveBySentBytes(os);
    MulMonotone(Wanted(c), 1, BufferSize(c));
  }

  /** What the last report of a command leads to. */
  lemma SettledCompletion(s: State)
    requires s.running && s.current.Some? && s.ready == []
    requires s.totals == Collect(s.outcomes) && s.peersCount == |s.outcomes| && Traffic(s)
    ensures var c := s.current.value;
            var final := Finish(s.totals, s.peersCount, c.kind.Multicast?);
            && (final.Undefined? <==> HaltedBy(c, s.outcomes))
            && (!final.Undefined? ==> CompletionSound(Completion(c, final, s.outcomes, s.sentByLost + s.pacing.failed)))
  {
    var c := s.current.value;
    CountsOfCollect(s.outcomes);
    if c.kind.Multicast? { SharedFinal(s, c); } else { OwnFinal(c, s.outcomes); }
  }

  lemma SettleTraffic(s: State)
    requires Midway(s) && Traffic(s) && Finals(s)
    ensures var t := Settle(s);
            Traffic(t) && Finals(t) && Halting(t)
  {
    if s.ready == [] { SettledCompletion(s); }
  }

  // ------------------------------------------------------ a report, in the traffic

  /** What a peer reports when it is done with its share of a multicast command. */
  predicate SharedReport(c: Command, count: nat, l: Link, o: Outcome) {
    o.Some? ==> count >= c.count && o.value.sendBytes == SentBy(l) * BufferSize(c)
  }

  lemma NotedConserved(s: State, p: PeerId, o: Outcome)
    requires Shape(s) && Conserved(s) && p in s.ready
    ensures Conserved(Noted(s, p, o))
  {
    var t := Noted(s, p, o);
    WithoutMembers(s.ready, p);
    SumSentWithout(s.ready, s.links, p);
    SumSentAgrees(t.ready, s.links, t.links);
  }

  lemma NotedTally(s: State, c: Command, p: PeerId, o: Outcome)
    requires Tally(s, c) && p in s.links && SharedReport(c, s.pacing.count, s.links[p], o)
    ensures Tally(Noted(s, p, o), c)
  {
    AppendOutcome(s.outcomes, o);
    NotedBytes(s.sentBySuccess, SentBy(s.links[p]), BufferSize(c));
  }

  lemma NotedBytes(a: nat, b: nat, n: nat)
    ensures (a + b) * n == a * n + b * n
    ensures 0 <= b * n
  {
  }

  lemma NotedExcused(s: State, p: PeerId, o: Outcome)
    requires p in s.links && (Excused(s) || o.None?)
    ensures Excused(Noted(s, p, o))
  {
    AppendOutcome(s.outcomes, o);
    CountsOfCollect(s.outcomes);
  }

  /** The report `o` of peer `p` fits the running command. */
  ghost predicate Fits(s: State, p: PeerId, o: Outcome)
    requires p in s.links
  {
    s.current.Some? ==>
      var c := s.current.value;
      if c.kind.Multicast? then Pool(s, c) && SharedReport(c, s.pacing.count, s.links[p], o) && (Excused(s) || o.None?)
      else s.pacing == RESTARTED && AllPaid(c, s.outcomes) && Paid(c, o)
  }

  lemma NotedTraffic(s: State, p: PeerId, o: Outcome)
    requires Shape(s) && p in s.ready && Fits(s, p, o)
    ensures Traffic(Noted(s, p, o))
  {
    if s.current.Some? && s.current.value.kind.Multicast? {
      NotedConserved(s, p, o);
      NotedTally(s, s.current.value, p, o);
      NotedExcused(s, p, o);
    }
  }

  lemma StoppedTraffic(s: State, p: PeerId, o: Outcome)
    requires Frame(s) && !s.halted && p in s.links && s.links[p].reporting && Fits(s, p, o) && Finals(s)
    ensures var t := Stopped(s, p, o);
            Traffic(t) && Finals(t) && Halting(t)
  {
    NotedMidway(s, p, o);
    NotedTraffic(s, p, o);
    SettleTraffic(Noted(s, p, o));
  }

  /** Only the links of the peers that take part matter. */
  lemma TrafficFrame(s: State, peers: seq<PeerId>, links: map<PeerId, Link>)
    requires Traffic(s) && forall q :: q in s.ready ==> q in s.links && q in links && SentBy(links[q]) == SentBy(s.links[q])
    ensures Traffic(s.(peers := peers, links := links))
  {
    SumSentAgrees(s.ready, s.links, links);
  }

  lemma EraseSteady(s: State, p: PeerId)
    requires Frame(s) && !s.halted && p in s.links && AttachedBut(s, p) && Finals(s)
    requires if s.links[p].reporting then Fits(s, p, None) else Traffic(s)
    ensures Steady(Erase(s, p))
  {
    EraseFrame(s, p);
    EraseAttached(s, p);
    if s.links[p].reporting {
      StoppedTraffic(s, p, None);
      StoppedFrame(s, p, None);
      var t := Stopped(s, p, None);
      TrafficFrame(t, Without(t.peers, p), t.links - {p});
    } else {
      TrafficFrame(s, Without(s.peers, p), s.links - {p});
    }
  }

  lemma CompleteSteady(s: State, p: PeerId, stat: NetStat)
    requires Frame(s) && !s.halted && p in s.links && s.links[p].reporting && AttachedBut(s, p) && FreshResults(s.links[p])
    requires Fits(s, p, Some(stat)) && Finals(s)
    ensures Steady(Complete(s, p, stat))
  {
    CompleteFrame(s, p, stat);
    CompleteAttached(s, p, stat);
    StoppedTraffic(s, p, Some(stat));
    StoppedFrame(s, p, Some(stat));
    var t := Stopped(s, p, Some(stat));
    TrafficFrame(t, t.peers, t.links[p := t.links[p].(sender := None)]);
  }

  /** The shared socket and one link move on together. */
  lemma PoolUpdate(s: State, c: Command, p: PeerId, l: Link, pacing: Pacing)
    requires Shape(s) && Pool(s, c) && p in s.ready
    requires PacingSound(pacing, c) && pacing.count >= s.pacing.count
    requires pacing.count - s.pacing.count == pacing.failed - s.pacing.failed + SentBy(l) - SentBy(s.links[p])
    ensures Pool(s.(pacing := pacing, links := s.links[p := l]), c)
  {
    SumSentUpdate(s.ready, s.links, p, l);
  }
}
