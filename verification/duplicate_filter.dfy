/** Whole runs of the duplicate filter: what its three counters mean, for which
    arrivals they are right, and what goes wrong for the others. */
module DuplicateFilter {
  import opened SequenceWindow

  datatype Filter = Filter(window: Window, recv: nat, duplicate: nat, reorder: nat)

  const NO_ARRIVALS: Filter := Filter(EmptyWindow(), 0, 0, 0)

  /** One validated datagram with sequence number `s`. */
  function Arrive(f: Filter, s: SeqNo): Filter {
    if f.window.bits[s] then Filter(f.window, f.recv, f.duplicate + 1, f.reorder)
    else Filter(Accept(f.window, s), f.recv + 1, f.duplicate,
                if s != f.window.expected then f.reorder + 1 else f.reorder)
  }

  /** The filter after the packets numbered `ts`, each travelling under 16 bits. */
  function Run(ts: seq<int>): Filter {
    if ts == [] then NO_ARRIVALS else Arrive(Run(ts[..|ts| - 1]), Wrap(ts[|ts| - 1]))
  }

  function Numbers(ts: seq<int>): set<int> { set t | t in ts }

  lemma RunGrows(ts: seq<int>, t: int)
    ensures Run(ts + [t]) == Arrive(Run(ts), Wrap(t))
    ensures Numbers(ts + [t]) == Numbers(ts) + {t}
  {
    assert (ts + [t])[..|ts|] == ts;
  }

  function Accepts(ts: seq<int>, t: int): bool { !Run(ts).window.bits[Wrap(t)] }

  // ------------------------------------------------------- any arrivals at all

  /** The last sequence number accepted, or -1. */
  function LastAccepted(ts: seq<int>): int {
    if ts == [] then -1
    else
      var front, t := ts[..|ts| - 1], ts[|ts| - 1];
      if Accepts(front, t) then Wrap(t) else LastAccepted(front)
  }

  lemma OwnNumber(s: SeqNo)
    ensures Wrap(s) == s
  {
  }

  /** For any arrivals whatever, the expected number is the first clear cell
      after the last accepted one, at most half a turn on, so the packet the
      receiver waits for is accepted when it comes. */
  lemma {:induction false} ExpectedIsNeverDuplicate(ts: seq<int>)
    ensures Accepts(ts, Run(ts).window.expected)
    ensures ExpectsFirstClear(Run(ts).window, LastAccepted(ts))
  {
    if ts != [] {
      var front, t := ts[..|ts| - 1], ts[|ts| - 1];
      ExpectedIsNeverDuplicate(front);
      if Accepts(front, t) { ExpectedIsFirstClear(Run(front).window, Wrap(t)); }
      OwnNumber(Run(ts).window.expected);
    }
  }

  /** Every validated datagram is counted exactly once. */
  lemma {:induction false} EveryArrivalCounted(ts: seq<int>)
    ensures Run(ts).recv + Run(ts).duplicate == |ts| && Run(ts).reorder <= Run(ts).recv
  {
    if ts != [] { EveryArrivalCounted(ts[..|ts| - 1]); }
  }

  // ------------------------------------------------------- admissible arrivals

  ghost predicate AdmissibleNext(h: History, t: int) {
    InReach(h, t) && (t in h.seen || Tracked(h, t))
  }

  /** Every packet is in reach when it arrives, and is a duplicate or tracked. */
  ghost predicate Admissible(ts: seq<int>)
    decreases |ts|, 0
  {
    ts == [] || (Admissible(ts[..|ts| - 1]) && AdmissibleNext(HistoryOf(ts[..|ts| - 1]), ts[|ts| - 1]))
  }

  ghost function HistoryOf(ts: seq<int>): (h: History)
    requires Admissible(ts)
    ensures Consistent(h) && h.seen == Numbers(ts)
    decreases |ts|, 1
  {
    if ts == [] then NO_HISTORY
    else
      var h, t := HistoryOf(ts[..|ts| - 1]), ts[|ts| - 1];
      assert ts == ts[..|ts| - 1] + [t];
      if t in h.seen then h else Record(h, t)
  }

  /** The packets that arrived for the first time while another was expected. */
  ghost function Reorders(ts: seq<int>): nat
    requires Admissible(ts)
  {
    if ts == [] then 0
    else
      var h, t := HistoryOf(ts[..|ts| - 1]), ts[|ts| - 1];
      Reorders(ts[..|ts| - 1]) + if t !in h.seen && t != h.next then 1 else 0
  }

  lemma ExpectedNumber(h: History, t: int)
    requires Consistent(h) && InReach(h, t) && t !in h.seen && Tracked(h, t)
    ensures Wrap(t) == Wrap(h.next) <==> t == h.next
  {
    TrackedReach(h, t);
    if Wrap(t) == Wrap(h.next) { WrapInjective(t, h.next); }
  }

  lemma NumbersGrow(ts: seq<int>)
    requires ts != []
    ensures Numbers(ts) == Numbers(ts[..|ts| - 1]) + {ts[|ts| - 1]}
  {
    assert ts == ts[..|ts| - 1] + [ts[|ts| - 1]];
  }

  /** The ring of 2^16 bits refines the unbounded set: over every admissible run
      it accepts each packet number once, and the counters mean what they say. */
  lemma {:induction false} FilterCounts(ts: seq<int>)
    requires Admissible(ts)
    ensures Agrees(Run(ts).window, HistoryOf(ts))
    ensures Run(ts).recv == |Numbers(ts)|
    ensures Run(ts).duplicate == |ts| - |Numbers(ts)|
    ensures Run(ts).reorder == Reorders(ts)
  {
    if ts != [] {
      var front, t := ts[..|ts| - 1], ts[|ts| - 1];
      FilterCounts(front);
      NumbersGrow(ts);
      FilterIsExact(Run(front).window, HistoryOf(front), t);
      if t !in Numbers(front) { ExpectedNumber(HistoryOf(front), t); }
    }
  }

  /** After an admissible run, a packet in reach is rejected if and only if it
      has arrived before. */
  lemma RejectsExactlyDuplicates(ts: seq<int>, t: int)
    requires Admissible(ts) && InReach(HistoryOf(ts), t)
    ensures Accepts(ts, t) <==> t !in ts
  {
    FilterCounts(ts);
    FilterIsExact(Run(ts).window, HistoryOf(ts), t);
  }

  /** One packet that is neither a duplicate nor tracked spoils the count: when
      the packet it makes the ring misjudge comes next, the number of packets
      received is no longer the number of distinct packets. */
  lemma UntrackedMiscounts(ts: seq<int>, t: int)
    requires Admissible(ts) && InReach(HistoryOf(ts), t)
    requires t !in ts && !Tracked(HistoryOf(ts), t)
    ensures var us := ts + [t, Misjudged(HistoryOf(ts), t)];
            Run(us).recv != |Numbers(us)|
  {
    var m := Misjudged(HistoryOf(ts), t);
    assert ts + [t, m] == ts + [t] + [m];
    UntrackedAccepted(ts, t);
    RunGrows(ts + [t], m);
  }

  /** The untracked packet itself is counted; the next one is judged wrongly. */
  lemma UntrackedAccepted(ts: seq<int>, t: int)
    requires Admissible(ts) && InReach(HistoryOf(ts), t)
    requires t !in ts && !Tracked(HistoryOf(ts), t)
    ensures var m := Misjudged(HistoryOf(ts), t);
            && Run(ts + [t]).recv == |Numbers(ts + [t])|
            && (Accepts(ts + [t], m) <==> m in Numbers(ts + [t]))
  {
    FilterCounts(ts);
    RejectsExactlyDuplicates(ts, t);
    RunGrows(ts, t);
    UntrackedReach(HistoryOf(ts), t);
    UntrackedMisjudges(Run(ts).window, HistoryOf(ts), t);
  }

  // ------------------------------------------------------------- instances

  function UpTo(n: nat): seq<int> { seq(n, i => i) }

  lemma {:induction false} InOrderHistory(n: nat)
    ensures Admissible(UpTo(n)) && HistoryOf(UpTo(n)).next == n && HistoryOf(UpTo(n)).hi == n - 1
    ensures Reorders(UpTo(n)) == 0 && |Numbers(UpTo(n))| == n
  {
    if n > 0 {
      InOrderHistory(n - 1);
      var ts, front := UpTo(n), UpTo(n - 1);
      assert ts[..n - 1] == front && n - 1 !in front;
      assert AdmissibleNext(HistoryOf(front), n - 1);
      NumbersGrow(ts);
    }
  }

  /** Any number of packets in order, however often the sequence wraps. */
  lemma InOrderIsPerfect(n: nat)
    ensures Run(UpTo(n)).recv == n && Run(UpTo(n)).duplicate == 0 && Run(UpTo(n)).reorder == 0
  {
    InOrderHistory(n);
    FilterCounts(UpTo(n));
  }

  /** No more distinct packets can arrive than were sent. */
  lemma NumbersBelow(ts: seq<int>, n: nat)
    requires forall i :: 0 <= i < |ts| ==> 0 <= ts[i] < n
    ensures |Numbers(ts)| <= n
  {
    var sent := Numbers(UpTo(n));
    forall i | 0 <= i < |ts| ensures ts[i] in sent {
      assert UpTo(n)[ts[i]] == ts[i];
    }
    var rest := sent - Numbers(ts);
    assert Numbers(ts) + rest == sent && Numbers(ts) * rest == {};
    InOrderHistory(n);
  }

  lemma JumpsForward(ts: seq<int>, t: int)
    requires Admissible(ts) && HistoryOf(ts).hi == HistoryOf(ts).next - 1
    requires HistoryOf(ts).next < t < HistoryOf(ts).next + HALF - 1
    ensures Admissible(ts + [t])
    ensures HistoryOf(ts + [t]).hi == t && HistoryOf(ts + [t]).next == t + 1
  {
    assert (ts + [t])[..|ts|] == ts;
  }

  function Losses(): seq<int> { [0] + [30000] + [60000] + [70000] }

  lemma LossesAdmissible()
    ensures Admissible(Losses()) && HistoryOf(Losses()).hi == 70000 && HistoryOf(Losses()).next == 70001
  {
    assert [0][..0] == [] && HistoryOf([0]) == History({0}, 0, 1);
    JumpsForward([0], 30000);
    JumpsForward([0] + [30000], 60000);
    JumpsForward([0] + [30000] + [60000], 70000);
  }

  /** Losses that the ring can follow, then one late packet from before the
      2^16 boundary: packet 70000 is accepted a second time. */
  lemma LatePacketAcrossTheBoundary()
    ensures Admissible(Losses()) && Accepts(Losses(), 65000)
    ensures Accepts(Losses() + [65000], 70000)
  {
    LossesAdmissible();
    assert 65000 !in Losses();
    RejectsExactlyDuplicates(Losses(), 65000);
    FilterCounts(Losses());
    UntrackedMisjudges(Run(Losses()).window, HistoryOf(Losses()), 65000);
    RunGrows(Losses(), 65000);
    UntrackedReach(HistoryOf(Losses()), 65000);
  }
}
