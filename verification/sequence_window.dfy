/** The duplicate filter of the send receiver: a ring of 2^16 bits and a 16-bit
    expected sequence number, and its relation to the unbounded set of packet
    numbers it stands for. */
module SequenceWindow {
  import opened Arithmetic

  // MAX_SEQ is the unsigned constant 1UL<<16.
  const MAX_SEQ: int := 0x1_0000
  const HALF: int := 0x8000
  const WORD: int := 0x1_0000_0000_0000_0000

  type SeqNo = x: int | 0 <= x < 0x1_0000
  type Bits = b: seq<bool> | |b| == 0x1_0000 witness seq(0x1_0000, i => false)

  /** The 16-bit number under which packet number `n` travels. */
  function Wrap(n: int): SeqNo { n % MAX_SEQ }

  lemma WrapPeriod(n: int, k: int)
    ensures Wrap(n + k * MAX_SEQ) == Wrap(n)
  {
  }

  lemma WrapSum(a: int, b: int)
    ensures Wrap(Wrap(a) + b) == Wrap(a + b)
  {
    WrapPeriod(Wrap(a) + b, a / MAX_SEQ);
  }

  lemma WrapDifference(a: int, b: int)
    ensures Wrap(a - Wrap(b)) == Wrap(a - b)
    ensures Wrap(Wrap(a) - b) == Wrap(a - b)
  {
    WrapPeriod(a - b, b / MAX_SEQ);
    WrapPeriod(Wrap(a) - b, a / MAX_SEQ);
  }

  lemma WrapSolve(i: SeqNo, b: int, k: SeqNo)
    ensures Wrap(i - b) == k <==> i == Wrap(k + b)
  {
    WrapSum(i - b, b);
    WrapDifference(k + b, b);
  }

  /** Two numbers less than a full turn apart have different cells. */
  lemma WrapInjective(a: int, b: int)
    requires Wrap(a) == Wrap(b) && -MAX_SEQ < a - b < MAX_SEQ
    ensures a == b
  {
  }

  // ---------------------------------------------------------------- the ring

  datatype Window = Window(bits: Bits, expected: SeqNo)

  function ClearBits(): Bits { seq(0x1_0000, i => false) }

  function EmptyWindow(): Window { Window(ClearBits(), 0) }

  /** A signed value converted to unsigned long. */
  function AsUnsigned(x: int): int
    requires -WORD < x < WORD
  {
    if x < 0 then x + WORD else x
  }

  /** The test that guards the clearing loop, in the arithmetic the compiler
      uses: both comparisons are made in unsigned long, because MAX_SEQ is. */
  predicate ClearsAhead(jump: int)
    requires -MAX_SEQ < jump < MAX_SEQ
  {
    (jump > 0 && AsUnsigned(jump) < HALF) || AsUnsigned(jump) < WORD - HALF
  }

  /** As compiled, every jump that is not negative passes the test. */
  lemma ClearsAheadMeaning(jump: int)
    requires -MAX_SEQ < jump < MAX_SEQ
    ensures ClearsAhead(jump) <==> jump >= 0 || jump < -HALF
  {
  }

  /** `bits` with the `n` cells from `from` on, going round the ring, cleared. */
  function ClearRange(bits: Bits, from: int, n: nat): Bits {
    seq(0x1_0000, i requires 0 <= i < 0x1_0000 => bits[i] && Wrap(i - from) >= n)
  }

  lemma ClearRangeAt(bits: Bits, from: int, n: nat, m: int)
    requires from <= m < from + MAX_SEQ
    ensures ClearRange(bits, Wrap(from), n)[Wrap(m)] <==> bits[Wrap(m)] && m >= from + n
  {
    WrapDifference(m, from);
    WrapDifference(m, Wrap(from));
    assert Wrap(m - from) == m - from;
  }

  /** The first number from `i` on whose cell is clear. */
  function NextClear(bits: Bits, i: int, stop: int): (r: int)
    requires i <= stop && !bits[Wrap(stop)]
    ensures i <= r <= stop && !bits[Wrap(r)]
    ensures forall n :: i <= n < r ==> bits[Wrap(n)]
    decreases stop - i
  {
    if bits[Wrap(i)] then NextClear(bits, i + 1, stop) else i
  }

  /** The bits after a packet whose cell was clear has been recorded. */
  function Mark(w: Window, s: SeqNo): Bits {
    var ahead := if ClearsAhead(s - w.expected) then Wrap(s - w.expected) else 0;
    ClearRange(w.bits, Wrap(w.expected + HALF), ahead)[s := true][Wrap(s + HALF) := false]
  }

  function Accept(w: Window, s: SeqNo): Window {
    Window(Mark(w, s), Wrap(NextClear(Mark(w, s), s + 1, s + HALF)))
  }

  /** The expected number is the first clear cell after `last`, at most half a
      turn further on. */
  ghost predicate ExpectsFirstClear(w: Window, last: int) {
    && !w.bits[w.expected]
    && Wrap(w.expected - (last + 1)) < HALF
    && forall n :: last < n <= last + Wrap(w.expected - (last + 1)) ==> w.bits[Wrap(n)]
  }

  /** Whatever has arrived before, a fresh number leaves behind an expected
      number that is the first clear cell after it. */
  lemma ExpectedIsFirstClear(w: Window, s: SeqNo)
    ensures ExpectsFirstClear(Accept(w, s), s)
  {
    var bits := Mark(w, s);
    ExpectsFrom(bits, NextClear(bits, s + 1, s + HALF), s);
  }

  lemma ExpectsFrom(bits: Bits, r: int, s: int)
    requires s < r <= s + HALF && !bits[Wrap(r)]
    requires forall n :: s + 1 <= n < r ==> bits[Wrap(n)]
    ensures ExpectsFirstClear(Window(bits, Wrap(r)), s)
  {
    Gap(r, s);
  }

  lemma Gap(r: int, s: int)
    requires s < r <= s + HALF
    ensures Wrap(Wrap(r) - (s + 1)) == r - (s + 1)
  {
    WrapDifference(r, s + 1);
  }

  // ------------------------------------------------- the unbounded reference

  /** What the ring stands for: the numbers accepted, the largest of them, and
      the least number after the last accepted one that has not arrived. */
  datatype History = History(seen: set<int>, hi: int, next: int)

  const NO_HISTORY: History := History({}, -1, 0)

  ghost predicate Consistent(h: History) {
    && h.next !in h.seen
    && (forall n :: n in h.seen ==> 0 <= n <= h.hi)
    && if h.seen == {} then h == NO_HISTORY
       else h.hi in h.seen && h.next - 1 in h.seen && h.hi - HALF < h.next - 1
  }

  function LeastMissing(seen: set<int>, n: int, hi: int): (r: int)
    requires n <= hi + 1 && forall m :: m in seen ==> m <= hi
    ensures n <= r <= hi + 1 && r !in seen
    ensures forall m :: n <= m < r ==> m in seen
    decreases hi + 1 - n
  {
    if n in seen then LeastMissing(seen, n + 1, hi) else n
  }

  ghost function Record(h: History, t: int): (h': History)
    requires Consistent(h) && h.hi - HALF < t && 0 <= t
    ensures Consistent(h')
  {
    var seen, hi := h.seen + {t}, Max(h.hi, t);
    History(seen, hi, LeastMissing(seen, t + 1, hi))
  }

  /** Within half a turn of the newest packet, the ring tells what has arrived. */
  ghost predicate Judges(bits: Bits, h: History) {
    forall n :: h.hi - HALF < n <= h.hi + HALF ==> (bits[Wrap(n)] <==> n in h.seen)
  }

  ghost predicate Agrees(w: Window, h: History) {
    Judges(w.bits, h) && w.expected == Wrap(h.next)
  }

  /** Packet `t` is not half a turn late, and the cell it shares speaks of it: it is
      at most half a turn early, or less than a turn ahead of the expected packet
      and the packet a turn before it has not arrived. */
  predicate InReach(h: History, t: int) {
    0 <= t && h.hi - HALF < t && (t <= h.hi + HALF || (t < h.next + MAX_SEQ && t - MAX_SEQ !in h.seen))
  }

  /** A packet that comes more than half a turn early, but less than a turn ahead of
      the expected one, is fresh; the ring takes it for that exactly when the
      packet a turn before it has not arrived. */
  lemma EarlyIsJudged(w: Window, h: History, t: int)
    requires Consistent(h) && Agrees(w, h) && h.hi + HALF < t < h.next + MAX_SEQ
    ensures t !in h.seen
    ensures w.bits[Wrap(t)] <==> t - MAX_SEQ in h.seen
    ensures 0 <= t ==> (InReach(h, t) <==> !w.bits[Wrap(t)])
  {
    WrapPeriod(t - MAX_SEQ, 1);
    assert Wrap(t - MAX_SEQ) == Wrap(t);
  }

  /** The guard the filter relies on, in terms of the true numbers: `t` lies in
      the same 2^16 block as the expected packet, or less than half a turn
      after it. */
  predicate Tracked(h: History, t: int) {
    t / MAX_SEQ == h.next / MAX_SEQ || h.next <= t < h.next + HALF
  }

  /** How many cells the clearing loop of an arriving packet `t` clears. */
  function Ahead(base: int, t: int): int {
    if ClearsAhead(Wrap(t) - Wrap(base)) then Wrap(t - base) else 0
  }

  lemma TrackedJump(h: History, t: int)
    requires Consistent(h) && InReach(h, t) && t !in h.seen && Tracked(h, t)
    ensures Ahead(h.next, t) == if t >= h.next then t - h.next else 0
  {
    WrapDifference(t, h.next);
    WrapDifference(t, Wrap(h.next));
  }

  /** Whether two numbers share a cell, when they are less than two turns apart. */
  lemma SameCell(a: int, b: int)
    requires -2 * MAX_SEQ < a - b < 2 * MAX_SEQ
    ensures Wrap(a) == Wrap(b) <==> a == b || a == b + MAX_SEQ || a == b - MAX_SEQ
  {
  }

  /** One cell of the marked ring, `base` being any number the expected one
      stands for and `m` a number in the turn that starts half a turn later. */
  lemma MarkAt(w: Window, base: int, t: int, m: int)
    requires w.expected == Wrap(base) && base + HALF <= m < base + HALF + MAX_SEQ
    ensures Mark(w, Wrap(t))[Wrap(m)] <==>
              if Wrap(m) == Wrap(t + HALF) then false
              else if Wrap(m) == Wrap(t) then true
              else w.bits[Wrap(m)] && m >= base + HALF + Ahead(base, t)
  {
    var s := Wrap(t);
    WrapSum(t, HALF);
    WrapSum(base, HALF);
    WrapDifference(t, base);
    WrapDifference(s, base);
    ClearRangeAt(w.bits, base + HALF, Ahead(base, t), m);
  }

  /** The same cell, with the comparisons made on the numbers themselves. */
  lemma MarkAtNumber(w: Window, base: int, t: int, m: int)
    requires w.expected == Wrap(base) && base + HALF <= m < base + HALF + MAX_SEQ
    requires base - HALF <= t < base + MAX_SEQ
    ensures Mark(w, Wrap(t))[Wrap(m)] <==>
              if m == t + HALF || m == t + HALF + MAX_SEQ || m == t + HALF - MAX_SEQ then false
              else if m == t || m == t + MAX_SEQ then true
              else w.bits[Wrap(m)] && m >= base + HALF + Ahead(base, t)
  {
    MarkAt(w, base, t, m);
    SameCell(m, t);
    SameCell(m, t + HALF);
  }

  /** The arithmetic of one cell: `before` and `after` are its values around
      the recording of a tracked packet. */
  lemma JudgedCell(h: History, t: int, n: int, before: bool, after: bool)
    requires Consistent(h) && InReach(h, t) && t !in h.seen && (t < h.next || t < h.next + MAX_SEQ)
    requires Max(h.hi, t) - HALF < n <= Max(h.hi, t) + HALF
    requires t < h.next ==> Max(h.hi, t) == h.hi
    requires h.hi - HALF < n <= h.hi + HALF ==> (before <==> n in h.seen)
    requires var m := if n >= h.next + HALF then n else n + MAX_SEQ;
             after <==>
               if m == t + HALF || m == t + HALF + MAX_SEQ || m == t + HALF - MAX_SEQ then false
               else if m == t || m == t + MAX_SEQ then true
               else before && m >= h.next + HALF + if t >= h.next then t - h.next else 0
    ensures after <==> n == t || n in h.seen
  {
  }

  /** A tracked packet is recorded in the ring exactly as in the history. */
  lemma MarkJudges(w: Window, h: History, t: int, n: int)
    requires Consistent(h) && Agrees(w, h) && InReach(h, t) && t !in h.seen && Tracked(h, t)
    requires Max(h.hi, t) - HALF < n <= Max(h.hi, t) + HALF
    ensures Mark(w, Wrap(t))[Wrap(n)] <==> n == t || n in h.seen
  {
    var m := if n >= h.next + HALF then n else n + MAX_SEQ;
    assert Wrap(m) == Wrap(n) by { WrapPeriod(n, 1); }
    TrackedJump(h, t);
    MarkAtNumber(w, h.next, t, m);
    TrackedReach(h, t);
    JudgedCell(h, t, n, w.bits[Wrap(n)], Mark(w, Wrap(t))[Wrap(n)]);
  }

  lemma TrackedReach(h: History, t: int)
    requires Consistent(h) && InReach(h, t) && Tracked(h, t)
    ensures h.next - HALF <= t < h.next + MAX_SEQ
    ensures t < h.next ==> Max(h.hi, t) == h.hi
  {
  }

  lemma AcceptAgrees(w: Window, h: History, t: int)
    requires Consistent(h) && Agrees(w, h) && InReach(h, t) && t !in h.seen && Tracked(h, t)
    ensures Agrees(Accept(w, Wrap(t)), Record(h, t))
  {
    MarkAgrees(w, h, t);
    FirstMissingIsNextClear(Mark(w, Wrap(t)), Record(h, t), t);
  }

  lemma MarkAgrees(w: Window, h: History, t: int)
    requires Consistent(h) && Agrees(w, h) && InReach(h, t) && t !in h.seen && Tracked(h, t)
    ensures Judges(Mark(w, Wrap(t)), Record(h, t))
  {
    var h', bits := Record(h, t), Mark(w, Wrap(t));
    forall n | h'.hi - HALF < n <= h'.hi + HALF
      ensures bits[Wrap(n)] <==> n in h'.seen
    {
      MarkJudges(w, h, t, n);
    }
  }

  /** The first clear cell after packet `t` is that of the first missing number. */
  lemma FirstMissingIsNextClear(bits: Bits, h: History, t: int)
    requires Consistent(h) && Judges(bits, h) && h.hi - HALF < t <= h.hi && t < h.next
    requires forall n :: t < n < h.next ==> n in h.seen
    requires !bits[Wrap(Wrap(t) + HALF)]
    ensures Wrap(NextClear(bits, Wrap(t) + 1, Wrap(t) + HALF)) == Wrap(h.next)
  {
    var turns := t / MAX_SEQ;
    var r := NextClear(bits, Wrap(t) + 1, Wrap(t) + HALF);
    WrapPeriod(r, turns);
    WrapPeriod(h.next - turns * MAX_SEQ, turns);
    assert Wrap(r + turns * MAX_SEQ) == Wrap(r);
    assert Wrap(h.next - turns * MAX_SEQ) == Wrap(h.next);
  }

  /** The packet that the ring misjudges once an untracked one is recorded:
      the newest packet, or one a full turn after the newest in sequence. */
  function Misjudged(h: History, t: int): int {
    if t < h.next then h.hi else h.next - 1 + MAX_SEQ
  }

  lemma UntrackedReach(h: History, t: int)
    requires Consistent(h) && InReach(h, t) && t !in h.seen && !Tracked(h, t)
    ensures h.next - HALF <= t < h.next - 1 + MAX_SEQ
    ensures t < h.next ==> h.hi in h.seen && h.hi < t + HALF && h.hi != t
    ensures t >= h.next ==> h.next - 1 in h.seen && h.next - 1 + HALF < t && h.hi < t
    ensures InReach(Record(h, t), Misjudged(h, t))
    ensures Misjudged(h, t) in Record(h, t).seen <==> t < h.next
  {
    UntrackedJump(h, t);
  }

  lemma LateMisjudges(w: Window, h: History, t: int)
    requires Consistent(h) && Agrees(w, h) && InReach(h, t) && t !in h.seen && !Tracked(h, t) && t < h.next
    ensures !Mark(w, Wrap(t))[Wrap(h.hi)]
  {
    UntrackedReach(h, t);
    UntrackedJump(h, t);
    WrapPeriod(h.hi, 1);
    MarkAtNumber(w, h.next, t, h.hi + MAX_SEQ);
  }

  lemma EarlyMisjudges(w: Window, h: History, t: int)
    requires Consistent(h) && Agrees(w, h) && InReach(h, t) && t !in h.seen && !Tracked(h, t) && t >= h.next
    ensures Mark(w, Wrap(t))[Wrap(h.next - 1 + MAX_SEQ)]
  {
    UntrackedReach(h, t);
    UntrackedJump(h, t);
    WrapPeriod(h.next - 1, 1);
    assert w.bits[Wrap(h.next - 1)];
    MarkAtNumber(w, h.next, t, h.next - 1 + MAX_SEQ);
  }

  lemma MarkMisjudges(w: Window, h: History, t: int)
    requires Consistent(h) && Agrees(w, h) && InReach(h, t) && t !in h.seen && !Tracked(h, t)
    ensures Mark(w, Wrap(t))[Wrap(Misjudged(h, t))] <==> t >= h.next
  {
    if t < h.next { LateMisjudges(w, h, t); } else { EarlyMisjudges(w, h, t); }
  }

  /** A packet out of the tracked range makes the ring misjudge another one:
      either the newest packet would be accepted a second time, or a packet
      that has not arrived would be rejected. */
  lemma UntrackedMisjudges(w: Window, h: History, t: int)
    requires Consistent(h) && Agrees(w, h) && InReach(h, t) && t !in h.seen && !Tracked(h, t)
    ensures Accept(w, Wrap(t)).bits[Wrap(Misjudged(h, t))] <==> Misjudged(h, t) !in Record(h, t).seen
  {
    UntrackedReach(h, t);
    MarkMisjudges(w, h, t);
    assert Accept(w, Wrap(t)).bits == Mark(w, Wrap(t));
  }

  lemma UntrackedJump(h: History, t: int)
    requires Consistent(h) && InReach(h, t) && t !in h.seen && !Tracked(h, t)
    ensures Ahead(h.next, t) == if t < h.next then t - h.next + MAX_SEQ else 0
    ensures t >= h.next ==> h.next + HALF <= t && h.seen != {}
  {
    WrapDifference(t, h.next);
    WrapDifference(t, Wrap(h.next));
    assert t / MAX_SEQ == h.next / MAX_SEQ + if t < h.next then -1 else 1;
  }

  /** The exact condition of the filter. A packet in reach is always judged
      rightly; recording it keeps the ring true to the history if and only if
      the packet is tracked. */
  lemma FilterIsExact(w: Window, h: History, t: int)
    requires Consistent(h) && Agrees(w, h) && InReach(h, t)
    ensures w.bits[Wrap(t)] <==> t in h.seen
    ensures t !in h.seen ==> (Agrees(Accept(w, Wrap(t)), Record(h, t)) <==> Tracked(h, t))
  {
    if t > h.hi + HALF { EarlyIsJudged(w, h, t); }
    if t !in h.seen {
      if Tracked(h, t) { AcceptAgrees(w, h, t); } else { UntrackedDisagrees(w, h, t); }
    }
  }

  lemma UntrackedDisagrees(w: Window, h: History, t: int)
    requires Consistent(h) && Agrees(w, h) && InReach(h, t) && t !in h.seen && !Tracked(h, t)
    ensures !Agrees(Accept(w, Wrap(t)), Record(h, t))
  {
    UntrackedReach(h, t);
    UntrackedMisjudges(w, h, t);
    MisjudgedInWindow(h, t);
  }

  /** The misjudged packet is one that the ring should tell. */
  lemma MisjudgedInWindow(h: History, t: int)
    requires Consistent(h) && InReach(h, t) && t !in h.seen && !Tracked(h, t)
    ensures var h', m := Record(h, t), Misjudged(h, t); h'.hi - HALF < m <= h'.hi + HALF
  {
    UntrackedReach(h, t);
  }
}
