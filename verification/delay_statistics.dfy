/** The online delay statistics: a mean kept with truncating divisions, the
    extremes, and the accumulated squared deviations. */
module DelayStatistics {
  import opened Arithmetic

  function Sum(xs: seq<int>): int {
    if xs == [] then 0 else Sum(xs[..|xs| - 1]) + xs[|xs| - 1]
  }

  // ------------------------------------------------- the mean, for both ends

  /** The mean after `xs`, as both ends keep it. */
  function Mean(xs: seq<int>): int {
    if xs == [] then 0
    else
      var before := Mean(xs[..|xs| - 1]);
      before + Quot(xs[|xs| - 1] - before, |xs|)
  }

  lemma MeanStep(n: nat, before: int, x: int, sum: int, after: int)
    requires n > 0 && after == before + Quot(x - before, n)
    requires var e := 2 * ((n - 1) * before - sum); -((n - 1) * (n - 2)) <= e <= (n - 1) * (n - 2)
    ensures var e := 2 * (n * after - (sum + x)); -(n * (n - 1)) <= e <= n * (n - 1)
  {
    var q := Quot(x - before, n);
    QuotBounds(x - before, n);
    assert n * after == (n - 1) * before + before + n * q;
    assert n * (n - 1) == (n - 1) * (n - 2) + 2 * (n - 1);
  }

  /** Every division loses less than one, so after n samples the mean is off by
      at most (n - 1) / 2. */
  lemma {:induction false} MeanError(xs: seq<int>)
    ensures var n, e := |xs|, 2 * (|xs| * Mean(xs) - Sum(xs));
            -(n * (n - 1)) <= e <= n * (n - 1)
  {
    if xs != [] {
      var front, x := xs[..|xs| - 1], xs[|xs| - 1];
      MeanError(front);
      MeanStep(|xs|, Mean(front), x, Sum(front), Mean(xs));
    }
  }

  ghost predicate Within(xs: seq<int>, lo: int, hi: int) {
    lo <= hi && forall i :: 0 <= i < |xs| ==> lo <= xs[i] <= hi
  }

  lemma {:induction false} MeanWithin(xs: seq<int>, lo: int, hi: int)
    requires xs != [] && Within(xs, lo, hi)
    ensures lo <= Mean(xs) <= hi
  {
    var n, front, x := |xs|, xs[..|xs| - 1], xs[|xs| - 1];
    QuotBounds(x - Mean(front), n);
    if n > 1 {
      MeanWithin(front, lo, hi);
    } else {
      QuotByOne(x);
    }
  }

  /** A product of two deviations of the same sign within the spread. */
  lemma DeviationBound(a: int, b: int, spread: int)
    requires (0 <= a <= spread && 0 <= b <= spread) || (-spread <= a <= 0 && -spread <= b <= 0)
    ensures 0 <= a * b <= spread * spread
  {
    var u, v := if a < 0 then -a else a, if b < 0 then -b else b;
    assert a * b == u * v;
    MulMonotone(u, 0, v);
    MulMonotone(u, v, spread);
    MulMonotone(spread, u, spread);
  }

  /** The sum of n deviations grows with their number and with the spread. */
  lemma SpreadStep(varn: int, n: nat, d: nat, d': nat, more: int)
    requires 0 <= varn <= n * (d * d) && d <= d' && 0 <= more <= d' * d'
    ensures 0 <= varn + more <= (n + 1) * (d' * d')
  {
    SquareGrows(d, d');
    MulMonotone(n, d * d, d' * d');
    assert (n + 1) * (d' * d') == n * (d' * d') + d' * d';
  }

  /** The standard deviation of `n` deviations, each bounded by the spread. */
  lemma SpreadBoundsDeviation(varn: nat, n: nat, spread: nat)
    requires n > 0 && varn <= n * (spread * spread)
    ensures Deviation(varn, n) <= spread
  {
    var q, s := varn / n, spread * spread;
    Division(varn, n);
    assert n * (s + 1) == n * s + n;
    if q > s { MulMonotone(n, s + 1, q); }
    ISqrtBelow(q, spread);
  }

  // -------------------------------------------------- the receiver of "send"

  /** What SendCommandReceiver keeps about delays, in nanoseconds. */
  datatype Delays = Delays(n: nat, avg: int, min: int, max: int, headAvg: int, varn: int, std: nat, timeouts: nat)

  const NO_DELAYS: Delays := Delays(0, 0, 0, 0, 0, 0, 0, 0)

  const HEAD: nat := 100
  const NANOS: nat := 1_000_000

  /** The first packet sets the means and the extremes. */
  function Primed(d: Delays, x: int): Delays {
    if d.n == 0 then Delays(0, x, x, x, x, d.varn, d.std, d.timeouts) else d
  }

  /** The root of the mean squared deviation; the accumulator is unsigned. */
  function Deviation(varn: int, n: nat): nat
    requires n > 0
  {
    if varn < 0 then 0 else ISqrt(varn / n)
  }

  /** One more accepted packet, `x` nanoseconds on its way. */
  function Observe(before: Delays, x: int, timeoutMs: int): Delays {
    var d, n := Primed(before, x), before.n + 1;
    var avg := d.avg + Quot(x - d.avg, n);
    var head := if n <= HEAD then avg else d.headAvg;
    var varn := d.varn + Product(x - head, x - head);
    Delays(n, avg, Min(d.min, x), Max(d.max, x), head, varn, Deviation(varn, n),
           if x - d.min > timeoutMs * 1000 * 1000 then d.timeouts + 1 else d.timeouts)
  }

  function ObserveAll(xs: seq<int>, timeoutMs: int): Delays {
    if xs == [] then NO_DELAYS
    else Observe(ObserveAll(xs[..|xs| - 1], timeoutMs), xs[|xs| - 1], timeoutMs)
  }

  ghost predicate Extremes(xs: seq<int>, lo: int, hi: int) {
    lo in xs && hi in xs && Within(xs, lo, hi)
  }

  lemma ExtremesGrow(front: seq<int>, x: int, lo: int, hi: int)
    requires Extremes(front, lo, hi)
    ensures Extremes(front + [x], Min(lo, x), Max(hi, x))
  {
    var xs := front + [x];
    assert xs[|front|] == x && lo in xs && hi in xs;
  }

  function Head(xs: seq<int>): seq<int> { if |xs| <= HEAD then xs else xs[..HEAD] }

  /** The accumulator of n products of deviations, for a given spread. */
  ghost predicate VarianceBound(varn: int, n: nat, spread: int) {
    0 <= varn <= n * (spread * spread)
  }

  ghost predicate SendSound(d: Delays, xs: seq<int>) {
    && d.n == |xs|
    && Extremes(xs, d.min, d.max)
    && d.avg == Mean(xs)
    && d.headAvg == Mean(Head(xs))
    && VarianceBound(d.varn, |xs|, d.max - d.min)
  }

  lemma HeadGrows(front: seq<int>, x: int)
    ensures Head(front + [x]) == if |front| < HEAD then front + [x] else Head(front)
  {
    if |front| >= HEAD { assert (front + [x])[..HEAD] == front[..HEAD] == Head(front); }
  }

  lemma HeadWithin(xs: seq<int>, lo: int, hi: int)
    requires xs != [] && Within(xs, lo, hi)
    ensures lo <= Mean(Head(xs)) <= hi
  {
    MeanWithin(Head(xs), lo, hi);
  }

  /** One more squared deviation from a mean that lies between the extremes. */
  lemma NextVariance(varn: int, n: nat, lo: int, hi: int, lo': int, hi': int, a: int, b: int)
    requires VarianceBound(varn, n, hi - lo) && lo' <= lo <= hi <= hi'
    requires (0 <= a <= hi' - lo' && 0 <= b <= hi' - lo') || (lo' - hi' <= a <= 0 && lo' - hi' <= b <= 0)
    ensures VarianceBound(varn + Product(a, b), n + 1, hi' - lo')
  {
    DeviationBound(a, b, hi' - lo');
    SpreadStep(varn, n, hi - lo, hi' - lo', a * b);
  }

  lemma FirstDelay(x: int, timeoutMs: int)
    ensures SendSound(Observe(NO_DELAYS, x, timeoutMs), [x])
  {
    QuotByOne(0);
    QuotByOne(x);
    assert Mean([]) == 0;
  }

  lemma NextMean(d: Delays, front: seq<int>, x: int, timeoutMs: int)
    requires front != [] && SendSound(d, front)
    ensures var d' := Observe(d, x, timeoutMs);
            && Extremes(front + [x], d'.min, d'.max)
            && d'.avg == Mean(front + [x])
            && d'.headAvg == if |front| < HEAD then d'.avg else d.headAvg
  {
    assert (front + [x])[..|front|] == front;
    ExtremesGrow(front, x, d.min, d.max);
  }

  lemma NextHead(d: Delays, front: seq<int>, x: int, timeoutMs: int)
    requires front != [] && SendSound(d, front)
    ensures var d' := Observe(d, x, timeoutMs);
            d'.headAvg == Mean(Head(front + [x])) && d'.min <= d'.headAvg <= d'.max
  {
    NextMean(d, front, x, timeoutMs);
    HeadGrows(front, x);
    HeadWithin(front + [x], Observe(d, x, timeoutMs).min, Observe(d, x, timeoutMs).max);
  }

  lemma NextSpread(d: Delays, n: nat, x: int, timeoutMs: int)
    requires d.n == n > 0 && d.min <= d.max && VarianceBound(d.varn, n, d.max - d.min)
    requires var d' := Observe(d, x, timeoutMs); d'.min <= d'.headAvg <= d'.max
    ensures var d' := Observe(d, x, timeoutMs); VarianceBound(d'.varn, n + 1, d'.max - d'.min)
  {
    var d' := Observe(d, x, timeoutMs);
    NextVariance(d.varn, n, d.min, d.max, d'.min, d'.max, x - d'.headAvg, x - d'.headAvg);
  }

  lemma NextDelay(d: Delays, front: seq<int>, x: int, timeoutMs: int)
    requires front != [] && SendSound(d, front)
    ensures SendSound(Observe(d, x, timeoutMs), front + [x])
  {
    NextMean(d, front, x, timeoutMs);
    NextHead(d, front, x, timeoutMs);
    NextSpread(d, |front|, x, timeoutMs);
  }

  lemma {:induction false} SendStateSound(xs: seq<int>, timeoutMs: int)
    requires xs != []
    ensures SendSound(ObserveAll(xs, timeoutMs), xs)
  {
    var front, x := xs[..|xs| - 1], xs[|xs| - 1];
    assert xs == front + [x];
    if front == [] {
      FirstDelay(x, timeoutMs);
    } else {
      SendStateSound(front, timeoutMs);
      NextDelay(ObserveAll(front, timeoutMs), front, x, timeoutMs);
    }
  }

  /** min and max are the extremes, avg is the truncating mean of all samples
      and headAvg that of the first hundred, and both lie between the extremes;
      the standard deviation never exceeds the spread. */
  lemma SendDelays(xs: seq<int>, timeoutMs: int)
    requires xs != []
    ensures var d := ObserveAll(xs, timeoutMs);
            && Extremes(xs, d.min, d.max)
            && d.avg == Mean(xs)
            && d.headAvg == Mean(Head(xs))
            && d.min <= d.avg <= d.max
            && d.min <= d.headAvg <= d.max
            && d.std <= d.max - d.min
  {
    var d := ObserveAll(xs, timeoutMs);
    SendStateSound(xs, timeoutMs);
    MeanWithin(xs, d.min, d.max);
    MeanWithin(Head(xs), d.min, d.max);
    SpreadBoundsDeviation(d.varn, |xs|, d.max - d.min);
  }

  // What the accumulators stand for, by the samples alone.

  /** The squares of the distances of each sample from the mean of the head as it
      was then. */
  function SquaredDeviations(xs: seq<int>): int {
    if xs == [] then 0
    else
      var e := xs[|xs| - 1] - Mean(Head(xs));
      SquaredDeviations(xs[..|xs| - 1]) + Product(e, e)
  }

  function Least(xs: seq<int>): int
    requires xs != []
  {
    if |xs| == 1 then xs[0] else Min(Least(xs[..|xs| - 1]), xs[|xs| - 1])
  }

  function Greatest(xs: seq<int>): int
    requires xs != []
  {
    if |xs| == 1 then xs[0] else Max(Greatest(xs[..|xs| - 1]), xs[|xs| - 1])
  }

  /** The samples that came more than `limit` after the least one before them; the
      first one counts if the limit is negative. */
  function Late(xs: seq<int>, limit: int): nat {
    if xs == [] then 0
    else
      var front, x := xs[..|xs| - 1], xs[|xs| - 1];
      Late(front, limit) + if x - (if front == [] then x else Least(front)) > limit then 1 else 0
  }

  /** The root of the mean of `n` squares, truncated. */
  predicate IsRootMean(root: nat, squares: int, n: nat)
    requires n > 0
  {
    root * root <= squares / n < (root + 1) * (root + 1)
  }

  lemma DeviationIsRootMean(varn: int, n: nat)
    requires n > 0 && varn >= 0
    ensures IsRootMean(Deviation(varn, n), varn, n)
  {
  }

  lemma {:induction false} ExtremesAre(xs: seq<int>, lo: int, hi: int)
    requires xs != [] && Extremes(xs, lo, hi)
    ensures lo == Least(xs) && hi == Greatest(xs)
  {
    LeastWithin(xs);
  }

  lemma {:induction false} LeastWithin(xs: seq<int>)
    requires xs != []
    ensures Extremes(xs, Least(xs), Greatest(xs))
  {
    var front, x := xs[..|xs| - 1], xs[|xs| - 1];
    assert xs == front + [x];
    if front != [] {
      LeastWithin(front);
      ExtremesGrow(front, x, Least(front), Greatest(front));
    }
  }

  lemma NextSquare(before: Delays, x: int, timeoutMs: int)
    ensures var d := Observe(before, x, timeoutMs);
            d.varn == before.varn + Product(x - d.headAvg, x - d.headAvg)
  {
  }

  lemma NextLate(before: Delays, x: int, timeoutMs: int)
    ensures var d := Observe(before, x, timeoutMs);
            d.timeouts == before.timeouts +
              if x - (if before.n == 0 then x else before.min) > timeoutMs * 1000 * 1000 then 1 else 0
  {
  }

  /** The accumulators of the "send" receiver: the sum of the squares, whose root mean
      is the deviation, and the late packets. */
  lemma {:induction false} SendDeviations(xs: seq<int>, timeoutMs: int)
    ensures var d := ObserveAll(xs, timeoutMs);
            && d.varn == SquaredDeviations(xs) >= 0
            && d.timeouts == Late(xs, timeoutMs * 1000 * 1000)
            && (xs != [] ==> IsRootMean(d.std, SquaredDeviations(xs), |xs|))
  {
    if xs != [] {
      var front, x := xs[..|xs| - 1], xs[|xs| - 1];
      var before := ObserveAll(front, timeoutMs);
      SendDeviations(front, timeoutMs);
      SendStateSound(xs, timeoutMs);
      NextSquare(before, x, timeoutMs);
      NextLate(before, x, timeoutMs);
      if front != [] {
        SendStateSound(front, timeoutMs);
        ExtremesAre(front, before.min, before.max);
      }
      DeviationIsRootMean(ObserveAll(xs, timeoutMs).varn, |xs|);
    }
  }

  /** The delay fields of a "send" result, by the samples alone. */
  predicate SendFigures(r: DelayReport, xs: seq<int>) {
    r.minDelay == 0 &&
    if xs == [] then r.delay == r.maxDelay == r.jitter == r.jitterStd == 0
    else
      var lo := Least(xs);
      && r.maxDelay == Millis(Greatest(xs) - lo) && r.delay == Millis(Mean(xs) - lo)
      && r.jitter == Millis(Mean(Head(xs)) - lo)
      && r.jitterStd == Millis(Deviation(SquaredDeviations(xs), |xs|))
  }

  lemma FieldsAreFigures(d: Delays, xs: seq<int>)
    requires xs != [] && d.min == Least(xs) && d.max == Greatest(xs) && d.avg == Mean(xs) && d.headAvg == Mean(Head(xs))
    requires d.std == Deviation(SquaredDeviations(xs), |xs|)
    ensures SendFigures(SendReport(d), xs)
  {
  }

  lemma NoFigures()
    ensures SendFigures(SendReport(NO_DELAYS), [])
  {
    assert Millis(0) == 0;
  }

  lemma SendReportFigures(xs: seq<int>, timeoutMs: int)
    ensures SendFigures(SendReport(ObserveAll(xs, timeoutMs)), xs)
  {
    if xs == [] {
      NoFigures();
    } else {
      var d := ObserveAll(xs, timeoutMs);
      SendDeviations(xs, timeoutMs);
      SendDelays(xs, timeoutMs);
      ExtremesAre(xs, d.min, d.max);
      DeviationKept(xs, timeoutMs);
      FieldsAreFigures(d, xs);
    }
  }

  lemma DeviationKept(xs: seq<int>, timeoutMs: int)
    requires xs != []
    ensures var d := ObserveAll(xs, timeoutMs);
            d.std == Deviation(d.varn, |xs|)
  {
    SendStateSound(xs, timeoutMs);
  }

  lemma ObservedFigures(d: Delays, xs: seq<int>, timeoutMs: int)
    requires d == ObserveAll(xs, timeoutMs)
    ensures SendFigures(SendReport(d), xs) && d.timeouts == Late(xs, timeoutMs * 1000 * 1000)
  {
    SendReportFigures(xs, timeoutMs);
    SendDeviations(xs, timeoutMs);
  }

  /** Two divisions by a thousand. */
  function Millis(x: int): int { Quot(Quot(x, 1000), 1000) }

  lemma MillisMonotone(x: int, y: int)
    requires x <= y
    ensures Millis(x) <= Millis(y)
  {
    QuotMonotone(x, y, 1000);
    QuotMonotone(Quot(x, 1000), Quot(y, 1000), 1000);
  }

  datatype DelayReport = DelayReport(delay: int, minDelay: int, maxDelay: int, jitter: int, jitterStd: int)

  /** The delay fields of the result a "send" receiver reports. */
  function SendReport(d: Delays): DelayReport {
    DelayReport(Millis(d.avg - d.min), 0, Millis(d.max - d.min), Millis(d.headAvg - d.min), Millis(d.std))
  }

  /** No sample can make the reported delay, jitter or jitter deviation negative
      or larger than the reported maximal delay. */
  lemma SendReportInRange(xs: seq<int>, timeoutMs: int)
    ensures var r := SendReport(ObserveAll(xs, timeoutMs));
            && r.minDelay == 0 <= r.delay <= r.maxDelay
            && 0 <= r.jitter <= r.maxDelay
            && 0 <= r.jitterStd <= r.maxDelay
  {
    var d := ObserveAll(xs, timeoutMs);
    if xs != [] {
      SendDelays(xs, timeoutMs);
    }
    SendReportBounds(d);
  }

  lemma SendReportBounds(d: Delays)
    requires d.min <= d.avg <= d.max && d.min <= d.headAvg <= d.max && d.std <= d.max - d.min
    ensures var r := SendReport(d);
            && r.minDelay == 0 <= r.delay <= r.maxDelay
            && 0 <= r.jitter <= r.maxDelay
            && 0 <= r.jitterStd <= r.maxDelay
  {
    assert Millis(0) == 0;
    MillisMonotone(0, d.avg - d.min);
    MillisMonotone(d.avg - d.min, d.max - d.min);
    MillisMonotone(0, d.headAvg - d.min);
    MillisMonotone(d.headAvg - d.min, d.max - d.min);
    MillisMonotone(0, d.std);
    MillisMonotone(d.std, d.max - d.min);
  }

  // ---------------------------------------------------- the sender of "ping"

  /** What EchoCommandSender keeps about the echoes it receives. */
  datatype EchoDelays = EchoDelays(n: nat, delay: int, min: int, max: int, varn: int, std: nat, timeouts: nat)

  const NO_ECHOES: EchoDelays := EchoDelays(0, 0, 0, 0, 0, 0, 0)

  function Echo(d: EchoDelays, x: int, timeoutMs: int): EchoDelays {
    var n := d.n + 1;
    var delay := d.delay + Quot(x - d.delay, n);
    var varn := d.varn + Product(x - d.delay, x - delay);
    EchoDelays(n, delay, if n == 1 then x else Min(d.min, x), if n == 1 then x else Max(d.max, x),
               varn, Deviation(varn, n),
               if x > timeoutMs * 1000 * 1000 then d.timeouts + 1 else d.timeouts)
  }

  function EchoAll(xs: seq<int>, timeoutMs: int): EchoDelays {
    if xs == [] then NO_ECHOES
    else Echo(EchoAll(xs[..|xs| - 1], timeoutMs), xs[|xs| - 1], timeoutMs)
  }

  ghost predicate PingSound(d: EchoDelays, xs: seq<int>) {
    && d.n == |xs|
    && Extremes(xs, d.min, d.max)
    && d.delay == Mean(xs)
    && VarianceBound(d.varn, |xs|, d.max - d.min)
  }

  lemma FirstEcho(x: int, timeoutMs: int)
    ensures PingSound(Echo(NO_ECHOES, x, timeoutMs), [x])
  {
    QuotByOne(x);
    assert Mean([]) == 0;
    assert (x - 0) * (x - x) == 0;
  }

  /** The increment of the variance has the old mean in one factor and the new
      mean in the other; it is never negative and at most the squared spread. */
  lemma NextEcho(d: EchoDelays, front: seq<int>, x: int, timeoutMs: int)
    requires front != [] && PingSound(d, front)
    ensures PingSound(Echo(d, x, timeoutMs), front + [x])
  {
    var d' := Echo(d, x, timeoutMs);
    NextEchoMean(d, front, x, timeoutMs);
    NextVariance(d.varn, |front|, d.min, d.max, d'.min, d'.max, x - d.delay, x - d'.delay);
  }

  lemma NextEchoMean(d: EchoDelays, front: seq<int>, x: int, timeoutMs: int)
    requires front != [] && PingSound(d, front)
    ensures var d' := Echo(d, x, timeoutMs);
            && Extremes(front + [x], d'.min, d'.max)
            && d'.delay == Mean(front + [x])
            && d'.min <= d.delay <= d'.max
            && (d.delay <= d'.delay <= x || x <= d'.delay <= d.delay)
  {
    var d' := Echo(d, x, timeoutMs);
    assert (front + [x])[..|front|] == front;
    ExtremesGrow(front, x, d.min, d.max);
    QuotBounds(x - d.delay, |front| + 1);
    MeanWithin(front, d'.min, d'.max);
  }

  lemma {:induction false} PingStateSound(xs: seq<int>, timeoutMs: int)
    requires xs != []
    ensures PingSound(EchoAll(xs, timeoutMs), xs)
  {
    var front, x := xs[..|xs| - 1], xs[|xs| - 1];
    assert xs == front + [x];
    if front == [] {
      FirstEcho(x, timeoutMs);
    } else {
      PingStateSound(front, timeoutMs);
      NextEcho(EchoAll(front, timeoutMs), front, x, timeoutMs);
    }
  }

  lemma PingDelays(xs: seq<int>, timeoutMs: int)
    requires xs != []
    ensures var d := EchoAll(xs, timeoutMs);
            && Extremes(xs, d.min, d.max)
            && d.delay == Mean(xs)
            && d.min <= d.delay <= d.max
            && d.std <= d.max - d.min
  {
    var d := EchoAll(xs, timeoutMs);
    PingStateSound(xs, timeoutMs);
    MeanWithin(xs, d.min, d.max);
    SpreadBoundsDeviation(d.varn, |xs|, d.max - d.min);
  }

  /** The delay fields of the result a "ping" sender reports. */
  function PingReport(d: EchoDelays): DelayReport {
    var hi, lo := Quot(d.max, NANOS), Quot(d.min, NANOS);
    DelayReport(Quot(d.delay, NANOS), lo, hi, hi - lo, Quot(d.std, NANOS))
  }

  lemma QuotDifference(hi: int, lo: int, d: int, b: nat)
    requires b > 0 && 0 <= lo && 0 <= d <= hi - lo
    ensures 0 <= Quot(d, b) <= Quot(hi, b) - Quot(lo, b)
  {
    var q, qh, ql := Quot(d, b), Quot(hi, b), Quot(lo, b);
    QuotBounds(d, b);
    QuotBounds(hi, b);
    QuotBounds(lo, b);
    assert b * (qh - ql + 1) == b * qh - b * ql + b;
    if q > qh - ql { MulMonotone(b, qh - ql + 1, q); }
  }

  /** With clocks that never run backwards, what "ping" reports is in range. */
  lemma PingReportInRange(xs: seq<int>, timeoutMs: int)
    requires forall i :: 0 <= i < |xs| ==> 0 <= xs[i]
    ensures var r := PingReport(EchoAll(xs, timeoutMs));
            && 0 <= r.minDelay <= r.delay <= r.maxDelay
            && 0 <= r.jitterStd <= r.jitter
  {
    var d := EchoAll(xs, timeoutMs);
    if xs != [] { PingDelays(xs, timeoutMs); }
    QuotMonotone(0, d.min, NANOS);
    QuotMonotone(d.min, d.delay, NANOS);
    QuotMonotone(d.delay, d.max, NANOS);
    QuotDifference(d.max, d.min, d.std, NANOS);
  }

  /** Whatever the clocks do, the deviation exceeds the jitter by at most one
      millisecond: the two truncations toward zero hide no more. */
  lemma PingReportAnyClock(xs: seq<int>, timeoutMs: int)
    ensures var r := PingReport(EchoAll(xs, timeoutMs));
            && r.minDelay <= r.delay <= r.maxDelay
            && 0 <= r.jitterStd <= r.jitter + 1
  {
    var d := EchoAll(xs, timeoutMs);
    if xs != [] { PingDelays(xs, timeoutMs); }
    QuotMonotone(d.min, d.delay, NANOS);
    QuotMonotone(d.delay, d.max, NANOS);
    QuotBounds(d.max, NANOS);
    QuotBounds(d.min, NANOS);
    QuotBounds(d.std, NANOS);
  }

  /** The products of the distances of each sample from the mean before it and from
      the mean after it. */
  function ProductDeviations(xs: seq<int>): int {
    if xs == [] then 0
    else
      var front, x := xs[..|xs| - 1], xs[|xs| - 1];
      ProductDeviations(front) + Product(x - Mean(front), x - Mean(xs))
  }

  /** The samples above a limit. */
  function Above(xs: seq<int>, limit: int): nat {
    if xs == [] then 0 else Above(xs[..|xs| - 1], limit) + if xs[|xs| - 1] > limit then 1 else 0
  }

  lemma {:induction false} EchoMean(xs: seq<int>, timeoutMs: int)
    ensures EchoAll(xs, timeoutMs).delay == Mean(xs) && EchoAll(xs, timeoutMs).n == |xs|
  {
    if xs != [] { EchoMean(xs[..|xs| - 1], timeoutMs); }
  }

  /** The accumulators of a ping, in the same way. */
  lemma {:induction false} PingDeviations(xs: seq<int>, timeoutMs: int)
    ensures var d := EchoAll(xs, timeoutMs);
            && d.varn == ProductDeviations(xs) >= 0
            && d.timeouts == Above(xs, timeoutMs * 1000 * 1000)
            && (xs != [] ==> d.std == Deviation(d.varn, |xs|) && IsRootMean(d.std, ProductDeviations(xs), |xs|))
  {
    if xs != [] {
      var front := xs[..|xs| - 1];
      PingDeviations(front, timeoutMs);
      EchoMean(front, timeoutMs);
      EchoMean(xs, timeoutMs);
      PingStateSound(xs, timeoutMs);
      DeviationIsRootMean(EchoAll(xs, timeoutMs).varn, |xs|);
    }
  }

  /** The delay fields of a ping, by the samples alone. */
  predicate PingFigures(r: DelayReport, xs: seq<int>) {
    if xs == [] then r == DelayReport(0, 0, 0, 0, 0)
    else
      && r.minDelay == Quot(Least(xs), NANOS) && r.maxDelay == Quot(Greatest(xs), NANOS)
      && r.delay == Quot(Mean(xs), NANOS) && r.jitter == r.maxDelay - r.minDelay
      && r.jitterStd == Quot(Deviation(ProductDeviations(xs), |xs|), NANOS)
  }

  lemma PingReportFigures(xs: seq<int>, timeoutMs: int)
    ensures PingFigures(PingReport(EchoAll(xs, timeoutMs)), xs)
  {
    PingDeviations(xs, timeoutMs);
    if xs != [] {
      var d := EchoAll(xs, timeoutMs);
      PingDelays(xs, timeoutMs);
      ExtremesAre(xs, d.min, d.max);
    }
  }
}
