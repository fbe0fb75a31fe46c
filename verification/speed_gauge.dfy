/** Speeds: bytes or packets by elapsed time, and the least and greatest speed
    that the "send" receiver has measured over windows of at least a second. */
module SpeedGauge {
  import opened Arithmetic
  import opened DelayStatistics

  const SECOND: nat := 1_000_000_000  // in nanoseconds

  /** A time span in nanoseconds. */
  type Nanos = nat

  /** `x` divided by `elapsed` nanoseconds in seconds, truncated. */
  function PerSecond(x: nat, elapsed: Nanos): nat
    requires elapsed > 0
  {
    x * SECOND / elapsed
  }

  /** `r` is `x` in each second, over `elapsed` nanoseconds, truncated. */
  predicate IsRate(r: int, x: int, elapsed: Nanos) { x * SECOND - elapsed < r * elapsed <= x * SECOND }

  lemma PerSecondIsRate(x: nat, elapsed: Nanos)
    requires elapsed > 0
    ensures IsRate(PerSecond(x, elapsed), x, elapsed)
  {
    Division(x * SECOND, elapsed);
  }

  /** The bytes of the open window, and the extremes of those closed; the least
      speed is -1 while none is. */
  datatype Gauge = Gauge(latest: nat, min: int, max: int)

  const NO_SPEEDS: Gauge := Gauge(0, -1, 0)

  /** One more packet of `bytes`, `window` nanoseconds after the window began. */
  function Measure(g: Gauge, bytes: nat, window: Nanos): Gauge {
    var latest := g.latest + bytes;
    if window < SECOND then g.(latest := latest)
    else
      var speed := PerSecond(latest, window);
      Gauge(0, if g.min == -1 then speed else Min(g.min, speed), Max(g.max, speed))
  }

  datatype Sample = Sample(bytes: nat, window: Nanos)

  function MeasureAll(ms: seq<Sample>): Gauge {
    if ms == [] then NO_SPEEDS
    else Measure(MeasureAll(ms[..|ms| - 1]), ms[|ms| - 1].bytes, ms[|ms| - 1].window)
  }

  /** The speeds of the windows that were closed. */
  function WindowSpeeds(ms: seq<Sample>): seq<int> {
    if ms == [] then []
    else
      var front, m := ms[..|ms| - 1], ms[|ms| - 1];
      WindowSpeeds(front) +
      if m.window < SECOND then [] else [PerSecond(MeasureAll(front).latest + m.bytes, m.window)]
  }

  /** The bytes of the windows that were closed. */
  function WindowBytes(ms: seq<Sample>): nat {
    if ms == [] then 0
    else
      var front, m := ms[..|ms| - 1], ms[|ms| - 1];
      WindowBytes(front) + if m.window < SECOND then 0 else MeasureAll(front).latest + m.bytes
  }

  function TotalBytes(ms: seq<Sample>): nat {
    if ms == [] then 0 else TotalBytes(ms[..|ms| - 1]) + ms[|ms| - 1].bytes
  }

  /** The extremes are those of the windows closed so far, and every byte is in
      one closed window or in the open one. */
  lemma {:induction false} SpeedExtremes(ms: seq<Sample>)
    ensures var g, speeds := MeasureAll(ms), WindowSpeeds(ms);
            && TotalBytes(ms) == WindowBytes(ms) + g.latest
            && if speeds == [] then g.min == -1 && g.max == 0 else Extremes(speeds, g.min, g.max) && 0 <= g.min
  {
    if ms != [] {
      var front, m := ms[..|ms| - 1], ms[|ms| - 1];
      SpeedExtremes(front);
      if m.window >= SECOND { WindowCloses(MeasureAll(front), WindowSpeeds(front), m); }
    }
  }

  lemma WindowCloses(g: Gauge, speeds: seq<int>, m: Sample)
    requires m.window >= SECOND
    requires if speeds == [] then g.min == -1 && g.max == 0 else Extremes(speeds, g.min, g.max) && 0 <= g.min
    ensures var g', speed := Measure(g, m.bytes, m.window), PerSecond(g.latest + m.bytes, m.window);
            Extremes(speeds + [speed], g'.min, g'.max) && 0 <= g'.min
  {
    var speed := PerSecond(g.latest + m.bytes, m.window);
    if speeds != [] {
      ExtremesGrow(speeds, speed, g.min, g.max);
    } else {
      assert speeds + [speed] == [speed];
    }
  }
}
