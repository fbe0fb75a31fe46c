/** How many packets, and how far apart, when a command asks for a speed over a
    time. The expressions are taken over exact numbers. */
module RateArithmetic {

  function Ceil(x: real): int { -((-x).Floor) }

  /** A positive number, converted to an int. */
  function Truncated(x: real): int
    requires x >= 0.0
  {
    x.Floor
  }

  /** A number of packets and the microseconds between two of them. */
  datatype Rate = Rate(count: int, interval: int)

  /** The packets that make up `speed` kilobytes a second for `time` milliseconds. */
  function ExactCount(size: nat, speed: int, time: int): real
    requires size > 0
  {
    (speed * 1024) as real * (time as real / 1000.0) / size as real
  }

  /** The microseconds that one packet takes at that speed. */
  function ExactInterval(size: nat, speed: int): real
    requires size > 0 && speed > 0
  {
    PerPacket(size, speed);
    1000000.0 / ((1.0 * speed as real * 1024.0) / size as real)
  }

  lemma PerPacket(size: nat, speed: int)
    requires size > 0 && speed > 0
    ensures (1.0 * speed as real * 1024.0) / size as real > 0.0
  {
    Positive(1.0 * speed as real * 1024.0, size as real);
  }

  lemma Positive(a: real, b: real)
    requires a > 0.0 && b > 0.0
    ensures a / b > 0.0
  {
  }

  /** The last lines of SendCommand::ResolveArgs. */
  function SendRate(given: Rate, size: nat, speed: int, time: int): Rate
    requires size > 0
  {
    if speed > 0 && time > 0 then
      PerPacket(size, speed);
      Positive(1000000.0, (1.0 * speed as real * 1024.0) / size as real);
      Rate(Ceil(ExactCount(size, speed, time)), Truncated(ExactInterval(size, speed)))
    else if given.interval > 0 && time > 0 then
      Positive(time as real * 1000.0, given.interval as real);
      Rate(Truncated(time as real * 1000.0 / given.interval as real), given.interval)
    else given
  }

  const PING_INTERVAL: int := 200 * 1000
  const PING_SIZE: nat := 32
  const FULL_SIZE: nat := 1472

  function PingSize(size: nat, speed: int, time: int): nat {
    if speed > 0 && time > 0 && size == PING_SIZE then FULL_SIZE else size
  }

  /** The same in EchoCommand::ResolveArgs, which allows no interval of zero. */
  function PingRate(given: Rate, size: nat, speed: int, time: int): Rate
    requires size > 0
  {
    var r := SendRate(given, PingSize(size, speed, time), speed, time);
    if r.interval <= 0 then r.(interval := PING_INTERVAL) else r
  }

  // -------------------------------------------------------------- what it means

  /** Multiplication, kept apart from the rest of the arithmetic. */
  function Times(a: real, b: real): real { a * b }

  lemma TimesLaws(a: real, b: real)
    ensures Times(a, b) == Times(b, a)
    ensures Times(a + 1.0, b) == Times(a, b) + b
  {
  }

  lemma QuotientMeans(a: real, b: real)
    requires b > 0.0
    ensures a / b * b == a
  {
  }

  lemma TimesLess(a: real, b: real, k: real)
    requires k > 0.0 && a < b
    ensures Times(a, k) < Times(b, k)
  {
  }

  lemma TimesAtMost(a: real, b: real, k: real)
    requires k >= 0.0 && a <= b
    ensures Times(a, k) <= Times(b, k)
  {
  }

  /** The exact numbers multiply back to what was asked for: bytes, and time. */
  lemma ExactProducts(size: nat, speed: int, time: int)
    requires size > 0 && speed > 0 && time > 0
    ensures Times(ExactCount(size, speed, time), size as real) == Times((speed * 1024) as real, time as real / 1000.0)
    ensures Times(ExactCount(size, speed, time), ExactInterval(size, speed)) == 1000.0 * time as real
    ensures ExactCount(size, speed, time) > 0.0 && ExactInterval(size, speed) > 0.0
  {
    var z, rate, t := size as real, 1024.0 * speed as real, time as real / 1000.0;
    var perPacket := rate / z;
    PerPacket(size, speed);
    Positive(1000000.0, perPacket);
    var n, gap := ExactCount(size, speed, time), ExactInterval(size, speed);
    QuotientMeans(rate * t, z);
    QuotientMeans(rate, z);
    QuotientMeans(1000000.0, perPacket);
    assert gap * perPacket == 1000000.0;
    Commute(rate, t, z);
    assert n == perPacket * t;
    assert n * gap == gap * perPacket * t by { Reorder(perPacket, t, gap); }
    Positive(rate * t, z);
  }

  lemma Commute(a: real, b: real, z: real)
    requires z > 0.0
    ensures a * b / z == a / z * b
  {
    QuotientMeans(a, z);
    QuotientMeans(a * b, z);
    assert a / z * b * z == a / z * z * b;
    Cancel(a * b / z, a / z * b, z);
  }

  lemma Cancel(x: real, y: real, z: real)
    requires z > 0.0 && x * z == y * z
    ensures x == y
  {
    if x < y { TimesLess(x, y, z); } else if y < x { TimesLess(y, x, z); }
  }

  lemma Reorder(a: real, b: real, c: real)
    ensures a * b * c == c * a * b
  {
  }

  /** A count rounded up, of packets with an interval rounded down. */
  lemma NotTooShort(count: real, n: real, interval: real, gap: real)
    requires 0.0 < n <= count < n + 1.0 && 0.0 <= interval <= gap < interval + 1.0
    ensures Times(n, gap) - count < Times(count, interval)
  {
    TimesLess(gap, interval + 1.0, count);
    TimesAtMost(n, count, gap);
    TimesLaws(interval, count);
    TimesLaws(gap, count);
  }

  lemma NotTooLong(count: real, n: real, interval: real, gap: real)
    requires 0.0 < n <= count < n + 1.0 && 0.0 < interval <= gap
    ensures Times(count, interval) < Times(n, gap) + interval
  {
    TimesLess(count, n + 1.0, interval);
    TimesAtMost(interval, gap, n);
    TimesLaws(n, interval);
    TimesLaws(n, gap);
  }

  /** The count is the smallest that carries the bytes asked for, and sending it
      at the interval takes the time asked for, to within one microsecond a
      packet below and one interval above. */
  lemma SendRateMeets(given: Rate, size: nat, speed: int, time: int)
    requires size > 0 && speed > 0 && time > 0
    ensures var r, bytes := SendRate(given, size, speed, time), Times((speed * 1024) as real, time as real / 1000.0);
            var count, interval := r.count as real, r.interval as real;
            && Times(count - 1.0, size as real) < bytes <= Times(count, size as real)
            && r.count >= 1 && r.interval >= 0
            && 1000.0 * time as real - count < Times(count, interval)
            && (r.interval > 0 ==> Times(count, interval) < 1000.0 * time as real + interval)
  {
    var r, n, gap := SendRate(given, size, speed, time), ExactCount(size, speed, time), ExactInterval(size, speed);
    var count, interval := r.count as real, r.interval as real;
    ExactProducts(size, speed, time);
    TimesLess(count - 1.0, n, size as real);
    TimesAtMost(n, count, size as real);
    NotTooShort(count, n, interval, gap);
    if r.interval > 0 { NotTooLong(count, n, interval, gap); }
  }

  /** With a time and an interval but no speed, the count is the largest that fits. */
  lemma TimedRateMeets(given: Rate, size: nat, speed: int, time: int)
    requires size > 0 && speed <= 0 && time > 0 && given.interval > 0
    ensures var r := SendRate(given, size, speed, time);
            && r.interval == given.interval && r.count >= 0
            && Times(r.count as real, r.interval as real) <= 1000.0 * time as real
            && 1000.0 * time as real < Times(r.count as real + 1.0, r.interval as real)
  {
    var r, exact, gap := SendRate(given, size, speed, time), time as real * 1000.0 / given.interval as real, given.interval as real;
    QuotientMeans(time as real * 1000.0, gap);
    Positive(time as real * 1000.0, gap);
    assert Times(exact, gap) == 1000.0 * time as real;
    TimesAtMost(r.count as real, exact, gap);
    TimesLess(exact, r.count as real + 1.0, gap);
  }

  /** Where neither a speed nor an interval meets a time, a command keeps the count and
      the interval it was given, but for a ping without an interval. */
  lemma GivenRateStands(given: Rate, size: nat, speed: int, time: int)
    requires size > 0 && !(speed > 0 && time > 0) && !(given.interval > 0 && time > 0)
    ensures SendRate(given, size, speed, time) == given
    ensures PingRate(given, size, speed, time).count == given.count
    ensures PingRate(given, size, speed, time).interval ==
              if given.interval > 0 then given.interval else PING_INTERVAL
    ensures PingSize(size, speed, time) == size
  {
  }

  /** When a send asks for no packet at all: with a speed never; with a time and an
      interval, if and only if the interval is longer than the time. */
  lemma AsksForNothing(given: Rate, size: nat, speed: int, time: int)
    requires size > 0
    ensures SendRate(given, size, speed, time).count < 1 <==>
              if speed > 0 && time > 0 then false
              else if given.interval > 0 && time > 0 then given.interval > 1000 * time
              else given.count < 1
  {
    if speed > 0 && time > 0 {
      SendRateMeets(given, size, speed, time);
    } else if given.interval > 0 && time > 0 {
      FitsOnce(time as real * 1000.0, given.interval as real);
    }
  }

  lemma FitsOnce(a: real, b: real)
    requires a > 0.0 && b > 0.0
    ensures a / b >= 0.0
    ensures a / b < 1.0 <==> a < b
  {
    QuotientMeans(a, b);
    Positive(a, b);
    if a / b < 1.0 { TimesLess(a / b, 1.0, b); } else { TimesAtMost(1.0, a / b, b); }
  }

  /** A ping keeps the rate of its speed if and only if one packet takes at least
      a microsecond; a faster one falls back to its default interval. */
  lemma PingRateMeets(given: Rate, size: nat, speed: int, time: int)
    requires size > 0 && speed > 0 && time > 0
    ensures var z := PingSize(size, speed, time);
            PingRate(given, size, speed, time) == SendRate(given, z, speed, time) <==> 1000000 * z >= 1024 * speed
    ensures PingRate(given, size, speed, time).interval > 0
  {
    var z := PingSize(size, speed, time);
    IntervalReachesOne(z, speed);
    Positive(1000000.0, (1.0 * speed as real * 1024.0) / z as real);
  }

  lemma IntervalReachesOne(z: nat, speed: int)
    requires z > 0 && speed > 0
    ensures ExactInterval(z, speed) > 0.0
    ensures ExactInterval(z, speed) >= 1.0 <==> 1000000 * z >= 1024 * speed
  {
    var gap, rate := ExactInterval(z, speed), 1024.0 * speed as real;
    PerPacket(z, speed);
    Positive(1000000.0, rate / z as real);
    QuotientMeans(rate, z as real);
    QuotientMeans(1000000.0, rate / z as real);
    assert gap * rate == 1000000.0 * z as real by { Reorder(rate / z as real, z as real, gap); }
    CompareToOne(gap, rate);
  }

  lemma CompareToOne(gap: real, rate: real)
    requires rate > 0.0
    ensures gap >= 1.0 <==> gap * rate >= rate
  {
    if gap >= 1.0 { TimesAtMost(1.0, gap, rate); } else { TimesLess(gap, 1.0, rate); }
  }

  /** A ping of two milliseconds at two gigabytes a second, in packets of one
      full datagram, lasts several minutes. */
  lemma FastPingIsSlow()
    ensures var r := PingRate(Rate(5, PING_INTERVAL), FULL_SIZE, 2000000, 2);
            r.count * r.interval > 500_000_000
  {
    var size, speed, time := FULL_SIZE, 2000000, 2;
    PingRateMeets(Rate(5, PING_INTERVAL), size, speed, time);
    SendRateMeets(Rate(5, PING_INTERVAL), size, speed, time);
    var r := SendRate(Rate(5, PING_INTERVAL), size, speed, time);
    assert r.count >= 2700;
    assert PingRate(Rate(5, PING_INTERVAL), size, speed, time).interval == PING_INTERVAL;
  }

  /** A command resolves its rate in place. */
  class RatedCommand {
    var count: int
    var interval: int
    var size: nat

    method ResolveSend(speed: int, time: int)
      requires size > 0
      modifies this`count, this`interval
      ensures Rate(count, interval) == SendRate(old(Rate(count, interval)), size, speed, time)
    {
      if speed > 0 && time > 0 {
        PerPacket(size, speed);
        Positive(1000000.0, (1.0 * speed as real * 1024.0) / size as real);
        count := Ceil((speed * 1024) as real * (time as real / 1000.0) / size as real);
        interval := Truncated(1000000.0 / ((1.0 * speed as real * 1024.0) / size as real));
      } else if interval > 0 && time > 0 {
        Positive(time as real * 1000.0, interval as real);
        count := Truncated(time as real * 1000.0 / interval as real);
      }
    }

    method ResolvePing(speed: int, time: int)
      requires size > 0
      modifies this
      ensures size == PingSize(old(size), speed, time)
      ensures Rate(count, interval) == PingRate(old(Rate(count, interval)), old(size), speed, time)
    {
      if speed > 0 && time > 0 && size == PING_SIZE { size := FULL_SIZE; }
      ResolveSend(speed, time);
      if interval <= 0 { interval := PING_INTERVAL; }
    }
  }
}
