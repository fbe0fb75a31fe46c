/** The socket that all peers of a multicast command share: its counter, and not
    that of the sender, numbers the datagrams, and its clock keeps them apart. */
module MulticastPacing {
  import opened Arithmetic
  import opened SequenceWindow
  import opened Commands

  /** A reading of the clock, in nanoseconds. */
  type Clock = int

  /** `count` and `begin` are the shared static counter and the time of the last send,
      `finished` is the flag of the running command. `stamps` and `times` record the
      numbers written into heads and when, `failed` the sends that went wrong after
      the counter had moved on. */
  datatype Pacing = Pacing(count: nat, finished: bool, begin: Clock, stamps: seq<SeqNo>, times: seq<Clock>, failed: nat)

  const RESTARTED: Pacing := Pacing(0, false, 0, [], [], 0)

  datatype Attempt = Skipped | Sent | Failed

  /** The whole microseconds between two readings. */
  function Waited(since: Clock, now: Clock): int { Quot(now - since, 1000) }

  /** MultiCastSock::Send, at the time `now`. */
  function PacedSend(p: Pacing, c: Command, now: Clock, ok: bool): (Pacing, Attempt) {
    if p.count >= c.count || Waited(p.begin, now) < c.interval then (p, Skipped)
    else
      (Pacing(p.count + 1, p.count + 1 >= c.count, now, p.stamps + [Wrap(p.count)], p.times + [now],
              if ok then p.failed else p.failed + 1),
       if ok then Sent else Failed)
  }

  /** The numbers 0, 1, 2, ... in their 16-bit form, none repeated or skipped. */
  predicate Consecutive(stamps: seq<SeqNo>, n: nat) {
    |stamps| == n && forall i :: 0 <= i < n ==> stamps[i] == Wrap(i)
  }

  /** The `i`-th send and the one before it, which is at the origin of the clock for
      the first. */
  function Before(times: seq<Clock>, i: nat): Clock
    requires i <= |times|
  {
    if i == 0 then 0 else times[i - 1]
  }

  /** Between two sends at least `interval` microseconds have passed. */
  predicate Spaced(times: seq<Clock>, interval: int) {
    forall i :: 0 <= i < |times| ==> Waited(Before(times, i), times[i]) >= interval
  }

  predicate PacingSound(p: Pacing, c: Command) {
    && Consecutive(p.stamps, p.count)
    && p.failed <= p.count
    && (p.count > 0 ==> p.count <= c.count)
    && (p.finished <==> p.count > 0 && p.count >= c.count)
    && |p.times| == p.count && p.begin == Before(p.times, p.count) && Spaced(p.times, c.interval)
  }

  lemma NextIsSpaced(times: seq<Clock>, interval: int, now: Clock)
    requires Spaced(times, interval) && Waited(Before(times, |times|), now) >= interval
    ensures Spaced(times + [now], interval) && Before(times + [now], |times| + 1) == now
  {
    var next := times + [now];
    forall i | 0 <= i < |next| ensures Waited(Before(next, i), next[i]) >= interval {
      assert Before(next, i) == Before(times, i);
    }
  }

  lemma WaitedAtLeast(since: Clock, now: Clock, interval: int)
    requires interval > 0 && Waited(since, now) >= interval
    ensures now - since >= interval * 1000
  {
    QuotBounds(now - since, 1000);
  }

  /** One attempt: it is sent, or goes wrong, under the next number and after the
      interval; or nothing changes. */
  lemma PacedSendSound(p: Pacing, c: Command, now: Clock, ok: bool)
    requires PacingSound(p, c)
    ensures var (p', r) := PacedSend(p, c, now, ok);
            && PacingSound(p', c)
            && (if r.Skipped? then p' == p else p'.count == p.count + 1 && Waited(p.begin, now) >= c.interval)
            && p'.failed == (if r.Failed? then p.failed + 1 else p.failed)
  {
    if Waited(p.begin, now) >= c.interval { NextIsSpaced(p.times, c.interval, now); }
  }

  /** Sends that are spaced take their intervals together. */
  lemma {:induction false} SpacedTotal(times: seq<Clock>, interval: int, n: nat)
    requires Spaced(times, interval) && interval > 0 && n < |times|
    ensures times[n] - times[0] >= n * (interval * 1000)
  {
    if n > 0 {
      SpacedTotal(times, interval, n - 1);
      assert Before(times, n) == times[n - 1];
      WaitedAtLeast(times[n - 1], times[n], interval);
      OneMoreInterval(n - 1, n, interval * 1000);
    }
  }

  lemma OneMoreInterval(n: nat, n': nat, gap: int)
    requires n' == n + 1
    ensures n' * gap == n * gap + gap
  {
  }

  /** The static members, in place. */
  class MultiCastSock {
    var count: nat
    var finished: bool
    var begin: Clock
    var stamps: seq<SeqNo>
    ghost var times: seq<Clock>
    ghost var failed: nat

    ghost function View(): Pacing
      reads this
    {
      Pacing(count, finished, begin, stamps, times, failed)
    }

    method Start()
      modifies this
      ensures View() == RESTARTED
    {
      count, finished, begin, stamps, times, failed := 0, false, 0, [], [], 0;
    }

    method Send(c: Command, now: Clock, ok: bool) returns (r: Attempt)
      modifies this
      ensures (View(), r) == PacedSend(old(View()), c, now, ok)
    {
      if count >= c.count { return Skipped; }
      var interval := Waited(begin, now);
      if interval < c.interval { return Skipped; }
      begin := now;
      times := times + [now];
      stamps := stamps + [Wrap(count)];
      count := count + 1;
      finished := count >= c.count;
      if !ok { failed := failed + 1; }
      r := if ok then Sent else Failed;
    }
  }
}
