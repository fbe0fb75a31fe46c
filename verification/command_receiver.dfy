/** The two receivers at a client: one counts and filters what "send" delivers,
    the other echoes what "ping" delivers. */
module CommandReceivers {
  import opened SequenceWindow
  import opened DuplicateFilter
  import opened Arithmetic
  import opened DelayStatistics
  import opened Commands
  import opened NetStats
  import opened SpeedGauge

  /** A datagram as it is read: `size` bytes, and what its head says. `delay` is
      the local clock less the time stamp, in nanoseconds, and `window` the time
      since the speed window began. `number` records which packet of its sender it
      is; the head carries 16 bits of it, and nothing looks at the rest. */
  datatype Datagram = Datagram(size: nat, sequence: SeqNo, length: nat, token: char, delay: int, window: Nanos, number: int)

  predicate Legal(d: Datagram, token: char) {
    d.size >= HEAD_SIZE && d.token == token && d.size == d.length
  }

  // ------------------------------------------------------ the "send" receiver

  /** `numbers` records the legal datagrams in the order of their arrival. */
  datatype SendState = SendState(filter: Filter, delays: Delays, gauge: Gauge, bytes: nat, illegal: nat, numbers: seq<int>)

  function NewSendState(): SendState { SendState(NO_ARRIVALS, NO_DELAYS, NO_SPEEDS, 0, 0, []) }

  function SendRecv(r: SendState, d: Datagram, c: Command): SendState {
    if !Legal(d, c.token) then r.(illegal := r.illegal + 1)
    else if r.filter.window.bits[d.sequence] then
      r.(filter := Arrive(r.filter, d.sequence), numbers := r.numbers + [d.number])
    else
      SendState(Arrive(r.filter, d.sequence), Observe(r.delays, d.delay, c.timeout), Measure(r.gauge, d.size, d.window),
                r.bytes + d.size, r.illegal, r.numbers + [d.number])
  }

  /** The speeds of the result: none when less than a millisecond has passed. */
  function SpeedReport(stat: NetStat, g: Gauge, elapsed: Nanos): NetStat {
    if elapsed < NANOS then stat
    else stat.(recvTime := elapsed / NANOS,
               recvSpeed := PerSecond(Counted(stat.recvBytes), elapsed), recvPps := PerSecond(Counted(stat.recvPackets), elapsed),
               maxRecvSpeed := g.max, minRecvSpeed := if g.min > 0 then g.min else 0)
  }

  /** A counter, which is never negative. */
  function Counted(n: int): nat { if n < 0 then 0 else n }

  /** The result of a "send" receiver, `elapsed` nanoseconds after its first packet;
      `outside` counts the datagrams that came while no receiver listened. */
  function SendResult(r: SendState, outside: nat, elapsed: Nanos): NetStat {
    var d := SendReport(r.delays);
    SpeedReport(
      ZERO_STAT.(recvBytes := r.bytes, recvPackets := r.filter.recv, illegalPackets := r.illegal + outside,
                 reorderPackets := r.filter.reorder, duplicatePackets := r.filter.duplicate,
                 timeoutPackets := r.delays.timeouts,
                 delay := d.delay, maxDelay := d.maxDelay, minDelay := d.minDelay,
                 jitter := d.jitter, jitterStd := d.jitterStd),
      r.gauge, elapsed)
  }

  /** The delay fields of a result. */
  function DelaysOf(stat: NetStat): DelayReport {
    DelayReport(stat.delay, stat.minDelay, stat.maxDelay, stat.jitter, stat.jitterStd)
  }

  /** What the counters of the receiver are reported as, whatever the time. */
  lemma ResultFields(r: SendState, outside: nat, elapsed: Nanos)
    ensures var stat := SendResult(r, outside, elapsed);
            && stat.recvPackets == r.filter.recv && stat.duplicatePackets == r.filter.duplicate
            && stat.reorderPackets == r.filter.reorder && stat.illegalPackets == r.illegal + outside
            && stat.recvBytes == r.bytes && stat.timeoutPackets == r.delays.timeouts && stat.loss == 0.0
            && DelaysOf(stat) == SendReport(r.delays)
  {
  }

  /** The speeds and rates of the result are those of its own counters; below a
      millisecond there are none. */
  lemma ResultRates(r: SendState, outside: nat, elapsed: Nanos)
    ensures var stat := SendResult(r, outside, elapsed);
            if elapsed < NANOS then stat.recvTime == stat.recvSpeed == stat.recvPps == 0
            else
              && IsRate(stat.recvSpeed, stat.recvBytes, elapsed) && IsRate(stat.recvPps, stat.recvPackets, elapsed)
              && stat.recvTime * NANOS <= elapsed < (stat.recvTime + 1) * NANOS
  {
    if elapsed >= NANOS {
      PerSecondIsRate(r.bytes, elapsed);
      PerSecondIsRate(r.filter.recv, elapsed);
      Division(elapsed, NANOS);
    }
  }

  /** The receiver with its ring in place. */
  class SendCommandReceiver {
    const command: Command
    var packets: array<bool>
    var sequence: SeqNo
    var recvCount: nat
    var duplicates: nat
    var reorders: nat
    var illegal: nat
    var bytes: nat
    var avg: int
    var min: int
    var max: int
    var headAvg: int
    var varn: int
    var std: nat
    var timeouts: nat
    var latestBytes: nat
    var minSpeed: int
    var maxSpeed: int
    ghost var numbers: seq<int>

    ghost predicate Valid() reads this { packets.Length == 0x1_0000 }

    ghost function Ring(): Window
      requires Valid()
      reads this, packets
    {
      Window(packets[..], sequence)
    }

    ghost function View(): SendState
      requires Valid()
      reads this, packets
    {
      SendState(FilterView(), DelaysAfter(recvCount), Speeds(), bytes, illegal, numbers)
    }

    ghost function FilterView(): Filter
      requires Valid()
      reads this, packets
    {
      Filter(Ring(), recvCount, duplicates, reorders)
    }

    ghost function Speeds(): Gauge
      reads this
    {
      Gauge(latestBytes, minSpeed, maxSpeed)
    }

    /** The delay figures, taken to be those of `n` packets. */
    ghost function DelaysAfter(n: nat): Delays
      reads this
    {
      Delays(n, avg, min, max, headAvg, varn, std, timeouts)
    }

    constructor (c: Command)
      ensures Valid() && fresh(packets) && View() == NewSendState() && command == c
    {
      command := c;
      packets := new bool[0x1_0000](i => false);
      sequence, recvCount, duplicates, reorders, illegal, bytes := 0, 0, 0, 0, 0, 0;
      avg, min, max, headAvg, varn, std, timeouts := 0, 0, 0, 0, 0, 0, 0;
      latestBytes, minSpeed, maxSpeed, numbers := 0, -1, 0, [];
      new;
      assert packets[..] == ClearBits();
    }

    /** The bits and the expected number, after a number whose bit was clear. */
    method MarkReceived(s: SeqNo)
      requires Valid()
      modifies this`sequence, packets
      ensures Valid() && Ring() == Accept(old(Ring()), s)
    {
      ghost var w := Ring();
      var jump := s - sequence;
      if ClearsAhead(jump) {
        ClearLost(s);
      } else {
        NothingToClear(w.bits, Wrap(w.expected + HALF));
      }
      packets[s] := true;
      packets[Wrap(s + HALF)] := false;
      assert packets[..] == Mark(w, s);
      SkipReceived(s);
    }

    /** Moves the expected number on, past the packets that came before their turn. */
    method SkipReceived(s: SeqNo)
      requires Valid() && !packets[Wrap(s + HALF)]
      modifies this`sequence
      ensures Valid() && sequence == Wrap(NextClear(packets[..], s + 1, s + HALF))
    {
      ghost var bits, n := packets[..], s + 1;
      sequence := Wrap(s + 1);
      while packets[sequence]
        invariant n <= s + HALF && sequence == Wrap(n)
        invariant NextClear(bits, s + 1, s + HALF) == NextClear(bits, n, s + HALF)
        decreases s + HALF - n
      {
        WrapSum(n, 1);
        n := n + 1;
        sequence := Wrap(sequence + 1);
      }
    }

    /** Clears the cells half a turn ahead of the packets that were skipped. */
    method ClearLost(s: SeqNo)
      requires Valid()
      modifies this`sequence, packets
      ensures Valid() && sequence == s
      ensures packets[..] == ClearRange(old(packets[..]), Wrap(old(sequence) + HALF), Wrap(s - old(sequence)))
    {
      ghost var bits, from, todo, k := packets[..], sequence, Wrap(s - sequence), 0;
      NothingToClear(bits, Wrap(from + HALF));
      while sequence != s
        invariant 0 <= k <= todo && sequence == Wrap(from + k)
        invariant packets[..] == ClearRange(bits, Wrap(from + HALF), k)
        decreases todo - k
      {
        StillToClear(from, s, k);
        OneMoreCleared(bits, from, k);
        packets[Wrap(sequence + HALF)] := false;
        sequence := Wrap(sequence + 1);
        k := k + 1;
      }
      StillToClear(from, s, k);
    }

    /** One datagram on the data socket. */
    method Recv(d: Datagram)
      requires Valid()
      modifies this, packets
      ensures Valid() && View() == SendRecv(old(View()), d, command)
    {
      if !Legal(d, command.token) {
        illegal := illegal + 1;
        return;
      }
      numbers := numbers + [d.number];
      if packets[d.sequence] {
        duplicates := duplicates + 1;
        return;
      }
      TakeIn(d);
    }

    /** A legal datagram whose number has not been received yet. */
    method TakeIn(d: Datagram)
      requires Valid() && !packets[d.sequence]
      modifies this, packets
      ensures Valid() && FilterView() == Arrive(old(FilterView()), d.sequence)
      ensures DelaysAfter(recvCount) == Observe(old(DelaysAfter(recvCount)), d.delay, command.timeout)
      ensures Speeds() == Measure(old(Speeds()), d.size, d.window)
      ensures bytes == old(bytes) + d.size && illegal == old(illegal) && numbers == old(numbers)
    {
      ghost var before := DelaysAfter(recvCount);
      CountNew(d);
      assert DelaysAfter(recvCount - 1) == before;
      MeasureDelay(d.delay);
      MeasureSpeed(d.size, d.window);
    }

    /** The bytes of the open window, and its speed when it closes. */
    method MeasureSpeed(size: nat, window: Nanos)
      modifies this`latestBytes, this`minSpeed, this`maxSpeed
      ensures Speeds() == Measure(old(Speeds()), size, window)
    {
      latestBytes := latestBytes + size;
      if window >= SECOND {
        var speed := PerSecond(latestBytes, window);
        minSpeed := if minSpeed == -1 then speed else Min(minSpeed, speed);
        maxSpeed := Max(maxSpeed, speed);
        latestBytes := 0;
      }
    }

    /** The fields of the result; `outside` and `elapsed` as in SendResult. */
    method Result(outside: nat, elapsed: Nanos) returns (stat: NetStat)
      requires Valid()
      ensures stat == SendResult(View(), outside, elapsed)
    {
      stat := ZERO_STAT.(
        recvBytes := bytes, recvPackets := recvCount, illegalPackets := illegal + outside,
        reorderPackets := reorders, duplicatePackets := duplicates, timeoutPackets := timeouts,
        delay := Millis(avg - min), maxDelay := Millis(max - min), minDelay := 0,
        jitter := Millis(headAvg - min), jitterStd := Millis(std));
      if elapsed >= NANOS {
        stat := stat.(recvTime := elapsed / NANOS, recvSpeed := PerSecond(bytes, elapsed));
        stat := stat.(recvPps := PerSecond(recvCount, elapsed), maxRecvSpeed := maxSpeed);
        if minSpeed > 0 { stat := stat.(minRecvSpeed := minSpeed); }
      }
    }

    /** The counters and the ring, for such a datagram. */
    method CountNew(d: Datagram)
      requires Valid() && !packets[d.sequence]
      modifies this`recvCount, this`bytes, this`reorders, this`sequence, packets
      ensures Valid() && bytes == old(bytes) + d.size && recvCount == old(recvCount) + 1
      ensures FilterView() == Arrive(old(FilterView()), d.sequence)
    {
      recvCount, bytes := recvCount + 1, bytes + d.size;
      if d.sequence != sequence { reorders := reorders + 1; }
      MarkReceived(d.sequence);
    }

    /** The delay figures, for the packet that was just counted. */
    method MeasureDelay(delay: int)
      requires recvCount > 0
      modifies this`avg, this`min, this`max, this`headAvg, this`varn, this`std, this`timeouts
      ensures DelaysAfter(recvCount) == Observe(old(DelaysAfter(recvCount - 1)), delay, command.timeout)
    {
      if recvCount == 1 { headAvg, avg, max, min := delay, delay, delay, delay; }
      if delay - min > command.timeout * 1000 * 1000 { timeouts := timeouts + 1; }
      max, min := Max(max, delay), Min(min, delay);
      avg := avg + Quot(delay - avg, recvCount);
      if recvCount <= HEAD { headAvg := avg; }
      varn := varn + Product(delay - headAvg, delay - headAvg);
      std := Deviation(varn, recvCount);
    }
  }

  // ------------------------------------------------------ the "ping" receiver

  /** `accepted` and `echoed` record what was taken in and what was sent back;
      `writable` is the write bit of the data socket. */
  datatype EchoState = EchoState(recv: nat, sent: nat, queue: seq<Datagram>, illegal: nat, writable: bool,
                                 accepted: seq<Datagram>, echoed: seq<Datagram>)

  function NewEchoState(): EchoState { EchoState(0, 0, [], 0, false, [], []) }

  function EchoRecv(r: EchoState, d: Datagram, c: Command): EchoState {
    if !Legal(d, c.token) then r.(illegal := r.illegal + 1)
    else r.(recv := r.recv + 1, queue := r.queue + [d], writable := true, accepted := r.accepted + [d])
  }

  /** Sending from the queue when only the next `budget` sends succeed. */
  function EchoSend(r: EchoState, budget: nat): EchoState {
    var k := if budget < |r.queue| then budget else |r.queue|;
    r.(sent := r.sent + k, queue := r.queue[k..], writable := false, echoed := r.echoed + r.queue[..k])
  }

  function EchoResult(r: EchoState, outside: nat): NetStat {
    ZERO_STAT.(recvPackets := r.recv, sendPackets := r.sent, illegalPackets := r.illegal + outside)
  }

  /** Nothing accepted is lost or echoed out of order, and the data socket asks
      to write exactly when there is something to echo. */
  ghost predicate EchoSound(r: EchoState) {
    && r.recv == |r.accepted| && r.sent == |r.echoed|
    && r.accepted == r.echoed + r.queue
    && (r.writable <==> r.queue != [])
  }

  /** Kept by every datagram, and by every send that does not fail. */
  lemma EchoKeepsOrder(r: EchoState, d: Datagram, c: Command, budget: nat)
    requires EchoSound(r)
    ensures EchoSound(EchoRecv(r, d, c))
    ensures budget >= |r.queue| ==> EchoSound(EchoSend(r, budget)) && EchoSend(r, budget).echoed == r.accepted
    ensures var r' := EchoSend(r, budget);
            r'.accepted == r'.echoed + r'.queue && r'.recv == r'.sent + |r'.queue|
  {
  }

  /** The receiver with its queue in place. */
  class EchoCommandReceiver {
    const command: Command
    var recvCount: nat
    var sendCount: nat
    var queue: seq<Datagram>
    var illegal: nat
    var writable: bool
    ghost var accepted: seq<Datagram>
    var wire: seq<Datagram>

    ghost function View(): EchoState
      reads this
    {
      EchoState(recvCount, sendCount, queue, illegal, writable, accepted, wire)
    }

    constructor (c: Command)
      ensures View() == NewEchoState() && command == c
    {
      command := c;
      recvCount, sendCount, queue, illegal, writable, accepted, wire := 0, 0, [], 0, false, [], [];
    }

    method Recv(d: Datagram)
      modifies this
      ensures View() == EchoRecv(old(View()), d, command)
    {
      if !Legal(d, command.token) {
        illegal := illegal + 1;
        return;
      }
      queue, writable := queue + [d], true;
      accepted := accepted + [d];
      recvCount := recvCount + 1;
    }

    /** Empties the queue onto the wire; stops at the send that fails. */
    method Send(budget: nat) returns (ok: bool)
      modifies this
      ensures View() == EchoSend(old(View()), budget)
      ensures ok <==> old(|queue|) <= budget
    {
      writable := false;
      ghost var before, start, sent := queue, wire, 0;
      var left := budget;
      while |queue| > 0
        invariant 0 <= sent <= |before| && left == budget - sent >= 0
        invariant queue == before[sent..] && wire == start + before[..sent]
        invariant sendCount == old(sendCount) + sent && !writable
        invariant recvCount == old(recvCount) && illegal == old(illegal) && accepted == old(accepted)
        decreases |queue|
      {
        if left == 0 { return false; }
        OneMoreSent(before, start, sent);
        wire := wire + [queue[0]];
        sendCount := sendCount + 1;
        queue := queue[1..];
        left, sent := left - 1, sent + 1;
      }
      ok := true;
    }
  }

  lemma OneMoreSent(before: seq<Datagram>, start: seq<Datagram>, sent: nat)
    requires sent < |before|
    ensures before[sent..][1..] == before[sent + 1..]
    ensures start + before[..sent] + [before[sent..][0]] == start + before[..sent + 1]
  {
  }

  lemma NothingToClear(bits: Bits, from: SeqNo)
    ensures ClearRange(bits, from, 0) == bits
  {
  }

  lemma StillToClear(from: SeqNo, s: SeqNo, k: nat)
    requires k <= Wrap(s - from)
    ensures Wrap(from + k) == s <==> k == Wrap(s - from)
    ensures Wrap(Wrap(from + k) + 1) == Wrap(from + k + 1)
  {
    WrapSum(from + k, 1);
    WrapDifference(s, from);
  }

  lemma CellCleared(from: SeqNo, k: nat, i: nat)
    requires k < MAX_SEQ && i < MAX_SEQ
    ensures Wrap(i - Wrap(from + HALF)) == k <==> i == Wrap(Wrap(from + k) + HALF)
  {
    WrapSum(from + k, HALF);
    WrapDifference(i, from + HALF);
    WrapSolve(i, from + HALF, k);
  }

  lemma OneMoreCleared(bits: Bits, from: SeqNo, k: nat)
    requires k < MAX_SEQ
    ensures ClearRange(bits, Wrap(from + HALF), k)[Wrap(Wrap(from + k) + HALF) := false]
              == ClearRange(bits, Wrap(from + HALF), k + 1)
  {
    var start, cell := Wrap(from + HALF), Wrap(Wrap(from + k) + HALF);
    var one, two := ClearRange(bits, start, k)[cell := false], ClearRange(bits, start, k + 1);
    forall i | 0 <= i < MAX_SEQ ensures one[i] == two[i] {
      CellCleared(from, k, i);
    }
  }
}
