/** The beat of a sender's payload: with an interval, its timer runs out between any
    two of its attempts. */
module PayloadRhythm {
  import opened Wrappers
  import opened Commands
  import opened SpeedGauge
  import opened MulticastPacing
  import opened CommandSenders
  import opened Peers
  import opened ServerRuns

  // ------------------------------------------------------------ beats

  predicate EndsWith(beats: seq<Beat>, b: Beat) { beats != [] && beats[|beats| - 1] == b }

  /** No two attempts in a row. */
  predicate Alternate(beats: seq<Beat>) {
    forall i :: 0 <= i < |beats| - 1 ==> !(beats[i].Write? && beats[i + 1].Write?)
  }

  function Count(beats: seq<Beat>, b: Beat): nat {
    if beats == [] then 0 else Count(beats[..|beats| - 1], b) + if beats[|beats| - 1] == b then 1 else 0
  }

  lemma CountNext(beats: seq<Beat>, b: Beat, c: Beat)
    ensures Count(beats + [b], c) == Count(beats, c) + if b == c then 1 else 0
  {
    assert (beats + [b])[..|beats|] == beats;
  }

  lemma AlternateNext(beats: seq<Beat>, b: Beat)
    requires Alternate(beats) && !(b.Write? && EndsWith(beats, Write))
    ensures Alternate(beats + [b])
  {
    var next := beats + [b];
    assert forall i :: 0 <= i < |beats| ==> next[i] == beats[i];
  }

  lemma TickBetween(beats: seq<Beat>, i: nat, j: nat)
    requires Alternate(beats) && i < j < |beats| && beats[i].Write? && beats[j].Write?
    ensures exists k :: i < k < j && beats[k].Tick?
  {
    assert beats[i + 1].Tick?;
  }

  lemma {:induction false} WritesBounded(beats: seq<Beat>)
    requires Alternate(beats)
    ensures Count(beats, Write) <= Count(beats, Tick) + if EndsWith(beats, Write) then 1 else 0
  {
    if beats != [] {
      var front := beats[..|beats| - 1];
      assert beats == front + [beats[|front|]];
      assert forall i :: 0 <= i < |front| ==> front[i] == beats[i];
      WritesBounded(front);
    }
  }

  // ----------------------------------------------------- at every peer

  /** A command that waits between two attempts: a ping, or a send with an interval. */
  predicate Pauses(c: Command) { c.kind.Ping? || c.interval > 0 }

  predicate Rhythm(l: Link) {
    l.sender.Some? ==>
      var x := l.sender.value;
      && x.sendPackets <= Count(l.beats, Write)
      && (!x.started ==> l.beats == [])
      && (!x.cmd.kind.Ping? && !x.clock && !x.stoping ==> l.beats == [])
      && (Pauses(x.cmd) ==>
            && Alternate(l.beats) && (l.data ==> !EndsWith(l.beats, Write))
            && (PhaseOf(l, x).Payload? && !x.stopped && EndsWith(l.beats, Tick) ==> l.data))
  }

  lemma BeginRhythm(l: Link, c: Command)
    ensures Rhythm(Begin(l, c))
  {
  }

  /** Opening the barrier sets the write bit of a sender that has not begun. */
  lemma OpenRhythm(l: Link, count: nat)
    requires Rhythm(l) && Shares(false, count, l) && (l.sender.Some? ==> l.sender.value.cmd.kind.Multicast?)
    ensures Rhythm(l.(data := true))
  {
  }

  predicate SentAtMost(l: Link, l': Link)
    requires l.sender.Some? && l'.sender.Some?
  {
    l'.sender.value.sendPackets <= l.sender.value.sendPackets + 1
  }

  lemma PingWriteBeats(l: Link, p: Pacing, now: Clock, ok: bool)
    requires Sound(l) && l.data && l.sender.Some? && l.sender.value.cmd.kind.Ping?
    ensures var l' := ServerWrites(l, p, now, ok).0;
            && l'.sender.Some? && !l'.data && l'.beats == l.beats + [Write] && l'.sender.value.started
            && l'.sender.value.cmd == l.sender.value.cmd && SentAtMost(l, l')
  {
  }

  lemma SendWriteBeats(l: Link, p: Pacing, now: Clock, ok: bool)
    requires Sound(l) && l.data && l.sender.Some? && !l.sender.value.cmd.kind.Ping?
    ensures var l' := ServerWrites(l, p, now, ok).0;
            && l'.sender.Some? && (l.sender.value.cmd.interval > 0 ==> !l'.data) && l'.beats == l.beats + [Write]
            && l'.sender.value.started && (l'.sender.value.clock || l'.sender.value.stoping)
            && l'.sender.value.cmd == l.sender.value.cmd && SentAtMost(l, l')
  {
  }

  lemma WriteRhythm(l: Link, p: Pacing, now: Clock, ok: bool)
    requires Rhythm(l) && Sound(l) && (l.data || l.sender.None?)
    ensures Rhythm(ServerWrites(l, p, now, ok).0)
  {
    if l.sender.Some? {
      if l.sender.value.cmd.kind.Ping? { PingWriteBeats(l, p, now, ok); } else { SendWriteBeats(l, p, now, ok); }
      CountNext(l.beats, Write, Write);
      if Pauses(l.sender.value.cmd) { AlternateNext(l.beats, Write); }
    }
  }

  lemma TimerBeats(l: Link, p: Pacing)
    requires Sound(l) && l.sender.Some? && l.sender.value.timer
    ensures var l', x := TimerFires(l, p), l.sender.value;
            && l'.sender.Some? && l'.beats == l.beats + [Tick] && l'.sender.value.cmd == x.cmd
            && l'.sender.value.sendPackets == x.sendPackets && l'.sender.value.started
            && l'.sender.value.clock == x.clock && (x.cmd.kind.Ping? || x.clock || l'.sender.value.stoping)
            && (PhaseOf(l', l'.sender.value).Payload? ==> l'.data)
  {
  }

  lemma TimerRhythm(l: Link, p: Pacing)
    requires Rhythm(l) && Sound(l) && l.sender.Some? && l.sender.value.timer
    ensures Rhythm(TimerFires(l, p))
  {
    TimerBeats(l, p);
    CountNext(l.beats, Tick, Write);
    if Pauses(l.sender.value.cmd) { AlternateNext(l.beats, Tick); }
  }

  lemma SendRhythm(l: Link, ok: bool)
    requires Rhythm(l) && Sound(l) && l.sender.Some? && l.control
    ensures Rhythm(ServerSends(l, ok).0)
  {
  }

  lemma ReadRhythm(l: Link, k: Nanos)
    requires Rhythm(l) && Sound(l) && (l.toServer != [] || l.closed)
    ensures Rhythm(ServerReads(l, k).0)
  {
  }

  lemma QuietRhythm(l: Link, l': Link)
    requires Rhythm(l) && Quiet(l, l') && l'.beats == l.beats && Sound(l)
    ensures Rhythm(l')
  {
  }

  lemma EchoKeepsBeats(l: Link, legal: bool, delay: int, index: nat)
    ensures EchoArrives(l, legal, delay, index).beats == l.beats
  {
  }

  lemma QuietStepRhythm(l: Link, p: Pacing, e: PeerEvent)
    requires Rhythm(l) && Sound(l) && PeerEnabled(l, e) && IsQuiet(e)
    ensures Rhythm(PeerStep(l, p, e).0)
  {
    if e.ServerEcho? {
      EchoQuiet(l, e.legal, e.delay, e.index);
      EchoKeepsBeats(l, e.legal, e.delay, e.index);
    } else {
      ClientQuiet(l, p, e);
    }
    QuietRhythm(l, PeerStep(l, p, e).0);
  }

  lemma StepRhythm(l: Link, p: Pacing, e: PeerEvent)
    requires Rhythm(l) && Sound(l) && PeerEnabled(l, e)
    ensures Rhythm(PeerStep(l, p, e).0)
  {
    match e
    case ServerSend(ok) => SendRhythm(l, ok);
    case ServerRead(k) => ReadRhythm(l, k);
    case ServerWrite(now, ok) => WriteRhythm(l, p, now, ok);
    case TimerRunsOut => TimerRhythm(l, p);
    case ServerDataFails =>
    case _ => QuietStepRhythm(l, p, e);
  }
}
