/** The text of a result: printing a NetStat, and reading it back through the
    tokenizer and the argument map. */
module ResultText {
  import opened Wrappers
  import opened CommandText
  import opened NetStats

  // ------------------------------------------------------------- integers

  function Digit(d: nat): char
    requires d < 10
  {
    '0' + d as char
  }

  predicate IsDigit(c: char) { '0' <= c <= '9' }

  function DigitValue(c: char): nat
    requires IsDigit(c)
  {
    c as int - '0' as int
  }

  function NatText(n: nat): string {
    if n < 10 then [Digit(n)] else NatText(n / 10) + [Digit(n % 10)]
  }

  /** operator<< for an integer. */
  function IntText(n: int): string { if n < 0 then "-" + NatText(-n) else NatText(n) }

  /** The value of the leading digits of `s`, after a value `sofar`. */
  function ReadDigits(s: string, sofar: nat): int {
    if s == "" || !IsDigit(s[0]) then sofar else ReadDigits(s[1..], 10 * sofar + DigitValue(s[0]))
  }

  /** atoi and atoll: blanks, a sign, digits; anything else ends the number. */
  function Atoi(text: string): int {
    var s := SkipBlanks(text);
    if s != "" && s[0] == '-' then -ReadDigits(s[1..], 0)
    else if s != "" && s[0] == '+' then ReadDigits(s[1..], 0)
    else ReadDigits(s, 0)
  }

  lemma {:induction false} ReadDigitsAppend(s: string, c: char, sofar: nat)
    requires IsDigit(c) && forall i :: 0 <= i < |s| ==> IsDigit(s[i])
    ensures ReadDigits(s + [c], sofar) == 10 * ReadDigits(s, sofar) + DigitValue(c)
  {
    if s == "" {
      assert (s + [c])[1..] == "";
    } else {
      assert (s + [c])[1..] == s[1..] + [c];
      ReadDigitsAppend(s[1..], c, 10 * sofar + DigitValue(s[0]));
    }
  }

  lemma {:induction false} NatTextReads(n: nat)
    ensures NatText(n) != "" && (forall i :: 0 <= i < |NatText(n)| ==> IsDigit(NatText(n)[i]))
    ensures ReadDigits(NatText(n), 0) == n
  {
    if n < 10 {
      assert NatText(n)[1..] == "";
    } else {
      NatTextReads(n / 10);
      ReadDigitsAppend(NatText(n / 10), Digit(n % 10), 0);
    }
  }

  /** Every integer is read back as it was printed. */
  lemma IntegerRoundTrip(n: int)
    ensures IsWord(IntText(n)) && Atoi(IntText(n)) == n
  {
    var m := if n < 0 then -n else n;
    NatTextReads(m);
    var s := IntText(n);
    assert forall i :: 0 <= i < |NatText(m)| ==> IsDigit(NatText(m)[i]) && !IsBlank(NatText(m)[i]);
    if n < 0 { assert s[1..] == NatText(m); }
    assert SkipBlanks(s) == s;
  }

  function Pow10(k: nat): nat { if k == 0 then 1 else 10 * Pow10(k - 1) }

  lemma {:induction false} NatTextLength(n: nat, k: nat)
    requires k > 0 && n < Pow10(k)
    ensures |NatText(n)| <= k
  {
    if n >= 10 { NatTextLength(n / 10, k - 1); }
  }

  // -------------------------------------------------- the printed properties

  const COUNT: nat := 31

  /** The names of the integer properties, in the order they are printed. */
  const KEYS: seq<string> := [
    "send_speed", "recv_speed", "send_avg_speed", "recv_avg_speed", "max_send_speed", "max_recv_speed",
    "min_send_speed", "min_recv_speed", "send_packets", "recv_packets", "illegal_packets", "reorder_packets",
    "duplicate_packets", "timeout_packets", "send_pps", "recv_pps", "send_bytes", "recv_bytes", "send_time",
    "recv_time", "max_send_time", "max_recv_time", "min_send_time", "min_recv_time", "delay", "min_delay",
    "max_delay", "jitter", "jitter_std", "peers_count", "peers_failed"]

  const RESULT: string := "result"
  const LOSS: string := "loss"
  const ZERO: string := "0"

  const WIDE: seq<bool> := [
    true, true, true, true, true, true, true, true, true, true, true, true, true, true, true, true, true,
    true, false, false, false, false, false, false, false, false, false, false, true, false, false]

  /** The values of the integer properties, in the same order. */
  function Values(s: NetStat): seq<int> {
    [
      s.sendSpeed, s.recvSpeed, s.sendAvgSpeed, s.recvAvgSpeed, s.maxSendSpeed, s.maxRecvSpeed,
      s.minSendSpeed, s.minRecvSpeed, s.sendPackets, s.recvPackets, s.illegalPackets, s.reorderPackets,
      s.duplicatePackets, s.timeoutPackets, s.sendPps, s.recvPps, s.sendBytes, s.recvBytes, s.sendTime,
      s.recvTime, s.maxSendTime, s.maxRecvTime, s.minSendTime, s.minRecvTime, s.delay, s.minDelay,
      s.maxDelay, s.jitter, s.jitterStd, s.peersCount, s.peersFailed]
  }

  /** The macro W: a property is left out only on a terminal, when it is zero. */
  function Entry(key: string, value: string, isZero: bool, istty: bool): seq<string> {
    if !istty || !isZero then [key, value] else []
  }

  /** The words of the properties from the ith on. */
  function Entries(keys: seq<string>, values: seq<int>, i: nat, istty: bool): seq<string>
    requires i <= |keys| == |values|
    decreases |keys| - i
  {
    if i == |keys| then []
    else Entry(keys[i], IntText(values[i]), values[i] == 0, istty) + Entries(keys, values, i + 1, istty)
  }

  function ResultWords(keys: seq<string>, values: seq<int>, loss: real, lossText: string, istty: bool): seq<string>
    requires |keys| == |values|
  {
    [RESULT] + Entry(LOSS, lossText, loss == 0.0, istty) + Entries(keys, values, 0, istty)
  }

  /** ResultCommand::Serialize, for a loss that prints as `lossText`. */
  function Serialize(s: NetStat, lossText: string, istty: bool): string {
    Joined(ResultWords(KEYS, Values(s), s.loss, lossText, istty))
  }

  /** args[key], which is empty for a key that is missing. */
  function Lookup(args: Args, key: string): string { if key in args then args[key] else "" }

  /** The stat whose integer properties have the values `v`, in the same order. */
  function FromValues(loss: real, v: seq<int>): NetStat
    requires |v| == COUNT
  {
    NetStat(loss,
            v[0], v[1], v[2], v[3], v[4], v[5], v[6], v[7], v[8], v[9], v[10], v[11], v[12], v[13], v[14],
            v[15], v[16], v[17], v[18], v[19], v[20], v[21], v[22], v[23], v[24], v[25], v[26], v[27], v[28],
            v[29], v[30])
  }

  function ReadStat(keys: seq<string>, args: Args): Option<NetStat>
    requires |keys| == COUNT
  {
    if Lookup(args, LOSS) != "" && Lookup(args, LOSS) != ZERO then None
    else Some(FromValues(0.0, seq(COUNT, i requires 0 <= i < COUNT => Atoi(Lookup(args, keys[i])))))
  }

  /** FromCommandArgs; of the texts atof reads, only those of zero are modelled. */
  function FromCommandArgs(args: Args): Option<NetStat> { ReadStat(KEYS, args) }

  // ------------------------------------------------------- distinct names

  /** Three letters of a name, its length included, that tell the names apart. */
  function Signature(k: string): int
    requires |k| > 2
  {
    |k| * 65536 + k[2] as int * 256 + k[if |k| > 6 then 6 else |k| - 1] as int
  }

  const SIGNATURES: seq<int> := [
    683632, 680816, 945782, 942966, 948334, 948323, 945774, 945763, 814689, 811873, 1010796, 1011570,
    1142881, 1011060, 552560, 549744, 683641, 680825, 618089, 615273, 882798, 882787, 880238, 880227, 355449,
    618092, 620652, 423026, 685151, 746851, 812390]

  /** The most characters the value of a property takes: a 64-bit or a 32-bit
      integer with its sign. */
  function Digits(wide: bool): nat { if wide then 20 else 11 }

  /** The most characters the properties from the ith on can take. */
  const BUDGET: seq<nat> := [
    932, 900, 868, 832, 796, 760, 724, 688, 652, 618, 584, 547, 510, 471, 434, 404, 374, 342, 310, 288, 266,
    240, 214, 188, 162, 144, 122, 100, 81, 49, 25, 0]

  /** What has to be checked of each name in the table. */
  ghost predicate GoodName(i: nat)
    requires i < COUNT
  {
    && IsWord(KEYS[i]) && |KEYS[i]| > 4
    && Signature(KEYS[i]) == SIGNATURES[i]
    && |KEYS[i]| + 1 + Digits(WIDE[i]) + 1 + BUDGET[i + 1] == BUDGET[i]
  }

  lemma GoodNames0(i: nat)
    requires i < 4
    ensures GoodName(i)
  {
  }

  lemma GoodNames4(i: nat)
    requires 4 <= i < 8
    ensures GoodName(i)
  {
  }

  lemma GoodNames8(i: nat)
    requires 8 <= i < 10
    ensures GoodName(i)
  {
  }

  lemma GoodNames10(i: nat)
    requires 10 <= i < 12
    ensures GoodName(i)
  {
  }

  lemma GoodNames12(i: nat)
    requires 12 <= i < 14
    ensures GoodName(i)
  {
  }

  lemma GoodNames14(i: nat)
    requires 14 <= i < 16
    ensures GoodName(i)
  {
  }

  lemma GoodNames16(i: nat)
    requires 16 <= i < 20
    ensures GoodName(i)
  {
  }

  lemma GoodNames20(i: nat)
    requires 20 <= i < 24
    ensures GoodName(i)
  {
  }

  lemma GoodNames24(i: nat)
    requires 24 <= i < 28
    ensures GoodName(i)
  {
  }

  lemma GoodNames28(i: nat)
    requires 28 <= i < COUNT
    ensures GoodName(i)
  {
  }

  lemma NameIsGood(i: nat)
    requires i < COUNT
    ensures GoodName(i)
  {
    if i < 4 { GoodNames0(i); } else if i < 8 { GoodNames4(i); }
    else if i < 10 { GoodNames8(i); } else if i < 12 { GoodNames10(i); }
    else if i < 14 { GoodNames12(i); } else if i < 16 { GoodNames14(i); }
    else if i < 20 { GoodNames16(i); } else if i < 24 { GoodNames20(i); }
    else if i < 28 { GoodNames24(i); } else { GoodNames28(i); }
  }

  lemma SignaturesDiffer(i: nat, j: nat)
    requires i < j < |SIGNATURES|
    ensures SIGNATURES[i] != SIGNATURES[j]
  {
  }

  ghost predicate Names(keys: seq<string>) {
    && (forall i :: 0 <= i < |keys| ==> IsWord(keys[i]))
    && (forall i, j :: 0 <= i < j < |keys| ==> keys[i] != keys[j])
    && (forall i :: 0 <= i < |keys| ==> keys[i] != LOSS)
  }

  /** All names are words, and no two are the same. */
  lemma NamesAreNames()
    ensures Names(KEYS) && IsWord(LOSS) && IsWord(RESULT) && IsWord(ZERO) && RESULT in REGISTERED
  {
    assert |KEYS| == COUNT;
    forall i | 0 <= i < COUNT ensures IsWord(KEYS[i]) && KEYS[i] != LOSS {
      NameIsGood(i);
    }
    forall i, j | 0 <= i < j < COUNT ensures KEYS[i] != KEYS[j] {
      NameIsGood(i);
      NameIsGood(j);
      SignaturesDiffer(i, j);
    }
  }

  // ------------------------------------------------------- the round trip

  ghost predicate AllWords(ws: seq<string>) { forall i :: 0 <= i < |ws| ==> IsWord(ws[i]) }

  lemma EntryWords(key: string, value: string, isZero: bool, istty: bool, rest: seq<string>)
    requires IsWord(key) && IsWord(value) && AllWords(rest) && |rest| % 2 == 0
    ensures var ws := Entry(key, value, isZero, istty) + rest; AllWords(ws) && |ws| % 2 == 0
  {
  }

  lemma {:induction false} EntriesAreWords(keys: seq<string>, values: seq<int>, i: nat, istty: bool)
    requires i <= |keys| == |values| && AllWords(keys)
    ensures AllWords(Entries(keys, values, i, istty)) && |Entries(keys, values, i, istty)| % 2 == 0
    decreases |keys| - i
  {
    if i < |keys| {
      EntriesAreWords(keys, values, i + 1, istty);
      IntegerRoundTrip(values[i]);
      EntryWords(keys[i], IntText(values[i]), values[i] == 0, istty, Entries(keys, values, i + 1, istty));
    }
  }

  /** `r` gives every name from the ith on a text that reads as its value, and
      is otherwise like `args`. */
  ghost predicate Carries(r: Args, args: Args, keys: seq<string>, values: seq<int>, i: nat)
    requires |keys| == |values|
  {
    && (forall j :: i <= j < |keys| ==> Atoi(Lookup(r, keys[j])) == values[j])
    && (forall k :: (forall j :: i <= j < |keys| ==> keys[j] != k) ==> Lookup(r, k) == Lookup(args, k))
  }

  lemma {:induction false} EntriesRead(keys: seq<string>, values: seq<int>, i: nat, istty: bool, args: Args, leftover: string)
    requires i <= |keys| == |values| && Names(keys)
    requires forall j :: i <= j < |keys| ==> keys[j] !in args
    ensures var r := ReadArgs(Entries(keys, values, i, istty), args, leftover);
            r.Some? && Carries(r.value, args, keys, values, i)
    decreases |keys| - i
  {
    if i < |keys| {
      var key, text, rest := keys[i], IntText(values[i]), Entries(keys, values, i + 1, istty);
      var all := Entries(keys, values, i, istty);
      assert forall j :: i + 1 <= j < |keys| ==> keys[j] != key;
      if !istty || values[i] != 0 {
        assert all == [key, text] + rest && all[2..] == rest;
        EntriesRead(keys, values, i + 1, istty, args[key := text], text);
        PrintedCarries(ReadArgs(rest, args[key := text], text).value, args, keys, values, i);
      } else {
        assert all == rest;
        EntriesRead(keys, values, i + 1, istty, args, leftover);
        ElidedCarries(ReadArgs(rest, args, leftover).value, args, keys, values, i);
      }
    }
  }

  /** The ith name was printed with its value. */
  lemma PrintedCarries(r: Args, args: Args, keys: seq<string>, values: seq<int>, i: nat)
    requires i < |keys| == |values| && forall j :: i + 1 <= j < |keys| ==> keys[j] != keys[i]
    requires Carries(r, args[keys[i] := IntText(values[i])], keys, values, i + 1)
    ensures Carries(r, args, keys, values, i)
  {
    var args' := args[keys[i] := IntText(values[i])];
    IntegerRoundTrip(values[i]);
    assert Lookup(r, keys[i]) == Lookup(args', keys[i]) == IntText(values[i]);
    forall k | forall j :: i <= j < |keys| ==> keys[j] != k ensures Lookup(r, k) == Lookup(args, k) {
      assert keys[i] != k;
      assert Lookup(r, k) == Lookup(args', k);
    }
  }

  /** The ith name was left out, with its value of zero. */
  lemma ElidedCarries(r: Args, args: Args, keys: seq<string>, values: seq<int>, i: nat)
    requires i < |keys| == |values| && forall j :: i + 1 <= j < |keys| ==> keys[j] != keys[i]
    requires values[i] == 0 && keys[i] !in args && Carries(r, args, keys, values, i + 1)
    ensures Carries(r, args, keys, values, i)
  {
    assert Lookup(r, keys[i]) == Lookup(args, keys[i]) == "";
  }

  lemma ValuesAreAll(s: NetStat)
    ensures |Values(s)| == |KEYS| == COUNT && FromValues(s.loss, Values(s)) == s
  {
  }

  /** What the tokenizer and the argument map make of a printed result. */
  lemma ResultWordsRead(keys: seq<string>, values: seq<int>, istty: bool)
    requires |keys| == |values| && Names(keys)
    requires IsWord(LOSS) && IsWord(RESULT) && IsWord(ZERO) && RESULT in REGISTERED
    ensures var words := ResultWords(keys, values, 0.0, ZERO, istty);
            && AllWords(words)
            && FromWords(words).Parsed? && FromWords(words).name == RESULT
            && Lookup(FromWords(words).args, LOSS) == (if istty then "" else ZERO)
            && forall j :: 0 <= j < |keys| ==> Atoi(Lookup(FromWords(words).args, keys[j])) == values[j]
  {
    var head, tail := Entry(LOSS, ZERO, true, istty), Entries(keys, values, 0, istty);
    var words := ResultWords(keys, values, 0.0, ZERO, istty);
    EntriesAreWords(keys, values, 0, istty);
    EntryWords(LOSS, ZERO, true, istty, tail);
    assert words[1..] == head + tail;
    if istty {
      assert words[1..] == tail;
      EntriesRead(keys, values, 0, istty, map[], "");
    } else {
      assert words[1..][2..] == tail;
      EntriesRead(keys, values, 0, istty, map[LOSS := ZERO], ZERO);
    }
  }

  /** The round trip for any names that are distinct words. */
  lemma NamedRoundTrip(keys: seq<string>, values: seq<int>, istty: bool)
    requires |keys| == |values| == COUNT && Names(keys)
    requires IsWord(LOSS) && IsWord(RESULT) && IsWord(ZERO) && RESULT in REGISTERED
    ensures var p := FromWords(Words(Joined(ResultWords(keys, values, 0.0, ZERO, istty))));
            p.Parsed? && p.name == RESULT && ReadStat(keys, p.args) == Some(FromValues(0.0, values))
  {
    var words := ResultWords(keys, values, 0.0, ZERO, istty);
    ResultWordsRead(keys, values, istty);
    WordsOfJoined(words);
    var args := FromWords(words).args;
    assert seq(COUNT, i requires 0 <= i < COUNT => Atoi(Lookup(args, keys[i]))) == values;
  }

  // ------------------------------------------------------- the length bound

  predicate InRange(v: int, wide: bool) {
    if wide then -0x8000_0000_0000_0000 <= v < 0x8000_0000_0000_0000 else -0x8000_0000 <= v < 0x8000_0000
  }

  lemma ValueLength(v: int, wide: bool)
    requires InRange(v, wide)
    ensures |IntText(v)| <= Digits(wide)
  {
    var m := if v < 0 then -v else v;
    assert m < Pow10(Digits(wide) - 1) by {
      assert Pow10(10) == 10_000_000_000;
      assert Pow10(19) == 1_000_000_000 * Pow10(10);
    }
    NatTextLength(m, Digits(wide) - 1);
  }

  lemma {:induction false} JoinedLength(ws: seq<string>, vs: seq<string>)
    ensures |Joined(ws + vs)| == |Joined(ws)| + |Joined(vs)|
  {
    if ws == [] {
      assert ws + vs == vs;
    } else {
      assert (ws + vs)[1..] == ws[1..] + vs;
      JoinedLength(ws[1..], vs);
    }
  }

  lemma EntryLength(key: string, value: string, isZero: bool, istty: bool)
    ensures |Joined(Entry(key, value, isZero, istty))| <= |key| + 1 + |value| + 1
  {
    assert [key, value][1..] == [value] && [value][1..] == [];
    assert Joined([key, value]) == key + [' '] + Joined([value]);
    assert Joined([value]) == value + [' '] + Joined([]);
  }

  lemma {:induction false} EntriesLength(keys: seq<string>, wide: seq<bool>, budget: seq<nat>, values: seq<int>, i: nat, istty: bool)
    requires i <= |keys| == |values| == |wide| && |budget| == |keys| + 1
    requires forall j :: 0 <= j < |keys| ==> |keys[j]| + 1 + Digits(wide[j]) + 1 + budget[j + 1] == budget[j]
    requires forall j :: 0 <= j < |keys| ==> InRange(values[j], wide[j])
    ensures |Joined(Entries(keys, values, i, istty))| <= budget[i]
    decreases |keys| - i
  {
    if i < |keys| {
      var entry := Entry(keys[i], IntText(values[i]), values[i] == 0, istty);
      ValueLength(values[i], wide[i]);
      EntryLength(keys[i], IntText(values[i]), values[i] == 0, istty);
      JoinedLength(entry, Entries(keys, values, i + 1, istty));
      EntriesLength(keys, wide, budget, values, i + 1, istty);
    }
  }

  /** A loss with six significant digits takes at most thirteen characters. */
  const LOSS_DIGITS: nat := 13

  /** Every result with integers of the widths of the source fits, with room to
      spare, into the longest command that is read. */
  lemma ResultFits(s: NetStat, lossText: string, istty: bool)
    requires |lossText| <= LOSS_DIGITS && forall i :: 0 <= i < COUNT ==> InRange(Values(s)[i], WIDE[i])
    ensures |Serialize(s, lossText, istty)| <= 958 <= MAX_CMD_LENGTH - MAX_TOKEN_LENGTH
  {
    forall i | 0 <= i < COUNT
      ensures |KEYS[i]| + 1 + Digits(WIDE[i]) + 1 + BUDGET[i + 1] == BUDGET[i]
    {
      NameIsGood(i);
    }
    FitsWithin(KEYS, WIDE, BUDGET, Values(s), s.loss, lossText, istty);
  }

  lemma FitsWithin(keys: seq<string>, wide: seq<bool>, budget: seq<nat>, values: seq<int>, loss: real, lossText: string, istty: bool)
    requires |keys| == |values| == |wide| && |budget| == |keys| + 1 && |lossText| <= LOSS_DIGITS
    requires forall j :: 0 <= j < |keys| ==> |keys[j]| + 1 + Digits(wide[j]) + 1 + budget[j + 1] == budget[j]
    requires forall j :: 0 <= j < |keys| ==> InRange(values[j], wide[j])
    ensures |Joined(ResultWords(keys, values, loss, lossText, istty))| <= 7 + 4 + 1 + LOSS_DIGITS + 1 + budget[0]
  {
    var head, tail := Entry(LOSS, lossText, loss == 0.0, istty), Entries(keys, values, 0, istty);
    EntriesLength(keys, wide, budget, values, 0, istty);
    EntryLength(LOSS, lossText, loss == 0.0, istty);
    JoinedLength(head, tail);
    JoinedLength([RESULT], head + tail);
    assert [RESULT] + (head + tail) == ResultWords(keys, values, loss, lossText, istty);
    assert Joined([RESULT]) == RESULT + [' '] + Joined([RESULT][1..]);
  }

  /** Reading a result gives back the result that was printed, whether zero
      properties are printed or left out. */
  lemma ResultRoundTrip(s: NetStat, istty: bool)
    requires s.loss == 0.0 && forall i :: 0 <= i < COUNT ==> InRange(Values(s)[i], WIDE[i])
    ensures var p := New(Serialize(s, ZERO, istty));
            p.Parsed? && p.name == RESULT && FromCommandArgs(p.args) == Some(s)
  {
    ResultFits(s, ZERO, istty);
    NamesAreNames();
    ValuesAreAll(s);
    NamedRoundTrip(KEYS, Values(s), istty);
  }
}
