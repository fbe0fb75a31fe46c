/** The text of commands: the whitespace tokenizer, the argument map, the token
    suffix, and what the other end reads back. */
module CommandText {
  import opened Wrappers

  const MAX_CMD_LENGTH: nat := 1024
  const MAX_TOKEN_LENGTH: nat := 10

  /** isspace: tab, newline, vertical tab, form feed, carriage return, space. */
  predicate IsBlank(c: char) { c == ' ' || 9 <= c as int <= 13 }

  predicate IsWord(w: string) { w != "" && forall i :: 0 <= i < |w| ==> !IsBlank(w[i]) }

  function SkipBlanks(s: string): string {
    if s != "" && IsBlank(s[0]) then SkipBlanks(s[1..]) else s
  }

  function WordLength(s: string): (n: nat)
    ensures n <= |s| && (forall i :: 0 <= i < n ==> !IsBlank(s[i])) && (n == |s| || IsBlank(s[n]))
  {
    if s == "" || IsBlank(s[0]) then 0 else 1 + WordLength(s[1..])
  }

  lemma SkipBlanksShorter(s: string)
    ensures |SkipBlanks(s)| <= |s|
    ensures SkipBlanks(s) == "" || !IsBlank(SkipBlanks(s)[0])
  {
  }

  /** The words that repeated stream extraction yields. */
  function Words(s: string): seq<string>
    decreases |s|
  {
    SkipBlanksShorter(s);
    var t := SkipBlanks(s);
    if t == "" then []
    else
      var n := WordLength(t);
      [t[..n]] + Words(t[n..])
  }

  lemma {:induction false} WordsAreWords(s: string)
    ensures forall i :: 0 <= i < |Words(s)| ==> IsWord(Words(s)[i])
    decreases |s|
  {
    SkipBlanksShorter(s);
    var t := SkipBlanks(s);
    if t != "" { WordsAreWords(t[WordLength(t)..]); }
  }

  lemma {:induction false} BlankFirst(b: char, s: string)
    requires IsBlank(b)
    ensures Words([b] + s) == Words(s)
  {
    assert ([b] + s)[1..] == s;
    SkipBlanksShorter(s);
  }

  lemma {:induction false} SkipBlanksConcat(a: string, b: char, s: string)
    ensures SkipBlanks(a) != "" ==> SkipBlanks(a + [b] + s) == SkipBlanks(a) + [b] + s
    ensures SkipBlanks(a) == "" ==> SkipBlanks(a + [b] + s) == SkipBlanks([b] + s)
  {
    if a == "" {
      assert a + [b] + s == [b] + s;
    } else if IsBlank(a[0]) {
      assert (a + [b] + s)[1..] == a[1..] + [b] + s;
      SkipBlanksConcat(a[1..], b, s);
    }
  }

  lemma {:induction false} WordLengthConcat(a: string, b: char, s: string)
    requires IsBlank(b)
    ensures WordLength(a + [b] + s) == WordLength(a)
  {
    if a != "" && !IsBlank(a[0]) {
      assert (a + [b] + s)[1..] == a[1..] + [b] + s;
      WordLengthConcat(a[1..], b, s);
    }
  }

  /** Text put together with a blank in between has the words of both parts. */
  lemma {:induction false} WordsConcat(a: string, b: char, s: string)
    requires IsBlank(b)
    ensures Words(a + [b] + s) == Words(a) + Words(s)
    decreases |a|
  {
    var t := SkipBlanks(a);
    SkipBlanksShorter(a);
    SkipBlanksConcat(a, b, s);
    if t == "" {
      BlankFirst(b, s);
      assert Words(a) == [];
      assert Words(a + [b] + s) == Words([b] + s);
    } else {
      var n, u := WordLength(t), t + [b] + s;
      WordLengthConcat(t, b, s);
      assert u[..n] == t[..n] && u[n..] == t[n..] + [b] + s;
      WordsConcat(t[n..], b, s);
      assert Words(a + [b] + s) == [u[..n]] + Words(u[n..]);
    }
  }

  lemma OneWord(w: string)
    requires IsWord(w)
    ensures Words(w) == [w]
  {
    assert w[..|w|] == w && w[|w|..] == "" && WordLength(w) == |w|;
  }

  /** Words each followed by a blank. */
  function Joined(ws: seq<string>): string {
    if ws == [] then "" else ws[0] + [' '] + Joined(ws[1..])
  }

  lemma {:induction false} WordsOfJoined(ws: seq<string>)
    requires forall i :: 0 <= i < |ws| ==> IsWord(ws[i])
    ensures Words(Joined(ws)) == ws
  {
    if ws != [] {
      OneWord(ws[0]);
      WordsOfJoined(ws[1..]);
      WordsConcat(ws[0], ' ', Joined(ws[1..]));
    }
  }

  // --------------------------------------------------- making a command

  type Args = map<string, string>

  datatype Parse = Rejected | Parsed(name: string, args: Args)

  const REGISTERED: set<string> := {"ping", "send", "ack", "stop", "result"}

  /** The argument map read from `words`. A key whose value is missing is taken
      only when an earlier value is left over in the variable for values. */
  function ReadArgs(words: seq<string>, args: Args, leftover: string): Option<Args> {
    if words == [] then Some(args)
    else if |words| == 1 then
      if leftover == "" then None else Some(args[words[0] := ""])
    else if words[0] in args then None
    else ReadArgs(words[2..], args[words[0] := words[1]], words[1])
  }

  function FromWords(words: seq<string>): Parse {
    if words == [] || words[0] !in REGISTERED then Rejected
    else
      var args := ReadArgs(words[1..], map[], "");
      if args.None? then Rejected else Parsed(words[0], args.value)
  }

  /** CommandFactory::New, up to the point where the arguments are resolved. */
  function New(cmd: string): Parse {
    if |cmd| > MAX_CMD_LENGTH - MAX_TOKEN_LENGTH then Rejected else FromWords(Words(cmd))
  }

  /** operator>>: the next word of the stream, if there is one. */
  method Extract(stream: string) returns (ok: bool, word: string, rest: string)
    ensures ok <==> Words(stream) != []
    ensures ok ==> Words(stream) == [word] + Words(rest) && |rest| < |stream| && word != ""
  {
    var t := SkipBlanks(stream);
    SkipBlanksShorter(stream);
    var n := WordLength(t);
    ok, word, rest := t != "", t[..n], t[n..];
  }

  /** The loop that fills the argument map from what is left of the stream. */
  method ReadArguments(stream: string) returns (r: Option<Args>)
    ensures r == ReadArgs(Words(stream), map[], "")
  {
    var args: Args, value := map[], "";
    var more, key, rest := Extract(stream);
    while more
      invariant ReadArgs(Words(stream), map[], "") == ReadArgs(if more then [key] + Words(rest) else [], args, value)
      decreases more, |rest|
    {
      ghost var before := [key] + Words(rest);
      var found, next, tail := Extract(rest);
      if !found { return if value == "" then None else Some(args[key := ""]); }
      assert before[2..] == Words(tail);
      if key in args { return None; }
      value := next;
      args := args[key := value];
      more, key, rest := Extract(tail);
    }
    r := Some(args);
  }

  /** The same by stream extraction, one word at a time. */
  method NewCommand(cmd: string) returns (r: Parse)
    ensures r == New(cmd)
  {
    if |cmd| > MAX_CMD_LENGTH - MAX_TOKEN_LENGTH { return Rejected; }
    var found, name, rest := Extract(cmd);
    if !found || name !in REGISTERED { return Rejected; }
    var args := ReadArguments(rest);
    r := if args.None? then Rejected else Parsed(name, args.value);
  }

  // ----------------------------------------------------- what is accepted

  /** The words at even places that have a word after them. */
  function Keys(words: seq<string>): set<string> {
    if |words| < 2 then {} else {words[0]} + Keys(words[2..])
  }

  /** No key with a value comes twice. */
  predicate KeysDiffer(words: seq<string>) {
    |words| < 2 || (words[0] !in Keys(words[2..]) && KeysDiffer(words[2..]))
  }

  /** The value of each key; a last one that is left alone has none, whatever it had
      before. */
  predicate Holds(words: seq<string>, args: Args) {
    && args.Keys == Keys(words) + (if |words| % 2 == 1 then {words[|words| - 1]} else {})
    && (|words| % 2 == 1 ==> args[words[|words| - 1]] == "")
    && forall i :: 0 <= i < |words| - 1 && i % 2 == 0 && !(|words| % 2 == 1 && words[i] == words[|words| - 1]) ==>
         words[i] in args && args[words[i]] == words[i + 1]
  }

  /** The argument loop, from the middle on: the keys read so far are those of `args`. */
  lemma {:induction false} ReadArgsAccepts(words: seq<string>, args: Args, leftover: string)
    requires forall w :: w in words ==> w != ""
    ensures ReadArgs(words, args, leftover).Some? <==>
              KeysDiffer(words) && Keys(words) !! args.Keys && (|words| % 2 == 1 ==> |words| > 1 || leftover != "")
    ensures ReadArgs(words, args, leftover).Some? ==>
              var r := ReadArgs(words, args, leftover).value;
              r.Keys == args.Keys + Keys(words) + (if |words| % 2 == 1 then {words[|words| - 1]} else {})
  {
    if |words| >= 2 {
      assert words[1] in words && forall w :: w in words[2..] ==> w in words;
      ReadArgsAccepts(words[2..], args[words[0] := words[1]], words[1]);
      assert Keys(words) !! args.Keys && words[0] !in Keys(words[2..]) <==>
             words[0] !in args && Keys(words[2..]) !! args[words[0] := words[1]].Keys;
    }
  }

  lemma {:induction false} ReadArgsKeepsValue(words: seq<string>, args: Args, leftover: string, k: string)
    requires ReadArgs(words, args, leftover).Some? && k in args
    ensures var r := ReadArgs(words, args, leftover).value;
            k in r && r[k] == if |words| % 2 == 1 && k == words[|words| - 1] then "" else args[k]
  {
    if |words| >= 2 { ReadArgsKeepsValue(words[2..], args[words[0] := words[1]], words[1], k); }
  }

  lemma {:induction false} ReadArgsHolds(words: seq<string>, args: Args, leftover: string, i: nat)
    requires ReadArgs(words, args, leftover).Some? && i < |words| - 1 && i % 2 == 0
    ensures var r := ReadArgs(words, args, leftover).value;
            words[i] in r && r[words[i]] == if |words| % 2 == 1 && words[i] == words[|words| - 1] then "" else words[i + 1]
  {
    if i == 0 {
      ReadArgsKeepsValue(words[2..], args[words[0] := words[1]], words[1], words[0]);
    } else {
      ReadArgsHolds(words[2..], args[words[0] := words[1]], words[1], i - 2);
    }
  }

  lemma {:induction false} LoneKey(words: seq<string>, args: Args, leftover: string)
    requires ReadArgs(words, args, leftover).Some? && |words| % 2 == 1
    ensures var r := ReadArgs(words, args, leftover).value;
            words[|words| - 1] in r && r[words[|words| - 1]] == ""
  {
    if |words| >= 2 { LoneKey(words[2..], args[words[0] := words[1]], words[1]); }
  }

  lemma ReadingHolds(words: seq<string>)
    requires (forall w :: w in words ==> w != "") && ReadArgs(words, map[], "").Some?
    ensures Holds(words, ReadArgs(words, map[], "").value)
  {
    var r := ReadArgs(words, map[], "").value;
    ReadArgsAccepts(words, map[], "");
    if |words| % 2 == 1 { LoneKey(words, map[], ""); }
    forall i | 0 <= i < |words| - 1 && i % 2 == 0 && !(|words| % 2 == 1 && words[i] == words[|words| - 1])
      ensures words[i] in r && r[words[i]] == words[i + 1]
    {
      ReadArgsHolds(words, map[], "", i);
    }
  }

  /** A text is accepted if and only if it is not too long, its first word is one of
      the five names, no key with a value comes twice, and a key without a value
      comes after one with a value; it is read as these keys with these values. */
  lemma AcceptedExactly(cmd: string)
    ensures var words := Words(cmd);
            New(cmd).Parsed? <==>
              && |cmd| <= 1014 && words != []
              && (words[0] == "ping" || words[0] == "send" || words[0] == "ack" || words[0] == "stop" || words[0] == "result")
              && KeysDiffer(words[1..]) && |words| != 2
    ensures New(cmd).Parsed? ==> New(cmd).name == Words(cmd)[0] && Holds(Words(cmd)[1..], New(cmd).args)
  {
    var words := Words(cmd);
    WordsAreWords(cmd);
    if words != [] {
      ReadArgsAccepts(words[1..], map[], "");
      if ReadArgs(words[1..], map[], "").Some? { ReadingHolds(words[1..]); }
    }
  }

  // ---------------------------------------------------------- token suffix

  const NO_TOKEN: char := '$'
  const TOKEN: string := "token"
  const SUFFIX: string := " token"

  /** Whether find locates `sub`. */
  predicate Contains(s: string, sub: string) {
    sub <= s || (s != "" && Contains(s[1..], sub))
  }

  /** What is sent: the text of the command and, unless it names one, its token. */
  function GetCmd(cmd: string, token: char): string {
    if Contains(cmd, SUFFIX) || token == NO_TOKEN then cmd else cmd + SUFFIX + " " + [token]
  }

  /** The token of a command: the first letter of its argument, or the one drawn
      when it was made. */
  function TokenOf(args: Args, drawn: char): char {
    if TOKEN in args && args[TOKEN] != "" then args[TOKEN][0] else drawn
  }

  lemma {:induction false} ReadArgsAppend(words: seq<string>, k: string, v: string, args: Args, leftover: string)
    requires |words| % 2 == 0 && ReadArgs(words, args, leftover).Some?
    ensures var r := ReadArgs(words, args, leftover).value;
            ReadArgs(words + [k, v], args, leftover) == if k in r then None else Some(r[k := v])
  {
    if words == [] {
      assert words + [k, v] == [k, v];
      assert [k, v][2..] == [];
    } else {
      assert (words + [k, v])[2..] == words[2..] + [k, v];
      ReadArgsAppend(words[2..], k, v, args[words[0] := words[1]], words[1]);
    }
  }

  lemma {:induction false} ReadArgsKeeps(words: seq<string>, args: Args, leftover: string)
    requires ReadArgs(words, args, leftover).Some?
    ensures args.Keys <= ReadArgs(words, args, leftover).value.Keys
  {
    if |words| > 1 { ReadArgsKeeps(words[2..], args[words[0] := words[1]], words[1]); }
  }

  /** With an odd number of words, the last key takes the word "token" as its
      value and the token itself becomes a key. */
  lemma {:induction false} ReadArgsShifted(words: seq<string>, token: string, args: Args, leftover: string)
    requires |words| % 2 == 1 && ReadArgs(words, args, leftover).Some? && token != TOKEN
    requires TOKEN !in ReadArgs(words, args, leftover).value
    ensures var r := ReadArgs(words + [TOKEN, token], args, leftover);
            r.Some? ==> TOKEN !in r.value
  {
    ReadArgsKeeps(words, args, leftover);
    var ws := words + [TOKEN, token];
    if |words| == 1 {
      assert ws == [words[0], TOKEN, token] && ws[2..] == [token];
    } else {
      assert ws[2..] == words[2..] + [TOKEN, token];
      ReadArgsShifted(words[2..], token, args[words[0] := words[1]], words[1]);
    }
  }

  /** `q` is the same command with the same arguments and, added, its token. */
  predicate GainsToken(p: Parse, q: Parse, token: char)
    requires p.Parsed?
  {
    q == Parsed(p.name, p.args[TOKEN := [token]])
  }

  /** What the two words of the suffix do to the parse of the words before. */
  lemma SuffixedParse(words: seq<string>, token: char)
    requires FromWords(words).Parsed? && TOKEN !in FromWords(words).args
    ensures var p, q := FromWords(words), FromWords(words + [TOKEN, [token]]);
            && (|words| % 2 == 1 <==> GainsToken(p, q, token))
            && (|words| % 2 == 0 && q.Parsed? ==> TOKEN !in q.args)
  {
    assert (words + [TOKEN, [token]])[1..] == words[1..] + [TOKEN, [token]];
    if |words| % 2 == 1 {
      ReadArgsAppend(words[1..], TOKEN, [token], map[], "");
    } else {
      ReadArgsShifted(words[1..], [token], map[], "");
    }
  }

  lemma DoubledToken(words: seq<string>, token: char)
    requires FromWords(words).Parsed? && TOKEN in FromWords(words).args && |words| % 2 == 1
    ensures FromWords(words + [TOKEN, [token]]).Rejected?
  {
    assert (words + [TOKEN, [token]])[1..] == words[1..] + [TOKEN, [token]];
    ReadArgsAppend(words[1..], TOKEN, [token], map[], "");
  }

  lemma WordsWithSuffix(cmd: string, a: string, b: string)
    requires IsWord(a) && IsWord(b)
    ensures Words(cmd + [' '] + (a + [' '] + b)) == Words(cmd) + [a, b]
  {
    OneWord(a);
    OneWord(b);
    WordsConcat(a, ' ', b);
    WordsConcat(cmd, ' ', a + [' '] + b);
  }

  lemma SuffixWords()
    ensures IsWord(TOKEN) && SUFFIX == [' '] + TOKEN && |SUFFIX| == 6
  {
  }

  lemma WordsOfGetCmd(cmd: string, token: char)
    requires !Contains(cmd, SUFFIX) && token != NO_TOKEN && !IsBlank(token)
    ensures Words(GetCmd(cmd, token)) == Words(cmd) + [TOKEN, [token]]
    ensures |GetCmd(cmd, token)| == |cmd| + |SUFFIX| + 2
  {
    SuffixWords();
    SuffixText(cmd, token);
    WordsWithSuffix(cmd, TOKEN, [token]);
  }

  lemma SuffixText(cmd: string, token: char)
    ensures cmd + SUFFIX + " " + [token] == cmd + [' '] + (TOKEN + [' '] + [token])
  {
    assert SUFFIX == [' '] + TOKEN;
  }

  /** Room for the suffix in the longest command the other end accepts. */
  predicate LeavesRoom(cmd: string) { |cmd| + |SUFFIX| + 2 <= MAX_CMD_LENGTH - MAX_TOKEN_LENGTH }

  /** A command whose token has to travel in the suffix. */
  predicate Suffixed(cmd: string, token: char) {
    New(cmd).Parsed? && !Contains(cmd, SUFFIX) && token != NO_TOKEN && !IsBlank(token)
  }

  /** The words after the name come in pairs. */
  predicate Paired(cmd: string) { |Words(cmd)| % 2 == 1 }

  /** What the client reads of a command that the server accepted: the same
      arguments and the token, if and only if the argument words come in pairs
      and the suffix leaves the command short enough. When they do not come in
      pairs, the client never learns the token. */
  lemma CommandRoundTrip(cmd: string, token: char)
    requires Suffixed(cmd, token) && TOKEN !in New(cmd).args
    ensures Paired(cmd) && LeavesRoom(cmd) <==> GainsToken(New(cmd), New(GetCmd(cmd, token)), token)
    ensures New(GetCmd(cmd, token)).Parsed? && !Paired(cmd) ==> TOKEN !in New(GetCmd(cmd, token)).args
  {
    WordsOfGetCmd(cmd, token);
    SuffixedParse(Words(cmd), token);
  }

  /** Then client and server agree on the token, whichever one the client draws,
      and on every other argument, hence on all that is resolved from them. */
  lemma BothEndsAgree(cmd: string, token: char, drawnByClient: char, key: string)
    requires Suffixed(cmd, token) && TOKEN !in New(cmd).args && Paired(cmd) && LeavesRoom(cmd)
    ensures var client := New(GetCmd(cmd, token));
            && client.Parsed?
            && TokenOf(client.args, drawnByClient) == token == TokenOf(New(cmd).args, token)
            && (key != TOKEN ==> (key in client.args <==> key in New(cmd).args))
            && (key != TOKEN && key in client.args ==> client.args[key] == New(cmd).args[key])
  {
    CommandRoundTrip(cmd, token);
  }

  /** A token argument set apart by something other than a space escapes the
      search for " token": the suffix makes the key appear twice, and the
      client refuses the command. */
  lemma TokenAfterTabIsRefused(cmd: string, token: char)
    requires Suffixed(cmd, token) && TOKEN in New(cmd).args && Paired(cmd)
    ensures New(GetCmd(cmd, token)).Rejected?
  {
    WordsOfGetCmd(cmd, token);
    DoubledToken(Words(cmd), token);
  }

  // ---------------------------------------------- when both ends have one token

  predicate NamesToken(args: Args) { TOKEN in args && args[TOKEN] != "" }

  /** The client reads the token of the server, whichever one it draws itself. */
  ghost predicate AgreeOnToken(cmd: string, token: char) {
    var client := New(GetCmd(cmd, token));
    client.Parsed? && forall drawn: char :: TokenOf(client.args, drawn) == token
  }

  lemma TokenIsNamed(args: Args, token: char)
    ensures (forall drawn: char :: TokenOf(args, drawn) == token) <==> NamesToken(args) && args[TOKEN][0] == token
  {
    assert TokenOf(args, 'a') == TokenOf(args, 'b') ==> NamesToken(args);
  }

  /** One word after the pairs is a key whose value is missing. */
  lemma {:induction false} ReadArgsSingle(words: seq<string>, key: string, args: Args, leftover: string)
    requires |words| % 2 == 0
    ensures var r, last := ReadArgs(words, args, leftover), if words == [] then leftover else words[|words| - 1];
            ReadArgs(words + [key], args, leftover) == if r.None? || last == "" then None else Some(r.value[key := ""])
  {
    if words == [] {
      assert words + [key] == [key];
    } else {
      assert (words + [key])[2..] == words[2..] + [key];
      ReadArgsSingle(words[2..], key, args[words[0] := words[1]], words[1]);
    }
  }

  /** The values read are words, of an even number of them. */
  lemma {:induction false} ReadArgsValues(words: seq<string>, args: Args, leftover: string)
    requires |words| % 2 == 0 && ReadArgs(words, args, leftover).Some?
    requires forall i :: 0 <= i < |words| ==> IsWord(words[i])
    requires forall k :: k in args ==> IsWord(args[k])
    ensures var r := ReadArgs(words, args, leftover).value; forall k :: k in r ==> IsWord(r[k])
  {
    if words != [] { ReadArgsValues(words[2..], args[words[0] := words[1]], words[1]); }
  }

  /** The suffix of an odd number of words: the last one takes "token" for its
      value, and the token becomes a key. */
  predicate ShiftKeepsToken(words: seq<string>, token: char)
    requires |words| % 2 == 1
  {
    var pairs, key := ReadArgs(words[..|words| - 1], map[], ""), words[|words| - 1];
    pairs.Some? && key !in pairs.value && if key == TOKEN then token == TOKEN[0] else TOKEN in pairs.value
  }

  /** The exact condition: a text that is sent as it is names the token; a text that
      gets the suffix is short enough and leaves it to the suffix to name the
      token, or hides the token from the search but not from the parser. */
  predicate TokenTravels(cmd: string, token: char)
    requires New(cmd).Parsed?
  {
    if Contains(cmd, SUFFIX) || token == NO_TOKEN then NamesToken(New(cmd).args)
    else LeavesRoom(cmd) && if Paired(cmd) then TOKEN !in New(cmd).args else ShiftKeepsToken(Words(cmd)[1..], token)
  }

  /** What an odd number of words is read to. */
  lemma OddWords(front: seq<string>, key: string)
    requires |front| % 2 == 0 && ReadArgs(front + [key], map[], "").Some?
    ensures ReadArgs(front, map[], "").Some?
    ensures ReadArgs(front + [key], map[], "").value == ReadArgs(front, map[], "").value[key := ""]
  {
    ReadArgsSingle(front, key, map[], "");
  }

  /** The same, with the suffix. */
  lemma OddWordsSuffixed(front: seq<string>, key: string, token: string)
    requires |front| % 2 == 0 && ReadArgs(front, map[], "").Some?
    ensures var pairs := ReadArgs(front, map[], "").value;
            ReadArgs(front + [key, TOKEN] + [token], map[], "")
              == if key in pairs then None else Some(pairs[key := TOKEN][token := ""])
  {
    ReadArgsAppend(front, key, TOKEN, map[], "");
    ReadArgsSingle(front + [key, TOKEN], token, map[], "");
  }

  /** The token in the arguments that the two ends have read. */
  lemma ShiftedToken(pairs: Args, key: string, drawn: char, server: Args, client: Option<Args>)
    requires forall k :: k in pairs ==> IsWord(pairs[k])
    requires server == pairs[key := ""]
    requires client == if key in pairs then None else Some(pairs[key := TOKEN][[TokenOf(server, drawn)] := ""])
    ensures client.Some? && NamesToken(client.value) && client.value[TOKEN][0] == TokenOf(server, drawn) <==>
              key !in pairs && if key == TOKEN then TokenOf(server, drawn) == TOKEN[0] else TOKEN in pairs
  {
    assert |[TokenOf(server, drawn)]| != |TOKEN|;
  }

  /** The client reads its arguments from the words with the suffix. */
  lemma OddClient(words: seq<string>, token: string)
    requires |words| % 2 == 1 && ReadArgs(words, map[], "").Some?
    ensures var front, key := words[..|words| - 1], words[|words| - 1];
            var pairs := ReadArgs(front, map[], "");
            && pairs.Some? && ReadArgs(words, map[], "").value == pairs.value[key := ""]
            && ReadArgs(words + [TOKEN, token], map[], "")
                 == if key in pairs.value then None else Some(pairs.value[key := TOKEN][token := ""])
  {
    var front, key := words[..|words| - 1], words[|words| - 1];
    assert words == front + [key];
    OddWords(front, key);
    assert words + [TOKEN, token] == front + [key, TOKEN] + [token];
    OddWordsSuffixed(front, key, token);
  }

  lemma FrontValues(words: seq<string>)
    requires |words| % 2 == 1 && forall i :: 0 <= i < |words| ==> IsWord(words[i])
    ensures var pairs := ReadArgs(words[..|words| - 1], map[], "");
            pairs.Some? ==> forall k :: k in pairs.value ==> IsWord(pairs.value[k])
  {
    var front := words[..|words| - 1];
    if ReadArgs(front, map[], "").Some? { ReadArgsValues(front, map[], ""); }
  }

  /** The agreement in that case, on the words alone. */
  lemma OddAgreement(words: seq<string>, drawn: char, token: char)
    requires |words| % 2 == 1 && ReadArgs(words, map[], "").Some? && forall i :: 0 <= i < |words| ==> IsWord(words[i])
    requires token == TokenOf(ReadArgs(words, map[], "").value, drawn)
    ensures var client := ReadArgs(words + [TOKEN, [token]], map[], "");
            client.Some? && NamesToken(client.value) && client.value[TOKEN][0] == token <==> ShiftKeepsToken(words, token)
  {
    var front, key := words[..|words| - 1], words[|words| - 1];
    OddClient(words, [token]);
    FrontValues(words);
    ShiftedToken(ReadArgs(front, map[], "").value, key, drawn,
                 ReadArgs(words, map[], "").value, ReadArgs(words + [TOKEN, [token]], map[], ""));
  }

  lemma OddRoundTrip(cmd: string, drawn: char)
    requires New(cmd).Parsed? && !Paired(cmd) && Suffixed(cmd, TokenOf(New(cmd).args, drawn))
    ensures var token := TokenOf(New(cmd).args, drawn);
            AgreeOnToken(cmd, token) <==> LeavesRoom(cmd) && ShiftKeepsToken(Words(cmd)[1..], token)
  {
    var token, words := TokenOf(New(cmd).args, drawn), Words(cmd);
    WordsAreWords(cmd);
    WordsOfGetCmd(cmd, token);
    assert (words + [TOKEN, [token]])[1..] == words[1..] + [TOKEN, [token]];
    OddAgreement(words[1..], drawn, token);
    if New(GetCmd(cmd, token)).Parsed? { TokenIsNamed(New(GetCmd(cmd, token)).args, token); }
  }

  lemma EvenRoundTrip(cmd: string, token: char)
    requires Suffixed(cmd, token) && Paired(cmd)
    ensures AgreeOnToken(cmd, token) <==> LeavesRoom(cmd) && TOKEN !in New(cmd).args
  {
    WordsOfGetCmd(cmd, token);
    if TOKEN in New(cmd).args {
      TokenAfterTabIsRefused(cmd, token);
    } else {
      CommandRoundTrip(cmd, token);
    }
  }

  /** The token of a command is never a blank. */
  lemma TokenIsNoBlank(cmd: string, drawn: char)
    requires New(cmd).Parsed? && !IsBlank(drawn)
    ensures !IsBlank(TokenOf(New(cmd).args, drawn))
  {
    WordsAreWords(cmd);
    var words := Words(cmd)[1..];
    if |words| % 2 == 0 {
      ReadArgsValues(words, map[], "");
    } else {
      var front, key := words[..|words| - 1], words[|words| - 1];
      assert words == front + [key];
      OddWords(front, key);
      ReadArgsValues(front, map[], "");
    }
  }

  /** For every command that the server accepts: client and server have the same
      token if and only if it travels, in the text or in the suffix. A word that
      merely begins with " token" keeps the suffix off. */
  lemma TokenAgreement(cmd: string, drawn: char)
    requires New(cmd).Parsed? && !IsBlank(drawn)
    ensures var token := TokenOf(New(cmd).args, drawn);
            AgreeOnToken(cmd, token) <==> TokenTravels(cmd, token)
  {
    var token := TokenOf(New(cmd).args, drawn);
    TokenIsNoBlank(cmd, drawn);
    if Contains(cmd, SUFFIX) || token == NO_TOKEN {
      TokenIsNamed(New(cmd).args, token);
    } else if Paired(cmd) {
      EvenRoundTrip(cmd, token);
    } else {
      OddRoundTrip(cmd, drawn);
    }
  }

  // ------------------------------------------------------- drawing tokens

  const LETTERS: nat := 62

  /** The small letters, the capital letters and the digits, in this order. */
  function Letter(i: nat): char
    requires i < LETTERS
  {
    if i < 26 then 'a' + i as char
    else if i < 52 then 'A' + (i - 26) as char
    else '0' + (i - 52) as char
  }

  /** The token of the nth command made: the counter has eight bits. */
  function Drawn(n: nat): char { Letter(n % 256 % LETTERS) }

  lemma LettersDiffer(i: nat, j: nat)
    requires i < LETTERS && j < LETTERS && Letter(i) == Letter(j)
    ensures i == j
  {
    assert Letter(i) as int == Letter(j) as int;
  }

  /** A drawn token is never a blank or the sign for no token, and two commands
      fewer than eight apart never share one ... */
  lemma NearTokensDiffer(n: nat, d: nat)
    requires 0 < d < 8
    ensures Drawn(n) != Drawn(n + d)
    ensures !IsBlank(Drawn(n)) && Drawn(n) != NO_TOKEN
  {
    NearCounters(n % 256, (n + d) % 256, d);
    if Drawn(n) == Drawn(n + d) { LettersDiffer(n % 256 % LETTERS, (n + d) % 256 % LETTERS); }
  }

  lemma NearCounters(m: nat, m': nat, d: nat)
    requires 0 < d < 8 && m < 256 && (m' == m + d < 256 || m' == m + d - 256)
    ensures m % LETTERS != m' % LETTERS
  {
  }

  /** ... but eight apart they may: the counter wraps before the letters do. */
  lemma EighthTokenMayRepeat()
    ensures Drawn(248) == Drawn(248 + 8)
  {
  }
}
