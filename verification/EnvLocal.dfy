/** .env.local, read by a script and read by a shell. */
module EnvLocal {
  import opened Options
  import opened EnvText

  datatype Pair = Pair(name: string, value: string)

  type Environ = map<string, string>

  const REFUSED_NAMES := {
    "PATH", "PATHEXT", "HOME", "COMSPEC", "IFS", "ENV", "CDPATH", "GLOBIGNORE", "SHELLOPTS", "BASHOPTS",
    "PROMPT_COMMAND", "PS1", "PS2", "PS3", "PS4", "PSMODULEPATH"}
  const REFUSED_PREFIXES := ["BASH_", "LD_", "DYLD_", "PYTHON", "DOCKER_", "COMPOSE_", "GIT_", "PIP_", "NODE_"]

  function Upper(s: string): string {
    seq(|s|, i requires 0 <= i < |s| => if 'a' <= s[i] <= 'z' then (s[i] as int - 32) as char else s[i])
  }

  /** A name that decides which program the next process starts. */
  predicate Refused(name: string) {
    Upper(name) in REFUSED_NAMES || exists k :: 0 <= k < |REFUSED_PREFIXES| && REFUSED_PREFIXES[k] <= Upper(name)
  }

  /** value.strip(c) */
  function StripOff(s: string, c: char): string {
    if s != "" && s[0] == c then StripOff(s[1..], c)
    else if s != "" && s[|s| - 1] == c then StripOff(s[..|s| - 1], c)
    else s
  }

  /** The setting on one line, if it is one and its name is not refused. */
  function PairOn(line: string): Option<Pair> {
    var l := Strip(line);
    var n := Span(l, c => c != '=');
    if l == "" || l[0] == '#' || n == |l| then None
    else
      var name := Strip(l[..n]);
      if name == "" || Refused(name) then None
      else Some(Pair(name, StripOff(StripOff(Strip(l[n + 1..]), '"'), '\'')))
  }

  function PairsOn(lines: seq<string>): seq<Pair> {
    if lines == [] then []
    else
      var n := |lines| - 1;
      PairsOn(lines[..n]) + match PairOn(lines[n]) case Some(p) => [p] case None => []
  }

  /** _pairs */
  function Pairs(text: string): seq<Pair> {
    PairsOn(SplitLines(text))
  }

  // What one line gives.

  /** Nothing: a blank, a comment, or a line with no equals sign. */
  lemma NoPairOn(line: string)
    requires Strip(line) == "" || Strip(line)[0] == '#' || forall i :: 0 <= i < |Strip(line)| ==> Strip(line)[i] != '='
    ensures PairOn(line) == None
  {
    hide Strip, Refused;
    var l := Strip(line);
    var n := Span(l, c => c != '=');
    if n < |l| {
      assert l[n] == '=';
    }
  }

  /** Neither space nor quote at either end. */
  predicate BareEnds(s: string) {
    s != "" ==> !Space(s[0]) && !Space(s[|s| - 1]) && s[0] !in {'"', '\''} && s[|s| - 1] !in {'"', '\''}
  }

  lemma StripBare(s: string)
    requires BareEnds(s)
    ensures Strip(s) == s && StripOff(s, '"') == s && StripOff(s, '\'') == s
  {
    hide Space;
    SpanIs(s, Space, 0);
    RStripIs(s, s);
  }

  lemma StripQuoted(q: char, s: string)
    requires BareEnds(s) && (q == '"' || q == '\'')
    ensures Strip([q] + s + [q]) == [q] + s + [q] && StripOff([q] + s + [q], q) == s
    ensures s != "" ==> StripOff([q] + s + [q], if q == '"' then '\'' else '"') == [q] + s + [q]
  {
    hide Space;
    var t := [q] + s + [q];
    assert !Space(q) by { QuotesAreNoSpace(); }
    SpanIs(t, Space, 0);
    RStripIs(t, t);
    StripBare(s);
    assert t[1..] == s + [q];
    StripEnd(s, q);
  }

  lemma StripEnd(s: string, q: char)
    requires BareEnds(s) && (q == '"' || q == '\'')
    ensures StripOff(s + [q], q) == s
  {
    StripBare(s);
    var t := s + [q];
    assert t[..|t| - 1] == s;
    if s == "" {
      assert t[1..] == "";
    }
  }

  lemma QuotesAreNoSpace()
    ensures !Space('"') && !Space('\'')
  {
  }

  /** NAME=value for a plain name that is not refused: the value as it stands, or within its quotes. */
  lemma PairOnIs(name: string, value: string, quote: Option<char>)
    requires Name(name) && !Refused(name) && BareEnds(value)
    requires quote.Some? ==> value != "" && (quote.value == '"' || quote.value == '\'')
    ensures var written := if quote.None? then value else [quote.value] + value + [quote.value];
      PairOn(name + "=" + written) == Some(Pair(name, value))
  {
    hide Refused, Strip, StripOff, Space, NameStart, NameChar;
    var written := if quote.None? then value else [quote.value] + value + [quote.value];
    var line := name + "=" + written;
    NameHasNoSpace(name);
    StripBare(value);
    if quote.Some? {
      StripQuoted(quote.value, value);
      QuotesAreNoSpace();
    }
    LineStays(name, written);
    SpanIs(line, c => c != '=', |name|);
    assert line[..|name|] == name && line[|name| + 1..] == written;
    StripBare(name);
  }

  lemma NameHasNoSpace(name: string)
    requires Name(name)
    ensures BareEnds(name) && name[0] != '#' && forall i :: 0 <= i < |name| ==> name[i] != '='
  {
  }

  lemma LineStays(name: string, written: string)
    requires Name(name) && (written != "" ==> !Space(written[|written| - 1]))
    ensures Strip(name + "=" + written) == name + "=" + written
  {
    hide Space;
    var line := name + "=" + written;
    NameHasNoSpace(name);
    EqualsIsNoSpace();
    SpanIs(line, Space, 0);
    RStripIs(line, line);
  }

  lemma EqualsIsNoSpace()
    ensures !Space('=')
  {
  }

  // A script loads the file.

  function Loaded(env: Environ, pairs: seq<Pair>): Environ {
    if pairs == [] then env
    else
      var n := |pairs| - 1;
      var before := Loaded(env, pairs[..n]);
      if pairs[n].name in before then before else before[pairs[n].name := pairs[n].value]
  }

  // A shell evaluates the printed statements.

  /** The characters shlex.quote leaves bare. */
  predicate Bare(c: char) {
    NameChar(c) || c in {'@', '%', '+', '=', ':', ',', '.', '/', '-'}
  }

  function Escaped(s: string): string {
    if s == "" then "" else (if s[0] == '\'' then "'\"'\"'" else [s[0]]) + Escaped(s[1..])
  }

  /** shlex.quote */
  function Quote(value: string): string {
    if value == "" then "''"
    else if forall i :: 0 <= i < |value| ==> Bare(value[i]) then value
    else "'" + Escaped(value) + "'"
  }

  predicate Exported(env: Environ, p: Pair) {
    Name(p.name) && p.name !in env
  }

  function Statements(env: Environ, pairs: seq<Pair>): seq<Pair> {
    if pairs == [] then []
    else
      var n := |pairs| - 1;
      Statements(env, pairs[..n]) + if Exported(env, pairs[n]) then [pairs[n]] else []
  }

  function Statement(p: Pair): string {
    "export " + p.name + "=" + Quote(p.value)
  }

  /** "\n".join(export_statements()) */
  function Script(pairs: seq<Pair>): string {
    if pairs == [] then ""
    else if |pairs| == 1 then Statement(pairs[0])
    else Statement(pairs[0]) + "\n" + Script(pairs[1..])
  }

  datatype Word = Word(value: string, rest: string)

  /** One word up to an unquoted newline or the end: section 2.2 of the POSIX.1-2017 Shell Command
      Language, for single quotes, double quotes around plain text, and characters that need none.
      None where a shell would do anything more than read text. */
  function ReadWord(s: string): Option<Word>
    decreases |s|
  {
    if s == "" || s[0] == '\n' then Some(Word("", s))
    else if s[0] == '\'' || s[0] == '"' then
      var n := Span(s[1..], c => c != s[0]);
      if n == |s| - 1 then None
      else
        var inner := s[1..n + 1];
        if s[0] == '"' && !Plain(inner) then None
        else
          var more := ReadWord(s[n + 2..]);
          if more.None? then None else Some(Word(inner + more.value.value, more.value.rest))
    else if Bare(s[0]) then
      var more := ReadWord(s[1..]);
      if more.None? then None else Some(Word([s[0]] + more.value.value, more.value.rest))
    else None
  }

  predicate Plain(s: string) {
    forall i :: 0 <= i < |s| ==> s[i] !in {'$', '`', '\\', '"'}
  }

  /** eval "$(...)": one export after another. None if the text is anything else. */
  function Eval(env: Environ, text: string): (r: Option<Environ>)
    decreases |text|
  {
    if text == "" then Some(env)
    else if !("export " <= text) then None
    else
      var s := text[7..];
      var n := Span(s, NameChar);
      if n == 0 || !NameStart(s[0]) || n == |s| || s[n] != '=' then None
      else
        var word := ReadWord(s[n + 1..]);
        if word.None? || |word.value.rest| > |s| then None
        else
          var next := env[s[..n] := word.value.value];
          if word.value.rest == "" then Some(next)
          else if word.value.rest[0] == '\n' then Eval(next, word.value.rest[1..])
          else None
  }

  // A quoted value reads back as itself.

  predicate Stops(rest: string) {
    rest == "" || rest[0] == '\n'
  }

  lemma BareStep(c: char, s: string)
    requires Bare(c)
    ensures ReadWord([c] + s) ==
      match ReadWord(s) case Some(w) => Some(Word([c] + w.value, w.rest)) case None => None
  {
    BareIsNoQuote(c);
    assert ([c] + s)[1..] == s;
  }

  lemma {:induction false} BareReads(value: string, rest: string)
    requires Stops(rest) && forall i :: 0 <= i < |value| ==> Bare(value[i])
    ensures ReadWord(value + rest) == Some(Word(value, rest))
  {
    hide ReadWord, Bare;
    if value == "" {
      StopReads(rest);
      assert value + rest == rest;
    } else {
      BareReads(value[1..], rest);
      BareStep(value[0], value[1..] + rest);
      assert value + rest == [value[0]] + (value[1..] + rest);
      assert value == [value[0]] + value[1..];
    }
  }

  lemma BareIsNoQuote(c: char)
    requires Bare(c)
    ensures c != '\'' && c != '"' && c != '\n'
  {
  }

  predicate NoQuote(s: string) {
    forall i :: 0 <= i < |s| ==> s[i] != '\''
  }

  /** One quoted stretch and what follows it. */
  lemma QuotedReads(q: char, inner: string, tail: string)
    requires q == '\'' || (q == '"' && Plain(inner))
    requires forall i :: 0 <= i < |inner| ==> inner[i] != q
    ensures var s := [q] + inner + [q] + tail;
      ReadWord(s) == match ReadWord(tail) case Some(w) => Some(Word(inner + w.value, w.rest)) case None => None
  {
    hide Bare;
    var s := [q] + inner + [q] + tail;
    assert s[0] == q;
    SpanIs(s[1..], c => c != s[0], |inner|);
    assert s[1..|inner| + 1] == inner && s[|inner| + 2..] == tail;
  }

  lemma {:induction false} EscapedPlain(a: string, b: string)
    requires NoQuote(a)
    ensures Escaped(a + b) == a + Escaped(b)
  {
    if a == "" {
      assert a + b == b;
    } else {
      EscapedPlain(a[1..], b);
      assert (a + b)[1..] == a[1..] + b;
      assert a == [a[0]] + a[1..];
    }
  }

  lemma Regrouped(a: string, e: string, rest: string)
    ensures "'" + (a + ("'\"'\"'" + e)) + "'" + rest == ['\''] + a + ['\''] + (['"'] + "'" + ['"'] + ("'" + e + "'" + rest))
  {
  }

  /** A stretch without a quote, then the quote, then the rest of the value. */
  lemma QuoteBetween(a: string, b: string, rest: string)
    requires NoQuote(a) && ReadWord("'" + Escaped(b) + "'" + rest) == Some(Word(b, rest))
    ensures ReadWord("'" + Escaped(a + ("'" + b)) + "'" + rest) == Some(Word(a + ("'" + b), rest))
  {
    hide ReadWord;
    EscapedPlain(a, "'" + b);
    assert ("'" + b)[1..] == b;
    assert Escaped("'" + b) == "'\"'\"'" + Escaped(b);
    Regrouped(a, Escaped(b), rest);
    var tail := "'" + Escaped(b) + "'" + rest;
    QuotedReads('"', "'", tail);
    QuotedReads('\'', a, ['"'] + "'" + ['"'] + tail);
  }

  lemma LastStretch(value: string, rest: string)
    requires NoQuote(value) && Stops(rest)
    ensures ReadWord("'" + Escaped(value) + "'" + rest) == Some(Word(value, rest))
  {
    hide ReadWord;
    EscapedPlain(value, "");
    assert value + "" == value;
    assert Escaped("") == "";
    QuotedReads('\'', value, rest);
    StopReads(rest);
    assert "'" + value + "'" + rest == ['\''] + value + ['\''] + rest;
  }

  lemma {:induction false} EscapedReads(value: string, rest: string)
    requires Stops(rest)
    ensures ReadWord("'" + Escaped(value) + "'" + rest) == Some(Word(value, rest))
    decreases |value|
  {
    hide ReadWord, Escaped;
    var n := Span(value, c => c != '\'');
    if n == |value| {
      LastStretch(value, rest);
    } else {
      EscapedReads(value[n + 1..], rest);
      QuoteBetween(value[..n], value[n + 1..], rest);
      assert value == value[..n] + ("'" + value[n + 1..]);
    }
  }

  lemma StopReads(rest: string)
    requires Stops(rest)
    ensures ReadWord(rest) == Some(Word("", rest))
  {
  }

  /** Word-parsing undoes quoting, whatever the value. */
  lemma QuoteReads(value: string, rest: string)
    requires Stops(rest)
    ensures ReadWord(Quote(value) + rest) == Some(Word(value, rest))
  {
    hide ReadWord, Bare;
    if value == "" {
      QuotedReads('\'', "", rest);
      StopReads(rest);
      assert ['\''] + "" + ['\''] + rest == "''" + rest && "" + "" == value;
    } else if forall i :: 0 <= i < |value| ==> Bare(value[i]) {
      BareReads(value, rest);
    } else {
      EscapedReads(value, rest);
    }
  }

  // What each of the two makes of the file.

  function Values(pairs: seq<Pair>, name: string): seq<string> {
    if pairs == [] then []
    else
      var n := |pairs| - 1;
      Values(pairs[..n], name) + if pairs[n].name == name then [pairs[n].value] else []
  }

  /** A script keeps what is set, and else takes the first value in the file. */
  lemma {:induction false} LoadsFirst(env: Environ, pairs: seq<Pair>, name: string)
    ensures var loaded, values := Loaded(env, pairs), Values(pairs, name);
      && (name in env ==> name in loaded && loaded[name] == env[name])
      && (name !in env && values != [] ==> name in loaded && loaded[name] == values[0])
      && (name !in env && values == [] ==> name !in loaded)
  {
    if pairs != [] {
      LoadsFirst(env, pairs[..|pairs| - 1], name);
    }
  }

  /** The environment after the printed statements, in order. */
  function Evaluated(env: Environ, statements: seq<Pair>): Environ
    decreases |statements|
  {
    if statements == [] then env else Evaluated(env[statements[0].name := statements[0].value], statements[1..])
  }

  lemma {:induction false} EvaluatedMore(env: Environ, statements: seq<Pair>, p: Pair)
    ensures Evaluated(env, statements + [p]) == Evaluated(env, statements)[p.name := p.value]
    decreases |statements|
  {
    if statements == [] {
      assert statements + [p] == [p] && [p][1..] == [];
    } else {
      EvaluatedMore(env[statements[0].name := statements[0].value], statements[1..], p);
      assert (statements + [p])[1..] == statements[1..] + [p];
    }
  }

  /** A shell keeps what is set, and else ends with the last value of a plain name. */
  lemma {:induction false} ShellEndsWithLast(env: Environ, pairs: seq<Pair>, name: string)
    ensures var after, values := Evaluated(env, Statements(env, pairs)), Values(pairs, name);
      && (name in env ==> name in after && after[name] == env[name])
      && (name !in env && Name(name) && values != [] ==> name in after && after[name] == values[|values| - 1])
      && (name !in env && (!Name(name) || values == []) ==> name !in after)
  {
    hide Name;
    if pairs != [] {
      var n := |pairs| - 1;
      ShellEndsWithLast(env, pairs[..n], name);
      if Exported(env, pairs[n]) {
        EvaluatedMore(env, Statements(env, pairs[..n]), pairs[n]);
      } else {
        assert Statements(env, pairs[..n]) + [] == Statements(env, pairs[..n]);
      }
    }
  }

  /** The shell's reading of the printed text is the statements' meaning. */
  lemma {:induction false} ScriptEvaluates(env: Environ, statements: seq<Pair>)
    requires forall i :: 0 <= i < |statements| ==> Name(statements[i].name)
    ensures Eval(env, Script(statements)) == Some(Evaluated(env, statements))
    decreases |statements|
  {
    hide ReadWord, Quote, Bare, Eval;
    if statements == [] {
      NothingToEval(env);
    } else {
      var p := statements[0];
      var next := env[p.name := p.value];
      if |statements| == 1 {
        OneStatement(env, p, "");
        assert Statement(p) + "" == Statement(p) && statements[1..] == [];
      } else {
        OneStatement(env, p, "\n" + Script(statements[1..]));
        assert ("\n" + Script(statements[1..]))[1..] == Script(statements[1..]);
        ScriptEvaluates(next, statements[1..]);
        assert Statement(p) + "\n" + Script(statements[1..]) == Statement(p) + ("\n" + Script(statements[1..]));
      }
    }
  }

  lemma NothingToEval(env: Environ)
    ensures Eval(env, "") == Some(env)
  {
  }

  lemma OneStatement(env: Environ, p: Pair, rest: string)
    requires Name(p.name) && Stops(rest)
    ensures Eval(env, Statement(p) + rest) ==
      if rest == "" then Some(env[p.name := p.value]) else Eval(env[p.name := p.value], rest[1..])
  {
    hide ReadWord, Quote, Bare;
    var text := Statement(p) + rest;
    var s := p.name + "=" + (Quote(p.value) + rest);
    assert text == "export " + s;
    assert text[7..] == s;
    SpanIs(s, NameChar, |p.name|);
    assert s[..|p.name|] == p.name && s[|p.name| + 1..] == Quote(p.value) + rest;
    QuoteReads(p.value, rest);
  }

  lemma {:induction false} StatementsAreNames(env: Environ, pairs: seq<Pair>)
    ensures forall i :: 0 <= i < |Statements(env, pairs)| ==> Name(Statements(env, pairs)[i].name)
  {
    hide Name;
    if pairs != [] {
      StatementsAreNames(env, pairs[..|pairs| - 1]);
    }
  }

  ghost predicate Agree(a: Environ, b: Environ, name: string) {
    (name in a <==> name in b) && (name in a ==> a[name] == b[name])
  }

  /** Evaluating the printed statements always succeeds, and on a plain name it gives what loading the
      file gives exactly when the name was set before or its first value in the file is its last. */
  lemma ShellAgreesExactly(env: Environ, text: string, name: string)
    requires Name(name)
    ensures var script := Script(Statements(env, Pairs(text)));
      var values := Values(Pairs(text), name);
      && Eval(env, script).Some?
      && (Agree(Eval(env, script).value, Loaded(env, Pairs(text)), name) <==>
            name in env || values == [] || values[0] == values[|values| - 1])
  {
    hide Eval, Script, Pairs, Name, Loaded, Evaluated, Statements, Values;
    var pairs := Pairs(text);
    StatementsAreNames(env, pairs);
    ScriptEvaluates(env, Statements(env, pairs));
    LoadsFirst(env, pairs, name);
    ShellEndsWithLast(env, pairs, name);
  }

  // A file on which they do not agree.

  const TWICE := "A=1\nA=2"

  lemma AIsAllowed()
    ensures Name("A") && !Refused("A")
  {
    assert Upper("A") == "A";
    forall s | s in REFUSED_NAMES ensures s != "A" {
      assert |s| > 1;
    }
  }

  lemma Unspaced(s: string)
    requires s != "" && !Space(s[0]) && !Space(s[|s| - 1])
    ensures Strip(s) == s
  {
    hide Space;
    SpanIs(s, Space, 0);
    RStripIs(s, s);
  }

  lemma DigitStays(c: char)
    requires c == '1' || c == '2'
    ensures Strip([c]) == [c] && StripOff(StripOff([c], '"'), '\'') == [c]
  {
    Unspaced([c]);
  }

  lemma PairOnA(line: string, c: char)
    requires line == ['A', '=', c] && (c == '1' || c == '2')
    ensures PairOn(line) == Some(Pair("A", [c]))
  {
    hide Refused, Strip, StripOff;
    Unspaced(line);
    Unspaced("A");
    DigitStays(c);
    SpanIs(line, x => x != '=', 1);
    assert line[..1] == "A" && line[2..] == [c];
    AIsAllowed();
  }

  lemma TwiceSplits()
    ensures SplitLines(TWICE) == ["A=1", "A=2"]
  {
    hide Break;
    Breaks();
    SpanIs(TWICE, InLine, 3);
    assert TWICE[..3] == "A=1" && TWICE[4..] == "A=2";
    SpanIs("A=2", InLine, 3);
  }

  lemma Breaks()
    ensures Break('\n') && forall c :: c in ['A', '=', '1', '2'] ==> !Break(c)
  {
  }

  lemma PairsOnTwo(a: string, b: string, p: Pair, q: Pair)
    requires PairOn(a) == Some(p) && PairOn(b) == Some(q)
    ensures PairsOn([a, b]) == [p, q]
  {
    hide PairOn;
    assert [a, b][..1] == [a] && [a][..0] == [];
    assert PairsOn([a]) == [p];
  }

  lemma ValuesOfTwo(p: Pair, q: Pair)
    requires p.name == q.name
    ensures Values([p, q], p.name) == [p.value, q.value]
  {
    assert [p, q][..1] == [p] && [p][..0] == [];
    assert Values([p], p.name) == [p.value];
  }

  /** A name set twice: loading gives its first value, evaluating its last. */
  lemma TwiceDisagrees()
    ensures Name("A") && Values(Pairs(TWICE), "A") == ["1", "2"]
    ensures var script := Script(Statements(map[], Pairs(TWICE)));
      Eval(map[], script).Some? && !Agree(Eval(map[], script).value, Loaded(map[], Pairs(TWICE)), "A")
  {
    hide TWICE, SplitLines, PairOn, PairsOn, Name, Refused, Eval, Script, Statements, Loaded, Agree, Values;
    TwiceSplits();
    PairOnA("A=1", '1');
    PairOnA("A=2", '2');
    AIsAllowed();
    PairsOnTwo("A=1", "A=2", Pair("A", "1"), Pair("A", "2"));
    ValuesOfTwo(Pair("A", "1"), Pair("A", "2"));
    ShellAgreesExactly(map[], TWICE, "A");
  }

  /** Neither touches a refused name. */
  lemma {:induction false} RefusedIsUntouched(env: Environ, lines: seq<string>, name: string)
    requires Refused(name)
    ensures Values(PairsOn(lines), name) == []
  {
    hide Refused, PairOn;
    if lines != [] {
      var n := |lines| - 1;
      RefusedIsUntouched(env, lines[..n], name);
      PairIsAllowed(lines[n]);
      var more := PairsOn(lines);
      if PairOn(lines[n]).Some? {
        assert more[..|more| - 1] == PairsOn(lines[..n]);
      } else {
        assert more == PairsOn(lines[..n]);
      }
    }
  }

  lemma PairIsAllowed(line: string)
    ensures PairOn(line).Some? ==> !Refused(PairOn(line).value.name)
  {
  }

  // The loops.

  class Process {
    var environ: Environ

    constructor (environ: Environ)
      ensures this.environ == environ
    {
      this.environ := environ;
    }

    method ReadPairs(text: string) returns (pairs: seq<Pair>)
      ensures pairs == Pairs(text)
    {
      hide PairOn, SplitLines;
      var lines := SplitLines(text);
      pairs := [];
      var i := 0;
      while i < |lines|
        invariant 0 <= i <= |lines| && pairs == PairsOn(lines[..i])
      {
        assert lines[..i + 1][..i] == lines[..i];
        var pair := PairOn(lines[i]);
        if pair.Some? {
          pairs := pairs + [pair.value];
        }
        i := i + 1;
      }
      assert lines[..i] == lines;
    }

    /** load_env_local; a file that is not there is no error. */
    method Load(file: Option<string>)
      modifies this
      ensures environ == if file.None? then old(environ) else Loaded(old(environ), Pairs(file.value))
    {
      hide Pairs;
      if file.None? {
        return;
      }
      var pairs := ReadPairs(file.value);
      var i := 0;
      while i < |pairs|
        invariant 0 <= i <= |pairs| && environ == Loaded(old(environ), pairs[..i])
      {
        assert pairs[..i + 1][..i] == pairs[..i];
        if pairs[i].name !in environ {
          environ := environ[pairs[i].name := pairs[i].value];
        }
        i := i + 1;
      }
      assert pairs[..i] == pairs;
    }
  }
}
