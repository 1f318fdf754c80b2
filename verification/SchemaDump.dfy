/** Normalising a schema dump, so that two dumps of one schema are the same text. */
module SchemaDump {
  import opened EnvText

  /** Beginnings of the lines that vary by client, by run, or carry no schema. */
  const VOLATILE := [
    "SET ", "SELECT pg_catalog.set_config(", "-- Dumped from database version",
    "-- Dumped by pg_dump version", "\\restrict", "\\unrestrict"]

  predicate Volatile(line: string) {
    exists k :: 0 <= k < |VOLATILE| && VOLATILE[k] <= line
  }

  predicate BlankLine(line: string) {
    Strip(line) == ""
  }

  /** raw.replace("\r\n", "\n") */
  function NoCrLf(raw: string): string {
    if raw == "" then ""
    else if raw[0] == '\r' && |raw| > 1 && raw[1] == '\n' then "\n" + NoCrLf(raw[2..])
    else [raw[0]] + NoCrLf(raw[1..])
  }

  /** text.split("\n") */
  function Split(text: string): (lines: seq<string>)
    ensures lines != []
    decreases |text|
  {
    var n := Span(text, c => c != '\n');
    if n == |text| then [text] else [text[..n]] + Split(text[n + 1..])
  }

  /** "\n".join(lines) + "\n" */
  function Joined(lines: seq<string>): string {
    if lines == [] then "\n" else if |lines| == 1 then lines[0] + "\n" else lines[0] + "\n" + Joined(lines[1..])
  }

  /** What a dump says, line by line: nothing for a volatile line, a blank as "", any other line
      without its trailing spaces. */
  function Said(lines: seq<string>): seq<string> {
    if lines == [] then [] else SaidBy(lines[0]) + Said(lines[1..])
  }

  function SaidBy(line: string): seq<string> {
    if Volatile(line) then [] else if BlankLine(line) then [""] else [RStrip(line)]
  }

  /** Runs of blanks become one. */
  function Squeezed(said: seq<string>): seq<string> {
    if said == [] then []
    else if |said| > 1 && said[0] == "" && said[1] == "" then Squeezed(said[1..])
    else [said[0]] + Squeezed(said[1..])
  }

  function DropFirst(said: seq<string>): seq<string> {
    if said != [] && said[0] == "" then DropFirst(said[1..]) else said
  }

  function DropLast(said: seq<string>): seq<string> {
    if said != [] && said[|said| - 1] == "" then DropLast(said[..|said| - 1]) else said
  }

  /** The lines of the normalised dump. */
  function Normal(lines: seq<string>): seq<string> {
    DropFirst(DropLast(Squeezed(Said(lines))))
  }

  function Normalised(raw: string): string {
    Joined(Normal(Split(NoCrLf(raw))))
  }

  // The pieces of a dump.

  lemma {:induction false} SaidJoins(a: seq<string>, b: seq<string>)
    ensures Said(a + b) == Said(a) + Said(b)
  {
    hide SaidBy;
    if a == [] {
      assert a + b == b;
    } else {
      SaidJoins(a[1..], b);
      assert (a + b)[1..] == a[1..] + b;
      assert SaidBy(a[0]) + (Said(a[1..]) + Said(b)) == SaidBy(a[0]) + Said(a[1..]) + Said(b);
    }
  }

  lemma {:induction false} SqueezedEnds(said: seq<string>)
    ensures said == [] <==> Squeezed(said) == []
    ensures said != [] ==> Squeezed(said)[0] == said[0] && Squeezed(said)[|Squeezed(said)| - 1] == said[|said| - 1]
  {
    if |said| > 1 {
      SqueezedEnds(said[1..]);
    }
  }

  /** Reading on: a blank after a blank adds nothing. */
  lemma {:induction false} SqueezedMore(said: seq<string>, x: string)
    ensures Squeezed(said + [x]) ==
      if x == "" && said != [] && said[|said| - 1] == "" then Squeezed(said) else Squeezed(said) + [x]
  {
    if said == [] {
      assert said + [x] == [x];
    } else {
      SqueezedMore(said[1..], x);
      assert (said + [x])[1..] == said[1..] + [x];
    }
  }

  /** What follows does not care how long a run of blanks was. */
  lemma {:induction false} ShorterRun(a: seq<string>, b: seq<string>)
    ensures Squeezed(a + ["", ""] + b) == Squeezed(a + [""] + b)
  {
    var x, y := a + ["", ""] + b, a + [""] + b;
    if a == [] {
      assert x[1..] == y;
    } else {
      ShorterRun(a[1..], b);
      assert x[1..] == a[1..] + ["", ""] + b && y[1..] == a[1..] + [""] + b;
    }
  }

  lemma {:induction false} DropLastAfter(x: string, s: seq<string>)
    ensures DropLast([x] + s) == if DropLast(s) == [] then (if x == "" then [] else [x]) else [x] + DropLast(s)
  {
    var t := [x] + s;
    if s == [] {
      assert t == [x] && t[..0] == [];
    } else if s[|s| - 1] == "" {
      DropLastAfter(x, s[..|s| - 1]);
      assert t[..|t| - 1] == [x] + s[..|s| - 1];
    }
  }

  // Two dumps that say the same.

  /** A volatile line may stand anywhere. */
  lemma VolatileIsIgnored(a: seq<string>, line: string, b: seq<string>)
    requires Volatile(line)
    ensures Normal(a + [line] + b) == Normal(a + b)
  {
    hide Said, SaidBy, Squeezed, DropFirst, DropLast, Volatile;
    SaidJoins(a + [line], b);
    SaidJoins(a, [line]);
    SaidJoins(a, b);
    VolatileSaysNothing(line);
    assert Said(a) + [] + Said(b) == Said(a) + Said(b);
  }

  lemma VolatileSaysNothing(line: string)
    requires Volatile(line)
    ensures Said([line]) == []
  {
    hide Volatile;
    assert [line][1..] == [];
  }

  lemma BlankIsSaid(line: string)
    requires BlankLine(line)
    ensures Said([line]) == [""]
  {
    assert !Volatile(line) by {
      forall k | 0 <= k < |VOLATILE| ensures !(VOLATILE[k] <= line) {
        BlankIsSpace(line);
      }
    }
    assert [line][1..] == [];
  }

  lemma SpanStrip(line: string)
    ensures Span(line, Space) < |line| ==> Strip(line) != ""
  {
    hide Space, RStrip;
    var k := Span(line, Space);
    if k < |line| {
      assert LStrip(line)[0] == line[k];
      NotBlank(LStrip(line), 0);
    }
  }

  lemma BlankIsSpace(line: string)
    requires BlankLine(line)
    ensures forall i :: 0 <= i < |line| ==> Space(line[i])
  {
    hide Space, Strip;
    SpanStrip(line);
  }

  /** Blanks beside a blank, however many and of whatever spaces. */
  lemma BlankRunsAreOne(a: seq<string>, x: string, y: string, b: seq<string>)
    requires BlankLine(x) && BlankLine(y)
    ensures Normal(a + [x, y] + b) == Normal(a + [x] + b)
  {
    hide Volatile, BlankLine, Squeezed, Said, DropFirst, DropLast;
    BlankIsSaid(x);
    BlankIsSaid(y);
    assert a + [x, y] + b == a + [x] + [y] + b;
    SaidJoins(a + [x] + [y], b);
    SaidJoins(a + [x], [y]);
    SaidJoins(a + [x], b);
    SaidJoins(a, [x]);
    assert Said(a) + [""] + [""] + Said(b) == Said(a) + ["", ""] + Said(b);
    ShorterRun(Said(a), Said(b));
  }

  /** Blanks before the first line or after the last. */
  lemma OuterBlanksAreIgnored(x: string, lines: seq<string>)
    requires BlankLine(x)
    ensures Normal([x] + lines) == Normal(lines) && Normal(lines + [x]) == Normal(lines)
  {
    hide Volatile, BlankLine;
    BlankIsSaid(x);
    SaidJoins([x], lines);
    SaidJoins(lines, [x]);
    var said := Said(lines);
    SqueezedMore(said, "");
    SqueezedEnds(said);
    assert (Squeezed(said) + [""])[..|Squeezed(said)|] == Squeezed(said);
    assert ([""] + said)[1..] == said;
    DropLastAfter("", Squeezed(said));
  }

  /** Spaces at the end of a line, unless they make it a volatile one. */
  lemma TrailingSpacesAreIgnored(a: seq<string>, x: string, y: string, b: seq<string>)
    requires RStrip(x) == RStrip(y) && Volatile(x) == Volatile(y) && BlankLine(x) == BlankLine(y)
    ensures Normal(a + [x] + b) == Normal(a + [y] + b)
  {
    hide Volatile, BlankLine, Squeezed, RStrip;
    SaidJoins(a + [x], b);
    SaidJoins(a, [x]);
    SaidJoins(a + [y], b);
    SaidJoins(a, [y]);
    assert [x][1..] == [y][1..] == [];
  }

  predicate EndsDos(text: string) {
    |text| > 1 && text[0] == '\r' && text[1] == '\n'
  }

  /** The same text with some of its bare newlines, any of them, made carriage return and newline. dos is
      asked for each by how much of the text is left there. */
  function Mixed(text: string, dos: nat -> bool): string {
    if text == "" then ""
    else if EndsDos(text) then "\r\n" + Mixed(text[2..], dos)
    else (if text[0] == '\n' && dos(|text|) then "\r\n" else [text[0]]) + Mixed(text[1..], dos)
  }

  lemma PairReplaced(rest: string)
    ensures NoCrLf("\r\n" + rest) == "\n" + NoCrLf(rest)
  {
    assert ("\r\n" + rest)[2..] == rest;
  }

  lemma CharKept(c: char, rest: string)
    requires !(c == '\r' && rest != "" && rest[0] == '\n')
    ensures NoCrLf([c] + rest) == [c] + NoCrLf(rest)
  {
    assert ([c] + rest)[1..] == rest;
  }

  lemma MixedStarts(text: string, dos: nat -> bool)
    ensures text == "" ==> Mixed(text, dos) == ""
    ensures text != "" && text[0] != '\n' ==> Mixed(text, dos) != "" && Mixed(text, dos)[0] != '\n'
  {
  }

  lemma {:induction false} MixedIsUndone(text: string, dos: nat -> bool)
    ensures NoCrLf(Mixed(text, dos)) == NoCrLf(text)
  {
    hide NoCrLf;
    if text != "" {
      if EndsDos(text) {
        MixedIsUndone(text[2..], dos);
        PairReplaced(Mixed(text[2..], dos));
        PairReplaced(text[2..]);
        assert text == "\r\n" + text[2..];
      } else {
        MixedIsUndone(text[1..], dos);
        MixedStarts(text[1..], dos);
        CharKept(text[0], text[1..]);
        assert text == [text[0]] + text[1..];
        if text[0] == '\n' && dos(|text|) {
          PairReplaced(Mixed(text[1..], dos));
        } else {
          CharKept(text[0], Mixed(text[1..], dos));
        }
      }
    }
  }

  /** How lines end, all or some of them, whatever other carriage returns there are. */
  lemma CarriageReturnsAreIgnored(text: string, dos: nat -> bool)
    ensures Normalised(Mixed(text, dos)) == Normalised(text)
  {
    MixedIsUndone(text, dos);
  }

  // The result.

  predicate Trimmed(line: string) {
    RStrip(line) == line && !Volatile(line) && OneLine(line)
  }

  /** No volatile line, no trailing space, no two blanks together and none at either end. */
  ghost predicate Tidy(lines: seq<string>) {
    && (forall i :: 0 <= i < |lines| ==> Trimmed(lines[i]))
    && (forall i :: 0 <= i < |lines| - 1 ==> lines[i] != "" || lines[i + 1] != "")
    && (lines != [] ==> lines[0] != "" && lines[|lines| - 1] != "")
  }

  lemma VolatileShorter(line: string)
    requires !Volatile(line)
    ensures !Volatile(RStrip(line))
  {
    hide Space;
    var r := RStrip(line);
    forall k | 0 <= k < |VOLATILE| ensures !(VOLATILE[k] <= r) {
      assert !(VOLATILE[k] <= line);
    }
  }

  lemma {:induction false} RStripOnce(line: string)
    ensures RStrip(RStrip(line)) == RStrip(line)
  {
  }

  lemma {:induction false} SaidIsTrimmed(lines: seq<string>)
    requires forall i :: 0 <= i < |lines| ==> forall j :: 0 <= j < |lines[i]| ==> lines[i][j] != '\n'
    ensures forall i :: 0 <= i < |Said(lines)| ==> Trimmed(Said(lines)[i])
  {
    hide Volatile, BlankLine, Space;
    if lines != [] {
      SaidIsTrimmed(lines[1..]);
      if !Volatile(lines[0]) {
        VolatileShorter(lines[0]);
        RStripOnce(lines[0]);
        assert Trimmed(RStrip(lines[0]));
        assert !Volatile("") by { NotVolatile(); }
      }
    }
  }

  lemma NotVolatile()
    ensures !Volatile("")
  {
    assert forall k :: 0 <= k < |VOLATILE| ==> |VOLATILE[k]| > 0;
  }

  ghost predicate AllTrimmed(lines: seq<string>) {
    forall i :: 0 <= i < |lines| ==> Trimmed(lines[i])
  }

  ghost predicate NoPairs(lines: seq<string>) {
    forall i :: 0 <= i < |lines| - 1 ==> lines[i] != "" || lines[i + 1] != ""
  }

  lemma {:induction false} SqueezedIsTrimmed(said: seq<string>)
    requires AllTrimmed(said)
    ensures AllTrimmed(Squeezed(said)) && NoPairs(Squeezed(said))
  {
    hide Trimmed;
    if said != [] {
      SqueezedIsTrimmed(said[1..]);
      SqueezedEnds(said[1..]);
    }
  }

  lemma {:induction false} DropsKeep(lines: seq<string>)
    requires AllTrimmed(lines) && NoPairs(lines)
    ensures AllTrimmed(DropLast(lines)) && NoPairs(DropLast(lines))
    ensures DropLast(lines) != [] ==> DropLast(lines)[|DropLast(lines)| - 1] != ""
    ensures AllTrimmed(DropFirst(lines)) && NoPairs(DropFirst(lines))
    ensures DropFirst(lines) != [] ==> DropFirst(lines)[0] != "" && DropFirst(lines)[|DropFirst(lines)| - 1] == lines[|lines| - 1]
  {
    hide Trimmed;
    if lines != [] {
      if lines[|lines| - 1] == "" {
        DropsKeep(lines[..|lines| - 1]);
      }
      if lines[0] == "" {
        DropsKeep(lines[1..]);
      }
    }
  }

  lemma {:induction false} SplitHasNoBreaks(text: string, i: nat)
    requires i < |Split(text)|
    ensures forall j :: 0 <= j < |Split(text)[i]| ==> Split(text)[i][j] != '\n'
    decreases i
  {
    var n := Span(text, c => c != '\n');
    if i > 0 {
      SplitHasNoBreaks(text[n + 1..], i - 1);
    }
  }

  /** Whatever the dump, the normalised lines are tidy. */
  lemma NormalIsTidy(text: string)
    ensures Tidy(Normal(Split(text)))
  {
    hide Trimmed, Squeezed, Said;
    var lines := Split(text);
    forall i | 0 <= i < |lines| ensures forall j :: 0 <= j < |lines[i]| ==> lines[i][j] != '\n' {
      SplitHasNoBreaks(text, i);
    }
    SaidIsTrimmed(lines);
    SqueezedIsTrimmed(Said(lines));
    DropsKeep(Squeezed(Said(lines)));
    DropsKeep(DropLast(Squeezed(Said(lines))));
  }

  function NonBlank(line: string): seq<string> {
    if line == "" then [] else [line]
  }

  function Texts(lines: seq<string>): seq<string> {
    if lines == [] then [] else NonBlank(lines[0]) + Texts(lines[1..])
  }

  lemma {:induction false} TextsJoin(a: seq<string>, b: seq<string>)
    ensures Texts(a + b) == Texts(a) + Texts(b)
  {
    hide NonBlank;
    if a == [] {
      assert a + b == b;
    } else {
      TextsJoin(a[1..], b);
      assert (a + b)[1..] == a[1..] + b;
      assert NonBlank(a[0]) + (Texts(a[1..]) + Texts(b)) == NonBlank(a[0]) + Texts(a[1..]) + Texts(b);
    }
  }

  lemma {:induction false} SqueezedTexts(said: seq<string>)
    ensures Texts(Squeezed(said)) == Texts(said)
  {
    if said != [] {
      SqueezedTexts(said[1..]);
    }
  }

  lemma {:induction false} DropTexts(lines: seq<string>)
    ensures Texts(DropLast(lines)) == Texts(lines) && Texts(DropFirst(lines)) == Texts(lines)
  {
    if lines != [] {
      var n := |lines| - 1;
      assert lines == lines[..n] + [lines[n]];
      TextsJoin(lines[..n], [lines[n]]);
      assert [lines[n]][1..] == [];
      DropTexts(lines[..n]);
      DropTexts(lines[1..]);
    }
  }

  /** And every line that is neither volatile nor blank is there, in order, without its trailing spaces. */
  lemma NothingElseIsLost(lines: seq<string>)
    ensures Texts(Normal(lines)) == Texts(Said(lines))
  {
    hide Said, Texts;
    SqueezedTexts(Said(lines));
    DropTexts(Squeezed(Said(lines)));
    DropTexts(DropLast(Squeezed(Said(lines))));
  }

  // Normalising a normalised dump.

  predicate OneLine(line: string) {
    forall j :: 0 <= j < |line| ==> line[j] != '\n'
  }

  lemma SplitFirst(line: string, rest: string)
    requires OneLine(line)
    ensures Split(line + "\n" + rest) == [line] + Split(rest)
    ensures Split("") == [""]
  {
    var text := line + "\n" + rest;
    SpanIs(text, c => c != '\n', |line|);
    assert text[..|line|] == line && text[|line| + 1..] == rest;
    SpanIs("", c => c != '\n', 0);
  }

  lemma {:induction false} SplitOfJoined(lines: seq<string>)
    requires forall i :: 0 <= i < |lines| ==> OneLine(lines[i])
    ensures Split(Joined(lines)) == if lines == [] then ["", ""] else lines + [""]
  {
    hide Split, OneLine;
    if lines == [] {
      EmptyIsOneLine();
      SplitFirst("", "");
      assert "" + "\n" + "" == "\n";
    } else if |lines| == 1 {
      SplitFirst(lines[0], "");
      assert lines[0] + "\n" + "" == lines[0] + "\n";
    } else {
      SplitFirst(lines[0], Joined(lines[1..]));
      SplitOfJoined(lines[1..]);
      assert lines == [lines[0]] + lines[1..];
    }
  }

  lemma EmptyIsOneLine()
    ensures OneLine("")
  {
  }

  predicate NoPairOfEndings(text: string) {
    forall i :: 0 <= i < |text| - 1 ==> text[i] != '\r' || text[i + 1] != '\n'
  }

  lemma {:induction false} NothingReplaced(text: string)
    requires NoPairOfEndings(text)
    ensures NoCrLf(text) == text
  {
    if text != "" {
      assert NoPairOfEndings(text[1..]) by {
        assert forall i :: 0 <= i < |text[1..]| ==> text[1..][i] == text[i + 1];
      }
      NothingReplaced(text[1..]);
      assert text == [text[0]] + text[1..];
    }
  }

  lemma PairFree(line: string, rest: string)
    requires OneLine(line) && (line != "" ==> line[|line| - 1] != '\r') && NoPairOfEndings(rest)
    ensures NoPairOfEndings(line + "\n" + rest)
  {
    var text := line + "\n" + rest;
    forall i | 0 <= i < |text| - 1 ensures text[i] != '\r' || text[i + 1] != '\n' {
      if i > |line| {
        assert text[i] == rest[i - |line| - 1] && text[i + 1] == rest[i - |line|];
      }
    }
  }

  lemma {:induction false} JoinedHasNoPair(lines: seq<string>)
    requires AllTrimmed(lines)
    ensures NoPairOfEndings(Joined(lines))
  {
    hide Volatile, NoPairOfEndings, OneLine, RStrip;
    assert NoPairOfEndings("") by { NoPairInNothing(); }
    if lines == [] {
      EmptyIsOneLine();
      PairFree("", "");
      assert "" + "\n" + "" == "\n";
    } else {
      assert Trimmed(lines[0]);
      EndsInNoSpace(lines[0]);
      JoinedHasNoPair(lines[1..]);
      var rest := if |lines| == 1 then "" else Joined(lines[1..]);
      PairFree(lines[0], rest);
      assert lines[0] + "\n" + "" == lines[0] + "\n";
    }
  }

  lemma NoPairInNothing()
    ensures NoPairOfEndings("")
  {
  }

  lemma EndsInNoSpace(line: string)
    requires RStrip(line) == line
    ensures line != "" ==> line[|line| - 1] != '\r'
  {
  }

  lemma {:induction false} TidySaid(lines: seq<string>)
    requires AllTrimmed(lines)
    ensures Said(lines) == lines
  {
    hide Volatile, Trimmed, BlankLine;
    if lines != [] {
      TidySaid(lines[1..]);
      TrimmedSaid(lines[0]);
      assert lines == [lines[0]] + lines[1..];
    }
  }

  lemma TrimmedSaid(line: string)
    requires Trimmed(line)
    ensures SaidBy(line) == [line]
  {
    hide Volatile, Space;
    if BlankLine(line) {
      BlankIsSpace(line);
      assert line == "";
    }
  }

  lemma {:induction false} TidySqueezed(lines: seq<string>)
    requires NoPairs(lines)
    ensures Squeezed(lines) == lines
  {
    if lines != [] {
      assert NoPairs(lines[1..]) by {
        assert forall i :: 0 <= i < |lines[1..]| ==> lines[1..][i] == lines[i + 1];
      }
      TidySqueezed(lines[1..]);
      assert lines == [lines[0]] + lines[1..];
    }
  }

  lemma TidyNormal(lines: seq<string>)
    requires Tidy(lines)
    ensures Normal(lines) == lines
  {
    hide Trimmed, Squeezed, Said;
    TidySaid(lines);
    TidySqueezed(lines);
  }

  lemma NormalOfJoined(lines: seq<string>)
    requires Tidy(lines)
    ensures Normal(Split(NoCrLf(Joined(lines)))) == lines
  {
    hide Normal, Volatile, BlankLine, Joined, Split;
    JoinedHasNoPair(lines);
    NothingReplaced(Joined(lines));
    SplitOfJoined(lines);
    TidyNormal(lines);
    EmptyIsBlank();
    if lines == [] {
      OuterBlanksAreIgnored("", [""]);
      OuterBlanksAreIgnored("", []);
      assert [] + [""] == [""] && [""] + [""] == ["", ""];
    } else {
      OuterBlanksAreIgnored("", lines);
    }
  }

  lemma EmptyIsBlank()
    ensures BlankLine("")
  {
    SpanIs("", Space, 0);
  }

  /** Normalising twice is normalising once. */
  lemma NormalisedOnce(raw: string)
    ensures Normalised(Normalised(raw)) == Normalised(raw)
  {
    hide Normal, Split, Joined, NoCrLf, Tidy;
    NormalIsTidy(NoCrLf(raw));
    NormalOfJoined(Normal(Split(NoCrLf(raw))));
  }

  /** Two dumps normalise to the same text exactly when their lines do to the same lines. */
  lemma SameTextExactly(a: string, b: string)
    ensures Normalised(a) == Normalised(b) <==> Normal(Split(NoCrLf(a))) == Normal(Split(NoCrLf(b)))
  {
    hide Normal, Split, Joined, NoCrLf, Tidy;
    NormalIsTidy(NoCrLf(a));
    NormalIsTidy(NoCrLf(b));
    NormalOfJoined(Normal(Split(NoCrLf(a))));
    NormalOfJoined(Normal(Split(NoCrLf(b))));
  }

  // The loop.

  lemma SaidNext(lines: seq<string>, i: nat)
    requires i < |lines|
    ensures Said(lines[..i + 1]) == Said(lines[..i]) + SaidBy(lines[i])
  {
    hide SaidBy;
    assert lines[..i + 1] == lines[..i] + [lines[i]];
    SaidJoins(lines[..i], [lines[i]]);
    assert [lines[i]][1..] == [];
  }

  lemma SqueezedWith(said: seq<string>, line: string)
    ensures BlankLine(line) && !Volatile(line) && said != [] && said[|said| - 1] == "" ==>
      Squeezed(said + SaidBy(line)) == Squeezed(said)
    ensures BlankLine(line) && !Volatile(line) && !(said != [] && said[|said| - 1] == "") ==>
      Squeezed(said + SaidBy(line)) == Squeezed(said) + [""]
    ensures !BlankLine(line) && !Volatile(line) ==> Squeezed(said + SaidBy(line)) == Squeezed(said) + [RStrip(line)] && RStrip(line) != ""
    ensures Volatile(line) ==> said + SaidBy(line) == said
  {
    hide Volatile, Squeezed, Space;
    SqueezedMore(said, "");
    SqueezedMore(said, RStrip(line));
    if !BlankLine(line) && RStrip(line) == "" {
      AllSpaceIsBlank(line);
    }
  }

  lemma AllSpaceIsBlank(line: string)
    requires RStrip(line) == ""
    ensures BlankLine(line)
  {
    hide Space;
    SpanIs(line, Space, |line|);
  }

  method Normalise(raw: string) returns (text: string)
    ensures text == Normalised(raw)
  {
    hide Volatile, BlankLine, Said, SaidBy, Squeezed, DropFirst, DropLast, NoCrLf, Split, Joined;
    var lines := Split(NoCrLf(raw));
    var out: seq<string> := [];
    var blank := false;
    ghost var said: seq<string> := [];
    NothingSaid();
    assert lines[..0] == [];
    var i := 0;
    while i < |lines|
      invariant 0 <= i <= |lines| && said == Said(lines[..i]) && out == Squeezed(said)
      invariant blank == (said != [] && said[|said| - 1] == "")
    {
      var line := lines[i];
      SaidNext(lines, i);
      SqueezedWith(said, line);
      LastSaid(said, line);
      said := said + SaidBy(line);
      i := i + 1;
      if Volatile(line) {
        continue;
      }
      if BlankLine(line) {
        if blank {
          continue;
        }
        blank := true;
        out := out + [""];
        continue;
      }
      blank := false;
      out := out + [RStrip(line)];
    }
    assert lines[..i] == lines;
    ghost var squeezed := out;
    while out != [] && out[|out| - 1] == ""
      invariant DropLast(out) == DropLast(squeezed)
      decreases |out|
    {
      DroppedLast(out);
      out := out[..|out| - 1];
    }
    DroppedLast(out);
    ghost var ended := out;
    while out != [] && out[0] == ""
      invariant DropFirst(out) == DropFirst(ended)
      decreases |out|
    {
      DroppedFirst(out);
      out := out[1..];
    }
    DroppedFirst(out);
    text := Joined(out);
  }

  lemma NothingSaid()
    ensures Said([]) == [] && Squeezed([]) == []
  {
  }

  lemma LastSaid(said: seq<string>, line: string)
    ensures !Volatile(line) ==>
      var more := said + SaidBy(line);
      more != [] && (more[|more| - 1] == "" <==> BlankLine(line))
  {
    hide Volatile, Space;
    if !BlankLine(line) && RStrip(line) == "" {
      AllSpaceIsBlank(line);
    }
  }

  lemma DroppedLast(out: seq<string>)
    ensures DropLast(out) == if out != [] && out[|out| - 1] == "" then DropLast(out[..|out| - 1]) else out
  {
  }

  lemma DroppedFirst(out: seq<string>)
    ensures DropFirst(out) == if out != [] && out[0] == "" then DropFirst(out[1..]) else out
  {
  }
}
