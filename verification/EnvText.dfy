/** The text of an env file: its lines, and what one line says. */
module EnvText {
  import opened Options

  /** str.isspace() and the regular expression's \s. */
  predicate Space(c: char) {
    || c == ' ' || '\t' <= c <= '\r' || '\U{1c}' <= c <= '\U{1f}' || c == '\U{85}' || c == '\U{a0}'
    || c == '\U{1680}' || '\U{2000}' <= c <= '\U{200a}' || c == '\U{2028}' || c == '\U{2029}'
    || c == '\U{202f}' || c == '\U{205f}' || c == '\U{3000}'
  }

  /** Where str.splitlines() ends a line. */
  predicate Break(c: char) {
    '\n' <= c <= '\r' || '\U{1c}' <= c <= '\U{1e}' || c == '\U{85}' || c == '\U{2028}' || c == '\U{2029}'
  }

  predicate InLine(c: char) {
    !Break(c)
  }

  predicate NameStart(c: char) {
    'A' <= c <= 'Z' || 'a' <= c <= 'z' || c == '_'
  }

  predicate NameChar(c: char) {
    NameStart(c) || '0' <= c <= '9'
  }

  predicate Name(s: string) {
    s != "" && NameStart(s[0]) && forall i :: 0 <= i < |s| ==> NameChar(s[i])
  }

  predicate Clean(line: string) {
    forall i :: 0 <= i < |line| ==> !Break(line[i])
  }

  predicate AllClean(lines: seq<string>) {
    forall i :: 0 <= i < |lines| ==> Clean(lines[i])
  }

  /** How many leading characters satisfy p: the clauses leave no other number. */
  function Span(s: string, p: char -> bool): (n: nat)
    ensures n <= |s|
    ensures forall i :: 0 <= i < n ==> p(s[i])
    ensures n < |s| ==> !p(s[n])
  {
    if s == "" || !p(s[0]) then 0 else 1 + Span(s[1..], p)
  }

  function LStrip(s: string): string {
    s[Span(s, Space)..]
  }

  function RStrip(s: string): (r: string)
    ensures r <= s
    ensures forall i :: |r| <= i < |s| ==> Space(s[i])
    ensures r != "" ==> !Space(r[|r| - 1])
  {
    if s == "" || !Space(s[|s| - 1]) then s else RStrip(s[..|s| - 1])
  }

  function Strip(s: string): string {
    RStrip(LStrip(s))
  }

  datatype Setting = Setting(key: string, value: string)

  /** A name, spaces, an equals sign and the rest. */
  function Assignment(s: string): Option<Setting> {
    if s == "" || !NameStart(s[0]) then None
    else
      var n := Span(s, NameChar);
      var m := n + Span(s[n..], Space);
      if m == |s| || s[m] != '=' then None else Some(Setting(s[..n], s[m + 1..]))
  }

  /** EnvFile._LINE: an optional `export` and then an assignment. */
  function Parse(line: string): Option<Setting> {
    var s := LStrip(line);
    if "export" <= s && |s| > 6 && Space(s[6]) && Assignment(LStrip(s[6..])).Some?
    then Assignment(LStrip(s[6..]))
    else Assignment(s)
  }

  /** The value a setting's right-hand side stands for. */
  function Unquoted(raw: string): string {
    var v := Strip(raw);
    if |v| >= 2 && v[0] == v[|v| - 1] && v[0] in {'\'', '"'} then v[1..|v| - 1] else v
  }

  lemma SpanIs(s: string, p: char -> bool, n: nat)
    requires n <= |s|
    requires forall i :: 0 <= i < n ==> p(s[i])
    requires n < |s| ==> !p(s[n])
    ensures Span(s, p) == n
  {
  }

  lemma {:induction false} RStripIs(s: string, r: string)
    requires r <= s
    requires forall i :: |r| <= i < |s| ==> Space(s[i])
    requires r != "" ==> !Space(r[|r| - 1])
    ensures RStrip(s) == r
  {
    hide Space;
    if |r| < |s| {
      assert Space(s[|s| - 1]);
      RStripIs(s[..|s| - 1], r);
    }
  }

  lemma StripTail(s: string, n: nat)
    requires n <= |s|
    requires forall i :: n <= i < |s| ==> Space(s[i])
    ensures Strip(s[..n]) == Strip(s)
  {
    hide Space;
    var k := Span(s, Space);
    if k < |s| {
      assert k < n;
      SpanIs(s[..n], Space, k);
      var r := RStrip(s[k..n]);
      assert r <= s[k..] by { assert s[k..n] <= s[k..]; }
      RStripIs(s[k..], r);
    } else {
      SpanIs(s[..n], Space, n);
    }
  }

  /** Where an assignment's name ends and its equals sign stands. */
  ghost predicate AssignsAt(s: string, n: nat, m: nat) {
    && 0 < n <= m < |s| && NameStart(s[0]) && s[m] == '='
    && (forall i :: 0 <= i < n ==> NameChar(s[i]))
    && (forall i :: n <= i < m ==> Space(s[i]))
  }

  lemma AssignmentIs(s: string, n: nat, m: nat)
    requires AssignsAt(s, n, m)
    ensures Assignment(s) == Some(Setting(s[..n], s[m + 1..]))
  {
    assert !NameChar(s[n]) by { assert n == m || Space(s[n]); }
    SpanIs(s, NameChar, n);
    SpanIs(s[n..], Space, m - n);
  }

  lemma AssignmentAt(s: string) returns (n: nat, m: nat)
    requires Assignment(s).Some?
    ensures AssignsAt(s, n, m) && Assignment(s) == Some(Setting(s[..n], s[m + 1..]))
  {
    n := Span(s, NameChar);
    m := n + Span(s[n..], Space);
    forall i | n <= i < m ensures Space(s[i]) {
      assert Space(s[n..][i - n]);
    }
  }

  lemma SettingStays(s: string, t: string, n: nat, m: nat)
    requires AssignsAt(s, n, m) && t <= s && forall i :: |t| <= i < |s| ==> Space(s[i])
    ensures AssignsAt(t, n, m)
  {
    assert !Space(s[m]);
  }

  /** Cutting trailing spaces leaves an assignment one, to the same key and the same value. */
  lemma AssignmentStripped(s: string)
    requires Assignment(s).Some?
    ensures Assignment(RStrip(s)).Some?
    ensures Assignment(RStrip(s)).value.key == Assignment(s).value.key
    ensures Strip(Assignment(RStrip(s)).value.value) == Strip(Assignment(s).value.value)
  {
    hide Assignment, Space, RStrip, Strip;
    var t := RStrip(s);
    var n, m := AssignmentAt(s);
    SettingStays(s, t, n, m);
    AssignmentIs(t, n, m);
    StripTail(s[m + 1..], |t| - (m + 1));
    assert s[m + 1..][..|t| - (m + 1)] == t[m + 1..];
  }

  /** And adding them makes no assignment of a line that was none. */
  lemma AssignmentGrows(s: string)
    requires Assignment(RStrip(s)).Some?
    ensures Assignment(s).Some?
  {
    hide Assignment, Space, RStrip;
    var n, m := AssignmentAt(RStrip(s));
    AssignmentIs(s, n, m);
  }

  lemma LStripPrefix(s: string, t: string)
    requires t <= s && t != "" && !Space(t[|t| - 1])
    ensures LStrip(t) <= LStrip(s)
    ensures |LStrip(s)| - |LStrip(t)| == |s| - |t|
    ensures LStrip(t) != "" && LStrip(t)[|LStrip(t)| - 1] == t[|t| - 1]
  {
    hide Space;
    var k := Span(s, Space);
    assert !Space(s[|t| - 1]);
    SpanIs(t, Space, k);
  }

  lemma LStripOnce(s: string)
    ensures LStrip(LStrip(s)) == LStrip(s)
  {
    SpanIs(LStrip(s), Space, 0);
  }

  lemma AssignmentNotBlank(s: string)
    ensures Assignment(s).Some? ==> s != "" && !Space(s[0])
  {
  }

  lemma NotBlank(s: string, i: nat)
    requires i < |s| && !Space(s[i])
    ensures i < |RStrip(s)|
  {
    hide Space, RStrip;
  }

  ghost predicate Exports(s: string) {
    "export" <= s && |s| > 6 && Space(s[6]) && Assignment(LStrip(s[6..])).Some?
  }

  lemma ExportsAfter(s: string)
    requires Exports(s)
    ensures Exports(RStrip(s)) && LStrip(RStrip(s)[6..]) == RStrip(LStrip(s[6..]))
  {
    hide Assignment, Space, RStrip;
    var t, u := RStrip(s), s[6..];
    AssignmentNotBlank(LStrip(u));
    NotBlank(s, 6 + Span(u, Space));
    LStripPrefix(u, t[6..]);
    RStripIs(LStrip(u), LStrip(t[6..]));
    AssignmentStripped(LStrip(u));
  }

  lemma ExportsBefore(s: string)
    requires Exports(RStrip(s))
    ensures Exports(s)
  {
    hide Assignment, Space, RStrip;
    var t := RStrip(s);
    LStripPrefix(s[6..], t[6..]);
    RStripIs(LStrip(s[6..]), LStrip(t[6..]));
    AssignmentGrows(LStrip(s[6..]));
  }

  /** What a line with no leading space says. */
  ghost function Said(s: string): Option<Setting> {
    if Exports(s) then Assignment(LStrip(s[6..])) else Assignment(s)
  }

  lemma ParseSays(line: string)
    ensures Parse(line) == Said(LStrip(line))
  {
    hide Assignment, Space, LStrip;
  }

  lemma SaidStripped(s: string)
    requires Said(s).Some?
    ensures Said(RStrip(s)).Some?
    ensures Said(RStrip(s)).value.key == Said(s).value.key
    ensures Strip(Said(RStrip(s)).value.value) == Strip(Said(s).value.value)
  {
    hide Assignment, RStrip, LStrip, Strip;
    if Exports(s) {
      ExportsAfter(s);
      AssignmentStripped(LStrip(s[6..]));
    } else {
      if Exports(RStrip(s)) {
        ExportsBefore(s);
      }
      AssignmentStripped(s);
    }
  }

  /** A line moved without its outer spaces still says the same thing. */
  lemma ParseStripped(line: string)
    requires Parse(line).Some?
    ensures Parse(Strip(line)).Some?
    ensures Parse(Strip(line)).value.key == Parse(line).value.key
    ensures Unquoted(Parse(Strip(line)).value.value) == Unquoted(Parse(line).value.value)
  {
    hide Assignment, Space, RStrip, Said, Parse;
    var s := LStrip(line);
    ParseSays(line);
    ParseSays(Strip(line));
    SaidStripped(s);
    SaidNotBlank(s);
    if s != "" && !Space(s[0]) {
      NotBlank(s, 0);
      SpanIs(RStrip(s), Space, 0);
    } else {
      LStripOnce(line);
    }
  }

  lemma SaidNotBlank(s: string)
    ensures Said(s).Some? ==> s != "" && !Space(s[0])
  {
    AssignmentNotBlank(s);
  }

  /** A line written as KEY=value says just that. */
  lemma ParseBuilt(key: string, value: string)
    requires Name(key)
    ensures Parse(key + "=" + value) == Some(Setting(key, value))
  {
    hide Assignment;
    var s := key + "=" + value;
    SpanIs(s, Space, 0);
    assert forall i :: 0 <= i < |key| ==> s[i] == key[i];
    AssignmentIs(s, |key|, |key|);
    assert s[..|key|] == key && s[|key| + 1..] == value;
    assert s[|key|] == '=';
  }

  lemma ParseComment(line: string)
    requires Strip(line) != "" && Strip(line)[0] == '#'
    ensures Parse(line) == None
  {
    assert LStrip(line)[0] == '#';
  }

  /** newline.join(lines) + newline, which for no lines at all is one empty line. */
  function Written(lines: seq<string>): seq<string> {
    if lines == [] then [""] else lines
  }

  function Newline(crlf: bool): string {
    if crlf then "\r\n" else "\n"
  }

  function Ended(lines: seq<string>, crlf: bool): string {
    if lines == [] then "" else lines[0] + Newline(crlf) + Ended(lines[1..], crlf)
  }

  /** EnvFile.text */
  function TextOf(lines: seq<string>, crlf: bool): string {
    Ended(Written(lines), crlf)
  }

  /** How long the line ending at n is. */
  function EndingAt(s: string, n: nat): (k: nat)
    requires n < |s|
    ensures 0 < k <= |s| - n
  {
    if s[n] == '\r' && n + 1 < |s| && s[n + 1] == '\n' then 2 else 1
  }

  /** str.splitlines() */
  function SplitLines(s: string): seq<string>
    decreases |s|
  {
    if s == "" then []
    else
      var n := Span(s, InLine);
      if n == |s| then [s]
      else [s[..n]] + SplitLines(s[n + EndingAt(s, n)..])
  }

  /** "\r\n" in text */
  predicate HasCrLf(s: string) {
    exists i :: 0 <= i < |s| - 1 && s[i] == '\r' && s[i + 1] == '\n'
  }

  lemma {:induction false} SplitIsClean(s: string)
    ensures AllClean(SplitLines(s))
    decreases |s|
  {
    hide Break, EndingAt;
    if s != "" {
      var n := Span(s, InLine);
      if n < |s| {
        SplitIsClean(s[n + EndingAt(s, n)..]);
      }
    }
  }

  lemma NewlineBreaks(crlf: bool)
    ensures |Newline(crlf)| > 0 && Break(Newline(crlf)[0])
  {
  }

  /** One line and what follows its ending. */
  lemma SplitOne(line: string, crlf: bool, rest: string)
    requires Clean(line)
    ensures SplitLines(line + Newline(crlf) + rest) == [line] + SplitLines(rest)
  {
    hide Break;
    var s := line + Newline(crlf) + rest;
    var n := |line|;
    NewlineBreaks(crlf);
    assert s[n] == Newline(crlf)[0];
    SpanIs(s, InLine, n);
    assert s[..n] == line;
    assert s[n + |Newline(crlf)|..] == rest;
  }

  lemma {:induction false} SplitOfEnded(lines: seq<string>, crlf: bool)
    requires AllClean(lines)
    ensures SplitLines(Ended(lines, crlf)) == lines
  {
    hide Break, SplitLines, Newline;
    if lines == [] {
      NothingSplits();
    } else {
      SplitOne(lines[0], crlf, Ended(lines[1..], crlf));
      SplitOfEnded(lines[1..], crlf);
    }
  }

  lemma NothingSplits()
    ensures SplitLines("") == []
  {
  }

  lemma {:induction false} NoReturn(lines: seq<string>, i: nat)
    requires AllClean(lines) && i < |Ended(lines, false)|
    ensures Ended(lines, false)[i] != '\r'
  {
    var s := lines[0] + Newline(false) + Ended(lines[1..], false);
    if i > |lines[0]| {
      NoReturn(lines[1..], i - |lines[0]| - 1);
      assert s[i] == Ended(lines[1..], false)[i - |lines[0]| - 1];
    } else if i < |lines[0]| {
      assert s[i] == lines[0][i];
    }
  }

  lemma EndedHasCrLf(lines: seq<string>)
    requires lines != []
    ensures HasCrLf(Ended(lines, true))
  {
    var rest := Ended(lines[1..], true);
    var s := lines[0] + "\r\n" + rest;
    assert s[|lines[0]|] == '\r' && s[|lines[0]| + 1] == '\n';
  }

  /** A written file reads back as the same lines with the same line ending. */
  lemma TextReadsBack(lines: seq<string>, crlf: bool)
    requires AllClean(lines)
    ensures SplitLines(TextOf(lines, crlf)) == Written(lines)
    ensures HasCrLf(TextOf(lines, crlf)) == crlf
  {
    hide Ended, SplitLines, Break;
    var w := Written(lines);
    assert AllClean(w);
    SplitOfEnded(w, crlf);
    var s := TextOf(lines, crlf);
    if crlf {
      EndedHasCrLf(w);
    } else if HasCrLf(s) {
      var i :| 0 <= i < |s| - 1 && s[i] == '\r' && s[i + 1] == '\n';
      NoReturn(w, i);
    }
  }
}
