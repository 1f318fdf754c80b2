/** An env file kept line by line: reading a setting, writing one, dropping one, and taking
    away a comment an older template wrote above one. */
module EnvFiles {
  import opened EnvText

  /** EnvFile.get: a key set twice is refused by name. */
  datatype Reading = Missing | Once(value: string) | Twice

  datatype Env = Env(lines: seq<string>, crlf: bool, existed: bool, changed: bool)

  predicate Sets(line: string, key: string) {
    Parse(line).Some? && Parse(line).value.key == key
  }

  function Here(line: string, key: string): seq<string> {
    if Sets(line, key) then [Parse(line).value.value] else []
  }

  /** The right-hand sides of a key's lines, in order. */
  function Settings(lines: seq<string>, key: string): seq<string> {
    if lines == [] then [] else Here(lines[0], key) + Settings(lines[1..], key)
  }

  function Index(lines: seq<string>, key: string): (i: nat)
    ensures i <= |lines|
    ensures forall j :: 0 <= j < i ==> !Sets(lines[j], key)
    ensures i < |lines| ==> Sets(lines[i], key)
  {
    hide Sets;
    if lines == [] || Sets(lines[0], key) then 0 else 1 + Index(lines[1..], key)
  }

  function Read(lines: seq<string>, key: string): Reading {
    var found := Settings(lines, key);
    if found == [] then Missing else if |found| > 1 then Twice else Once(Unquoted(found[0]))
  }

  function Put(e: Env, key: string, line: string): Env {
    var i := Index(e.lines, key);
    if i == |e.lines| then e.(lines := e.lines + [line], changed := true)
    else if e.lines[i] == line then e
    else e.(lines := e.lines[i := line], changed := true)
  }

  function Dropped(lines: seq<string>, key: string, note: string): (r: seq<string>)
    ensures |r| == |lines|
    ensures forall i :: 0 <= i < |lines| ==> r[i] == if Sets(lines[i], key) then note else lines[i]
  {
    hide Sets;
    if lines == [] then []
    else [if Sets(lines[0], key) then note else lines[0]] + Dropped(lines[1..], key, note)
  }

  function Drop(e: Env, key: string, note: string): Env {
    e.(lines := Dropped(e.lines, key, note), changed := e.changed || Index(e.lines, key) < |e.lines|)
  }

  /** A comment line that is not blank behind its # and not a rule of dashes. */
  predicate Comment(line: string) {
    var s := Strip(line);
    s != "" && s[0] == '#' && exists i :: 0 <= i < |Strip(s[1..])| && Strip(s[1..])[i] != '-'
  }

  function BlockStart(lines: seq<string>, i: nat): (b: nat)
    requires i <= |lines|
    ensures b <= i
    ensures forall j :: b <= j < i ==> Comment(lines[j])
    ensures b > 0 ==> !Comment(lines[b - 1])
  {
    hide Comment;
    if i > 0 && Comment(lines[i - 1]) then BlockStart(lines, i - 1) else i
  }

  function CommentAbove(lines: seq<string>, key: string): seq<string> {
    var i := Index(lines, key);
    if i == |lines| then [] else lines[BlockStart(lines, i)..i]
  }

  predicate Contains(s: string, t: string) {
    exists i :: 0 <= i <= |s| - |t| && s[i..][..|t|] == t
  }

  predicate Stale(block: seq<string>, phrase: string) {
    exists i :: 0 <= i < |block| && Contains(block[i], phrase)
  }

  function ReplaceStale(e: Env, key: string, phrase: string, replacement: seq<string>): Env {
    var i := Index(e.lines, key);
    if !Stale(CommentAbove(e.lines, key), phrase) then e
    else e.(lines := e.lines[..BlockStart(e.lines, i)] + replacement + e.lines[i..], changed := true)
  }

  // What the edits do to settings.

  lemma {:induction false} SettingsJoin(a: seq<string>, b: seq<string>, key: string)
    ensures Settings(a + b, key) == Settings(a, key) + Settings(b, key)
  {
    hide Here;
    if a == [] {
      assert a + b == b;
    } else {
      SettingsJoin(a[1..], b, key);
      assert (a + b)[1..] == a[1..] + b;
    }
  }

  lemma {:induction false} NoSettings(lines: seq<string>, key: string)
    requires forall i :: 0 <= i < |lines| ==> !Sets(lines[i], key)
    ensures Settings(lines, key) == []
  {
    hide Sets;
    if lines != [] {
      NoSettings(lines[1..], key);
    }
  }

  /** Index and Settings look at the same line first. */
  lemma SettingsSplit(lines: seq<string>, key: string)
    ensures var i := Index(lines, key);
      Settings(lines, key) ==
        if i == |lines| then [] else [Parse(lines[i]).value.value] + Settings(lines[i + 1..], key)
  {
    hide Sets, Parse;
    var i := Index(lines, key);
    NoSettings(lines[..i], key);
    assert lines == lines[..i] + lines[i..];
    SettingsJoin(lines[..i], lines[i..], key);
  }

  lemma SettingsOf(line: string, key: string)
    ensures Settings([line], key) == Here(line, key)
  {
    hide Here;
    assert [line][1..] == [];
  }

  lemma CommentSetsNothing(line: string, key: string)
    requires Comment(line)
    ensures !Sets(line, key)
  {
    ParseComment(line);
  }

  lemma BlockSetsNothing(block: seq<string>, key: string)
    requires forall i :: 0 <= i < |block| ==> Comment(block[i])
    ensures Settings(block, key) == []
  {
    hide Comment;
    forall i | 0 <= i < |block| ensures !Sets(block[i], key) {
      CommentSetsNothing(block[i], key);
    }
    NoSettings(block, key);
  }

  /** Changing one line changes what the two lines themselves set. */
  lemma SettingsUpdated(lines: seq<string>, i: nat, line: string, key: string)
    requires i < |lines|
    ensures Settings(lines, key) == Settings(lines[..i], key) + Settings([lines[i]], key) + Settings(lines[i + 1..], key)
    ensures Settings(lines[i := line], key) == Settings(lines[..i], key) + Settings([line], key) + Settings(lines[i + 1..], key)
  {
    hide Settings;
    SettingsJoin(lines[..i], [lines[i]], key);
    SettingsJoin(lines[..i] + [lines[i]], lines[i + 1..], key);
    assert lines == lines[..i] + [lines[i]] + lines[i + 1..];
    SettingsJoin(lines[..i], [line], key);
    SettingsJoin(lines[..i] + [line], lines[i + 1..], key);
    assert lines[i := line] == lines[..i] + [line] + lines[i + 1..];
  }

  /** put: the first setting of the key gives way to the new one, or the new one is added; other keys
      keep theirs. So a key set at most once is then set once, to the new value. */
  lemma PutSets(e: Env, key: string, line: string, other: string)
    requires Sets(line, key)
    ensures var was := Settings(e.lines, key);
      Settings(Put(e, key, line).lines, key) == [Parse(line).value.value] + if was == [] then [] else was[1..]
    ensures !Read(e.lines, key).Twice? ==> Read(Put(e, key, line).lines, key) == Once(Unquoted(Parse(line).value.value))
    ensures other != key ==> Settings(Put(e, key, line).lines, other) == Settings(e.lines, other)
  {
    hide Parse, Unquoted, Settings;
    var i := Index(e.lines, key);
    SettingsOf(line, key);
    SettingsOf(line, other);
    SettingsSplit(e.lines, key);
    if i == |e.lines| {
      SettingsJoin(e.lines, [line], key);
      SettingsJoin(e.lines, [line], other);
    } else {
      SettingsOf(e.lines[i], other);
      SettingsUpdated(e.lines, i, line, key);
      SettingsUpdated(e.lines, i, line, other);
      NoSettings(e.lines[..i], key);
    }
  }

  /** drop: no line sets the key afterwards; other keys keep their lines. */
  lemma {:induction false} DropClears(lines: seq<string>, key: string, note: string, other: string)
    requires Comment(note)
    ensures Settings(Dropped(lines, key, note), key) == []
    ensures other != key ==> Settings(Dropped(lines, key, note), other) == Settings(lines, other)
  {
    hide Parse, Comment;
    if lines != [] {
      DropClears(lines[1..], key, note, other);
      CommentSetsNothing(note, key);
      CommentSetsNothing(note, other);
    }
  }

  /** replace_stale_comment touches no setting. */
  lemma ReplaceKeepsSettings(e: Env, key: string, phrase: string, replacement: seq<string>, other: string)
    requires forall i :: 0 <= i < |replacement| ==> Comment(replacement[i])
    ensures Settings(ReplaceStale(e, key, phrase, replacement).lines, other) == Settings(e.lines, other)
  {
    hide Comment, Contains;
    if Stale(CommentAbove(e.lines, key), phrase) {
      var i := Index(e.lines, key);
      SettingsCut(e.lines, BlockStart(e.lines, i), i, replacement, other);
    }
  }

  lemma SettingsCut(lines: seq<string>, b: nat, i: nat, replacement: seq<string>, key: string)
    requires b <= i <= |lines|
    requires forall j :: b <= j < i ==> Comment(lines[j])
    requires forall j :: 0 <= j < |replacement| ==> Comment(replacement[j])
    ensures Settings(lines[..b] + replacement + lines[i..], key) == Settings(lines, key)
  {
    hide Settings, Comment;
    assert lines == lines[..b] + lines[b..i] + lines[i..];
    SettingsJoin(lines[..b] + lines[b..i], lines[i..], key);
    SettingsJoin(lines[..b], lines[b..i], key);
    SettingsJoin(lines[..b] + replacement, lines[i..], key);
    SettingsJoin(lines[..b], replacement, key);
    BlockSetsNothing(lines[b..i], key);
    BlockSetsNothing(replacement, key);
  }

  // What the edits do to the comments above a key.

  lemma IndexIs(lines: seq<string>, key: string, i: nat)
    requires i < |lines| && Sets(lines[i], key)
    requires forall j :: 0 <= j < i ==> !Sets(lines[j], key)
    ensures Index(lines, key) == i
  {
    hide Sets;
  }

  lemma {:induction false} BlockIs(lines: seq<string>, i: nat, b: nat)
    requires b <= i <= |lines|
    requires forall j :: b <= j < i ==> Comment(lines[j])
    requires b > 0 ==> !Comment(lines[b - 1])
    ensures BlockStart(lines, i) == b
  {
    hide Comment;
    if b < i {
      BlockIs(lines, i - 1, b);
    }
  }

  /** A replaced block reads back as the replacement. */
  lemma ReplacedBlock(e: Env, key: string, phrase: string, replacement: seq<string>)
    requires forall i :: 0 <= i < |replacement| ==> Comment(replacement[i])
    requires Stale(CommentAbove(e.lines, key), phrase)
    ensures CommentAbove(ReplaceStale(e, key, phrase, replacement).lines, key) == replacement
  {
    hide Comment, Stale, Contains, Sets;
    var lines := e.lines;
    var i := Index(lines, key);
    assert i < |lines| by { hide *; StaleIsSet(lines, key, phrase); }
    var b := BlockStart(lines, i);
    var after := lines[..b] + replacement + lines[i..];
    var k := b + |replacement|;
    forall j | 0 <= j < k ensures !Sets(after[j], key) {
      if b <= j {
        CommentSetsNothing(replacement[j - b], key);
      }
    }
    IndexIs(after, key, k);
    BlockIs(after, k, b);
  }

  lemma StaleIsSet(lines: seq<string>, key: string, phrase: string)
    requires Stale(CommentAbove(lines, key), phrase)
    ensures Index(lines, key) < |lines|
  {
  }

  /** Replacing the block above one key leaves the block above another as it was. */
  lemma OtherBlockKept(e: Env, key: string, phrase: string, replacement: seq<string>, other: string)
    requires forall i :: 0 <= i < |replacement| ==> Comment(replacement[i])
    requires other != key
    ensures CommentAbove(ReplaceStale(e, key, phrase, replacement).lines, other) == CommentAbove(e.lines, other)
  {
    hide Comment, Contains;
    if Stale(CommentAbove(e.lines, key), phrase) {
      StaleIsSet(e.lines, key, phrase);
      BlockMoved(e.lines, key, replacement, other);
    }
  }

  lemma BlockMoved(lines: seq<string>, key: string, replacement: seq<string>, other: string)
    requires forall i :: 0 <= i < |replacement| ==> Comment(replacement[i])
    requires other != key && Index(lines, key) < |lines|
    ensures var i := Index(lines, key); var b := BlockStart(lines, i);
      CommentAbove(lines[..b] + replacement + lines[i..], other) == CommentAbove(lines, other)
  {
    hide Comment, Parse, BlockStart, Index;
    var i := Index(lines, key);
    var b := BlockStart(lines, i);
    var after := lines[..b] + replacement + lines[i..];
    var o := Index(lines, other);
    if b <= o < i {
      CommentSetsNothing(lines[o], other);
      assert false;
    } else if o < b {
      IndexIs(after, other, o);
      var c := BlockStart(lines, o);
      BlockIs(after, o, c);
      assert after[c..o] == lines[c..o];
    } else {
      BlockSetsNone(replacement, other);
      NotComment(lines[i], key);
      BlockShifted(lines, b, replacement, i, other);
    }
  }

  lemma NotComment(line: string, key: string)
    requires Sets(line, key)
    ensures !Comment(line)
  {
    hide Comment, Sets;
    if Comment(line) {
      CommentSetsNothing(line, key);
    }
  }

  lemma BlockSetsNone(block: seq<string>, key: string)
    requires forall i :: 0 <= i < |block| ==> Comment(block[i])
    ensures forall i :: 0 <= i < |block| ==> !Sets(block[i], key)
  {
    hide Comment, Sets;
    forall i | 0 <= i < |block| ensures !Sets(block[i], key) {
      CommentSetsNothing(block[i], key);
    }
  }

  lemma BlockShifted(lines: seq<string>, b: nat, replacement: seq<string>, i: nat, key: string)
    requires b <= i < |lines| && !Comment(lines[i]) && i < Index(lines, key)
    requires forall j :: 0 <= j < |replacement| ==> !Sets(replacement[j], key)
    ensures CommentAbove(lines[..b] + replacement + lines[i..], key) == CommentAbove(lines, key)
  {
    hide Comment, Sets, BlockStart, CommentAbove, Index;
    BlockAfter(lines[..b] + replacement, lines[i..], key);
    BlockAfter(lines[..i], lines[i..], key);
    assert lines == lines[..i] + lines[i..];
  }

  lemma CommentAboveIs(lines: seq<string>, key: string)
    ensures var i := Index(lines, key);
      CommentAbove(lines, key) == if i == |lines| then [] else lines[BlockStart(lines, i)..i]
  {
    hide BlockStart, Index;
  }

  lemma BlockShift(a: seq<string>, s: seq<string>, o: nat)
    requires 0 < o <= |s| && !Comment(s[0])
    ensures BlockStart(a + s, |a| + o) == |a| + BlockStart(s, o)
  {
    hide Comment, BlockStart;
    var c := BlockStart(s, o);
    assert c > 0;
    assert forall j :: 0 <= j < |s| ==> (a + s)[|a| + j] == s[j];
    forall j | |a| + c <= j < |a| + o ensures Comment((a + s)[j]) {
      assert (a + s)[j] == s[j - |a|];
    }
    BlockIs(a + s, |a| + o, |a| + c);
  }

  lemma IndexShift(a: seq<string>, s: seq<string>, key: string)
    requires forall j :: 0 <= j < |a| ==> !Sets(a[j], key)
    ensures Index(a + s, key) == |a| + Index(s, key)
  {
    hide Sets, Index;
    var o := Index(s, key);
    if o < |s| {
      IndexIs(a + s, key, |a| + o);
    } else {
      Unset(a + s, key);
    }
  }

  /** What stands before a line that is no comment does not count. */
  lemma BlockAfter(a: seq<string>, s: seq<string>, key: string)
    requires s != [] && !Comment(s[0]) && !Sets(s[0], key)
    requires forall j :: 0 <= j < |a| ==> !Sets(a[j], key)
    ensures CommentAbove(a + s, key) == CommentAbove(s, key)
  {
    hide Comment, Sets, BlockStart, Index, CommentAbove;
    var o := Index(s, key);
    CommentAboveIs(s, key);
    CommentAboveIs(a + s, key);
    IndexShift(a, s, key);
    if o < |s| {
      BlockShift(a, s, o);
      assert (a + s)[|a| + BlockStart(s, o)..|a| + o] == s[BlockStart(s, o)..o];
    }
  }

  lemma Unset(lines: seq<string>, key: string)
    requires forall j :: 0 <= j < |lines| ==> !Sets(lines[j], key)
    ensures Index(lines, key) == |lines|
  {
  }

  ghost predicate Covers(lines: seq<string>, key: string, found: seq<nat>) {
    forall i :: 0 <= i < |lines| && Sets(lines[i], key) ==> i in found
  }

  lemma CoversAt(lines: seq<string>, key: string, found: seq<nat>, i: nat) returns (k: nat)
    requires Covers(lines, key, found) && i < |lines| && Sets(lines[i], key)
    ensures k < |found| && found[k] == i
  {
    hide Sets;
    k :| 0 <= k < |found| && found[k] == i;
  }

  lemma HashComment(line: string)
    requires |line| > 2 && line[0] == '#' && line[1] == ' ' && NameStart(line[2])
    requires !Space(line[|line| - 1])
    ensures Comment(line)
  {
    SpanIs(line, Space, 0);
    RStripIs(line, line);
    SpanIs(line[1..], Space, 1);
    RStripIs(line[2..], line[2..]);
    assert Strip(line[1..])[0] != '-';
  }

  /** Which lines set the key: in order, each of them, nothing else. */
  ghost predicate Located(lines: seq<string>, key: string, found: seq<nat>) {
    && (forall k :: 0 <= k < |found| ==> found[k] < |lines| && Sets(lines[found[k]], key))
    && Covers(lines, key, found)
    && |found| == |Settings(lines, key)|
    && (found != [] ==> found[0] == Index(lines, key))
  }

  lemma LocatedNone(key: string)
    ensures Located([], key, [])
  {
  }

  lemma LocatedMore(lines: seq<string>, key: string, found: seq<nat>, line: string)
    requires Located(lines, key, found)
    ensures Located(lines + [line], key, if Sets(line, key) then found + [|lines|] else found)
  {
    hide Sets, Settings, Here, Covers, Index;
    SettingsJoin(lines, [line], key);
    SettingsOf(line, key);
    SettingsCount(line, key);
    CoversMore(lines, key, found, line);
    FirstMore(lines, line, key);
    var more := if Sets(line, key) then found + [|lines|] else found;
    if found == [] {
      LocatedNowhere(lines, key);
    }
  }

  lemma SettingsCount(line: string, key: string)
    ensures |Here(line, key)| == if Sets(line, key) then 1 else 0
  {
  }

  lemma CoversMore(lines: seq<string>, key: string, found: seq<nat>, line: string)
    requires Covers(lines, key, found)
    ensures Covers(lines + [line], key, if Sets(line, key) then found + [|lines|] else found)
  {
    hide Sets;
    var more := if Sets(line, key) then found + [|lines|] else found;
    forall i | 0 <= i < |lines + [line]| && Sets((lines + [line])[i], key) ensures i in more {
      if i < |lines| {
        assert i in found;
      } else {
        assert more[|found|] == |lines|;
      }
    }
  }

  lemma FirstMore(lines: seq<string>, line: string, key: string)
    ensures Index(lines, key) < |lines| ==> Index(lines + [line], key) == Index(lines, key)
    ensures Index(lines, key) == |lines| && Sets(line, key) ==> Index(lines + [line], key) == |lines|
  {
    hide Sets, Index;
    if Index(lines, key) < |lines| {
      IndexIs(lines + [line], key, Index(lines, key));
    } else if Sets(line, key) {
      IndexIs(lines + [line], key, |lines|);
    }
  }

  lemma LocatedNowhere(lines: seq<string>, key: string)
    requires Located(lines, key, [])
    ensures Index(lines, key) == |lines|
  {
    hide Sets, Settings;
    assert Index(lines, key) < |lines| ==> Index(lines, key) in [] by {
      CoversNothing(lines, key);
    }
  }

  lemma CoversNothing(lines: seq<string>, key: string)
    requires Covers(lines, key, [])
    ensures forall i :: 0 <= i < |lines| ==> !Sets(lines[i], key)
  {
    hide Sets;
  }

  lemma LocatedFirst(lines: seq<string>, key: string, found: seq<nat>)
    requires Located(lines, key, found)
    ensures found == [] <==> Index(lines, key) == |lines|
    ensures found != [] ==> Settings(lines, key)[0] == Parse(lines[found[0]]).value.value
  {
    hide Sets, Settings;
    SettingsSplit(lines, key);
  }

  /** The lines found so far have become the note; the others are as they were. */
  ghost predicate Noted(was: seq<string>, now: seq<string>, found: seq<nat>, key: string, note: string) {
    && |now| == |was|
    && (forall j :: 0 <= j < |found| ==> found[j] < |was| && now[found[j]] == note)
    && (forall i :: 0 <= i < |was| ==> now[i] == was[i] || (Sets(was[i], key) && now[i] == note))
  }

  lemma NotedNone(was: seq<string>, key: string, note: string)
    ensures Noted(was, was, [], key, note)
  {
  }

  lemma NotedMore(was: seq<string>, now: seq<string>, found: seq<nat>, k: nat, key: string, note: string)
    requires k < |found| && found[k] < |was| && Sets(was[found[k]], key)
    requires Noted(was, now, found[..k], key, note)
    ensures Noted(was, now[found[k] := note], found[..k + 1], key, note)
  {
    hide Sets;
    var next := now[found[k] := note];
    forall j | 0 <= j < k + 1 ensures found[j] < |was| && next[found[j]] == note {
      if j < k {
        assert found[..k][j] == found[j];
      }
    }
  }

  lemma NotedAll(was: seq<string>, now: seq<string>, found: seq<nat>, key: string, note: string)
    requires Located(was, key, found) && Noted(was, now, found, key, note)
    ensures now == Dropped(was, key, note)
  {
    hide Sets, Covers;
    forall i | 0 <= i < |was| ensures now[i] == Dropped(was, key, note)[i] {
      if Sets(was[i], key) {
        var j := CoversAt(was, key, found, i);
      }
    }
  }

  class EnvFile {
    var lines: seq<string>
    var changed: bool
    const crlf: bool
    const existed: bool

    constructor (e: Env)
      ensures View() == e
    {
      lines, crlf, existed, changed := e.lines, e.crlf, e.existed, e.changed;
    }

    ghost function View(): Env
      reads this
    {
      Env(lines, crlf, existed, changed)
    }

    method Where(key: string) returns (found: seq<nat>)
      ensures Located(lines, key, found)
    {
      hide Sets, Located;
      found := [];
      LocatedNone(key);
      var i := 0;
      while i < |lines|
        invariant i <= |lines| && Located(lines[..i], key, found)
      {
        LocatedMore(lines[..i], key, found, lines[i]);
        assert lines[..i] + [lines[i]] == lines[..i + 1];
        if Sets(lines[i], key) {
          found := found + [i];
        }
        i := i + 1;
      }
      assert lines[..i] == lines;
    }

    method Get(key: string) returns (r: Reading)
      ensures r == Read(lines, key)
    {
      hide Settings, Parse, Unquoted;
      var found := Where(key);
      LocatedFirst(lines, key, found);
      if |found| > 1 {
        return Twice;
      } else if found == [] {
        return Missing;
      }
      return Once(Unquoted(Parse(lines[found[0]]).value.value));
    }

    method Line(key: string) returns (line: string)
      requires Index(lines, key) < |lines|
      ensures line == Strip(lines[Index(lines, key)])
    {
      hide Sets, Strip;
      var found := Where(key);
      LocatedFirst(lines, key, found);
      line := Strip(lines[found[0]]);
    }

    method PutLine(key: string, line: string)
      modifies this
      ensures View() == Put(old(View()), key, line)
    {
      hide Sets;
      var found := Where(key);
      LocatedFirst(lines, key, found);
      if found != [] {
        if lines[found[0]] == line {
          return;
        }
        lines := lines[found[0] := line];
      } else {
        lines := lines + [line];
      }
      changed := true;
    }

    method DropKey(key: string, note: string)
      modifies this
      ensures View() == Drop(old(View()), key, note)
    {
      hide Sets, Covers, Noted;
      var found := Where(key);
      LocatedFirst(lines, key, found);
      ghost var was := lines;
      assert Noted(was, lines, found[..0], key, note) by { NotedNone(was, key, note); }
      var k := 0;
      while k < |found|
        invariant k <= |found| && |lines| == |was| && Noted(was, lines, found[..k], key, note)
        invariant changed == (old(changed) || k > 0)
      {
        NotedMore(was, lines, found, k, key, note);
        lines := lines[found[k] := note];
        changed := true;
        k := k + 1;
      }
      assert found[..k] == found;
      NotedAll(was, lines, found, key, note);
    }

    method CommentBlock(key: string) returns (block: seq<string>)
      ensures block == CommentAbove(lines, key)
    {
      hide Sets, Comment;
      var found := Where(key);
      LocatedFirst(lines, key, found);
      if found == [] {
        return [];
      }
      var start := found[0];
      while start > 0
        invariant 0 <= start <= found[0] && BlockStart(lines, found[0]) == BlockStart(lines, start)
      {
        if !Comment(lines[start - 1]) {
          break;
        }
        start := start - 1;
      }
      block := lines[start..found[0]];
    }

    method ReplaceStaleComment(key: string, phrase: string, replacement: seq<string>) returns (replaced: bool)
      modifies this
      ensures View() == ReplaceStale(old(View()), key, phrase, replacement)
      ensures replaced == Stale(CommentAbove(old(lines), key), phrase)
    {
      hide Sets, Comment, Contains;
      var block := CommentBlock(key);
      var i := 0;
      while i < |block| && !Contains(block[i], phrase)
        invariant i <= |block| && forall j :: 0 <= j < i ==> !Contains(block[j], phrase)
      {
        i := i + 1;
      }
      if i == |block| {
        return false;
      }
      StaleIsSet(lines, key, phrase);
      var found := Where(key);
      LocatedFirst(lines, key, found);
      var end := found[0];
      assert end - |block| == BlockStart(lines, end);
      lines := lines[..end - |block|] + replacement + lines[end..];
      changed := true;
      return true;
    }
  }
}
