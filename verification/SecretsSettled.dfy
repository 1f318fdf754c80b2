/** A finished run leaves nothing to change. */
module SecretsSettled {
  import opened Options
  import opened EnvText
  import opened EnvFiles
  import opened SecretsPlan
  import opened SecretsSafety
  import opened SecretsRecovery

  /** A printed DSN, read back from the line it is written on, has the password put into it. */
  ghost predicate DsnReads(urls: Urls, url: string, user: string, password: string) {
    var text := WithCredentials(urls, url, user, password, DSN_DEFAULT, None);
    && Unquoted(text) != ""
    && urls.split(Unquoted(text)).Some?
    && urls.split(Unquoted(text)).value.password == Some(password)
  }

  /** The round trip of a DSN through a line, for hosts without the bracket urlsplit would read again. */
  ghost predicate DsnRoundTrips(urls: Urls) {
    && (forall s: string :: UrlSafe(s) ==> urls.unquote(s) == s)
    && (forall url, user, password :: UrlSafe(password) && PlainHost(urls, url) ==> DsnReads(urls, url, user, password))
  }

  predicate PlainHost(urls: Urls, url: string) {
    var read := urls.split(url);
    read.None? || read.value.host.None? || '[' !in read.value.host.value
  }

  /** A printed limiter URL reads back from its line as it was printed, splits into the parts
      it was printed from, and holds no published value that was not put into it. */
  ghost predicate LimiterReads(urls: Urls, url: string, password: string) {
    var parts := Rebuilt(urls, url, LIMITER_USER, password, REDIS_DEFAULT, Some("redis"));
    var text := urls.unsplit(parts);
    && Clean(text) && Unquoted(text) == text
    && !Published(Some(text))
    && urls.split(text) == Some(parts)
  }

  /** A rebuilt URL is one line if what it is rebuilt from is. */
  ghost predicate IsLine(urls: Urls, url: string, user: string, password: string, default: Parts, scheme: Option<string>) {
    Clean(url) ==> Clean(WithCredentials(urls, url, user, password, default, scheme))
  }

  /** All that is assumed of urlsplit, urlunsplit, quote and unquote where no round trip is asked for. */
  ghost predicate PrintsLines(urls: Urls) {
    && (forall url, user, password :: UrlSafe(password) ==> IsLine(urls, url, user, password, DSN_DEFAULT, None))
    && (forall url, password :: UrlSafe(password) ==> IsLine(urls, url, LIMITER_USER, password, REDIS_DEFAULT, Some("redis")))
  }

  /** The bundled service's URL with no tab, which urlsplit deletes, and no space at the end of its path,
      query and fragment, which the line it is written on loses. Or nothing. */
  predicate Rebuildable(urls: Urls, url: string) {
    || url == ""
    || (&& '\t' !in url && Clean(url) && !Published(Some(url)) && urls.split(url).Some?
        && urls.split(url).value.host == Some(BUNDLED)
        && (var tail := urls.split(url).value.tail; tail != "" ==> !Space(tail[|tail| - 1])))
  }

  /** The round trip through a line, for the URLs Rebuildable describes. */
  ghost predicate RoundTrips(urls: Urls) {
    && (forall url, password ::
          UrlSafe(password) && !Published(Some(password)) && Rebuildable(urls, url) ==> LimiterReads(urls, url, password))
    && (urls.split("").Some? ==> urls.split("").value.host == None)
  }

  predicate Fresh(token: string) {
    UrlSafe(token) && !Published(Some(token))
  }

  /** What is left of a file that was written, or of one the plan did not change. */
  ghost predicate Settled(was: Env, now: Env) {
    && !now.changed && now.crlf == was.crlf
    && (now.lines == was.lines || now.lines == Written(was.lines))
  }

  lemma SettledReads(was: Env, now: Env, key: string)
    requires Settled(was, now)
    ensures Settings(now.lines, key) == Settings(was.lines, key)
    ensures CommentAbove(now.lines, key) == CommentAbove(was.lines, key)
  {
    WrittenSets(was.lines, key);
    if was.lines == [] {
      assert Parse("") == None;
      Unset([""], key);
    }
  }

  // A file the plan did not mark changed is the file it read.

  ghost predicate Untouched(before: Env, after: Env) {
    && after.crlf == before.crlf && after.existed == before.existed
    && (before.changed ==> after.changed)
    && (!after.changed ==> after == before)
  }

  lemma PutTouches(e: Env, key: string, line: string)
    ensures Untouched(e, Put(e, key, line))
  {
  }

  lemma DropTouches(e: Env, key: string, note: string)
    ensures Untouched(e, Drop(e, key, note))
  {
    hide Sets;
    assert Index(e.lines, key) == |e.lines| ==> Dropped(e.lines, key, note) == e.lines;
  }

  lemma ReplaceTouches(e: Env, key: string, phrase: string, note: seq<string>)
    ensures Untouched(e, ReplaceStale(e, key, phrase, note))
  {
    hide Stale, BlockStart;
  }

  lemma RemovedTouches(e: Env, key: Key)
    ensures Untouched(e, Removed(e, key))
  {
    hide KeyName, Phrase, MovedNote, Drop, ReplaceStale;
    ReplaceTouches(e, KeyName(key), Phrase(key), []);
    DropTouches(ReplaceStale(e, KeyName(key), Phrase(key), []), KeyName(key), MovedNote(key));
  }

  lemma MoveTouches(sec: Env, dest: Env, key: Key)
    requires Move(sec, dest, key).Ok?
    ensures Untouched(sec, Move(sec, dest, key).value.sec) && Untouched(dest, Move(sec, dest, key).value.dest)
  {
    hide KeyName, Removed, Put, Read, Published, LineOf;
    ReadIsSet(sec.lines, KeyName(key));
    RemovedTouches(sec, key);
    if Index(sec.lines, KeyName(key)) < |sec.lines| {
      PutTouches(dest, KeyName(key), LineOf(sec, key));
    }
  }

  lemma LimiterTouches(urls: Urls, sec: Env, token: string, passwordNote: seq<string>, urlNote: seq<string>)
    requires Limiter(urls, sec, token, passwordNote, urlNote).Ok?
    ensures Untouched(sec, Limiter(urls, sec, token, passwordNote, urlNote).value)
  {
    hide KeyName, Put, Read, Published, ReplaceStale, Usable, LimiterUrl, NamesAnother, Phrase;
    NothingUsable();
    var now := PasswordNow(sec, token);
    var sec1 := WithPassword(sec, Held(Read(sec.lines, KeyName(RedisPassword))), token);
    PutTouches(sec, KeyName(RedisPassword), KeyName(RedisPassword) + "=" + token);
    var url := Held(Read(sec1.lines, KeyName(RedisUrl)));
    var sec2 := WithUrl(urls, sec1, url, now);
    PutTouches(sec1, KeyName(RedisUrl), KeyName(RedisUrl) + "=" + LimiterUrl(urls, url, now));
    var sec3 := ReplaceStale(sec2, KeyName(RedisPassword), Phrase(RedisPassword), passwordNote);
    ReplaceTouches(sec2, KeyName(RedisPassword), Phrase(RedisPassword), passwordNote);
    ReplaceTouches(sec3, KeyName(RedisUrl), Phrase(RedisUrl), urlNote);
  }

  lemma PlanTouches(d: Disk, urls: Urls, newDatabase: bool, ownerToken: string, redisToken: string, f: File)
    requires Plan(d, urls, newDatabase, ownerToken, redisToken).Ok?
    ensures Loaded(d) && Untouched(Load(d, f).value, EnvOf(Plan(d, urls, newDatabase, ownerToken, redisToken).value, f))
  {
    hide KeyName, Load, Move, Limiter, Published, PasswordIn, OwnerDsn, Put, Read, TemplateComment;
    var sec, init, mig := Load(d, Secrets).value, Load(d, PostgresInit).value, Load(d, Migrate).value;
    var a := Move(sec, init, PostgresPassword).value;
    var b := Move(a.sec, mig, MigrationUrl).value;
    MoveTouches(sec, init, PostgresPassword);
    MoveTouches(a.sec, mig, MigrationUrl);
    LimiterTouches(urls, b.sec, redisToken, TemplateComment(d, RedisPassword), TemplateComment(d, RedisUrl));
    var dsn := ValueOr(Held(Read(b.dest.lines, KeyName(MigrationUrl))), "");
    PutTouches(a.dest, KeyName(PostgresPassword), KeyName(PostgresPassword) + "=" + ownerToken);
    if urls.split(dsn).Some? {
      PutTouches(b.dest, KeyName(MigrationUrl), KeyName(MigrationUrl) + "=" + OwnerDsn(urls, dsn, ownerToken));
    }
  }

  // Every line of a planned file is one line.

  lemma UnquotedClean(s: string)
    requires Clean(s)
    ensures Clean(Unquoted(s))
  {
    hide Break, Strip;
    StripClean(s);
  }

  lemma {:induction false} SettingsClean(lines: seq<string>, key: string)
    requires AllClean(lines)
    ensures AllClean(Settings(lines, key))
  {
    hide Clean, Parse;
    if lines != [] {
      SettingsClean(lines[1..], key);
      if Sets(lines[0], key) {
        ParseClean(lines[0]);
      }
    }
  }

  lemma AssignmentClean(s: string)
    requires Clean(s) && Assignment(s).Some?
    ensures Clean(Assignment(s).value.value)
  {
    hide Break, Assignment;
    var n, m := AssignmentAt(s);
  }

  lemma ParseClean(line: string)
    requires Clean(line) && Parse(line).Some?
    ensures Clean(Parse(line).value.value)
  {
    hide Break, Assignment, Space;
    var s := LStrip(line);
    assert Clean(s);
    if "export" <= s && |s| > 6 && Space(s[6]) && Assignment(LStrip(s[6..])).Some? {
      assert Clean(LStrip(s[6..]));
      AssignmentClean(LStrip(s[6..]));
    } else {
      AssignmentClean(s);
    }
  }

  lemma ReadClean(lines: seq<string>, key: string)
    requires AllClean(lines)
    ensures Read(lines, key).Once? ==> Clean(Read(lines, key).value)
  {
    hide Clean, Settings, Unquoted;
    SettingsClean(lines, key);
    if Read(lines, key).Once? {
      UnquotedClean(Settings(lines, key)[0]);
    }
  }

  lemma BuiltClean(e: Env, key: Key, value: string)
    requires AllClean(e.lines) && Clean(value)
    ensures AllClean(Put(e, KeyName(key), KeyName(key) + "=" + value).lines)
  {
    hide AllClean, Clean, Put, KeyName;
    KeyIsName(key);
    NameIsClean(KeyName(key));
    EqualsIsClean();
    CleanJoin(KeyName(key), "=");
    CleanJoin(KeyName(key) + "=", value);
    PutClean(e, KeyName(key), KeyName(key) + "=" + value);
  }

  lemma OwnerFilesClean(d: Disk, urls: Urls, newDatabase: bool, token: string)
    requires PrintsLines(urls) && UrlSafe(token) && MoveOwner(d, urls, newDatabase, token).Ok?
    ensures var o := MoveOwner(d, urls, newDatabase, token).value.owner;
      AllClean(o.init.lines) && AllClean(o.mig.lines)
  {
    hide AllClean, Clean, Load, Move, Published, Read, KeyName, PasswordIn, WithCredentials, Put, UrlSafe;
    MoveOwnerClean(d, urls, newDatabase, token);
    if MoveOwner(d, urls, newDatabase, token).value.owner.generated {
      LoadIsClean(d, Secrets);
      LoadIsClean(d, PostgresInit);
      LoadIsClean(d, Migrate);
      var sec, init, mig := Load(d, Secrets).value, Load(d, PostgresInit).value, Load(d, Migrate).value;
      MoveClean(sec, init, PostgresPassword);
      var a := Move(sec, init, PostgresPassword).value;
      MoveClean(a.sec, mig, MigrationUrl);
      var b := Move(a.sec, mig, MigrationUrl).value;
      TokenReads(token);
      BuiltClean(a.dest, PostgresPassword, token);
      var dsn := ValueOr(Held(Read(b.dest.lines, KeyName(MigrationUrl))), "");
      ReadClean(b.dest.lines, KeyName(MigrationUrl));
      assert Clean("") by { NameIsClean(""); }
      assert IsLine(urls, dsn, OwnerUser(urls, dsn), token, DSN_DEFAULT, None);
      BuiltClean(b.dest, MigrationUrl, OwnerDsn(urls, dsn, token));
    }
  }

  /** Whether a second run would leave REDIS_URL alone: it names another Redis, or it is already what the
      stage prints, or what was printed, as its line reads it, is what the stage prints of that. */
  predicate UrlStays(urls: Urls, url: Option<string>, password: string) {
    var want := LimiterUrl(urls, url, password);
    var back := Unquoted(want);
    || NamesAnother(urls, url) || url == Some(want)
    || NamesAnother(urls, Some(back))
    || LimiterUrl(urls, Some(back), password) == back
    || LimiterUrl(urls, Some(back), password) == want
  }

  lemma CleanLimiter(urls: Urls, url: Option<string>, password: string)
    requires PrintsLines(urls) && UrlSafe(password) && (url.Some? ==> Clean(url.value))
    ensures Clean(LimiterUrl(urls, url, password))
  {
    hide Clean, UrlSafe, Published, WithCredentials;
    NonePublished();
    var keep := !Published(url) && urls.split(url.value).Some? && urls.split(url.value).value.host.Some?;
    var from := if keep then url.value else "";
    assert Clean("") by { NameIsClean(""); }
    assert IsLine(urls, from, LIMITER_USER, password, REDIS_DEFAULT, Some("redis"));
  }

  /** Nothing there, or a value that is published or no URL, or one rebuilt from itself. */
  predicate PlainUrl(urls: Urls, url: Option<string>) {
    Published(url) || urls.split(url.value).None? || urls.split(url.value).value.host.None? || Rebuildable(urls, url.value)
  }

  /** Rebuilding a plain URL from itself changes nothing, so it stays. */
  lemma LawfulLimiter(urls: Urls, url: Option<string>, password: string)
    requires RoundTrips(urls) && Fresh(password) && PlainUrl(urls, url)
    ensures var want := LimiterUrl(urls, url, password);
      && Unquoted(want) == want && !NamesAnother(urls, Some(want))
      && LimiterUrl(urls, Some(want), password) == want
    ensures UrlStays(urls, url, password)
  {
    hide Unquoted, Clean, UrlSafe, Published;
    NonePublished();
    var keep := !Published(url) && urls.split(url.value).Some? && urls.split(url.value).value.host.Some?;
    var from := if keep then url.value else "";
    assert Rebuildable(urls, from);
    assert LimiterReads(urls, from, password);
  }

  lemma PasswordFresh(sec: Env, token: string)
    requires Fresh(token)
    ensures Fresh(PasswordNow(sec, token))
  {
    hide Published, UrlSafe, Read, KeyName;
    NonePublished();
  }

  lemma LimiterClean(urls: Urls, sec: Env, token: string, passwordNote: seq<string>, urlNote: seq<string>)
    requires PrintsLines(urls) && Fresh(token) && AllClean(sec.lines) && AllClean(passwordNote) && AllClean(urlNote)
    requires Limiter(urls, sec, token, passwordNote, urlNote).Ok?
    ensures AllClean(Limiter(urls, sec, token, passwordNote, urlNote).value.lines)
  {
    hide AllClean, Clean, PrintsLines, KeyName, Put, Read, Published, ReplaceStale, Usable, LimiterUrl, NamesAnother, Phrase, UrlSafe, Unquoted;
    NothingUsable();
    PasswordFresh(sec, token);
    TokenReads(token);
    var now := PasswordNow(sec, token);
    var sec1 := WithPassword(sec, Held(Read(sec.lines, KeyName(RedisPassword))), token);
    PasswordSettles(sec, token, "");
    BuiltClean(sec, RedisPassword, token);
    var url := Held(Read(sec1.lines, KeyName(RedisUrl)));
    var sec2 := WithUrl(urls, sec1, url, now);
    ReadClean(sec1.lines, KeyName(RedisUrl));
    CleanLimiter(urls, url, now);
    BuiltClean(sec1, RedisUrl, LimiterUrl(urls, url, now));
    var sec3 := ReplaceStale(sec2, KeyName(RedisPassword), Phrase(RedisPassword), passwordNote);
    ReplacedClean(sec2, KeyName(RedisPassword), Phrase(RedisPassword), passwordNote);
    ReplacedClean(sec3, KeyName(RedisUrl), Phrase(RedisUrl), urlNote);
  }

  /** After one pass neither Redis line carries the older template's comment. */
  lemma LimiterUnstale(urls: Urls, sec: Env, token: string, passwordNote: seq<string>, urlNote: seq<string>)
    requires AllComments(passwordNote) && AllComments(urlNote)
    requires !Stale(passwordNote, Phrase(RedisPassword)) && !Stale(urlNote, Phrase(RedisUrl))
    requires Limiter(urls, sec, token, passwordNote, urlNote).Ok?
    ensures var after := Limiter(urls, sec, token, passwordNote, urlNote).value.lines;
      && !Stale(CommentAbove(after, KeyName(RedisPassword)), Phrase(RedisPassword))
      && !Stale(CommentAbove(after, KeyName(RedisUrl)), Phrase(RedisUrl))
  {
    hide Comment, CommentAbove, Stale, KeyName, Put, Read, Published, Usable, LimiterUrl, NamesAnother, Phrase;
    NothingUsable();
    NamesDiffer(RedisPassword, RedisUrl);
    var now := PasswordNow(sec, token);
    var sec1 := WithPassword(sec, Held(Read(sec.lines, KeyName(RedisPassword))), token);
    var sec2 := WithUrl(urls, sec1, Held(Read(sec1.lines, KeyName(RedisUrl))), now);
    var sec3 := ReplaceStale(sec2, KeyName(RedisPassword), Phrase(RedisPassword), passwordNote);
    Unstale(sec2, RedisPassword, passwordNote);
    Unstale(sec3, RedisUrl, urlNote);
    OtherBlockKept(sec3, KeyName(RedisUrl), Phrase(RedisUrl), urlNote, KeyName(RedisPassword));
  }

  lemma Unstale(e: Env, key: Key, note: seq<string>)
    requires AllComments(note) && !Stale(note, Phrase(key))
    ensures !Stale(CommentAbove(ReplaceStale(e, KeyName(key), Phrase(key), note).lines, KeyName(key)), Phrase(key))
  {
    hide Comment, CommentAbove, Stale, KeyName, Phrase;
    if Stale(CommentAbove(e.lines, KeyName(key)), Phrase(key)) {
      ReplacedBlock(e, KeyName(key), Phrase(key), note);
    }
  }

  predicate LineIs(e: Env, key: Key, value: string) {
    var i := Index(e.lines, KeyName(key));
    i < |e.lines| && e.lines[i] == KeyName(key) + "=" + value
  }

  /** A settled secrets.env goes through the limiter's stage unchanged, unless its URL moves. */
  lemma LimiterAgain(urls: Urls, sec: Env, token: string, passwordNote: seq<string>, urlNote: seq<string>)
    requires Usable(Held(Read(sec.lines, KeyName(RedisPassword))))
    requires !Read(sec.lines, KeyName(RedisUrl)).Twice?
    requires !Stale(CommentAbove(sec.lines, KeyName(RedisPassword)), Phrase(RedisPassword))
    requires !Stale(CommentAbove(sec.lines, KeyName(RedisUrl)), Phrase(RedisUrl))
    ensures var url := Held(Read(sec.lines, KeyName(RedisUrl)));
      var want := LimiterUrl(urls, url, Held(Read(sec.lines, KeyName(RedisPassword))).value);
      var again := Limiter(urls, sec, token, passwordNote, urlNote);
      if NamesAnother(urls, url) || url == Some(want) || LineIs(sec, RedisUrl, want) then again == Ok(sec)
      else again.Ok? && again.value.changed
  {
    hide CommentAbove, Stale, KeyName, Read, Published, UrlSafe, LimiterUrl, NamesAnother, Phrase, Index, BlockStart;
    NonePublished();
  }

  lemma {:induction false} SettingsHere(lines: seq<string>, key: string, j: nat)
    requires j < |lines| && Sets(lines[j], key)
    ensures Settings(lines, key) != []
  {
    hide Parse;
    if j > 0 {
      SettingsHere(lines[1..], key, j - 1);
    }
  }

  /** A line of a key set once is the line of that key. */
  lemma OnlyLine(lines: seq<string>, key: string, j: nat)
    requires j < |lines| && Sets(lines[j], key) && Read(lines, key).Once?
    ensures Index(lines, key) == j
  {
    hide Sets, Parse, Settings, Unquoted;
    var i := Index(lines, key);
    SettingsSplit(lines, key);
    if i < j {
      SettingsHere(lines[i + 1..], key, j - i - 1);
    }
  }

  lemma ReplaceKeepsLine(e: Env, key: Key, note: seq<string>, line: string, other: Key)
    requires line in e.lines && Sets(line, KeyName(other))
    ensures line in ReplaceStale(e, KeyName(key), Phrase(key), note).lines
  {
    hide Sets, Stale, Phrase, KeyName, Comment;
    var i := Index(e.lines, KeyName(key));
    if Stale(CommentAbove(e.lines, KeyName(key)), Phrase(key)) {
      NotComment(line, KeyName(other));
      var b := BlockStart(e.lines, i);
      var j :| 0 <= j < |e.lines| && e.lines[j] == line;
      assert j < b || j >= i;
      assert line in e.lines[..b] || line in e.lines[i..];
    }
  }

  /** A URL the stage prints stands on its line as it was printed. */
  lemma PrintedLine(urls: Urls, sec: Env, token: string, passwordNote: seq<string>, urlNote: seq<string>)
    requires UrlSafe(token) && Limiter(urls, sec, token, passwordNote, urlNote).Ok?
    ensures var url := Held(Read(sec.lines, KeyName(RedisUrl)));
      var want := LimiterUrl(urls, url, PasswordNow(sec, token));
      !NamesAnother(urls, url) && url != Some(want) ==>
        KeyName(RedisUrl) + "=" + want in Limiter(urls, sec, token, passwordNote, urlNote).value.lines
  {
    hide KeyName, Put, Read, Published, Usable, LimiterUrl, NamesAnother, Phrase, UrlSafe, Sets, Parse, Settings, ReplaceStale;
    NothingUsable();
    var now := PasswordNow(sec, token);
    PasswordSettles(sec, token, "");
    var sec1 := WithPassword(sec, Held(Read(sec.lines, KeyName(RedisPassword))), token);
    var url := Held(Read(sec.lines, KeyName(RedisUrl)));
    var want := LimiterUrl(urls, url, now);
    var sec2 := WithUrl(urls, sec1, url, now);
    if !NamesAnother(urls, url) && url != Some(want) {
      var line := KeyName(RedisUrl) + "=" + want;
      BuiltSets(RedisUrl, want);
      PutIsIn(sec1, KeyName(RedisUrl), line);
      ReplaceKeepsLine(sec2, RedisPassword, passwordNote, line, RedisUrl);
      var sec3 := ReplaceStale(sec2, KeyName(RedisPassword), Phrase(RedisPassword), passwordNote);
      ReplaceKeepsLine(sec3, RedisUrl, urlNote, line, RedisUrl);
    }
  }

  lemma PutIsIn(e: Env, key: string, line: string)
    ensures line in Put(e, key, line).lines
  {
    var i := Index(e.lines, key);
    assert Put(e, key, line).lines[i] == line;
  }

  /** And is the line a second run finds. */
  lemma PrintedIsFound(e: Env, want: string)
    requires KeyName(RedisUrl) + "=" + want in e.lines && Read(e.lines, KeyName(RedisUrl)).Once?
    ensures forall other :: LineIs(e, RedisUrl, other) <==> other == want
  {
    hide KeyName, Sets, Parse, Read;
    var line := KeyName(RedisUrl) + "=" + want;
    BuiltSets(RedisUrl, want);
    var j :| 0 <= j < |e.lines| && e.lines[j] == line;
    OnlyLine(e.lines, KeyName(RedisUrl), j);
    forall other ensures LineIs(e, RedisUrl, other) <==> other == want {
      JoinInjective(KeyName(RedisUrl) + "=", other, want);
    }
  }

  lemma JoinInjective(a: string, b: string, c: string)
    ensures a + b == a + c <==> b == c
  {
    assert (a + b)[|a|..] == b && (a + c)[|a|..] == c;
  }

  // The second run.

  function Changed(p: Planned): set<File> {
    set f: File | EnvOf(p, f).changed
  }

  /** A run none of whose operations failed has written just the changed files. */
  lemma FinishedIsPartly(d: Disk, p: Planned, stamp: string, e: Disk)
    requires Stopped(d, p, stamp, |Ops(p)|, e)
    ensures Partly(d, p, Changed(p), e)
  {
    hide Ops, Done, Stopped, Partly;
    assert Ops(p)[..|Ops(p)|] == Ops(p);
    StoppedIsPartly(d, p, stamp, |Ops(p)|, e);
    forall f ensures f in Done(Ops(p)) <==> f in Changed(p) {
      AllWritten(p, f);
    }
    assert Done(Ops(p)) == Changed(p);
  }

  lemma SettledLoads(d: Disk, urls: Urls, newDatabase: bool, ownerToken: string, redisToken: string, done: set<File>, e: Disk, f: File)
    requires Plan(d, urls, newDatabase, ownerToken, redisToken).Ok?
    requires Partly(d, Plan(d, urls, newDatabase, ownerToken, redisToken).value, done, e)
    requires f in done <==> EnvOf(Plan(d, urls, newDatabase, ownerToken, redisToken).value, f).changed
    requires AllClean(EnvOf(Plan(d, urls, newDatabase, ownerToken, redisToken).value, f).lines)
    ensures Load(e, f).Some? && Settled(EnvOf(Plan(d, urls, newDatabase, ownerToken, redisToken).value, f), Load(e, f).value)
  {
    hide Plan, AllClean, Load, Written, Partly;
    var p := Plan(d, urls, newDatabase, ownerToken, redisToken).value;
    PlanTouches(d, urls, newDatabase, ownerToken, redisToken, f);
    PartLoads(d, p, done, e, f);
  }

  lemma SettledMoves(sec: Env, init: Env, mig: Env)
    requires Read(sec.lines, KeyName(PostgresPassword)).Missing? && Read(sec.lines, KeyName(MigrationUrl)).Missing?
    ensures Move(sec, init, PostgresPassword) == Ok(Pair(sec, init)) && Move(sec, mig, MigrationUrl) == Ok(Pair(sec, mig))
  {
    hide KeyName, Read;
  }

  /** The two owner files of a finished plan, read again: a generated DSN that does not read back as it
      was printed is reported. */
  lemma SettledChoice(d: Disk, urls: Urls, newDatabase: bool, token: string, init2: Env, mig2: Env, token2: string)
    requires MoveOwner(d, urls, newDatabase, token).Ok? && Fresh(token)
    requires Settled(MoveOwner(d, urls, newDatabase, token).value.owner.init, init2)
    requires Settled(MoveOwner(d, urls, newDatabase, token).value.owner.mig, mig2)
    ensures var o := MoveOwner(d, urls, newDatabase, token).value.owner;
      var back := PasswordIn(urls, Held(Read(o.mig.lines, KeyName(MigrationUrl)))) == Some(token);
      Choose(urls, init2, mig2, newDatabase, token2) ==
      Ok(Owner(init2, mig2, if o.generated && !back then Mismatch else o.left, false))
  {
    hide KeyName, Published, PasswordIn, Unquoted, OwnerDsn, Put, Load, Move, Settings, CommentAbove, UrlSafe;
    var o := MoveOwner(d, urls, newDatabase, token).value.owner;
    SettledReads(o.init, init2, KeyName(PostgresPassword));
    SettledReads(o.mig, mig2, KeyName(MigrationUrl));
    var sec, init, mig := Load(d, Secrets).value, Load(d, PostgresInit).value, Load(d, Migrate).value;
    var a := Move(sec, init, PostgresPassword).value;
    var b := Move(a.sec, mig, MigrationUrl).value;
    ChooseSettles(urls, a.dest, b.dest, newDatabase, token, "");
  }

  lemma SettledLimiter(urls: Urls, sec: Env, token: string, passwordNote: seq<string>, urlNote: seq<string>, again: Env, token2: string)
    requires Fresh(token) && AllComments(passwordNote) && AllComments(urlNote)
    requires !Stale(passwordNote, Phrase(RedisPassword)) && !Stale(urlNote, Phrase(RedisUrl))
    requires Limiter(urls, sec, token, passwordNote, urlNote).Ok?
    requires Settled(Limiter(urls, sec, token, passwordNote, urlNote).value, again)
    ensures var url := Held(Read(sec.lines, KeyName(RedisUrl)));
      var next := Limiter(urls, again, token2, passwordNote, urlNote);
      if UrlStays(urls, url, PasswordNow(sec, token)) then next == Ok(again) else next.Ok? && next.value.changed
  {
    hide AllComments, Stale, CommentAbove, Settings, Unquoted, KeyName, Limiter, NamesAnother, LimiterUrl, Phrase, UrlSafe, Published, LineIs;
    var after := Limiter(urls, sec, token, passwordNote, urlNote).value;
    LimiterSettles(urls, sec, token, passwordNote, urlNote, "");
    LimiterUnstale(urls, sec, token, passwordNote, urlNote);
    SettledReads(after, again, KeyName(RedisPassword));
    SettledReads(after, again, KeyName(RedisUrl));
    PasswordFresh(sec, token);
    var url := Held(Read(sec.lines, KeyName(RedisUrl)));
    var want := LimiterUrl(urls, url, PasswordNow(sec, token));
    LimiterAgain(urls, again, token2, passwordNote, urlNote);
    if !NamesAnother(urls, url) && url != Some(want) {
      PrintedLine(urls, sec, token, passwordNote, urlNote);
      assert again.lines == after.lines;
      PrintedIsFound(again, want);
    }
  }

  lemma TemplateIsClean(d: Disk, key: Key)
    ensures AllClean(TemplateComment(d, key))
  {
    hide Break, SplitLines, Index, BlockStart;
    if Example(Secrets) in d && d[Example(Secrets)].Text? {
      SplitIsClean(d[Example(Secrets)].chars);
    }
  }

  predicate CurrentTemplate(d: Disk) {
    && !Stale(TemplateComment(d, RedisPassword), Phrase(RedisPassword))
    && !Stale(TemplateComment(d, RedisUrl), Phrase(RedisUrl))
  }

  /** The Redis password after a run. */
  function RedisNow(d: Disk, token: string): string
    requires Loaded(d)
  {
    var password := Held(InSecrets(d, RedisPassword));
    if Usable(password) then password.value else token
  }

  lemma ChangedFiles(p: Planned)
    ensures forall f :: f in Changed(p) <==> EnvOf(p, f).changed
  {
  }

  /** Each of the three files, after the writes, is what was planned for it. */
  lemma PlanSettles(d: Disk, urls: Urls, newDatabase: bool, ownerToken: string, redisToken: string, e: Disk)
    requires PrintsLines(urls) && Fresh(ownerToken) && Fresh(redisToken)
    requires Plan(d, urls, newDatabase, ownerToken, redisToken).Ok?
    requires Partly(d, Plan(d, urls, newDatabase, ownerToken, redisToken).value, Changed(Plan(d, urls, newDatabase, ownerToken, redisToken).value), e)
    ensures Loaded(d) && Loaded(e)
    ensures var p := Plan(d, urls, newDatabase, ownerToken, redisToken).value;
      && Settled(p.sec, Load(e, Secrets).value)
      && Settled(p.init, Load(e, PostgresInit).value)
      && Settled(p.mig, Load(e, Migrate).value)
  {
    hide KeyName, Load, AllClean, AllComments, PrintsLines, Limiter, TemplateComment, Published, Partly, MoveOwner, Changed, UrlSafe, Settled, Read;
    ChangedFiles(Plan(d, urls, newDatabase, ownerToken, redisToken).value);
    OwnerFilesClean(d, urls, newDatabase, ownerToken);
    MoveOwnerClean(d, urls, newDatabase, ownerToken);
    TemplateIsClean(d, RedisPassword);
    TemplateIsClean(d, RedisUrl);
    LimiterClean(urls, MoveOwner(d, urls, newDatabase, ownerToken).value.sec, redisToken, TemplateComment(d, RedisPassword), TemplateComment(d, RedisUrl));
    SettledLoads(d, urls, newDatabase, ownerToken, redisToken, Changed(Plan(d, urls, newDatabase, ownerToken, redisToken).value), e, Secrets);
    SettledLoads(d, urls, newDatabase, ownerToken, redisToken, Changed(Plan(d, urls, newDatabase, ownerToken, redisToken).value), e, PostgresInit);
    SettledLoads(d, urls, newDatabase, ownerToken, redisToken, Changed(Plan(d, urls, newDatabase, ownerToken, redisToken).value), e, Migrate);
    OwnerSettles(d, urls, newDatabase, ownerToken, "");
  }

  lemma GeneratedLeavesNothing(d: Disk, urls: Urls, newDatabase: bool, token: string)
    requires MoveOwner(d, urls, newDatabase, token).Ok?
    ensures var o := MoveOwner(d, urls, newDatabase, token).value.owner; o.generated ==> o.left.Nothing?
  {
    hide Load, Move, Published, Read, KeyName, PasswordIn, OwnerDsn, Put;
  }

  lemma RedisAgain(d: Disk, urls: Urls, newDatabase: bool, ownerToken: string, redisToken: string, again: Env, token2: string)
    requires UrlSafe(ownerToken) && Fresh(redisToken) && CurrentTemplate(d)
    requires Plan(d, urls, newDatabase, ownerToken, redisToken).Ok?
    requires Settled(Plan(d, urls, newDatabase, ownerToken, redisToken).value.sec, again)
    ensures Loaded(d)
    ensures var next := Limiter(urls, again, token2, TemplateComment(d, RedisPassword), TemplateComment(d, RedisUrl));
      if UrlStays(urls, Held(InSecrets(d, RedisUrl)), RedisNow(d, redisToken)) then next == Ok(again) else next.Ok? && next.value.changed
  {
    hide KeyName, Load, MoveOwner, AllComments, Limiter, TemplateComment, Published, Stale, Phrase, UrlStays, UrlSafe, Settings, Unquoted, PasswordIn, Standing, Usable;
    OwnersAreNotRedis();
    OwnerSettles(d, urls, newDatabase, ownerToken, KeyName(RedisUrl));
    OwnerSettles(d, urls, newDatabase, ownerToken, KeyName(RedisPassword));
    TemplateIsComments(d, RedisPassword);
    TemplateIsComments(d, RedisUrl);
    SettledLimiter(urls, MoveOwner(d, urls, newDatabase, ownerToken).value.sec, redisToken,
                   TemplateComment(d, RedisPassword), TemplateComment(d, RedisUrl), again, token2);
  }

  /** The DSN a password would be generated into, printed with it and read back, holds it. */
  predicate DsnStays(d: Disk, urls: Urls, token: string)
    requires Loaded(d)
  {
    urls.split(StandingDsn(d)).Some? && PasswordIn(urls, Some(GeneratedDsn(d, urls, token))) == Some(token)
  }

  /** Once every changed file has been written, planning again changes no file if and only if REDIS_URL
      stays, whatever is drawn for tokens, and leaves the operator exactly what the first plan left if and
      only if no password was generated or the DSN it went into stays: else the mismatch is reported. */
  lemma NothingLeftToChange(d: Disk, urls: Urls, newDatabase: bool, ownerToken: string, redisToken: string,
                            e: Disk, ownerToken2: string, redisToken2: string)
    requires PrintsLines(urls) && Fresh(ownerToken) && Fresh(redisToken) && CurrentTemplate(d)
    requires Plan(d, urls, newDatabase, ownerToken, redisToken).Ok?
    requires Partly(d, Plan(d, urls, newDatabase, ownerToken, redisToken).value, Changed(Plan(d, urls, newDatabase, ownerToken, redisToken).value), e)
    ensures Loaded(d) && Plan(e, urls, newDatabase, ownerToken2, redisToken2).Ok?
    ensures var was, now := Plan(d, urls, newDatabase, ownerToken, redisToken).value, Plan(e, urls, newDatabase, ownerToken2, redisToken2).value;
      && !now.generated
      && now.left == (if was.generated && !DsnStays(d, urls, ownerToken) then Mismatch else was.left)
      && (was.generated ==> was.left.Nothing?)
      && Changed(now) == (if UrlStays(urls, Held(InSecrets(d, RedisUrl)), RedisNow(d, redisToken)) then {} else {Secrets})
  {
    hide KeyName, Load, AllClean, AllComments, PrintsLines, Limiter, TemplateComment, Published, Partly, Choose, Move, Stale, Phrase, NamesAnother, UrlStays, Changed, UrlSafe, Settings, Unquoted, PasswordIn, Standing, LimiterUrl, Usable, CommentAbove, RedisNow, OwnerDsn;
    GeneratedLeavesNothing(d, urls, newDatabase, ownerToken);
    var p := Plan(d, urls, newDatabase, ownerToken, redisToken).value;
    var owned := MoveOwner(d, urls, newDatabase, ownerToken).value;
    OwnersAreNotRedis();
    OwnerSettles(d, urls, newDatabase, ownerToken, KeyName(RedisUrl));
    PlanSettles(d, urls, newDatabase, ownerToken, redisToken, e);
    TemplateIsComments(d, RedisPassword);
    TemplateIsComments(d, RedisUrl);
    var note, urlNote := TemplateComment(d, RedisPassword), TemplateComment(d, RedisUrl);
    var sec2, init2, mig2 := Load(e, Secrets).value, Load(e, PostgresInit).value, Load(e, Migrate).value;
    LimiterSettles(urls, owned.sec, redisToken, note, urlNote, KeyName(PostgresPassword));
    LimiterSettles(urls, owned.sec, redisToken, note, urlNote, KeyName(MigrationUrl));
    SettledReads(p.sec, sec2, KeyName(PostgresPassword));
    SettledReads(p.sec, sec2, KeyName(MigrationUrl));
    SettledMoves(sec2, init2, mig2);
    SettledChoice(d, urls, newDatabase, ownerToken, init2, mig2, ownerToken2);
    SameTemplates(d, p, Changed(p), e, RedisPassword);
    SameTemplates(d, p, Changed(p), e, RedisUrl);
    RedisAgain(d, urls, newDatabase, ownerToken, redisToken, sec2, redisToken2);
    ChangedIs(Plan(e, urls, newDatabase, ownerToken2, redisToken2).value);
  }

  /** And on the disk itself: secrets.env holds neither owner value, and each stands in its own
      file, the same as before or, where none had been chosen, the generated one. */
  lemma OwnerLeavesSecrets(d: Disk, urls: Urls, newDatabase: bool, ownerToken: string, redisToken: string, e: Disk)
    requires PrintsLines(urls) && Fresh(ownerToken) && Fresh(redisToken)
    requires Plan(d, urls, newDatabase, ownerToken, redisToken).Ok?
    requires Partly(d, Plan(d, urls, newDatabase, ownerToken, redisToken).value, Changed(Plan(d, urls, newDatabase, ownerToken, redisToken).value), e)
    ensures Loaded(d) && Loaded(e) && InSecrets(e, PostgresPassword) == Missing && InSecrets(e, MigrationUrl) == Missing
    ensures var generated := Plan(d, urls, newDatabase, ownerToken, redisToken).value.generated;
      && AtHome(e, PostgresPassword) == (if generated then Once(ownerToken) else Standing(d, PostgresPassword))
      && (!generated ==> AtHome(e, MigrationUrl) == Standing(d, MigrationUrl))
      && (generated ==>
            && urls.split(StandingDsn(d)).Some? && AtHome(e, MigrationUrl) == Once(GeneratedDsn(d, urls, ownerToken))
            && (PasswordIn(urls, Held(AtHome(e, MigrationUrl))) == Some(ownerToken) <==> DsnStays(d, urls, ownerToken)))
  {
    hide KeyName, Load, PrintsLines, Plan, Published, Partly, Changed, UrlSafe, Settings, Unquoted, PasswordIn, Standing, CommentAbove, Settled, OwnerDsn;
    var p := Plan(d, urls, newDatabase, ownerToken, redisToken).value;
    PlanKeepsOwnerValues(d, urls, newDatabase, ownerToken, redisToken, "");
    PlanSettles(d, urls, newDatabase, ownerToken, redisToken, e);
    SettledReads(p.sec, Load(e, Secrets).value, KeyName(PostgresPassword));
    SettledReads(p.sec, Load(e, Secrets).value, KeyName(MigrationUrl));
    SettledReads(p.init, Load(e, PostgresInit).value, KeyName(PostgresPassword));
    SettledReads(p.mig, Load(e, Migrate).value, KeyName(MigrationUrl));
  }

  lemma ChangedIs(p: Planned)
    requires !p.init.changed && !p.mig.changed
    ensures Changed(p) == if p.sec.changed then {Secrets} else {}
  {
  }

  /** For a REDIS_URL that names another service, is no URL, or is plain, a finished run leaves no file
      to change. */
  lemma PlainUrlSettles(d: Disk, urls: Urls, newDatabase: bool, ownerToken: string, redisToken: string,
                        e: Disk, ownerToken2: string, redisToken2: string)
    requires PrintsLines(urls) && RoundTrips(urls) && Fresh(ownerToken) && Fresh(redisToken) && CurrentTemplate(d)
    requires Plan(d, urls, newDatabase, ownerToken, redisToken).Ok?
    requires Loaded(d)
    requires var url := Held(InSecrets(d, RedisUrl)); NamesAnother(urls, url) || PlainUrl(urls, url)
    requires Partly(d, Plan(d, urls, newDatabase, ownerToken, redisToken).value, Changed(Plan(d, urls, newDatabase, ownerToken, redisToken).value), e)
    ensures Plan(e, urls, newDatabase, ownerToken2, redisToken2).Ok?
    ensures Changed(Plan(e, urls, newDatabase, ownerToken2, redisToken2).value) == {}
  {
    hide KeyName, Load, PrintsLines, RoundTrips, Plan, TemplateComment, Published, Partly, Stale, Phrase, NamesAnother, Changed, UrlSafe, Read, Unquoted, LimiterUrl, PlainUrl;
    var url := Held(InSecrets(d, RedisUrl));
    NothingLeftToChange(d, urls, newDatabase, ownerToken, redisToken, e, ownerToken2, redisToken2);
    NonePublished();
    if !NamesAnother(urls, url) {
      LawfulLimiter(urls, url, RedisNow(d, redisToken));
    }
  }

  /** A DSN whose host has no bracket stays. */
  lemma PlainDsnStays(d: Disk, urls: Urls, token: string)
    requires DsnRoundTrips(urls) && UrlSafe(token)
    requires Loaded(d) && urls.split(StandingDsn(d)).Some? && PlainHost(urls, StandingDsn(d))
    ensures DsnStays(d, urls, token)
  {
    hide Unquoted, WithCredentials, UrlSafe, StandingDsn;
    var dsn := StandingDsn(d);
    assert DsnReads(urls, dsn, OwnerUser(urls, dsn), token);
  }

  // A DSN that does not hold the password put into it.

  const NESTED := "postgresql://[v1.a[b]/db"

  function NestedParts(user: Option<string>, password: Option<string>): Parts {
    Parts("postgresql", user, password, Some("v1.a[b"), NoPort, "/db")
  }

  function NestedPrinted(token: string): string {
    "postgresql://noctornal:" + token + "@v1.a[b/db"
  }

  /** What urlsplit and urlunsplit make of that DSN and of the one printed from it: a host read between
      brackets is printed without them, and a bracket inside it is then never closed. */
  ghost predicate TreatsNested(urls: Urls, token: string) {
    && urls.split(NESTED) == Some(NestedParts(None, None))
    && urls.unsplit(NestedParts(Some(OWNER_ROLE), Some(token))) == NestedPrinted(token)
    && urls.split(NestedPrinted(token)) == None
    && urls.quote(OWNER_ROLE) == OWNER_ROLE && urls.quote(token) == token
  }

  lemma NestedReads(token: string)
    ensures Clean(NESTED) && Unquoted(NESTED) == NESTED
    ensures Unquoted(NestedPrinted(token)) == NestedPrinted(token)
  {
    hide Break, Space, NESTED, NestedPrinted;
    NoBreaks();
    NestedIsPlain();
    NestedEnds(token);
    SpanIs(NESTED, Space, 0);
    RStripIs(NESTED, NESTED);
    SpanIs(NestedPrinted(token), Space, 0);
    RStripIs(NestedPrinted(token), NestedPrinted(token));
  }

  lemma NestedIsPlain()
    ensures Printable(NESTED) && |NESTED| == 24 && NESTED[0] == 'p' && NESTED[23] == 'b' && !Space('p') && !Space('b')
  {
    hide Space;
    assert !Space('p') && !Space('b') by { LettersAreNoSpace(); }
  }

  lemma LettersAreNoSpace()
    ensures !Space('p') && !Space('b')
  {
  }

  lemma NestedEnds(token: string)
    ensures var text := NestedPrinted(token); |text| > 1 && text[0] == 'p' && text[|text| - 1] == 'b'
  {
  }

  /** With --new-database the first run generates a password into that DSN and leaves nothing to the
      operator; the second reads none back and reports the mismatch. */
  lemma NestedHostIsReported(urls: Urls, ownerToken: string, redisToken: string, e: Disk, ownerToken2: string, redisToken2: string)
    requires PrintsLines(urls) && Fresh(ownerToken) && Fresh(redisToken) && TreatsNested(urls, ownerToken)
    ensures var was := Plan(OnlyDsn(NESTED), urls, true, ownerToken, redisToken);
      && was.Ok? && was.value.generated && was.value.left.Nothing?
      && (Partly(OnlyDsn(NESTED), was.value, Changed(was.value), e) ==>
            var now := Plan(e, urls, true, ownerToken2, redisToken2);
            now.Ok? && now.value.left.Mismatch?)
  {
    hide KeyName, NESTED, Load, Plan, Published, Fresh, UrlSafe, OnlyDsn, Unquoted, Clean, Partly, Changed, UrlStays, PrintsLines;
    var d := OnlyDsn(NESTED);
    NestedReads(ownerToken);
    OnlyDsnLoads(NESTED);
    NoReal("");
    NonePublished();
    SafeOf(ownerToken);
    SafeOf(redisToken);
    GoesAheadExactly(d, urls, true, ownerToken, redisToken);
    GeneratesExactly(d, urls, true, ownerToken, redisToken);
    var p := Plan(d, urls, true, ownerToken, redisToken).value;
    NoTemplate(d);
    NestedDoesNotStay(d, urls, ownerToken);
    LeavesNothing(d, urls, ownerToken, redisToken);
    if Partly(d, p, Changed(p), e) {
      NothingLeftToChange(d, urls, true, ownerToken, redisToken, e, ownerToken2, redisToken2);
    }
  }

  lemma SafeOf(token: string)
    requires Fresh(token)
    ensures UrlSafe(token)
  {
  }

  lemma NoTemplate(d: Disk)
    requires d == OnlyDsn(NESTED)
    ensures CurrentTemplate(d)
  {
  }

  lemma LeavesNothing(d: Disk, urls: Urls, ownerToken: string, redisToken: string)
    requires Plan(d, urls, true, ownerToken, redisToken).Ok? && Plan(d, urls, true, ownerToken, redisToken).value.generated
    ensures Plan(d, urls, true, ownerToken, redisToken).value.left.Nothing?
  {
    hide MoveOwner, Limiter, TemplateComment;
    GeneratedLeavesNothing(d, urls, true, ownerToken);
  }

  lemma NestedDoesNotStay(d: Disk, urls: Urls, token: string)
    requires TreatsNested(urls, token) && Loaded(d) && StandingDsn(d) == NESTED
    ensures !DsnStays(d, urls, token)
  {
    hide Unquoted, NESTED, StandingDsn, NestedPrinted;
    NestedReads(token);
    assert Rebuilt(urls, NESTED, OWNER_ROLE, token, DSN_DEFAULT, None) == NestedParts(Some(OWNER_ROLE), Some(token));
  }

  // A URL that takes two runs to settle.

  const SPACED := "redis://x@redis:6379/0? "

  function LimiterParts(password: string, tail: string): Parts {
    REDIS_DEFAULT.(username := Some(LIMITER_USER), password := Some(password), tail := tail)
  }

  function Printed(password: string, tail: string): string {
    "redis://noctornal_limiter:" + password + "@redis:6379" + tail
  }

  /** What urlsplit and urlunsplit make of the URL above and of the two printed from it. */
  ghost predicate TreatsSpaced(urls: Urls, password: string) {
    && urls.split(SPACED) == Some(REDIS_DEFAULT.(tail := "/0? "))
    && urls.split(Printed(password, "/0?")) == Some(LimiterParts(password, "/0"))
    && urls.unsplit(LimiterParts(password, "/0? ")) == Printed(password, "/0? ")
    && urls.unsplit(LimiterParts(password, "/0")) == Printed(password, "/0")
    && (urls.split("").Some? ==> urls.split("").value.host == None)
    && urls.quote(password) == password && urls.quote(LIMITER_USER) == LIMITER_USER
  }

  lemma ContainsAll(s: string, m: string, i: nat)
    requires i < |m|
    ensures Contains(s, m) ==> m[i] in s
  {
    if Contains(s, m) {
      var k :| 0 <= k <= |s| - |m| && s[k..][..|m|] == m;
      assert s[k + i] == s[k..][..|m|][i];
    }
  }

  /** No dash and no v: none of the published markers is in such a text. */
  predicate Unmarked(s: string) {
    forall i :: 0 <= i < |s| ==> s[i] != '-' && s[i] != 'v' && s[i] != 'V'
  }

  lemma UnmarkedIsChosen(s: string)
    requires s != "" && !Space(s[0]) && Unmarked(s)
    ensures !Published(Some(s))
  {
    hide Space, Contains, RStrip, Lower;
    SpanIs(s, Space, 0);
    NotBlank(s, 0);
    LowerLacks(s, '-');
    LowerLacks(s, 'v');
    ContainsAll(Lower(s), "replace-me", 7);
    ContainsAll(Lower(s), "not-a-real-one", 3);
    ContainsAll(Lower(s), "dev_only_change_me", 2);
  }

  lemma SpacedIsChosen()
    ensures !Published(Some(SPACED))
  {
    hide Space, Published;
    RIsNoSpace();
    assert Unmarked(SPACED);
    UnmarkedIsChosen(SPACED);
  }

  lemma LowerLacks(s: string, c: char)
    requires c == '-' || c == 'v'
    requires Unmarked(s)
    ensures c !in Lower(s)
  {
  }

  lemma RIsNoSpace()
    ensures |SPACED| > 0 && SPACED[0] == 'r' && !Space('r')
  {
  }

  lemma PrintedReads(password: string)
    ensures Unquoted(Printed(password, "/0? ")) == Printed(password, "/0?")
  {
    var text, kept := Printed(password, "/0? "), Printed(password, "/0?");
    SpanIs(text, Space, 0);
    assert text == kept + " ";
    RStripIs(text, kept);
  }

  /** Quotes keep the space. */
  lemma SpacedIsRead()
    ensures Unquoted("\"" + SPACED + "\"") == SPACED
  {
    var text := "\"" + SPACED + "\"";
    SpanIs(text, Space, 0);
    RStripIs(text, text);
  }

  /** A quoted URL whose query is one space is printed with the space, read back without it and so with
      an empty query, and printed a third way. */
  lemma SpacedUrlMoves(urls: Urls, password: string)
    requires TreatsSpaced(urls, password)
    ensures Unquoted("\"" + SPACED + "\"") == SPACED
    ensures !UrlStays(urls, Some(SPACED), password)
  {
    hide Unquoted, Published, SPACED, Printed;
    SpacedIsRead();
    SpacedIsChosen();
    PrintedReads(password);
    PrintedDiffer(password);
    NonePublished();
    var want, back := Printed(password, "/0? "), Printed(password, "/0?");
    assert Rebuilt(urls, SPACED, LIMITER_USER, password, REDIS_DEFAULT, Some("redis")) == LimiterParts(password, "/0? ");
    assert LimiterUrl(urls, Some(SPACED), password) == want;
    assert Rebuilt(urls, back, LIMITER_USER, password, REDIS_DEFAULT, Some("redis")) == LimiterParts(password, "/0");
    assert Rebuilt(urls, "", LIMITER_USER, password, REDIS_DEFAULT, Some("redis")) == LimiterParts(password, "/0");
    assert LimiterUrl(urls, Some(back), password) == Printed(password, "/0");
  }

  lemma PrintedDiffer(password: string)
    ensures |Printed(password, "/0? ")| == |Printed(password, "/0?")| + 1 == |Printed(password, "/0")| + 2
    ensures Printed(password, "/0? ") != SPACED
  {
    assert Printed(password, "/0? ")[8] == 'n' && SPACED[8] == 'x';
  }

  // The law is one a library can keep.

  function ToySplit(s: string): Option<Parts> {
    if s == "" || !UrlSafe(s[1..]) then None
    else if s[0] == 'L' then Some(REDIS_DEFAULT.(username := Some(LIMITER_USER), password := Some(s[1..])))
    else if s[0] == 'D' then Some(DSN_DEFAULT.(password := Some(s[1..])))
    else None
  }

  function ToyUnsplit(parts: Parts): string {
    (if parts.scheme == "redis" then "L" else "D") + (if parts.password.Some? then parts.password.value else "")
  }

  lemma ToyText(letter: char, password: string)
    requires (letter == 'L' || letter == 'D') && UrlSafe(password)
    ensures var text := [letter] + password;
      Clean(text) && Unquoted(text) == text && text[1..] == password
  {
    TokenReads(password);
    TokenReads([letter] + password);
  }

  lemma ToyUnpublished(password: string)
    requires UrlSafe(password) && !Published(Some(password))
    ensures !Published(Some("L" + password))
  {
    hide Strip;
    var text := "L" + password;
    TokenReads(text);
    assert Strip(text) == text by { StripToken(text); }
    assert Lower(text) == "l" + Lower(password);
    forall m | m in PUBLISHED ensures !Contains(Lower(text), m) {
      if Contains(Lower(text), m) {
        ContainsTail('l', Lower(password), m);
      }
    }
  }

  lemma ContainsTail(c: char, s: string, m: string)
    requires m != "" && m[0] != c && Contains([c] + s, m)
    ensures Contains(s, m)
  {
    var i :| 0 <= i <= |[c] + s| - |m| && ([c] + s)[i..][..|m|] == m;
    assert ([c] + s)[i] == m[0];
    assert s[i - 1..][..|m|] == m;
  }

  lemma StripToken(s: string)
    requires UrlSafe(s)
    ensures Strip(s) == s
  {
    SpanIs(s, Space, 0);
    RStripIs(s, s);
  }

  lemma SomeUrlsAreLawful() returns (urls: Urls)
    ensures PrintsLines(urls) && DsnRoundTrips(urls) && RoundTrips(urls)
  {
    hide UrlSafe, Published, Unquoted, Clean, Space;
    urls := Urls(ToySplit, ToyUnsplit, s => s, s => s);
    forall url, user, password | UrlSafe(password) ensures DsnReads(urls, url, user, password) {
      ToyText('L', password);
      ToyText('D', password);
    }
    forall url, user, password | UrlSafe(password) ensures IsLine(urls, url, user, password, DSN_DEFAULT, None) {
      ToyText('L', password);
      ToyText('D', password);
    }
    forall url, password | UrlSafe(password) ensures IsLine(urls, url, LIMITER_USER, password, REDIS_DEFAULT, Some("redis")) {
      ToyText('L', password);
    }
    forall url, password | UrlSafe(password) && !Published(Some(password)) && Rebuildable(urls, url)
      ensures LimiterReads(urls, url, password)
    {
      ToyText('L', password);
      ToyUnpublished(password);
    }
  }
}
