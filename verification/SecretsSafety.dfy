/** What the migrator's plan keeps: no owner value is lost, a chosen password is never
    overwritten, an interrupted run can be finished, and a finished one changes nothing. */
module SecretsSafety {
  import opened Options
  import opened EnvText
  import opened EnvFiles
  import opened SecretsPlan

  /** Both files hold a real value, and not the same one. */
  predicate Conflict(theirs: Reading, ours: Reading) {
    HoldsReal(theirs) && HoldsReal(ours) && theirs != ours
  }

  /** The value that stands in the destination once the key has left secrets.env. */
  function Effective(theirs: Reading, ours: Reading): Reading {
    if theirs.Missing? || (HoldsReal(ours) && ours != theirs) then ours else theirs
  }

  lemma LineSets(e: Env, key: Key)
    requires Index(e.lines, KeyName(key)) < |e.lines|
    ensures Sets(LineOf(e, key), KeyName(key))
    ensures Settings(e.lines, KeyName(key)) != []
    ensures Unquoted(Parse(LineOf(e, key)).value.value) == Unquoted(Settings(e.lines, KeyName(key))[0])
  {
    hide Settings, Parse, Unquoted, Strip, KeyName;
    SettingsSplit(e.lines, KeyName(key));
    ParseStripped(e.lines[Index(e.lines, KeyName(key))]);
  }

  lemma RemovedClears(sec: Env, key: Key, other: string)
    ensures Settings(Removed(sec, key).lines, KeyName(key)) == []
    ensures other != KeyName(key) ==> Settings(Removed(sec, key).lines, other) == Settings(sec.lines, other)
  {
    hide KeyName, Phrase, MovedNote, Settings, Comment, ReplaceStale;
    NoteIsComment(key);
    var replaced := ReplaceStale(sec, KeyName(key), Phrase(key), []);
    DropClears(replaced.lines, KeyName(key), MovedNote(key), other);
    ReplaceKeepsSettings(sec, KeyName(key), Phrase(key), [], other);
  }

  /** A moved key is gone from secrets.env, its destination holds the effective value, and
      every other setting of both files is what it was. */
  lemma MoveSettles(sec: Env, dest: Env, key: Key, other: string)
    requires Move(sec, dest, key).Ok?
    ensures var after := Move(sec, dest, key).value;
      && Settings(after.sec.lines, KeyName(key)) == []
      && Read(after.dest.lines, KeyName(key)) == Effective(Read(sec.lines, KeyName(key)), Read(dest.lines, KeyName(key)))
      && (other != KeyName(key) ==>
            && Settings(after.sec.lines, other) == Settings(sec.lines, other)
            && Settings(after.dest.lines, other) == Settings(dest.lines, other))
  {
    hide KeyName, Settings, Parse, Unquoted, Published, Removed, LineOf, Put;
    ReadIsSet(sec.lines, KeyName(key));
    if !Read(sec.lines, KeyName(key)).Missing? {
      RemovedClears(sec, key, other);
      LineSets(sec, key);
      PutSets(dest, KeyName(key), LineOf(sec, key), other);
    }
  }

  /** Where a line moved away, its note says so. */
  lemma MoveLeavesNote(sec: Env, dest: Env, key: Key)
    requires Move(sec, dest, key).Ok? && !Read(sec.lines, KeyName(key)).Missing?
    ensures MovedNote(key) in Move(sec, dest, key).value.sec.lines
  {
    hide KeyName, Settings, Parse, Unquoted, Published, LineOf, Put, ReplaceStale, MovedNote, Phrase, Read;
    ReadIsSet(sec.lines, KeyName(key));
    ReplaceKeepsSettings(sec, KeyName(key), Phrase(key), [], KeyName(key));
    var replaced := ReplaceStale(sec, KeyName(key), Phrase(key), []);
    assert Read(replaced.lines, KeyName(key)) == Read(sec.lines, KeyName(key)) by { SameRead(sec.lines, replaced.lines, KeyName(key)); }
    ReadIsSet(replaced.lines, KeyName(key));
    var i := Index(replaced.lines, KeyName(key));
    assert Dropped(replaced.lines, KeyName(key), MovedNote(key))[i] == MovedNote(key);
  }

  lemma SameRead(a: seq<string>, b: seq<string>, key: string)
    requires Settings(a, key) == Settings(b, key)
    ensures Read(a, key) == Read(b, key)
  {
    hide Settings;
  }

  lemma MoveRefuses(sec: Env, dest: Env, key: Key)
    ensures !Move(sec, dest, key).Raised?
    ensures var theirs, ours := Read(sec.lines, KeyName(key)), Read(dest.lines, KeyName(key));
      Move(sec, dest, key).Refused? <==>
        theirs.Twice? || (theirs.Once? && (ours.Twice? || Conflict(theirs, ours)))
  {
    hide KeyName, Read, Published;
  }

  /** A password made of URL-safe characters reads back as it was written. */
  lemma TokenReads(token: string)
    requires UrlSafe(token)
    ensures Unquoted(token) == token && Clean(token)
  {
    assert forall i :: 0 <= i < |token| ==> !Space(token[i]);
    SpanIs(token, Space, 0);
    RStripIs(token, token);
  }

  lemma BuiltSets(key: Key, value: string)
    ensures Sets(KeyName(key) + "=" + value, KeyName(key))
    ensures Parse(KeyName(key) + "=" + value) == Some(Setting(KeyName(key), value))
  {
    hide KeyName, Parse;
    KeyIsName(key);
    ParseBuilt(KeyName(key), value);
  }

  lemma BuiltReads(e: Env, key: Key, value: string, other: string)
    requires !Read(e.lines, KeyName(key)).Twice?
    ensures var after := Put(e, KeyName(key), KeyName(key) + "=" + value).lines;
      && Read(after, KeyName(key)) == Once(Unquoted(value))
      && (other != KeyName(key) ==> Settings(after, other) == Settings(e.lines, other))
  {
    hide KeyName, Parse, Unquoted, Settings, Put, Sets;
    BuiltSets(key, value);
    PutSets(e, KeyName(key), KeyName(key) + "=" + value, other);
  }

  /** Passwords are generated only where none was chosen, and nothing else is touched. */
  lemma ChooseSettles(urls: Urls, init: Env, mig: Env, newDatabase: bool, token: string, other: string)
    requires Choose(urls, init, mig, newDatabase, token).Ok? && UrlSafe(token)
    ensures var o := Choose(urls, init, mig, newDatabase, token).value;
      var owner, dsn := Read(init.lines, KeyName(PostgresPassword)), Read(mig.lines, KeyName(MigrationUrl));
      && !owner.Twice? && !dsn.Twice?
      && (!o.generated ==> o.init == init && o.mig == mig)
      && (o.generated ==>
            && newDatabase && Published(Held(owner)) && Published(PasswordIn(urls, Held(dsn)))
            && Read(o.init.lines, KeyName(PostgresPassword)) == Once(token)
            && urls.split(ValueOr(Held(dsn), "")).Some?
            && Read(o.mig.lines, KeyName(MigrationUrl)) == Once(Unquoted(OwnerDsn(urls, ValueOr(Held(dsn), ""), token))))
      && (other != KeyName(PostgresPassword) ==> Settings(o.init.lines, other) == Settings(init.lines, other))
      && (other != KeyName(MigrationUrl) ==> Settings(o.mig.lines, other) == Settings(mig.lines, other))
  {
    hide KeyName, Read, Unquoted, Published, OwnerDsn, Put, UrlSafe, PasswordIn;
    var owner, dsn := Read(init.lines, KeyName(PostgresPassword)), Read(mig.lines, KeyName(MigrationUrl));
    if Choose(urls, init, mig, newDatabase, token).value.generated {
      TokenReads(token);
      BuiltReads(init, PostgresPassword, token, other);
      BuiltReads(mig, MigrationUrl, OwnerDsn(urls, ValueOr(Held(dsn), ""), token), other);
    }
  }

  predicate AllComments(block: seq<string>) {
    forall i :: 0 <= i < |block| ==> Comment(block[i])
  }

  lemma AboveIsComments(lines: seq<string>, key: string)
    ensures AllComments(CommentAbove(lines, key))
  {
    hide Comment;
  }

  lemma TemplateIsComments(d: Disk, key: Key)
    ensures AllComments(TemplateComment(d, key))
  {
    hide Comment, CommentAbove, AllComments;
    if Example(Secrets) in d && d[Example(Secrets)].Text? {
      AboveIsComments(SplitLines(d[Example(Secrets)].chars), KeyName(key));
    } else {
      assert AllComments([]) by { NoComments(); }
    }
  }

  lemma NoComments()
    ensures AllComments([])
  {
  }

  function PasswordNow(sec: Env, token: string): string {
    var password := Held(Read(sec.lines, KeyName(RedisPassword)));
    if Usable(password) then password.value else token
  }

  /** Secrets.env's two Redis lines afterwards; every other setting is what it was. */
  lemma LimiterSettles(urls: Urls, sec: Env, token: string, passwordNote: seq<string>, urlNote: seq<string>, other: string)
    requires Limiter(urls, sec, token, passwordNote, urlNote).Ok? && UrlSafe(token)
    requires AllComments(passwordNote) && AllComments(urlNote)
    ensures var after := Limiter(urls, sec, token, passwordNote, urlNote).value.lines;
      var url := Read(sec.lines, KeyName(RedisUrl));
      var want := LimiterUrl(urls, Held(url), PasswordNow(sec, token));
      && !url.Twice?
      && Read(after, KeyName(RedisPassword)) == Once(PasswordNow(sec, token))
      && Read(after, KeyName(RedisUrl)) == (if NamesAnother(urls, Held(url)) || url == Once(want) then url else Once(Unquoted(want)))
      && (other != KeyName(RedisPassword) && other != KeyName(RedisUrl) ==> Settings(after, other) == Settings(sec.lines, other))
  {
    hide KeyName, Read, Published, LimiterUrl, Usable, UrlSafe, NamesAnother, ReplaceStale, Phrase, Settings, WithPassword, WithUrl, AllComments;
    NothingUsable();
    var password := Held(Read(sec.lines, KeyName(RedisPassword)));
    var sec1 := WithPassword(sec, password, token);
    PasswordSettles(sec, token, other);
    var url := Held(Read(sec1.lines, KeyName(RedisUrl)));
    var sec2 := WithUrl(urls, sec1, url, PasswordNow(sec, token));
    UrlSettles(urls, sec1, PasswordNow(sec, token), other);
    var sec3 := ReplaceStale(sec2, KeyName(RedisPassword), Phrase(RedisPassword), passwordNote);
    CommentsKeep(sec2, RedisPassword, passwordNote, other);
    CommentsKeep(sec3, RedisUrl, urlNote, other);
  }

  lemma PasswordSettles(sec: Env, token: string, other: string)
    requires !Read(sec.lines, KeyName(RedisPassword)).Twice? && UrlSafe(token)
    ensures var after := WithPassword(sec, Held(Read(sec.lines, KeyName(RedisPassword))), token).lines;
      && Read(after, KeyName(RedisPassword)) == Once(PasswordNow(sec, token))
      && Read(after, KeyName(RedisUrl)) == Read(sec.lines, KeyName(RedisUrl))
      && (other != KeyName(RedisPassword) ==> Settings(after, other) == Settings(sec.lines, other))
  {
    hide KeyName, Unquoted, Published, Put, UrlSafe, Settings, Usable;
    TokenReads(token);
    NamesDiffer(RedisPassword, RedisUrl);
    BuiltReads(sec, RedisPassword, token, other);
    BuiltReads(sec, RedisPassword, token, KeyName(RedisUrl));
    assert Usable(None) == false by { NothingUsable(); }
  }

  lemma NothingUsable()
    ensures !Usable(None)
  {
  }

  lemma UrlSettles(urls: Urls, sec: Env, password: string, other: string)
    requires !Read(sec.lines, KeyName(RedisUrl)).Twice?
    ensures var url := Read(sec.lines, KeyName(RedisUrl));
      var want := LimiterUrl(urls, Held(url), password);
      var after := WithUrl(urls, sec, Held(url), password).lines;
      && Read(after, KeyName(RedisUrl)) == (if NamesAnother(urls, Held(url)) || url == Once(want) then url else Once(Unquoted(want)))
      && Read(after, KeyName(RedisPassword)) == Read(sec.lines, KeyName(RedisPassword))
      && (other != KeyName(RedisUrl) ==> Settings(after, other) == Settings(sec.lines, other))
  {
    hide KeyName, Unquoted, NamesAnother, LimiterUrl, Put, Settings;
    NamesDiffer(RedisPassword, RedisUrl);
    var want := LimiterUrl(urls, Held(Read(sec.lines, KeyName(RedisUrl))), password);
    BuiltReads(sec, RedisUrl, want, other);
    BuiltReads(sec, RedisUrl, want, KeyName(RedisPassword));
  }

  lemma CommentsKeep(e: Env, key: Key, note: seq<string>, other: string)
    requires AllComments(note)
    ensures var after := ReplaceStale(e, KeyName(key), Phrase(key), note).lines;
      && Settings(after, other) == Settings(e.lines, other)
      && Read(after, KeyName(RedisPassword)) == Read(e.lines, KeyName(RedisPassword))
      && Read(after, KeyName(RedisUrl)) == Read(e.lines, KeyName(RedisUrl))
  {
    hide Settings, ReplaceStale, Comment, KeyName, Phrase, Unquoted;
    ReplaceKeepsSettings(e, KeyName(key), Phrase(key), note, other);
    ReplaceKeepsSettings(e, KeyName(key), Phrase(key), note, KeyName(RedisPassword));
    ReplaceKeepsSettings(e, KeyName(key), Phrase(key), note, KeyName(RedisUrl));
  }

  // The whole plan.

  predicate Loaded(d: Disk) {
    Load(d, Secrets).Some? && Load(d, PostgresInit).Some? && Load(d, Migrate).Some?
  }

  function Home(key: Key): File {
    if key.PostgresPassword? then PostgresInit else Migrate
  }

  function InSecrets(d: Disk, key: Key): Reading
    requires Loaded(d)
  {
    Read(Load(d, Secrets).value.lines, KeyName(key))
  }

  function AtHome(d: Disk, key: Key): Reading
    requires Loaded(d)
  {
    Read(Load(d, Home(key)).value.lines, KeyName(key))
  }

  /** The owner value a deployment has before the run, wherever it stands. */
  function Standing(d: Disk, key: Key): Reading
    requires Loaded(d)
  {
    Effective(InSecrets(d, key), AtHome(d, key))
  }

  /** The DSN a generated password is put into. */
  function StandingDsn(d: Disk): string
    requires Loaded(d)
  {
    ValueOr(Held(Standing(d, MigrationUrl)), "")
  }

  /** What the DSN with the password in it says once its line is read back. */
  function GeneratedDsn(d: Disk, urls: Urls, token: string): string
    requires Loaded(d) && urls.split(StandingDsn(d)).Some?
  {
    Unquoted(OwnerDsn(urls, StandingDsn(d), token))
  }

  lemma OwnerSettles(d: Disk, urls: Urls, newDatabase: bool, token: string, other: string)
    requires MoveOwner(d, urls, newDatabase, token).Ok? && UrlSafe(token)
    ensures Loaded(d)
    ensures var after := MoveOwner(d, urls, newDatabase, token).value;
      var pp, mu := KeyName(PostgresPassword), KeyName(MigrationUrl);
      && Settings(after.sec.lines, pp) == [] && Settings(after.sec.lines, mu) == []
      && (other != pp && other != mu ==> Settings(after.sec.lines, other) == Settings(Load(d, Secrets).value.lines, other))
      && (other != pp ==> Settings(after.owner.init.lines, other) == Settings(Load(d, PostgresInit).value.lines, other))
      && (other != mu ==> Settings(after.owner.mig.lines, other) == Settings(Load(d, Migrate).value.lines, other))
    ensures var o := MoveOwner(d, urls, newDatabase, token).value.owner;
      && (!o.generated ==>
            && Read(o.init.lines, KeyName(PostgresPassword)) == Standing(d, PostgresPassword)
            && Read(o.mig.lines, KeyName(MigrationUrl)) == Standing(d, MigrationUrl))
      && (o.generated ==>
            && newDatabase
            && Published(Held(Standing(d, PostgresPassword)))
            && Published(PasswordIn(urls, Held(Standing(d, MigrationUrl))))
            && Read(o.init.lines, KeyName(PostgresPassword)) == Once(token)
            && urls.split(StandingDsn(d)).Some?
            && Read(o.mig.lines, KeyName(MigrationUrl)) == Once(GeneratedDsn(d, urls, token)))
  {
    hide KeyName, Load, Move, Choose, Settings, Published, Unquoted, UrlSafe, PasswordIn, OwnerDsn;
    NamesDiffer(PostgresPassword, MigrationUrl);
    var sec, init, mig := Load(d, Secrets).value, Load(d, PostgresInit).value, Load(d, Migrate).value;
    var a := Move(sec, init, PostgresPassword).value;
    var b := Move(a.sec, mig, MigrationUrl).value;
    MoveSettles(sec, init, PostgresPassword, other);
    MoveSettles(sec, init, PostgresPassword, KeyName(MigrationUrl));
    MoveSettles(a.sec, mig, MigrationUrl, other);
    MoveSettles(a.sec, mig, MigrationUrl, KeyName(PostgresPassword));
    ChooseSettles(urls, a.dest, b.dest, newDatabase, token, other);
  }

  /** After a plan that was not refused: neither owner key is in secrets.env; each owner value
      stands in its own file, unless a password was generated, and that only where no password
      had been chosen in either; every other setting of every file is what it was. */
  lemma PlanKeepsOwnerValues(d: Disk, urls: Urls, newDatabase: bool, ownerToken: string, redisToken: string, other: string)
    requires Plan(d, urls, newDatabase, ownerToken, redisToken).Ok? && UrlSafe(ownerToken) && UrlSafe(redisToken)
    ensures Loaded(d)
    ensures var p := Plan(d, urls, newDatabase, ownerToken, redisToken).value;
      && Read(p.sec.lines, KeyName(PostgresPassword)) == Missing
      && Read(p.sec.lines, KeyName(MigrationUrl)) == Missing
      && (!p.generated ==>
            && Read(p.init.lines, KeyName(PostgresPassword)) == Standing(d, PostgresPassword)
            && Read(p.mig.lines, KeyName(MigrationUrl)) == Standing(d, MigrationUrl))
      && (p.generated ==>
            && newDatabase && Read(p.init.lines, KeyName(PostgresPassword)) == Once(ownerToken)
            && Published(Held(Standing(d, PostgresPassword)))
            && Published(PasswordIn(urls, Held(Standing(d, MigrationUrl))))
            && urls.split(StandingDsn(d)).Some?
            && Read(p.mig.lines, KeyName(MigrationUrl)) == Once(GeneratedDsn(d, urls, ownerToken)))
    ensures var p := Plan(d, urls, newDatabase, ownerToken, redisToken).value;
      && ((forall key :: other != KeyName(key)) ==> Settings(p.sec.lines, other) == Settings(Load(d, Secrets).value.lines, other))
      && (other != KeyName(PostgresPassword) ==> Settings(p.init.lines, other) == Settings(Load(d, PostgresInit).value.lines, other))
      && (other != KeyName(MigrationUrl) ==> Settings(p.mig.lines, other) == Settings(Load(d, Migrate).value.lines, other))
  {
    hide KeyName, Load, MoveOwner, Limiter, Settings, Published, Unquoted, UrlSafe, PasswordIn, TemplateComment, Standing, AllComments, LimiterUrl;
    OwnerSettles(d, urls, newDatabase, ownerToken, other);
    var sec := MoveOwner(d, urls, newDatabase, ownerToken).value.sec;
    TemplateIsComments(d, RedisPassword);
    TemplateIsComments(d, RedisUrl);
    var note, urlNote := TemplateComment(d, RedisPassword), TemplateComment(d, RedisUrl);
    OwnersAreNotRedis();
    LimiterSettles(urls, sec, redisToken, note, urlNote, KeyName(PostgresPassword));
    LimiterSettles(urls, sec, redisToken, note, urlNote, KeyName(MigrationUrl));
    LimiterSettles(urls, sec, redisToken, note, urlNote, other);
  }

  lemma OwnersAreNotRedis()
    ensures KeyName(PostgresPassword) != KeyName(MigrationUrl) && KeyName(RedisPassword) != KeyName(RedisUrl)
    ensures KeyName(PostgresPassword) != KeyName(RedisPassword) && KeyName(PostgresPassword) != KeyName(RedisUrl)
    ensures KeyName(MigrationUrl) != KeyName(RedisPassword) && KeyName(MigrationUrl) != KeyName(RedisUrl)
  {
    hide KeyName;
    NamesDiffer(PostgresPassword, MigrationUrl);
    NamesDiffer(RedisPassword, RedisUrl);
    NamesDiffer(PostgresPassword, RedisPassword);
    NamesDiffer(PostgresPassword, RedisUrl);
    NamesDiffer(MigrationUrl, RedisPassword);
    NamesDiffer(MigrationUrl, RedisUrl);
  }

  /** The Redis lines: a usable password and another Redis's URL are the operator's and stay. */
  lemma PlanKeepsRedisChoices(d: Disk, urls: Urls, newDatabase: bool, ownerToken: string, redisToken: string)
    requires Plan(d, urls, newDatabase, ownerToken, redisToken).Ok? && UrlSafe(ownerToken) && UrlSafe(redisToken)
    ensures Loaded(d)
    ensures var p := Plan(d, urls, newDatabase, ownerToken, redisToken).value;
      var password, url := InSecrets(d, RedisPassword), InSecrets(d, RedisUrl);
      var now := if Usable(Held(password)) then password.value else redisToken;
      && Read(p.sec.lines, KeyName(RedisPassword)) == Once(now)
      && (NamesAnother(urls, Held(url)) ==> Read(p.sec.lines, KeyName(RedisUrl)) == url)
      && (!NamesAnother(urls, Held(url)) ==>
            var want := LimiterUrl(urls, Held(url), now);
            Read(p.sec.lines, KeyName(RedisUrl)) == Once(if url == Once(want) then want else Unquoted(want)))
  {
    hide KeyName, Load, MoveOwner, Limiter, Settings, Published, Unquoted, UrlSafe, PasswordIn, TemplateComment, Standing, AllComments, LimiterUrl, Usable, NamesAnother;
    OwnersAreNotRedis();
    NothingUsable();
    OwnerSettles(d, urls, newDatabase, ownerToken, KeyName(RedisPassword));
    OwnerSettles(d, urls, newDatabase, ownerToken, KeyName(RedisUrl));
    var sec := MoveOwner(d, urls, newDatabase, ownerToken).value.sec;
    TemplateIsComments(d, RedisPassword);
    TemplateIsComments(d, RedisUrl);
    LimiterSettles(urls, sec, redisToken, TemplateComment(d, RedisPassword), TemplateComment(d, RedisUrl), "");
  }

  /** A generated password needs a URL to put it in: urlsplit must not raise. */
  predicate Stuck(d: Disk, urls: Urls, newDatabase: bool)
    requires Loaded(d)
  {
    && newDatabase
    && Published(Held(Standing(d, PostgresPassword)))
    && Published(PasswordIn(urls, Held(Standing(d, MigrationUrl))))
    && urls.split(ValueOr(Held(Standing(d, MigrationUrl)), "")).None?
  }

  predicate KeyRefused(d: Disk, key: Key)
    requires Loaded(d)
  {
    InSecrets(d, key).Twice? || AtHome(d, key).Twice? || Conflict(InSecrets(d, key), AtHome(d, key))
  }

  /** Exactly when a run goes ahead: every file can be read, no key it reads is set twice, no
      owner key has two real values, and a new database's DSN is one urlsplit accepts. Exactly when it
      raises: the owner's keys are in order and that DSN is one urlsplit refuses. */
  lemma GoesAheadExactly(d: Disk, urls: Urls, newDatabase: bool, ownerToken: string, redisToken: string)
    requires UrlSafe(ownerToken) && UrlSafe(redisToken)
    ensures Plan(d, urls, newDatabase, ownerToken, redisToken).Ok? <==>
      && Loaded(d)
      && !KeyRefused(d, PostgresPassword) && !KeyRefused(d, MigrationUrl)
      && !InSecrets(d, RedisPassword).Twice? && !InSecrets(d, RedisUrl).Twice?
      && !Stuck(d, urls, newDatabase)
    ensures Plan(d, urls, newDatabase, ownerToken, redisToken).Raised? <==>
      && Loaded(d)
      && !KeyRefused(d, PostgresPassword) && !KeyRefused(d, MigrationUrl)
      && Stuck(d, urls, newDatabase)
  {
    hide KeyName, Load, MoveOwner, Limiter, Settings, Published, Unquoted, UrlSafe, PasswordIn, TemplateComment, AllComments, Conflict, Standing;
    MovesAheadExactly(d, urls, newDatabase, ownerToken);
    if MoveOwner(d, urls, newDatabase, ownerToken).Ok? {
      OwnersAreNotRedis();
      OwnerSettles(d, urls, newDatabase, ownerToken, KeyName(RedisPassword));
      OwnerSettles(d, urls, newDatabase, ownerToken, KeyName(RedisUrl));
      LimiterRefuses(urls, MoveOwner(d, urls, newDatabase, ownerToken).value.sec, redisToken,
                     TemplateComment(d, RedisPassword), TemplateComment(d, RedisUrl));
    }
  }

  lemma MovesAheadExactly(d: Disk, urls: Urls, newDatabase: bool, token: string)
    requires UrlSafe(token)
    ensures MoveOwner(d, urls, newDatabase, token).Ok? <==>
      Loaded(d) && !KeyRefused(d, PostgresPassword) && !KeyRefused(d, MigrationUrl) && !Stuck(d, urls, newDatabase)
    ensures MoveOwner(d, urls, newDatabase, token).Raised? <==>
      Loaded(d) && !KeyRefused(d, PostgresPassword) && !KeyRefused(d, MigrationUrl) && Stuck(d, urls, newDatabase)
  {
    hide KeyName, Load, Move, Choose, Settings, Published, Unquoted, UrlSafe, PasswordIn, OwnerDsn;
    if Loaded(d) {
      OwnersAreNotRedis();
      var sec, init, mig := Load(d, Secrets).value, Load(d, PostgresInit).value, Load(d, Migrate).value;
      MoveRefuses(sec, init, PostgresPassword);
      if Move(sec, init, PostgresPassword).Ok? {
        var a := Move(sec, init, PostgresPassword).value;
        MoveSettles(sec, init, PostgresPassword, KeyName(MigrationUrl));
        MoveRefuses(a.sec, mig, MigrationUrl);
        if Move(a.sec, mig, MigrationUrl).Ok? {
          var b := Move(a.sec, mig, MigrationUrl).value;
          MoveSettles(a.sec, mig, MigrationUrl, "");
          ChooseRefuses(urls, a.dest, b.dest, newDatabase, token);
        }
      }
    }
  }

  // A disk whose plan raises.

  const MALFORMED := "postgresql://["

  /** Nothing but an owner's DSN in migrate.env. */
  function OnlyDsn(dsn: string): Disk {
    map[Real(Secrets) := Text(false, ""), Real(PostgresInit) := Text(false, ""),
        Real(Migrate) := Text(false, KeyName(MigrationUrl) + "=" + dsn)]
  }

  /** An owner's DSN whose bracket is never closed. */
  function MalformedDisk(): Disk {
    OnlyDsn(MALFORMED)
  }

  lemma MalformedReads()
    ensures Clean(MALFORMED) && Unquoted(MALFORMED) == MALFORMED
  {
    hide Break, Space;
    NoBreaks();
    assert Printable(MALFORMED);
    MalformedEnds();
    SpanIs(MALFORMED, Space, 0);
    RStripIs(MALFORMED, MALFORMED);
  }

  lemma MalformedEnds()
    ensures |MALFORMED| == 14 && MALFORMED[0] == 'p' && MALFORMED[13] == '[' && !Space('p') && !Space('[')
  {
  }

  lemma OneLine(line: string)
    requires Clean(line) && line != ""
    ensures SplitLines(line) == [line]
  {
    SpanIs(line, InLine, |line|);
  }

  lemma NoReal(key: string)
    ensures Read([], key) == Missing && !HoldsReal(Missing) && Published(Held(Missing))
  {
  }

  lemma EqualsIsClean()
    ensures Clean("=")
  {
  }

  lemma OneSetting(key: Key, value: string)
    requires Clean(value)
    ensures var line := KeyName(key) + "=" + value;
      SplitLines(line) == [line] && Settings([line], KeyName(key)) == [value]
  {
    hide KeyName, Settings, Parse, Break;
    var line := KeyName(key) + "=" + value;
    KeyIsName(key);
    NameIsClean(KeyName(key));
    EqualsIsClean();
    CleanJoin(KeyName(key), "=");
    CleanJoin(KeyName(key) + "=", value);
    OneLine(line);
    BuiltSets(key, value);
    SettingsOf(line, KeyName(key));
  }

  lemma OnlyDsnLoads(dsn: string)
    requires Clean(dsn) && Unquoted(dsn) == dsn
    ensures Loaded(OnlyDsn(dsn))
    ensures forall key: Key :: InSecrets(OnlyDsn(dsn), key) == Missing
    ensures AtHome(OnlyDsn(dsn), PostgresPassword) == Missing
    ensures AtHome(OnlyDsn(dsn), MigrationUrl) == Once(dsn)
  {
    hide KeyName, Unquoted, Settings, Parse, Break;
    OneSetting(MigrationUrl, dsn);
    assert SplitLines("") == [];
    forall other: Key ensures InSecrets(OnlyDsn(dsn), other) == Missing {
      NoReal(KeyName(other));
    }
    NoReal(KeyName(PostgresPassword));
  }

  /** With --new-database and a DSN urlsplit raises ValueError on, the plan raises it too. */
  lemma MalformedDsnRaises(urls: Urls, ownerToken: string, redisToken: string)
    requires UrlSafe(ownerToken) && UrlSafe(redisToken) && urls.split(MALFORMED) == None
    ensures Plan(MalformedDisk(), urls, true, ownerToken, redisToken) == Raised
  {
    hide KeyName, MALFORMED, Load, Plan, Published, UrlSafe, OnlyDsn, Unquoted, Clean;
    MalformedReads();
    OnlyDsnLoads(MALFORMED);
    NoReal("");
    NonePublished();
    GoesAheadExactly(MalformedDisk(), urls, true, ownerToken, redisToken);
  }

  lemma NonePublished()
    ensures Published(None)
  {
  }

  /** Exactly when a run that goes ahead generates a password. */
  lemma GeneratesExactly(d: Disk, urls: Urls, newDatabase: bool, ownerToken: string, redisToken: string)
    requires Plan(d, urls, newDatabase, ownerToken, redisToken).Ok?
    ensures Loaded(d)
    ensures Plan(d, urls, newDatabase, ownerToken, redisToken).value.generated <==>
      && newDatabase && Published(Held(Standing(d, PostgresPassword))) && Published(PasswordIn(urls, Held(Standing(d, MigrationUrl))))
  {
    hide KeyName, Load, Move, Limiter, Settings, Published, Unquoted, PasswordIn, OwnerDsn, TemplateComment, Put;
    NamesDiffer(PostgresPassword, MigrationUrl);
    var sec, init, mig := Load(d, Secrets).value, Load(d, PostgresInit).value, Load(d, Migrate).value;
    var a := Move(sec, init, PostgresPassword).value;
    MoveSettles(sec, init, PostgresPassword, KeyName(MigrationUrl));
    MoveSettles(a.sec, mig, MigrationUrl, "");
  }

  /** What the planned owner files say: the password of the first, and the DSN of the second. */
  function PlannedPassword(p: Planned): Reading {
    Read(p.init.lines, KeyName(PostgresPassword))
  }

  function PlannedDsn(p: Planned): Reading {
    Read(p.mig.lines, KeyName(MigrationUrl))
  }

  /** The two files agree on a password somebody chose. */
  predicate Agree(urls: Urls, p: Planned) {
    && PlannedDsn(p).Once? && PlannedPassword(p).Once?
    && PasswordIn(urls, Some(PlannedDsn(p).value)) == Some(PlannedPassword(p).value)
    && !Published(Some(PlannedPassword(p).value))
  }

  /** Nobody has chosen a password in either. */
  predicate Unchosen(urls: Urls, p: Planned) {
    Published(Held(PlannedPassword(p))) && Published(PasswordIn(urls, Held(PlannedDsn(p))))
  }

  /** What a plan leaves to the operator: nothing exactly where it generated the password or the two files
      agree on one; else to choose one where none was, to supply the DSN where there is none, and to make the
      two passwords the same. */
  lemma LeftExactly(d: Disk, urls: Urls, newDatabase: bool, ownerToken: string, redisToken: string)
    requires Plan(d, urls, newDatabase, ownerToken, redisToken).Ok?
    ensures var p := Plan(d, urls, newDatabase, ownerToken, redisToken).value;
      && (p.left.Nothing? <==> p.generated || Agree(urls, p))
      && (p.left.ChoosePassword? <==> !p.generated && Unchosen(urls, p))
      && (p.left.NoDsn? <==> !p.generated && !Unchosen(urls, p) && PlannedDsn(p).Missing?)
      && (p.left.Mismatch? <==> !p.generated && !Unchosen(urls, p) && !PlannedDsn(p).Missing? && !Agree(urls, p))
  {
    hide KeyName, Load, Move, Limiter, Read, Published, PasswordIn, OwnerDsn, TemplateComment, Put;
    NonePublished();
  }

  /** A URL that signs in so. */
  predicate SignsIn(urls: Urls, t: Parts, user: string, password: string) {
    t.username == Some(urls.quote(user)) && t.password == Some(urls.quote(password))
  }

  /** It names the server, the port and the path the other names; port 0 is no port. */
  predicate SameTarget(t: Parts, other: Parts) {
    t.host == other.host && t.tail == other.tail && t.port == (if other.port == At(0) then NoPort else other.port)
  }

  predicate ToBundled(t: Parts) {
    t.host == Some("redis") && t.port == At(6379) && t.tail == "/0"
  }

  predicate ToPostgres(t: Parts) {
    t.scheme == "postgresql+psycopg" && t.host == Some("postgres") && t.port == At(5432) && t.tail == "/noctornal"
  }

  /** The DSN written with a generated password is the standing one with that password, its user kept;
      one that names no server, or a port that is none, gives way to the bundled database's. */
  lemma OwnerDsnKeepsTarget(urls: Urls, dsn: string, token: string)
    requires urls.split(dsn).Some?
    ensures var read := urls.split(dsn).value;
      var t := Rebuilt(urls, dsn, OwnerUser(urls, dsn), token, DSN_DEFAULT, None);
      && OwnerDsn(urls, dsn, token) == urls.unsplit(t)
      && SignsIn(urls, t, if read.username.None? || read.username.value == "" then "noctornal" else read.username.value, token)
      && (if read.host.None? || read.port.NotAPort? then ToPostgres(t) else t.scheme == read.scheme && SameTarget(t, read))
  {
  }

  /** urlsplit("") names no server. */
  predicate EmptyNamesNone(urls: Urls) {
    urls.split("").Some? ==> urls.split("").value.host.None?
  }

  predicate LimiterTarget(urls: Urls, url: Option<string>, t: Parts) {
    if url.None? || Published(url) || urls.split(url.value).None? then ToBundled(t)
    else
      var read := urls.split(url.value).value;
      if read.host.None? || read.port.NotAPort? then ToBundled(t) else SameTarget(t, read)
  }

  /** The URL written for the limiter signs in as its user; it keeps the server of a chosen URL that names one. */
  lemma LimiterUrlKeepsTarget(urls: Urls, url: Option<string>, password: string)
    requires EmptyNamesNone(urls)
    ensures exists t ::
      && LimiterUrl(urls, url, password) == urls.unsplit(t)
      && t.scheme == "redis" && SignsIn(urls, t, "noctornal_limiter", password) && LimiterTarget(urls, url, t)
  {
    hide Strip, Contains, Lower;
    var keep := !Published(url) && urls.split(url.value).Some? && urls.split(url.value).value.host.Some?;
    var t := Rebuilt(urls, if keep then url.value else "", LIMITER_USER, password, REDIS_DEFAULT, Some("redis"));
    assert LimiterUrl(urls, url, password) == urls.unsplit(t);
  }

  lemma ChooseRefuses(urls: Urls, init: Env, mig: Env, newDatabase: bool, token: string)
    ensures var owner, dsn := Read(init.lines, KeyName(PostgresPassword)), Read(mig.lines, KeyName(MigrationUrl));
      var stuck := newDatabase && Published(Held(owner)) && Published(PasswordIn(urls, Held(dsn))) && urls.split(ValueOr(Held(dsn), "")).None?;
      && (Choose(urls, init, mig, newDatabase, token).Refused? <==> owner.Twice? || dsn.Twice?)
      && (Choose(urls, init, mig, newDatabase, token).Raised? <==> !owner.Twice? && !dsn.Twice? && stuck)
  {
    hide KeyName, Read, Published, PasswordIn, OwnerDsn, Put;
  }

  lemma LimiterRefuses(urls: Urls, sec: Env, token: string, passwordNote: seq<string>, urlNote: seq<string>)
    requires UrlSafe(token)
    ensures !Limiter(urls, sec, token, passwordNote, urlNote).Raised?
    ensures Limiter(urls, sec, token, passwordNote, urlNote).Refused? <==>
      Read(sec.lines, KeyName(RedisPassword)).Twice? || Read(sec.lines, KeyName(RedisUrl)).Twice?
  {
    hide KeyName, Read, Published, LimiterUrl, Usable, UrlSafe, NamesAnother, ReplaceStale, Phrase, WithPassword, WithUrl;
    if !Read(sec.lines, KeyName(RedisPassword)).Twice? {
      PasswordSettles(sec, token, "");
    }
  }

  // Line by line.

  /** A line the migrator has no business with: no comment, and no setting of its four keys. */
  predicate Ordinary(line: string) {
    !Comment(line) && !Managed(line)
  }

  predicate Managed(line: string) {
    exists key: Key :: Sets(line, KeyName(key))
  }

  function Kept(line: string): seq<string> {
    if Ordinary(line) then [line] else []
  }

  /** The ordinary lines, in order. */
  function Rest(lines: seq<string>): seq<string> {
    if lines == [] then [] else Kept(lines[0]) + Rest(lines[1..])
  }

  lemma {:induction false} RestJoins(a: seq<string>, b: seq<string>)
    ensures Rest(a + b) == Rest(a) + Rest(b)
  {
    hide Kept;
    if a == [] {
      assert a + b == b;
    } else {
      RestJoins(a[1..], b);
      assert (a + b)[1..] == a[1..] + b;
      assert Kept(a[0]) + (Rest(a[1..]) + Rest(b)) == Kept(a[0]) + Rest(a[1..]) + Rest(b);
    }
  }

  lemma {:induction false} NoRest(lines: seq<string>)
    requires forall i :: 0 <= i < |lines| ==> !Ordinary(lines[i])
    ensures Rest(lines) == []
  {
    hide Ordinary;
    if lines != [] {
      NoRest(lines[1..]);
    }
  }

  lemma RestOfOne(line: string)
    requires !Ordinary(line)
    ensures Rest([line]) == []
  {
    hide Ordinary;
    assert [line][1..] == [];
  }

  lemma PutKeepsRest(e: Env, key: Key, line: string)
    requires Sets(line, KeyName(key))
    ensures Rest(Put(e, KeyName(key), line).lines) == Rest(e.lines)
  {
    hide Comment, Sets, KeyName, Rest;
    var i := Index(e.lines, KeyName(key));
    assert Managed(line);
    RestOfOne(line);
    if i == |e.lines| {
      RestJoins(e.lines, [line]);
    } else {
      assert Managed(e.lines[i]);
      RestOfOne(e.lines[i]);
      assert e.lines == e.lines[..i] + [e.lines[i]] + e.lines[i + 1..];
      assert e.lines[i := line] == e.lines[..i] + [line] + e.lines[i + 1..];
      RestJoins(e.lines[..i] + [e.lines[i]], e.lines[i + 1..]);
      RestJoins(e.lines[..i], [e.lines[i]]);
      RestJoins(e.lines[..i] + [line], e.lines[i + 1..]);
      RestJoins(e.lines[..i], [line]);
    }
  }

  lemma {:induction false} DropKeepsRest(lines: seq<string>, key: Key, note: string)
    requires Comment(note)
    ensures Rest(Dropped(lines, KeyName(key), note)) == Rest(lines)
  {
    hide Comment, Sets, KeyName;
    if lines != [] {
      DropKeepsRest(lines[1..], key, note);
      if Sets(lines[0], KeyName(key)) {
        assert Managed(lines[0]);
      }
    }
  }

  lemma ReplaceKeepsRest(e: Env, key: Key, note: seq<string>)
    requires AllComments(note)
    ensures Rest(ReplaceStale(e, KeyName(key), Phrase(key), note).lines) == Rest(e.lines)
  {
    hide Comment, KeyName, Phrase, Rest, Contains;
    if Stale(CommentAbove(e.lines, KeyName(key)), Phrase(key)) {
      var i := Index(e.lines, KeyName(key));
      RestCut(e.lines, BlockStart(e.lines, i), i, note);
    }
  }

  lemma RestCut(lines: seq<string>, b: nat, i: nat, note: seq<string>)
    requires b <= i <= |lines| && AllComments(note)
    requires forall j :: b <= j < i ==> Comment(lines[j])
    ensures Rest(lines[..b] + note + lines[i..]) == Rest(lines)
  {
    hide Comment, Rest, Managed;
    assert lines == lines[..b] + lines[b..i] + lines[i..];
    RestJoins(lines[..b] + lines[b..i], lines[i..]);
    RestJoins(lines[..b], lines[b..i]);
    RestJoins(lines[..b] + note, lines[i..]);
    RestJoins(lines[..b], note);
    NoRest(lines[b..i]);
    NoRest(note);
  }

  lemma RemovedKeepsRest(sec: Env, key: Key)
    ensures Rest(Removed(sec, key).lines) == Rest(sec.lines)
  {
    hide KeyName, Phrase, MovedNote, Rest, Comment, ReplaceStale, AllComments;
    NoteIsComment(key);
    NoComments();
    ReplaceKeepsRest(sec, key, []);
    DropKeepsRest(ReplaceStale(sec, KeyName(key), Phrase(key), []).lines, key, MovedNote(key));
  }

  lemma MoveKeepsRest(sec: Env, dest: Env, key: Key)
    requires Move(sec, dest, key).Ok?
    ensures Rest(Move(sec, dest, key).value.sec.lines) == Rest(sec.lines)
    ensures Rest(Move(sec, dest, key).value.dest.lines) == Rest(dest.lines)
  {
    hide KeyName, Rest, Read, Published, Removed, LineOf, Put;
    ReadIsSet(sec.lines, KeyName(key));
    RemovedKeepsRest(sec, key);
    if !Read(sec.lines, KeyName(key)).Missing? {
      LineSets(sec, key);
      PutKeepsRest(dest, key, LineOf(sec, key));
    }
  }

  lemma BuiltKeepsRest(e: Env, key: Key, value: string)
    ensures Rest(Put(e, KeyName(key), KeyName(key) + "=" + value).lines) == Rest(e.lines)
  {
    hide KeyName, Rest, Put, Sets, Parse;
    BuiltSets(key, value);
    PutKeepsRest(e, key, KeyName(key) + "=" + value);
  }

  lemma LimiterKeepsRest(urls: Urls, sec: Env, token: string, passwordNote: seq<string>, urlNote: seq<string>)
    requires Limiter(urls, sec, token, passwordNote, urlNote).Ok?
    requires AllComments(passwordNote) && AllComments(urlNote)
    ensures Rest(Limiter(urls, sec, token, passwordNote, urlNote).value.lines) == Rest(sec.lines)
  {
    hide KeyName, Rest, Read, Published, LimiterUrl, Usable, NamesAnother, ReplaceStale, Phrase, Put, AllComments;
    NothingUsable();
    var now := PasswordNow(sec, token);
    var sec1 := WithPassword(sec, Held(Read(sec.lines, KeyName(RedisPassword))), token);
    BuiltKeepsRest(sec, RedisPassword, token);
    var url := Held(Read(sec1.lines, KeyName(RedisUrl)));
    var sec2 := WithUrl(urls, sec1, url, now);
    BuiltKeepsRest(sec1, RedisUrl, LimiterUrl(urls, url, now));
    var sec3 := ReplaceStale(sec2, KeyName(RedisPassword), Phrase(RedisPassword), passwordNote);
    ReplaceKeepsRest(sec2, RedisPassword, passwordNote);
    ReplaceKeepsRest(sec3, RedisUrl, urlNote);
  }

  /** Whatever a plan changes, every line of the three files that is neither a comment nor a setting of
      its four keys is still there, as it was and in order: other settings, blanks, text of no form. */
  lemma PlanKeepsEveryOtherLine(d: Disk, urls: Urls, newDatabase: bool, ownerToken: string, redisToken: string)
    requires Plan(d, urls, newDatabase, ownerToken, redisToken).Ok?
    ensures Loaded(d)
    ensures var p := Plan(d, urls, newDatabase, ownerToken, redisToken).value;
      && Rest(p.sec.lines) == Rest(Load(d, Secrets).value.lines)
      && Rest(p.init.lines) == Rest(Load(d, PostgresInit).value.lines)
      && Rest(p.mig.lines) == Rest(Load(d, Migrate).value.lines)
  {
    hide KeyName, Rest, Load, Move, Limiter, Published, PasswordIn, OwnerDsn, Put, Read, TemplateComment, AllComments;
    var sec, init, mig := Load(d, Secrets).value, Load(d, PostgresInit).value, Load(d, Migrate).value;
    var a := Move(sec, init, PostgresPassword).value;
    var b := Move(a.sec, mig, MigrationUrl).value;
    MoveKeepsRest(sec, init, PostgresPassword);
    MoveKeepsRest(a.sec, mig, MigrationUrl);
    TemplateIsComments(d, RedisPassword);
    TemplateIsComments(d, RedisUrl);
    LimiterKeepsRest(urls, b.sec, redisToken, TemplateComment(d, RedisPassword), TemplateComment(d, RedisUrl));
    var dsn := ValueOr(Held(Read(b.dest.lines, KeyName(MigrationUrl))), "");
    BuiltKeepsRest(a.dest, PostgresPassword, ownerToken);
    if urls.split(dsn).Some? {
      BuiltKeepsRest(b.dest, MigrationUrl, OwnerDsn(urls, dsn, ownerToken));
    }
  }
}
