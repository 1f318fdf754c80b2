/** A run that generated a password and stopped before secrets.env, and the run after it. */
module SecretsGenerated {
  import opened Options
  import opened EnvText
  import opened EnvFiles
  import opened SecretsPlan
  import opened SecretsSafety
  import opened SecretsRecovery
  import opened SecretsSettled

  /** The files such a stop has left written: all that changed but secrets.env. */
  function OwnerFiles(p: Planned): set<File> {
    (if p.init.changed then {PostgresInit} else {}) + (if p.mig.changed then {Migrate} else {})
  }

  /** What the rerun finds of the DSN: secrets.env as it was, and migrate.env with the password in it. */
  function RerunDsn(d: Disk, urls: Urls, token: string): Reading
    requires Loaded(d) && urls.split(StandingDsn(d)).Some?
  {
    Effective(InSecrets(d, MigrationUrl), Once(GeneratedDsn(d, urls, token)))
  }

  lemma OwnerFilesSettle(d: Disk, urls: Urls, newDatabase: bool, ownerToken: string, redisToken: string, e: Disk)
    requires PrintsLines(urls) && UrlSafe(ownerToken)
    requires Plan(d, urls, newDatabase, ownerToken, redisToken).Ok?
    requires Partly(d, Plan(d, urls, newDatabase, ownerToken, redisToken).value, OwnerFiles(Plan(d, urls, newDatabase, ownerToken, redisToken).value), e)
    ensures Loaded(d) && Loaded(e) && Load(e, Secrets) == Load(d, Secrets)
    ensures var p := Plan(d, urls, newDatabase, ownerToken, redisToken).value;
      Settled(p.init, Load(e, PostgresInit).value) && Settled(p.mig, Load(e, Migrate).value)
  {
    hide KeyName, Load, AllClean, PrintsLines, Limiter, TemplateComment, Published, Partly, MoveOwner, UrlSafe, Settled;
    var p := Plan(d, urls, newDatabase, ownerToken, redisToken).value;
    OwnerFilesClean(d, urls, newDatabase, ownerToken);
    SettledLoads(d, urls, newDatabase, ownerToken, redisToken, OwnerFiles(p), e, PostgresInit);
    SettledLoads(d, urls, newDatabase, ownerToken, redisToken, OwnerFiles(p), e, Migrate);
    SecretsLoads(d, p, OwnerFiles(p), e);
    OwnerSettles(d, urls, newDatabase, ownerToken, "");
  }

  /** The owner's DSN moved once more, out of a secrets.env that still holds its line, if it held one. */
  lemma DsnMovesAgain(sec: Env, mig: Env, mig2: Env)
    requires Move(sec, mig, MigrationUrl).Ok? && !Read(mig2.lines, KeyName(MigrationUrl)).Twice?
    ensures var again := Move(sec, mig2, MigrationUrl);
      var theirs, ours := Read(sec.lines, KeyName(MigrationUrl)), Read(mig2.lines, KeyName(MigrationUrl));
      && (again.Refused? <==> Conflict(theirs, ours)) && !again.Raised?
      && (again.Ok? ==>
            && again.value.sec == Move(sec, mig, MigrationUrl).value.sec
            && Read(again.value.dest.lines, KeyName(MigrationUrl)) == Effective(theirs, ours)
            && (theirs.Missing? || (HoldsReal(ours) && ours != theirs) ==> again.value.dest == mig2))
  {
    hide KeyName, Read, Published, Removed, Put, LineOf;
    MoveRefuses(sec, mig2, MigrationUrl);
    MoveRefuses(sec, mig, MigrationUrl);
    if Move(sec, mig2, MigrationUrl).Ok? {
      MoveSettles(sec, mig2, MigrationUrl, "");
    }
  }

  lemma RerunChoice(urls: Urls, init: Env, mig: Env, newDatabase: bool, owner: string, token2: string)
    requires Read(init.lines, KeyName(PostgresPassword)) == Once(owner) && !Published(Some(owner))
    requires Read(mig.lines, KeyName(MigrationUrl)).Once?
    ensures Choose(urls, init, mig, newDatabase, token2) ==
      Ok(Owner(init, mig, if PasswordIn(urls, Held(Read(mig.lines, KeyName(MigrationUrl)))) == Some(owner) then Nothing else Mismatch, false))
  {
    hide KeyName, Read, Published, PasswordIn, OwnerDsn, Put;
  }

  /** The owner's part of the rerun. */
  lemma RerunOwner(d: Disk, urls: Urls, newDatabase: bool, token: string, e: Disk, newDatabase2: bool, token2: string)
    requires MoveOwner(d, urls, newDatabase, token).Ok? && MoveOwner(d, urls, newDatabase, token).value.owner.generated
    requires Fresh(token) && Loaded(d) && Loaded(e) && Load(e, Secrets) == Load(d, Secrets)
    requires var o := MoveOwner(d, urls, newDatabase, token).value.owner;
      Settled(o.init, Load(e, PostgresInit).value) && Settled(o.mig, Load(e, Migrate).value)
    ensures urls.split(StandingDsn(d)).Some?
    ensures var again := MoveOwner(e, urls, newDatabase2, token2);
      && !again.Raised? && (again.Refused? <==> Conflict(InSecrets(d, MigrationUrl), Once(GeneratedDsn(d, urls, token))))
      && (again.Ok? ==>
            var o := again.value.owner;
            && again.value.sec == MoveOwner(d, urls, newDatabase, token).value.sec && !o.generated
            && o.init == Load(e, PostgresInit).value && Read(o.init.lines, KeyName(PostgresPassword)) == Once(token)
            && Read(o.mig.lines, KeyName(MigrationUrl)) == RerunDsn(d, urls, token)
            && (RerunDsn(d, urls, token) == Once(GeneratedDsn(d, urls, token)) && InSecrets(d, MigrationUrl) != Once(GeneratedDsn(d, urls, token)) ==>
                  o.mig == Load(e, Migrate).value)
            && o.left == if PasswordIn(urls, Held(RerunDsn(d, urls, token))) == Some(token) then Nothing else Mismatch)
  {
    hide KeyName, Load, Move, Choose, Settings, CommentAbove, Published, Unquoted, UrlSafe, PasswordIn, OwnerDsn;
    var o := MoveOwner(d, urls, newDatabase, token).value.owner;
    OwnerSettles(d, urls, newDatabase, token, "");
    var sec, init, mig := Load(d, Secrets).value, Load(d, PostgresInit).value, Load(d, Migrate).value;
    var init2, mig2 := Load(e, PostgresInit).value, Load(e, Migrate).value;
    SettledReads(o.init, init2, KeyName(PostgresPassword));
    SettledReads(o.mig, mig2, KeyName(MigrationUrl));
    var a := Move(sec, init, PostgresPassword).value;
    OwnersAreNotRedis();
    MoveSettles(sec, init, PostgresPassword, KeyName(MigrationUrl));
    GeneratedMove(sec, init, init2);
    DsnMovesAgain(a.sec, mig, mig2);
    var again := Move(a.sec, mig2, MigrationUrl);
    MoveRefuses(a.sec, mig2, MigrationUrl);
    if again.Ok? {
      RerunChoice(urls, init2, again.value.dest, newDatabase2, token, token2);
    }
  }

  /** The run after one that generated a password and wrote both owner files but not secrets.env: it keeps
      the password, generates none and finishes secrets.env; it is refused if and only if secrets.env still
      holds a chosen DSN other than the generated one; and it leaves nothing to the operator if and only if
      the DSN it ends with holds the password. */
  lemma GeneratedRerunExactly(d: Disk, urls: Urls, newDatabase: bool, ownerToken: string, redisToken: string, e: Disk,
                              newDatabase2: bool, ownerToken2: string, redisToken2: string)
    requires PrintsLines(urls) && Fresh(ownerToken) && UrlSafe(redisToken) && UrlSafe(redisToken2)
    requires Plan(d, urls, newDatabase, ownerToken, redisToken).Ok? && Plan(d, urls, newDatabase, ownerToken, redisToken).value.generated
    requires Partly(d, Plan(d, urls, newDatabase, ownerToken, redisToken).value, OwnerFiles(Plan(d, urls, newDatabase, ownerToken, redisToken).value), e)
    ensures Loaded(d) && urls.split(StandingDsn(d)).Some? && Plan(d, urls, newDatabase, ownerToken, redisToken2).Ok?
    ensures var again := Plan(e, urls, newDatabase2, ownerToken2, redisToken2);
      var printed := Once(GeneratedDsn(d, urls, ownerToken));
      && !again.Raised? && (again.Refused? <==> Conflict(InSecrets(d, MigrationUrl), printed))
      && (again.Ok? ==>
            var now := again.value;
            && now.sec == Plan(d, urls, newDatabase, ownerToken, redisToken2).value.sec
            && !now.generated && !now.init.changed && Read(now.init.lines, KeyName(PostgresPassword)) == Once(ownerToken)
            && Read(now.mig.lines, KeyName(MigrationUrl)) == RerunDsn(d, urls, ownerToken)
            && (RerunDsn(d, urls, ownerToken) == printed && InSecrets(d, MigrationUrl) != printed ==> !now.mig.changed)
            && now.left == if PasswordIn(urls, Held(RerunDsn(d, urls, ownerToken))) == Some(ownerToken) then Nothing else Mismatch)
  {
    hide KeyName, Plan, MoveOwner, Limiter, TemplateComment, Published, UrlSafe, Partly, Load, PrintsLines, Standing, Read, PasswordIn, OwnerDsn, Unquoted, Effective, Conflict, StandingDsn;
    PlanIs(d, urls, newDatabase, ownerToken, redisToken);
    PlanIs(d, urls, newDatabase, ownerToken, redisToken2);
    PlanIs(e, urls, newDatabase2, ownerToken2, redisToken2);
    PlanStands(e, urls, newDatabase2, ownerToken2, redisToken2);
    var p := Plan(d, urls, newDatabase, ownerToken, redisToken).value;
    OwnerFilesSettle(d, urls, newDatabase, ownerToken, redisToken, e);
    RerunOwner(d, urls, newDatabase, ownerToken, e, newDatabase2, ownerToken2);
    SameTemplates(d, p, OwnerFiles(p), e, RedisPassword);
    SameTemplates(d, p, OwnerFiles(p), e, RedisUrl);
    var sec := MoveOwner(d, urls, newDatabase, ownerToken).value.sec;
    LimiterRefuses(urls, sec, redisToken, TemplateComment(d, RedisPassword), TemplateComment(d, RedisUrl));
    LimiterRefuses(urls, sec, redisToken2, TemplateComment(d, RedisPassword), TemplateComment(d, RedisUrl));
  }

  /** A plan fails where its owner's part does. */
  lemma PlanStands(d: Disk, urls: Urls, newDatabase: bool, ownerToken: string, redisToken: string)
    ensures var owned := MoveOwner(d, urls, newDatabase, ownerToken);
      && (owned.Refused? ==> Plan(d, urls, newDatabase, ownerToken, redisToken).Refused?)
      && (owned.Raised? ==> Plan(d, urls, newDatabase, ownerToken, redisToken).Raised?)
  {
    hide MoveOwner, Limiter, TemplateComment;
  }

  predicate Agrees(d: Disk, urls: Urls, token: string)
    requires Loaded(d)
  {
    && DsnStays(d, urls, token) && !HoldsReal(InSecrets(d, MigrationUrl))
    && HoldsReal(Once(GeneratedDsn(d, urls, token)))
  }

  /** Where secrets.env held no DSN, or a published one, and the printed one is not published and reads
      back, the rerun finishes the run: the password stays in both files and nothing is left. */
  lemma GeneratedRunFinishes(d: Disk, urls: Urls, newDatabase: bool, ownerToken: string, redisToken: string, e: Disk,
                             newDatabase2: bool, ownerToken2: string, redisToken2: string)
    requires PrintsLines(urls) && Fresh(ownerToken) && UrlSafe(redisToken) && UrlSafe(redisToken2)
    requires Plan(d, urls, newDatabase, ownerToken, redisToken).Ok? && Plan(d, urls, newDatabase, ownerToken, redisToken).value.generated
    requires Partly(d, Plan(d, urls, newDatabase, ownerToken, redisToken).value, OwnerFiles(Plan(d, urls, newDatabase, ownerToken, redisToken).value), e)
    requires Loaded(d) && Agrees(d, urls, ownerToken)
    ensures Plan(d, urls, newDatabase, ownerToken, redisToken2).Ok?
    ensures var again := Plan(e, urls, newDatabase2, ownerToken2, redisToken2);
      && again.Ok? && !again.value.init.changed && !again.value.mig.changed && again.value.left.Nothing?
      && again.value.sec == Plan(d, urls, newDatabase, ownerToken, redisToken2).value.sec
  {
    hide KeyName, Plan, Published, UrlSafe, Partly, Load, PrintsLines, Read, PasswordIn, GeneratedDsn, StandingDsn;
    GeneratedRerunExactly(d, urls, newDatabase, ownerToken, redisToken, e, newDatabase2, ownerToken2, redisToken2);
    NotTwice(d, urls, newDatabase, ownerToken, redisToken);
  }

  lemma NotTwice(d: Disk, urls: Urls, newDatabase: bool, ownerToken: string, redisToken: string)
    requires Plan(d, urls, newDatabase, ownerToken, redisToken).Ok? && UrlSafe(redisToken) && UrlSafe(ownerToken)
    ensures Loaded(d) && !InSecrets(d, MigrationUrl).Twice?
  {
    hide KeyName, Load, Plan, Published, UrlSafe, Read;
    GoesAheadExactly(d, urls, newDatabase, ownerToken, redisToken);
  }

  /** A stop after every write but that of secrets.env is one such. */
  lemma StoppedBeforeSecrets(d: Disk, p: Planned, stamp: string, e: Disk)
    requires |Before(p)| <= |Ops(p)| && Stopped(d, p, stamp, |Before(p)|, e)
    ensures Partly(d, p, OwnerFiles(p), e)
  {
    hide Ops, Before, Done, Stopped, Partly;
    BeforeIsFirst(p);
    assert Ops(p)[..|Before(p)|] == Before(p);
    StoppedIsPartly(d, p, stamp, |Before(p)|, e);
    BeforeWrites(p);
  }

  lemma BeforeWrites(p: Planned)
    ensures Done(Before(p)) == OwnerFiles(p)
  {
    hide Done, Copies, When;
    var init, mig := When(p.init.changed, Write(PostgresInit)), When(p.mig.changed, Write(Migrate));
    DoneJoins(Copies(p) + init, mig);
    DoneJoins(Copies(p), init);
    CopiesWriteNothing(p);
    DoneWhen(p.init.changed, PostgresInit);
    DoneWhen(p.mig.changed, Migrate);
  }

  lemma DoneJoins(a: seq<Op>, b: seq<Op>)
    ensures Done(a + b) == Done(a) + Done(b)
  {
  }

  lemma CopiesWriteNothing(p: Planned)
    ensures Done(Copies(p)) == {}
  {
  }

  lemma DoneWhen(condition: bool, f: File)
    ensures Done(When(condition, Write(f))) == if condition then {f} else {}
  {
  }

  // A stop after which running again is refused.

  const SIGN_IN := "postgresql+psycopg://noctornal"
  const DATABASE := "@postgres:5432/noctornal"
  const BARE := SIGN_IN + DATABASE

  function BarePrinted(token: string): string {
    SIGN_IN + ":" + token + DATABASE
  }

  /** What urlsplit and urlunsplit make of a DSN without a password and of the password put into it. */
  ghost predicate TreatsBare(urls: Urls, token: string) {
    && urls.split(BARE) == Some(DSN_DEFAULT.(password := None))
    && urls.unsplit(DSN_DEFAULT.(password := Some(token))) == BarePrinted(token)
    && urls.quote(OWNER_ROLE) == OWNER_ROLE && urls.quote(token) == token
  }

  /** Nothing but an owner's DSN, still in secrets.env. */
  function BareDisk(): Disk {
    map[Real(Secrets) := Text(false, KeyName(MigrationUrl) + "=" + BARE),
        Real(PostgresInit) := Text(false, ""), Real(Migrate) := Text(false, "")]
  }

  lemma SignInIsPlain()
    ensures Printable(SIGN_IN) && Unmarked(SIGN_IN) && |SIGN_IN| == 30 && SIGN_IN[0] == 'p' && !Space('p')
  {
  }

  lemma DatabaseIsPlain()
    ensures Printable(DATABASE) && Unmarked(DATABASE) && |DATABASE| == 24 && DATABASE[0] == '@' && DATABASE[23] == 'l' && !Space('l')
  {
  }

  lemma BareReads(token: string)
    requires Unmarked(token)
    ensures Clean(BARE) && Unquoted(BARE) == BARE && !Published(Some(BARE))
    ensures Unquoted(BarePrinted(token)) == BarePrinted(token) != BARE && !Published(Some(BarePrinted(token)))
  {
    hide Break, Space, Published, SIGN_IN, DATABASE;
    NoBreaks();
    SignInIsPlain();
    DatabaseIsPlain();
    SpanIs(BARE, Space, 0);
    RStripIs(BARE, BARE);
    UnmarkedIsChosen(BARE);
    var text := BarePrinted(token);
    SpanIs(text, Space, 0);
    RStripIs(text, text);
    UnmarkedIsChosen(text);
    assert text[30] == ':' && BARE[30] == '@';
  }

  lemma BareLoads()
    requires Clean(BARE) && Unquoted(BARE) == BARE
    ensures Loaded(BareDisk()) && InSecrets(BareDisk(), MigrationUrl) == Once(BARE)
    ensures forall key: Key :: key != MigrationUrl ==> InSecrets(BareDisk(), key) == Missing
    ensures AtHome(BareDisk(), PostgresPassword) == Missing && AtHome(BareDisk(), MigrationUrl) == Missing
  {
    hide KeyName, BARE, Unquoted, Settings, Parse, Break;
    OneSetting(MigrationUrl, BARE);
    assert SplitLines("") == [];
    forall key: Key | key != MigrationUrl ensures InSecrets(BareDisk(), key) == Missing {
      NamesDiffer(key, MigrationUrl);
      BuiltSets(MigrationUrl, BARE);
      SettingsOf(KeyName(MigrationUrl) + "=" + BARE, KeyName(key));
    }
    NoReal(KeyName(PostgresPassword));
    NoReal(KeyName(MigrationUrl));
  }

  /** The owner's DSN without a password is moved and given one. Stopped before secrets.env is written, the
      next run finds the two and refuses, where the stopped run had said to run it again. */
  lemma BareDsnBlocksRerun(urls: Urls, ownerToken: string, redisToken: string, e: Disk,
                           newDatabase2: bool, ownerToken2: string, redisToken2: string)
    requires PrintsLines(urls) && Fresh(ownerToken) && Unmarked(ownerToken) && UrlSafe(redisToken) && UrlSafe(redisToken2)
    requires TreatsBare(urls, ownerToken)
    ensures var was := Plan(BareDisk(), urls, true, ownerToken, redisToken);
      && was.Ok? && was.value.generated
      && (Partly(BareDisk(), was.value, OwnerFiles(was.value), e) ==> Plan(e, urls, newDatabase2, ownerToken2, redisToken2).Refused?)
  {
    hide KeyName, BARE, BarePrinted, Load, Plan, Published, UrlSafe, BareDisk, Unquoted, Clean, Partly, PrintsLines, Unmarked, OwnerFiles;
    var d := BareDisk();
    BareReads(ownerToken);
    BareLoads();
    NoReal("");
    NonePublished();
    GoesAheadExactly(d, urls, true, ownerToken, redisToken);
    GeneratesExactly(d, urls, true, ownerToken, redisToken);
    assert Rebuilt(urls, BARE, OWNER_ROLE, ownerToken, DSN_DEFAULT, None) == DSN_DEFAULT.(password := Some(ownerToken));
    assert GeneratedDsn(d, urls, ownerToken) == BarePrinted(ownerToken);
    var p := Plan(d, urls, true, ownerToken, redisToken).value;
    if Partly(d, p, OwnerFiles(p), e) {
      GeneratedRerunExactly(d, urls, true, ownerToken, redisToken, e, newDatabase2, ownerToken2, redisToken2);
    }
  }
}
