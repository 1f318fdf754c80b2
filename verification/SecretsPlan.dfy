/** What the secrets migrator decides: which lines of secrets.env, postgres-init.env and
    migrate.env move, which values it generates, and what it leaves or refuses. */
module SecretsPlan {
  import opened Options
  import opened EnvText
  import opened EnvFiles

  datatype File = Secrets | PostgresInit | Migrate

  datatype Key = PostgresPassword | MigrationUrl | RedisPassword | RedisUrl

  function KeyName(key: Key): string {
    match key
    case PostgresPassword => "POSTGRES_PASSWORD"
    case MigrationUrl => "NOCTORNAL_MIGRATION_DATABASE_URL"
    case RedisPassword => "REDIS_PASSWORD"
    case RedisUrl => "REDIS_URL"
  }

  /** STALE_COMMENTS: a phrase only an older template's comment carried. */
  function Phrase(key: Key): string {
    match key
    case PostgresPassword => "The OWNER role's password, given to the Postgres image"
    case MigrationUrl => "What Alembic connects as. Read ONLY by"
    case RedisPassword => "What `redis-server --requirepass` is started with"
    case RedisUrl => "Note the empty username before the colon"
  }

  function HomeName(key: Key): string {
    if key.PostgresPassword? then "postgres-init.env" else "migrate.env"
  }

  function Reader(key: Key): string {
    if key.PostgresPassword? then "the database" else "the migration job"
  }

  function MovedNote(key: Key): string {
    "# " + KeyName(key) + " moved to " + HomeName(key) + " (docs/17 F52, 2026-10-02): only " + Reader(key) + " reads it."
  }

  predicate UrlSafe(s: string) {
    s != "" && forall i :: 0 <= i < |s| ==> NameChar(s[i]) || s[i] in {'.', '~', '-'}
  }

  const PUBLISHED := ["replace-me", "dev_only_change_me", "not-a-real-one"]

  function Lower(s: string): string {
    seq(|s|, i requires 0 <= i < |s| => if 'A' <= s[i] <= 'Z' then (s[i] as int + 32) as char else s[i])
  }

  /** No value, a blank one, or one somebody has already published. */
  predicate Published(value: Option<string>) {
    || value.None?
    || Strip(value.value) == ""
    || exists m :: m in PUBLISHED && Contains(Lower(value.value), m)
  }

  function Held(r: Reading): Option<string> {
    if r.Once? then Some(r.value) else None
  }

  // URLs: urlsplit and urlunsplit, as a parser and a printer.

  datatype Port = NoPort | At(number: nat) | NotAPort

  /** tail: the path, query and fragment. */
  datatype Parts = Parts(scheme: string, username: Option<string>, password: Option<string>,
                         host: Option<string>, port: Port, tail: string)

  /** split answers None where urlsplit raises ValueError. */
  datatype Urls = Urls(split: string -> Option<Parts>, unsplit: Parts -> string,
                       quote: string -> string, unquote: string -> string)

  const LIMITER_USER := "noctornal_limiter"
  const OWNER_ROLE := "noctornal"
  const BUNDLED := "redis"
  const DSN_DEFAULT := Parts("postgresql+psycopg", Some("noctornal"), Some("x"), Some("postgres"), At(5432), "/noctornal")
  const REDIS_DEFAULT := Parts("redis", Some("x"), None, Some("redis"), At(6379), "/0")

  /** _password_in */
  function PasswordIn(urls: Urls, url: Option<string>): Option<string> {
    if url.None? || url.value == "" then None
    else
      var parts := urls.split(url.value);
      if parts.None? || parts.value.password.None? then None else Some(urls.unquote(parts.value.password.value))
  }

  /** _with_credentials, before it is printed. */
  function Rebuilt(urls: Urls, url: string, user: string, password: string, default: Parts, scheme: Option<string>): Parts {
    var read := urls.split(url);
    var base := if read.Some? && read.value.host.Some? && !read.value.port.NotAPort? then read.value else default;
    base.(scheme := if scheme.Some? then scheme.value else base.scheme,
          username := Some(urls.quote(user)), password := Some(urls.quote(password)),
          port := if base.port == At(0) then NoPort else base.port)
  }

  function WithCredentials(urls: Urls, url: string, user: string, password: string, default: Parts, scheme: Option<string>): string {
    urls.unsplit(Rebuilt(urls, url, user, password, default, scheme))
  }

  /** _names_another_redis */
  predicate NamesAnother(urls: Urls, url: Option<string>) {
    && !Published(url)
    && urls.split(url.value).Some? && urls.split(url.value).value.host.Some?
    && urls.split(url.value).value.host.value != BUNDLED
  }

  // The files.

  /** Temp: what a write of the file goes through, named for its process. */
  datatype FileName = Real(file: File) | Example(file: File) | Backup(file: File, stamp: string, copy: nat) | Temp(file: File, pid: nat)

  /** A file's bytes: UTF-8 text with or without a byte order mark, other bytes, or out of reach. */
  datatype Content = Text(bom: bool, chars: string) | NotUtf8(bytes: seq<bv8>) | Unreadable

  type Disk = map<FileName, Content>

  function Parsed(c: Content, existed: bool): Option<Env> {
    if c.Text? then Some(Env(SplitLines(c.chars), HasCrLf(c.chars), existed, !existed)) else None
  }

  /** EnvFile.load, or EnvFile.from_template for a file that is not there. */
  function Load(d: Disk, f: File): Option<Env> {
    if Real(f) in d then Parsed(d[Real(f)], true)
    else if Example(f) in d then Parsed(d[Example(f)], false)
    else None
  }

  function TemplateComment(d: Disk, key: Key): seq<string> {
    if Example(Secrets) in d && d[Example(Secrets)].Text?
    then CommentAbove(SplitLines(d[Example(Secrets)].chars), KeyName(key)) else []
  }

  /** Raised: a ValueError plan does not catch. */
  datatype Outcome<+T> = Ok(value: T) | Refused | Raised

  datatype Pair = Pair(sec: Env, dest: Env)

  function Removed(sec: Env, key: Key): Env {
    Drop(ReplaceStale(sec, KeyName(key), Phrase(key), []), KeyName(key), MovedNote(key))
  }

  function LineOf(e: Env, key: Key): string
    requires Index(e.lines, KeyName(key)) < |e.lines|
  {
    Strip(e.lines[Index(e.lines, KeyName(key))])
  }

  /** A value set once and not one already published: somebody chose it. */
  predicate HoldsReal(r: Reading) {
    r.Once? && !Published(Some(r.value))
  }

  /** One owner's line out of secrets.env. */
  function Move(sec: Env, dest: Env, key: Key): Outcome<Pair> {
    var theirs, ours := Read(sec.lines, KeyName(key)), Read(dest.lines, KeyName(key));
    if theirs.Missing? then Ok(Pair(sec, dest))
    else if theirs.Twice? || ours.Twice? then Refused
    else if HoldsReal(ours) && ours != theirs then
      if Published(Some(theirs.value)) then Ok(Pair(Removed(sec, key), dest)) else Refused
    else
      ReadIsSet(sec.lines, KeyName(key));
      Ok(Pair(Removed(sec, key), Put(dest, KeyName(key), LineOf(sec, key))))
  }

  lemma ReadIsSet(lines: seq<string>, key: string)
    ensures Read(lines, key).Missing? <==> Index(lines, key) == |lines|
  {
    hide Parse, Unquoted, Settings;
    SettingsSplit(lines, key);
  }

  datatype Todo = Nothing | ChoosePassword | NoDsn | Mismatch

  /** The two owner files and whether a password was generated into them. */
  datatype Owner = Owner(init: Env, mig: Env, left: Todo, generated: bool)

  function OwnerUser(urls: Urls, dsn: string): string
    requires urls.split(dsn).Some?
  {
    var user := urls.split(dsn).value.username;
    if user.Some? && user.value != "" then user.value else OWNER_ROLE
  }

  function OwnerDsn(urls: Urls, dsn: string, token: string): string
    requires urls.split(dsn).Some?
  {
    WithCredentials(urls, dsn, OwnerUser(urls, dsn), token, DSN_DEFAULT, None)
  }

  function ValueOr(value: Option<string>, default: string): string {
    if value.Some? then value.value else default
  }

  /** A new database's owner password, only when none was ever chosen. */
  function Choose(urls: Urls, init: Env, mig: Env, newDatabase: bool, token: string): Outcome<Owner> {
    var owner := Read(init.lines, KeyName(PostgresPassword));
    var dsn := Read(mig.lines, KeyName(MigrationUrl));
    if owner.Twice? || dsn.Twice? then Refused
    else if Published(Held(owner)) && Published(PasswordIn(urls, Held(dsn))) then
      var text := ValueOr(Held(dsn), "");
      if !newDatabase then Ok(Owner(init, mig, ChoosePassword, false))
      else if urls.split(text).None? then Raised
      else
        Ok(Owner(Put(init, KeyName(PostgresPassword), KeyName(PostgresPassword) + "=" + token),
                 Put(mig, KeyName(MigrationUrl), KeyName(MigrationUrl) + "=" + OwnerDsn(urls, text, token)),
                 Nothing, true))
    else if dsn.Missing? then Ok(Owner(init, mig, NoDsn, false))
    else if PasswordIn(urls, Held(dsn)) != Held(owner) then Ok(Owner(init, mig, Mismatch, false))
    else Ok(Owner(init, mig, Nothing, false))
  }

  predicate Usable(password: Option<string>) {
    !Published(password) && UrlSafe(password.value)
  }

  function LimiterUrl(urls: Urls, url: Option<string>, password: string): string {
    var keep := !Published(url) && urls.split(url.value).Some? && urls.split(url.value).value.host.Some?;
    WithCredentials(urls, if keep then url.value else "", LIMITER_USER, password, REDIS_DEFAULT, Some("redis"))
  }

  function WithPassword(sec: Env, password: Option<string>, token: string): Env {
    if Usable(password) then sec
    else Put(sec, KeyName(RedisPassword), KeyName(RedisPassword) + "=" + token)
  }

  function WithUrl(urls: Urls, sec: Env, url: Option<string>, password: string): Env {
    var want := LimiterUrl(urls, url, password);
    if NamesAnother(urls, url) || Some(want) == url then sec
    else Put(sec, KeyName(RedisUrl), KeyName(RedisUrl) + "=" + want)
  }

  /** The limiter's Redis user, and the comments over its two lines. */
  function Limiter(urls: Urls, sec: Env, token: string, passwordNote: seq<string>, urlNote: seq<string>): Outcome<Env> {
    var password := Read(sec.lines, KeyName(RedisPassword));
    if password.Twice? then Refused
    else
      var now := if Usable(Held(password)) then password.value else token;
      var sec1 := WithPassword(sec, Held(password), token);
      var url := Read(sec1.lines, KeyName(RedisUrl));
      if url.Twice? then Refused
      else
        var sec2 := WithUrl(urls, sec1, Held(url), now);
        var sec3 := ReplaceStale(sec2, KeyName(RedisPassword), Phrase(RedisPassword), passwordNote);
        Ok(ReplaceStale(sec3, KeyName(RedisUrl), Phrase(RedisUrl), urlNote))
  }

  datatype Owned = Owned(sec: Env, owner: Owner)

  /** Everything that happens to the owner's two values. */
  function MoveOwner(d: Disk, urls: Urls, newDatabase: bool, token: string): Outcome<Owned> {
    var sec, init, mig := Load(d, Secrets), Load(d, PostgresInit), Load(d, Migrate);
    if sec.None? || init.None? || mig.None? then Refused
    else
      var a := Move(sec.value, init.value, PostgresPassword);
      if !a.Ok? then Refused
      else
        var b := Move(a.value.sec, mig.value, MigrationUrl);
        if !b.Ok? then Refused
        else
          var owner := Choose(urls, a.value.dest, b.value.dest, newDatabase, token);
          if owner.Ok? then Ok(Owned(b.value.sec, owner.value)) else if owner.Refused? then Refused else Raised
  }

  datatype Planned = Planned(sec: Env, init: Env, mig: Env, left: Todo, generated: bool)

  /** plan: the files as they should be written. */
  function Plan(d: Disk, urls: Urls, newDatabase: bool, ownerToken: string, redisToken: string): Outcome<Planned> {
    var owned := MoveOwner(d, urls, newDatabase, ownerToken);
    if owned.Refused? then Refused else if owned.Raised? then Raised
    else
      var o := owned.value.owner;
      var sec := Limiter(urls, owned.value.sec, redisToken, TemplateComment(d, RedisPassword), TemplateComment(d, RedisUrl));
      if sec.Ok? then Ok(Planned(sec.value, o.init, o.mig, o.left, o.generated)) else Refused
  }

  // Names and notes.

  lemma NamesDiffer(a: Key, b: Key)
    requires a != b
    ensures KeyName(a) != KeyName(b)
  {
    assert |KeyName(PostgresPassword)| == 17 && |KeyName(MigrationUrl)| == 32;
    assert |KeyName(RedisPassword)| == 14 && |KeyName(RedisUrl)| == 9;
  }

  lemma KeyIsName(key: Key)
    ensures Name(KeyName(key))
  {
    hide NameStart, NameChar;
    UpperIsName(KeyName(key));
    if key.PostgresPassword? {
      assert Upper("POSTGRES_PASSWORD");
    } else if key.MigrationUrl? {
      assert Upper("NOCTORNAL_MIGRATION_DATABASE_URL");
    } else if key.RedisPassword? {
      assert Upper("REDIS_PASSWORD");
    } else {
      assert Upper("REDIS_URL");
    }
  }

  predicate Upper(s: string) {
    s != "" && forall i :: 0 <= i < |s| ==> 'A' <= s[i] <= 'Z' || s[i] == '_'
  }

  lemma UpperIsName(s: string)
    ensures Upper(s) ==> Name(s)
  {
  }

  lemma NameIsClean(s: string)
    requires forall i :: 0 <= i < |s| ==> NameChar(s[i])
    ensures Clean(s)
  {
  }

  lemma CleanJoin(a: string, b: string)
    requires Clean(a) && Clean(b)
    ensures Clean(a + b)
  {
    hide Break;
  }

  lemma NoteIsComment(key: Key)
    ensures Comment(MovedNote(key))
  {
    hide KeyName, HomeName, Reader;
    KeyIsName(key);
    HashComment(MovedNote(key));
  }

  lemma HomeIsClean(key: Key)
    ensures Clean(HomeName(key)) && Clean(Reader(key))
  {
    hide Break;
    NoBreaks();
    if key.PostgresPassword? {
      assert Printable("postgres-init.env") && Printable("the database");
    } else {
      assert Printable("migrate.env") && Printable("the migration job");
    }
  }

  predicate Printable(s: string) {
    forall i :: 0 <= i < |s| ==> ' ' <= s[i] <= '~'
  }

  lemma NoBreaks()
    ensures forall c: char :: ' ' <= c <= '~' ==> !Break(c)
  {
  }

  lemma NoteIsClean(key: Key)
    ensures Clean(MovedNote(key))
  {
    hide KeyName, HomeName, Reader;
    KeyIsName(key);
    NameIsClean(KeyName(key));
    HomeIsClean(key);
    var s1 := "# " + KeyName(key);
    var s2 := s1 + " moved to ";
    var s3 := s2 + HomeName(key);
    var s4 := s3 + " (docs/17 F52, 2026-10-02): only ";
    var s5 := s4 + Reader(key);
    CleanJoin("# ", KeyName(key));
    CleanJoin(s1, " moved to ");
    CleanJoin(s2, HomeName(key));
    CleanJoin(s3, " (docs/17 F52, 2026-10-02): only ");
    CleanJoin(s4, Reader(key));
    CleanJoin(s5, " reads it.");
  }
}
