/** Writing the plan out, one file operation at a time, and what a stop between any two of them
    leaves behind for the next run. */
module SecretsRecovery {
  import opened Basics
  import opened Options
  import opened EnvText
  import opened EnvFiles
  import opened SecretsPlan
  import opened SecretsSafety

  datatype Op = Copy(file: File) | Write(file: File)

  function EnvOf(p: Planned, f: File): Env {
    match f
    case Secrets => p.sec
    case PostgresInit => p.init
    case Migrate => p.mig
  }

  function When(condition: bool, op: Op): seq<Op> {
    if condition then [op] else []
  }

  function Copies(p: Planned): seq<Op> {
    When(p.sec.changed && p.sec.existed, Copy(Secrets))
    + When(p.init.changed && p.init.existed, Copy(PostgresInit))
    + When(p.mig.changed && p.mig.existed, Copy(Migrate))
  }

  function Writes(p: Planned): seq<Op> {
    When(p.init.changed, Write(PostgresInit)) + When(p.mig.changed, Write(Migrate)) + When(p.sec.changed, Write(Secrets))
  }

  /** apply: every backup before any file is changed, and secrets.env written last. */
  function Ops(p: Planned): seq<Op> {
    Copies(p) + Writes(p)
  }

  function Final(p: Planned, f: File): Content {
    Text(false, TextOf(EnvOf(p, f).lines, EnvOf(p, f).crlf))
  }

  /** The first free number for a backup's name. */
  function FreeCopy(d: Disk, f: File, stamp: string, n: nat): (r: nat)
    ensures r >= n && Backup(f, stamp, r) !in d
    decreases |set name | name in d.Keys && name.Backup? && name.copy >= n|
  {
    if Backup(f, stamp, n) !in d then n
    else
      FewerCopies(d, f, stamp, n);
      FreeCopy(d, f, stamp, n + 1)
  }

  lemma FewerCopies(d: Disk, f: File, stamp: string, n: nat)
    requires Backup(f, stamp, n) in d
    ensures |set name | name in d.Keys && name.Backup? && name.copy >= n + 1|
         < |set name | name in d.Keys && name.Backup? && name.copy >= n|
  {
    var more := set name | name in d.Keys && name.Backup? && name.copy >= n;
    var fewer := set name | name in d.Keys && name.Backup? && name.copy >= n + 1;
    assert fewer <= more - {Backup(f, stamp, n)};
    Smaller(fewer, more - {Backup(f, stamp, n)});
  }

  function Do(d: Disk, p: Planned, stamp: string, op: Op): Disk {
    match op
    case Copy(f) => if Real(f) in d then d[Backup(f, stamp, FreeCopy(d, f, stamp, 1)) := d[Real(f)]] else d
    case Write(f) => d[Real(f) := Final(p, f)]
  }

  function DoAll(d: Disk, p: Planned, stamp: string, ops: seq<Op>): Disk {
    if ops == [] then d else Do(DoAll(d, p, stamp, ops[..|ops| - 1]), p, stamp, ops[|ops| - 1])
  }

  function Done(ops: seq<Op>): set<File> {
    set f: File | Write(f) in ops
  }

  ghost predicate SameAt(d: Disk, e: Disk, name: FileName) {
    (name in d <==> name in e) && (name in d ==> d[name] == e[name])
  }

  ghost predicate FileOk(d: Disk, p: Planned, done: set<File>, e: Disk, f: File) {
    && SameAt(d, e, Example(f))
    && (if f in done then Real(f) in e && e[Real(f)] == Final(p, f) else SameAt(d, e, Real(f)))
  }

  /** A disk on which just the files in done have been written, and no backup was. */
  ghost predicate Partly(d: Disk, p: Planned, done: set<File>, e: Disk) {
    && (forall f :: FileOk(d, p, done, e, f))
    && (forall name :: name in d && name.Backup? ==> name in e && e[name] == d[name])
  }

  lemma {:induction false} DoAllIsPartly(d: Disk, p: Planned, stamp: string, ops: seq<Op>)
    ensures Partly(d, p, Done(ops), DoAll(d, p, stamp, ops))
  {
    if ops != [] {
      var n := |ops| - 1;
      DoAllIsPartly(d, p, stamp, ops[..n]);
      var e := DoAll(d, p, stamp, ops[..n]);
      assert ops == ops[..n] + [ops[n]];
      forall f ensures FileOk(d, p, Done(ops), Do(e, p, stamp, ops[n]), f) {
        assert FileOk(d, p, Done(ops[..n]), e, f);
      }
    }
  }

  /** What a stop after k operations can leave: those done, the rest not; a backup or a temporary file
      cut short may stand beside them under a name of its own. */
  ghost predicate Stopped(d: Disk, p: Planned, stamp: string, k: nat, e: Disk)
    requires k <= |Ops(p)|
  {
    var after := DoAll(d, p, stamp, Ops(p)[..k]);
    && (forall name: FileName :: name.Real? || name.Example? ==> SameAt(after, e, name))
    && (forall name :: name in after && name.Backup? ==> name in e && e[name] == after[name])
  }

  lemma StoppedIsPartly(d: Disk, p: Planned, stamp: string, k: nat, e: Disk)
    requires k <= |Ops(p)| && Stopped(d, p, stamp, k, e)
    ensures Partly(d, p, Done(Ops(p)[..k]), e)
  {
    hide Ops, DoAll, Done, Final;
    DoAllIsPartly(d, p, stamp, Ops(p)[..k]);
    forall f ensures FileOk(d, p, Done(Ops(p)[..k]), e, f) {
      assert FileOk(d, p, Done(Ops(p)[..k]), DoAll(d, p, stamp, Ops(p)[..k]), f);
      assert SameAt(DoAll(d, p, stamp, Ops(p)[..k]), e, Example(f));
      assert SameAt(DoAll(d, p, stamp, Ops(p)[..k]), e, Real(f));
    }
  }

  lemma DoneOf(ops: seq<Op>, i: nat)
    requires i < |ops| && ops[i].Write?
    ensures ops[i].file in Done(ops)
  {
  }

  lemma NotDone(ops: seq<Op>, f: File, at: nat, k: nat)
    requires k <= at <= |ops| && Write(f) !in ops[..at]
    ensures f !in Done(ops[..k])
  {
    assert forall i :: 0 <= i < k ==> ops[..k][i] == ops[..at][i];
  }

  /** The operations before secrets.env is written. */
  function Before(p: Planned): seq<Op> {
    Copies(p) + When(p.init.changed, Write(PostgresInit)) + When(p.mig.changed, Write(Migrate))
  }

  lemma BeforeIsFirst(p: Planned)
    ensures Ops(p) == Before(p) + When(p.sec.changed, Write(Secrets))
    ensures Write(Secrets) !in Before(p)
  {
  }

  /** secrets.env is the last thing written. */
  lemma SecretsComesLast(p: Planned, k: nat)
    requires k < |Ops(p)|
    ensures Secrets !in Done(Ops(p)[..k])
  {
    hide Done, Ops, Before;
    BeforeIsFirst(p);
    var first := Before(p);
    assert forall i :: 0 <= i < |first| ==> Ops(p)[i] == first[i];
    NotDone(Ops(p), Secrets, |first|, k);
  }

  /** And migrate.env is not written before postgres-init.env. */
  lemma InitComesFirst(p: Planned, k: nat)
    requires k <= |Ops(p)| && Migrate in Done(Ops(p)[..k]) && p.init.changed
    ensures PostgresInit in Done(Ops(p)[..k])
  {
    hide Done;
    var c := |Copies(p)|;
    assert Ops(p)[c] == Write(PostgresInit);
    if k <= c {
      assert Ops(p)[..c] == Copies(p);
      NotDone(Ops(p), Migrate, c, k);
      assert false;
    } else {
      DoneOf(Ops(p)[..k], c);
    }
  }

  lemma AllWritten(p: Planned, f: File)
    ensures f in Done(Ops(p)) <==> EnvOf(p, f).changed
  {
    var ops := Ops(p);
    var c := |Copies(p)|;
    assert forall i :: 0 <= i < c ==> ops[i].Copy?;
    if EnvOf(p, f).changed {
      var m, n := |When(p.init.changed, Write(PostgresInit))|, |When(p.mig.changed, Write(Migrate))|;
      var at := if f == PostgresInit then 0 else if f == Migrate then m else m + n;
      assert Writes(p)[at] == Write(f);
      DoneOf(ops, c + at);
    }
  }

  // Reading a written file back.

  function Reloaded(e: Env): Env {
    Env(Written(e.lines), e.crlf, true, false)
  }

  lemma ParsedIsClean(c: Content, existed: bool)
    ensures Parsed(c, existed).Some? ==> AllClean(Parsed(c, existed).value.lines)
  {
    hide SplitLines;
    if c.Text? {
      SplitIsClean(c.chars);
    }
  }

  lemma LoadIsClean(d: Disk, f: File)
    ensures Load(d, f).Some? ==> AllClean(Load(d, f).value.lines)
  {
    hide Parsed, AllClean;
    if Real(f) in d {
      ParsedIsClean(d[Real(f)], true);
    } else if Example(f) in d {
      ParsedIsClean(d[Example(f)], false);
    }
  }

  lemma FinalReadsBack(p: Planned, f: File)
    requires AllClean(EnvOf(p, f).lines)
    ensures Parsed(Final(p, f), true) == Some(Reloaded(EnvOf(p, f)))
  {
    hide TextOf, SplitLines, HasCrLf, AllClean;
    TextReadsBack(EnvOf(p, f).lines, EnvOf(p, f).crlf);
  }

  lemma PartLoads(d: Disk, p: Planned, done: set<File>, e: Disk, f: File)
    requires Partly(d, p, done, e) && AllClean(EnvOf(p, f).lines)
    ensures Load(e, f) == if f in done then Some(Reloaded(EnvOf(p, f))) else Load(d, f)
  {
    hide Final, Parsed, AllClean;
    assert FileOk(d, p, done, e, f);
    FinalReadsBack(p, f);
  }

  lemma StripClean(s: string)
    requires Clean(s)
    ensures Clean(Strip(s))
  {
    hide Break, Space, RStrip;
    var t := LStrip(s);
    assert Clean(t);
    assert RStrip(t) == t[..|RStrip(t)|];
  }

  lemma PutClean(e: Env, key: string, line: string)
    requires AllClean(e.lines) && Clean(line)
    ensures AllClean(Put(e, key, line).lines)
  {
    hide Clean, Index, Sets;
  }

  lemma RemovedClean(e: Env, key: Key)
    requires AllClean(e.lines)
    ensures AllClean(Removed(e, key).lines)
  {
    hide Clean, Drop, ReplaceStale, KeyName, MovedNote, Phrase;
    NoteIsClean(key);
    var replaced := ReplaceStale(e, KeyName(key), Phrase(key), []);
    ReplacedClean(e, KeyName(key), Phrase(key), []);
    DroppedClean(replaced, KeyName(key), MovedNote(key));
  }

  lemma DroppedClean(e: Env, key: string, note: string)
    requires AllClean(e.lines) && Clean(note)
    ensures AllClean(Drop(e, key, note).lines)
  {
    hide Clean, Sets, Index;
  }

  lemma ReplacedClean(e: Env, key: string, phrase: string, note: seq<string>)
    requires AllClean(e.lines) && AllClean(note)
    ensures AllClean(ReplaceStale(e, key, phrase, note).lines)
  {
    hide Clean, Index, BlockStart, Stale;
  }

  lemma MoveClean(sec: Env, dest: Env, key: Key)
    requires Move(sec, dest, key).Ok? && AllClean(sec.lines) && AllClean(dest.lines)
    ensures AllClean(Move(sec, dest, key).value.sec.lines) && AllClean(Move(sec, dest, key).value.dest.lines)
  {
    hide Clean, Index, Read, KeyName, Published, Put, Removed, Strip;
    ReadIsSet(sec.lines, KeyName(key));
    RemovedClean(sec, key);
    if !Read(sec.lines, KeyName(key)).Missing? {
      StripClean(sec.lines[Index(sec.lines, KeyName(key))]);
      PutClean(dest, KeyName(key), LineOf(sec, key));
    }
  }

  lemma MoveOwnerClean(d: Disk, urls: Urls, newDatabase: bool, token: string)
    requires MoveOwner(d, urls, newDatabase, token).Ok?
    ensures AllClean(MoveOwner(d, urls, newDatabase, token).value.sec.lines)
    ensures !MoveOwner(d, urls, newDatabase, token).value.owner.generated ==>
      && AllClean(MoveOwner(d, urls, newDatabase, token).value.owner.init.lines)
      && AllClean(MoveOwner(d, urls, newDatabase, token).value.owner.mig.lines)
  {
    hide AllClean, Load, Move, Published, Read, KeyName, PasswordIn, OwnerDsn, Put;
    LoadIsClean(d, Secrets);
    LoadIsClean(d, PostgresInit);
    LoadIsClean(d, Migrate);
    var sec, init, mig := Load(d, Secrets).value, Load(d, PostgresInit).value, Load(d, Migrate).value;
    MoveClean(sec, init, PostgresPassword);
    MoveClean(Move(sec, init, PostgresPassword).value.sec, mig, MigrationUrl);
  }

  // A run that moves values, stopped before secrets.env was written, and started again.

  lemma WrittenSets(lines: seq<string>, key: string)
    ensures Settings(Written(lines), key) == Settings(lines, key)
  {
    assert Parse("") == None;
  }

  lemma PutIsThere(e: Env, key: string, line: string)
    requires Sets(line, key)
    ensures var after := Put(e, key, line).lines;
      && Index(after, key) < |after| && after[Index(after, key)] == line && Written(after) == after
  {
    hide Sets;
    var after := Put(e, key, line).lines;
    IndexIs(after, key, Index(e.lines, key));
  }

  /** Finding its line already in the destination, a move only takes it out of secrets.env. */
  lemma MoveAgain(sec: Env, dest: Env, key: Key, again: Env)
    requires Move(sec, dest, key).Ok?
    requires again.lines == Written(Move(sec, dest, key).value.dest.lines)
    ensures Move(sec, again, key) == Ok(Pair(Move(sec, dest, key).value.sec, again))
  {
    hide KeyName, Settings, Published, Removed, Put, LineOf, Sets, Unquoted, Index;
    var after := Move(sec, dest, key).value;
    MoveSettles(sec, dest, key, "");
    WrittenSets(after.dest.lines, KeyName(key));
    ReadIsSet(sec.lines, KeyName(key));
    var theirs, ours := Read(sec.lines, KeyName(key)), Read(dest.lines, KeyName(key));
    if theirs.Once? && !(HoldsReal(ours) && ours != theirs) {
      LineSets(sec, key);
      PutIsThere(dest, KeyName(key), LineOf(sec, key));
      PutAgain(again, KeyName(key), LineOf(sec, key));
    }
  }

  lemma PutAgain(e: Env, key: string, line: string)
    requires Index(e.lines, key) < |e.lines| && e.lines[Index(e.lines, key)] == line
    ensures Put(e, key, line) == e
  {
  }

  /** The same file either way, and changed only if it still has to be written. */
  ghost predicate SameFile(was: Env, now: Env, written: bool) {
    && now.crlf == was.crlf
    && (if written then now.lines == Written(was.lines) && !now.changed
        else now == was)
  }

  lemma MoveEither(sec: Env, dest: Env, key: Key, written: bool, again: Env)
    requires Move(sec, dest, key).Ok?
    requires again == if written then Reloaded(Move(sec, dest, key).value.dest) else dest
    ensures Move(sec, again, key).Ok? && Move(sec, again, key).value.sec == Move(sec, dest, key).value.sec
    ensures SameFile(Move(sec, dest, key).value.dest, Move(sec, again, key).value.dest, written)
  {
    hide Move;
    if written {
      MoveAgain(sec, dest, key, again);
    }
  }

  lemma ChooseEither(urls: Urls, init: Env, mig: Env, newDatabase: bool, token: string, init2: Env, mig2: Env, token2: string, i: bool, m: bool)
    requires Choose(urls, init, mig, newDatabase, token).Ok? && !Choose(urls, init, mig, newDatabase, token).value.generated
    requires SameFile(init, init2, i) && SameFile(mig, mig2, m)
    ensures Choose(urls, init2, mig2, newDatabase, token2) ==
      Ok(Owner(init2, mig2, Choose(urls, init, mig, newDatabase, token).value.left, false))
  {
    hide KeyName, Published, PasswordIn, Settings, Unquoted, OwnerDsn, Put;
    WrittenSets(init.lines, KeyName(PostgresPassword));
    WrittenSets(mig.lines, KeyName(MigrationUrl));
  }

  lemma RerunMovesOwner(d: Disk, urls: Urls, newDatabase: bool, token: string, p: Planned, done: set<File>, e: Disk, token2: string)
    requires MoveOwner(d, urls, newDatabase, token).Ok?
    requires var o := MoveOwner(d, urls, newDatabase, token).value.owner;
      !o.generated && p.init == o.init && p.mig == o.mig
    requires Partly(d, p, done, e) && Secrets !in done
    ensures MoveOwner(e, urls, newDatabase, token2).Ok?
    ensures var was, now := MoveOwner(d, urls, newDatabase, token).value, MoveOwner(e, urls, newDatabase, token2).value;
      && now.sec == was.sec && now.owner.left == was.owner.left && !now.owner.generated
      && SameFile(p.init, now.owner.init, PostgresInit in done)
      && SameFile(p.mig, now.owner.mig, Migrate in done)
  {
    hide KeyName, Load, Move, Choose, AllClean, Written;
    MoveOwnerClean(d, urls, newDatabase, token);
    var sec, init, mig := Load(d, Secrets).value, Load(d, PostgresInit).value, Load(d, Migrate).value;
    SecretsLoads(d, p, done, e);
    PartLoads(d, p, done, e, PostgresInit);
    PartLoads(d, p, done, e, Migrate);
    var a := Move(sec, init, PostgresPassword).value;
    var b := Move(a.sec, mig, MigrationUrl).value;
    NotGenerated(urls, a.dest, b.dest, newDatabase, token);
    var init2, mig2 := Load(e, PostgresInit).value, Load(e, Migrate).value;
    MoveEither(sec, init, PostgresPassword, PostgresInit in done, init2);
    MoveEither(a.sec, mig, MigrationUrl, Migrate in done, mig2);
    var a2, b2 := Move(sec, init2, PostgresPassword).value, Move(a.sec, mig2, MigrationUrl).value;
    ChooseEither(urls, a.dest, b.dest, newDatabase, token, a2.dest, b2.dest, token2, PostgresInit in done, Migrate in done);
  }

  lemma SecretsLoads(d: Disk, p: Planned, done: set<File>, e: Disk)
    requires Partly(d, p, done, e) && Secrets !in done
    ensures Load(e, Secrets) == Load(d, Secrets)
  {
    hide Parsed, Final;
    assert FileOk(d, p, done, e, Secrets);
  }

  lemma NotGenerated(urls: Urls, init: Env, mig: Env, newDatabase: bool, token: string)
    ensures var o := Choose(urls, init, mig, newDatabase, token);
      o.Ok? && !o.value.generated ==> o.value.init == init && o.value.mig == mig
  {
  }

  lemma SameTemplates(d: Disk, p: Planned, done: set<File>, e: Disk, key: Key)
    requires Partly(d, p, done, e)
    ensures TemplateComment(e, key) == TemplateComment(d, key)
  {
    hide CommentAbove, SplitLines, Final;
    assert FileOk(d, p, done, e, Secrets);
  }

  /** Stopped before secrets.env was written, a run that generated no owner password is finished
      by the next: the next plan writes what is still missing, and the three files end up with
      the text an uninterrupted run would have given them. */
  lemma RerunFinishes(d: Disk, urls: Urls, newDatabase: bool, ownerToken: string, redisToken: string,
                      done: set<File>, e: Disk, ownerToken2: string, redisToken2: string)
    requires UrlSafe(redisToken) && UrlSafe(redisToken2)
    requires Plan(d, urls, newDatabase, ownerToken, redisToken).Ok?
    requires !Plan(d, urls, newDatabase, ownerToken, redisToken).value.generated
    requires Partly(d, Plan(d, urls, newDatabase, ownerToken, redisToken).value, done, e) && Secrets !in done
    ensures Plan(d, urls, newDatabase, ownerToken, redisToken2).Ok? && Plan(e, urls, newDatabase, ownerToken2, redisToken2).Ok?
    ensures var was, now := Plan(d, urls, newDatabase, ownerToken, redisToken2).value, Plan(e, urls, newDatabase, ownerToken2, redisToken2).value;
      && now.sec == was.sec && now.left == was.left && !now.generated
      && (forall f :: f in done ==> !EnvOf(now, f).changed)
      && (forall f :: f !in done ==> EnvOf(now, f).changed == EnvOf(was, f).changed)
      && (forall f :: Final(now, f) == Final(was, f))
  {
    hide KeyName, Plan, MoveOwner, Limiter, TemplateComment, UrlSafe, TextOf, Written, Partly;
    PlanIs(d, urls, newDatabase, ownerToken, redisToken);
    PlanIs(d, urls, newDatabase, ownerToken, redisToken2);
    PlanIs(e, urls, newDatabase, ownerToken2, redisToken2);
    var p := Plan(d, urls, newDatabase, ownerToken, redisToken).value;
    RerunMovesOwner(d, urls, newDatabase, ownerToken, p, done, e, ownerToken2);
    SameTemplates(d, p, done, e, RedisPassword);
    SameTemplates(d, p, done, e, RedisUrl);
    var sec := MoveOwner(d, urls, newDatabase, ownerToken).value.sec;
    LimiterRefuses(urls, sec, redisToken, TemplateComment(d, RedisPassword), TemplateComment(d, RedisUrl));
    LimiterRefuses(urls, sec, redisToken2, TemplateComment(d, RedisPassword), TemplateComment(d, RedisUrl));
    var was, now := Plan(d, urls, newDatabase, ownerToken, redisToken2).value, Plan(e, urls, newDatabase, ownerToken2, redisToken2).value;
    SameFiles(was, now, done);
  }

  /** A plan is the owner's part and the limiter's. */
  lemma PlanIs(d: Disk, urls: Urls, newDatabase: bool, ownerToken: string, redisToken: string)
    ensures var owned := MoveOwner(d, urls, newDatabase, ownerToken);
      var plan := Plan(d, urls, newDatabase, ownerToken, redisToken);
      && (plan.Ok? ==> owned.Ok?)
      && (owned.Ok? ==>
            var sec := Limiter(urls, owned.value.sec, redisToken, TemplateComment(d, RedisPassword), TemplateComment(d, RedisUrl));
            var o := owned.value.owner;
            plan == if sec.Ok? then Ok(Planned(sec.value, o.init, o.mig, o.left, o.generated)) else Refused)
  {
    hide MoveOwner, Limiter, TemplateComment;
  }

  lemma SameFiles(was: Planned, now: Planned, done: set<File>)
    requires Secrets !in done && now.sec == was.sec
    requires SameFile(was.init, now.init, PostgresInit in done) && SameFile(was.mig, now.mig, Migrate in done)
    ensures forall f :: f in done ==> !EnvOf(now, f).changed
    ensures forall f :: f !in done ==> EnvOf(now, f).changed == EnvOf(was, f).changed
    ensures forall f :: Final(now, f) == Final(was, f)
  {
    hide TextOf, Written;
    SameText(was.init, now.init, PostgresInit in done);
    SameText(was.mig, now.mig, Migrate in done);
  }

  lemma SameText(was: Env, now: Env, written: bool)
    requires SameFile(was, now, written)
    ensures TextOf(now.lines, now.crlf) == TextOf(was.lines, was.crlf)
  {
    hide Ended;
  }

  lemma SameFileReads(was: Env, now: Env, written: bool, key: string)
    requires SameFile(was, now, written)
    ensures Settings(now.lines, key) == Settings(was.lines, key)
  {
    hide Settings, Written;
    WrittenSets(was.lines, key);
  }

  /** At every stop of such a run secrets.env is as it was, and a reader finds the same owner
      values as before the run. */
  lemma StopLosesNothing(d: Disk, urls: Urls, newDatabase: bool, ownerToken: string, redisToken: string, stamp: string, k: nat, e: Disk)
    requires UrlSafe(ownerToken) && UrlSafe(redisToken)
    requires Plan(d, urls, newDatabase, ownerToken, redisToken).Ok?
    requires var p := Plan(d, urls, newDatabase, ownerToken, redisToken).value;
      !p.generated && k < |Ops(p)| && Stopped(d, p, stamp, k, e)
    ensures SameAt(d, e, Real(Secrets))
    ensures Loaded(d) && Loaded(e)
    ensures Standing(e, PostgresPassword) == Standing(d, PostgresPassword)
    ensures Standing(e, MigrationUrl) == Standing(d, MigrationUrl)
  {
    hide KeyName, MoveOwner, Limiter, TemplateComment, UrlSafe, Standing, Ops, Done, Settings, Unquoted, Stopped, Load, Published, PasswordIn, SameFile;
    var p := Plan(d, urls, newDatabase, ownerToken, redisToken).value;
    var done := Done(Ops(p)[..k]);
    StoppedIsPartly(d, p, stamp, k, e);
    SecretsComesLast(p, k);
    assert FileOk(d, p, done, e, Secrets);
    RerunMovesOwner(d, urls, newDatabase, ownerToken, p, done, e, ownerToken);
    OwnerSettles(d, urls, newDatabase, ownerToken, "");
    OwnerSettles(e, urls, newDatabase, ownerToken, "");
    var now := MoveOwner(e, urls, newDatabase, ownerToken).value.owner;
    SameFileReads(p.init, now.init, PostgresInit in done, KeyName(PostgresPassword));
    SameFileReads(p.mig, now.mig, Migrate in done, KeyName(MigrationUrl));
  }

  // A generated password needs two files: a stop between them is not taken for a finished run.

  lemma EffectivePublished(theirs: Reading, ours: Reading)
    requires Published(Held(Effective(theirs, ours)))
    ensures theirs.Once? ==> Published(Some(theirs.value))
  {
    hide Published;
  }

  lemma GeneratedMove(sec: Env, init: Env, again: Env)
    requires Move(sec, init, PostgresPassword).Ok?
    requires Published(Held(Read(Move(sec, init, PostgresPassword).value.dest.lines, KeyName(PostgresPassword))))
    requires HoldsReal(Read(again.lines, KeyName(PostgresPassword)))
    ensures Move(sec, again, PostgresPassword) == Ok(Pair(Move(sec, init, PostgresPassword).value.sec, again))
  {
    hide KeyName, Settings, Published, Removed, Put, LineOf, Unquoted;
    var theirs, ours := Read(sec.lines, KeyName(PostgresPassword)), Read(init.lines, KeyName(PostgresPassword));
    MoveSettles(sec, init, PostgresPassword, "");
    EffectivePublished(theirs, ours);
  }

  lemma GeneratedFiles(d: Disk, urls: Urls, token: string)
    requires MoveOwner(d, urls, true, token).Ok? && MoveOwner(d, urls, true, token).value.owner.generated
    requires UrlSafe(token)
    ensures var init := MoveOwner(d, urls, true, token).value.owner.init;
      AllClean(init.lines) && Read(init.lines, KeyName(PostgresPassword)) == Once(token)
  {
    hide AllClean, Load, Move, Published, Read, KeyName, PasswordIn, OwnerDsn, Put, UrlSafe, Unquoted;
    LoadIsClean(d, Secrets);
    LoadIsClean(d, PostgresInit);
    var sec, init, mig := Load(d, Secrets).value, Load(d, PostgresInit).value, Load(d, Migrate).value;
    MoveClean(sec, init, PostgresPassword);
    var a := Move(sec, init, PostgresPassword).value;
    var b := Move(a.sec, mig, MigrationUrl).value;
    KeyIsName(PostgresPassword);
    NameIsClean(KeyName(PostgresPassword));
    TokenReads(token);
    CleanJoin(KeyName(PostgresPassword), "=");
    CleanJoin(KeyName(PostgresPassword) + "=", token);
    PutClean(a.dest, KeyName(PostgresPassword), KeyName(PostgresPassword) + "=" + token);
    ChooseSettles(urls, a.dest, b.dest, true, token, "");
  }

  predicate Reported(left: Todo) {
    left.NoDsn? || left.Mismatch?
  }

  lemma HalfChoose(urls: Urls, init: Env, mig: Env, newDatabase: bool, token: string)
    requires HoldsReal(Read(init.lines, KeyName(PostgresPassword)))
    requires !Read(mig.lines, KeyName(MigrationUrl)).Twice?
    requires Published(PasswordIn(urls, Held(Read(mig.lines, KeyName(MigrationUrl)))))
    ensures var o := Choose(urls, init, mig, newDatabase, token);
      o.Ok? && !o.value.generated && o.value.init == init && Reported(o.value.left)
  {
    hide KeyName, Read, Published, PasswordIn, OwnerDsn, Put;
  }

  /** Stopped with the generated password in postgres-init.env and not yet in migrate.env, the
      next run keeps the password, generates none, and reports that the two files disagree. */
  lemma HalfGeneratedIsReported(d: Disk, urls: Urls, ownerToken: string, redisToken: string, done: set<File>, e: Disk,
                                newDatabase2: bool, ownerToken2: string, redisToken2: string)
    requires UrlSafe(ownerToken) && !Published(Some(ownerToken)) && UrlSafe(redisToken) && UrlSafe(redisToken2)
    requires Plan(d, urls, true, ownerToken, redisToken).Ok?
    requires Plan(d, urls, true, ownerToken, redisToken).value.generated
    requires Partly(d, Plan(d, urls, true, ownerToken, redisToken).value, done, e)
    requires PostgresInit in done && Migrate !in done && Secrets !in done
    ensures Plan(e, urls, newDatabase2, ownerToken2, redisToken2).Ok?
    ensures var now := Plan(e, urls, newDatabase2, ownerToken2, redisToken2).value;
      !now.generated && Reported(now.left) && Read(now.init.lines, KeyName(PostgresPassword)) == Once(ownerToken)
  {
    hide KeyName, Load, Move, Choose, AllClean, Written, Published, PasswordIn, UrlSafe, Limiter, Read, TemplateComment, Final, Reported;
    var p := Plan(d, urls, true, ownerToken, redisToken).value;
    var sec, init, mig := Load(d, Secrets).value, Load(d, PostgresInit).value, Load(d, Migrate).value;
    var a := Move(sec, init, PostgresPassword).value;
    var b := Move(a.sec, mig, MigrationUrl).value;
    GeneratedFiles(d, urls, ownerToken);
    SecretsLoads(d, p, done, e);
    PartLoads(d, p, done, e, PostgresInit);
    MigrateLoads(d, p, done, e);
    ReloadedReads(p.init, KeyName(PostgresPassword));
    ChooseSettles(urls, a.dest, b.dest, true, ownerToken, "");
    var init2 := Load(e, PostgresInit).value;
    GeneratedMove(sec, init, init2);
    HalfChoose(urls, init2, b.dest, newDatabase2, ownerToken2);
    SameTemplates(d, p, done, e, RedisPassword);
    SameTemplates(d, p, done, e, RedisUrl);
    LimiterRefuses(urls, b.sec, redisToken, TemplateComment(d, RedisPassword), TemplateComment(d, RedisUrl));
    LimiterRefuses(urls, b.sec, redisToken2, TemplateComment(d, RedisPassword), TemplateComment(d, RedisUrl));
  }

  lemma MigrateLoads(d: Disk, p: Planned, done: set<File>, e: Disk)
    requires Partly(d, p, done, e) && Migrate !in done
    ensures Load(e, Migrate) == Load(d, Migrate)
  {
    hide Parsed, Final;
    assert FileOk(d, p, done, e, Migrate);
  }

  lemma ReloadedReads(was: Env, key: string)
    ensures Read(Reloaded(was).lines, key) == Read(was.lines, key)
  {
    hide Settings, Written, Unquoted;
    WrittenSets(was.lines, key);
  }

  // The way back.

  lemma {:induction false} CopiesAreKept(d: Disk, p: Planned, stamp: string, ops: seq<Op>, more: seq<Op>)
    ensures var was, now := DoAll(d, p, stamp, ops), DoAll(d, p, stamp, ops + more);
      forall name :: name in was && name.Backup? ==> name in now && now[name] == was[name]
  {
    if more == [] {
      assert ops + more == ops;
    } else {
      CopiesAreKept(d, p, stamp, ops, more[..|more| - 1]);
      assert (ops + more)[..|ops + more| - 1] == ops + more[..|more| - 1];
    }
  }

  ghost predicate BackedUp(d: Disk, e: Disk, f: File, stamp: string) {
    exists n: nat :: Kept(d, e, f, stamp, n)
  }

  ghost predicate Kept(d: Disk, e: Disk, f: File, stamp: string, n: nat) {
    Backup(f, stamp, n) in e && Real(f) in d && e[Backup(f, stamp, n)] == d[Real(f)]
  }

  lemma CopyIsBackup(d: Disk, p: Planned, stamp: string, ops: seq<Op>, i: nat, f: File)
    requires i < |ops| && ops[i] == Copy(f) && Real(f) in d
    requires forall j :: 0 <= j <= i ==> ops[j].Copy?
    ensures BackedUp(d, DoAll(d, p, stamp, ops), f, stamp)
  {
    var first := ops[..i + 1];
    DoAllIsPartly(d, p, stamp, ops[..i]);
    var was := DoAll(d, p, stamp, ops[..i]);
    assert FileOk(d, p, Done(ops[..i]), was, f);
    assert first[..|first| - 1] == ops[..i];
    var n := FreeCopy(was, f, stamp, 1);
    assert Kept(d, DoAll(d, p, stamp, first), f, stamp, n);
    assert ops == first + ops[i + 1..];
    CopiesAreKept(d, p, stamp, first, ops[i + 1..]);
    assert Kept(d, DoAll(d, p, stamp, ops), f, stamp, n);
  }

  /** Before any file is changed, each file that will be and was there has its content under a
      new name, and no older backup is written over. */
  lemma ChangedFilesAreBackedUp(d: Disk, p: Planned, stamp: string, k: nat, f: File)
    requires |Copies(p)| <= k <= |Ops(p)|
    requires EnvOf(p, f).changed && EnvOf(p, f).existed && Real(f) in d
    ensures BackedUp(d, DoAll(d, p, stamp, Ops(p)[..k]), f, stamp)
    ensures forall name :: name in d && name.Backup? ==>
      name in DoAll(d, p, stamp, Ops(p)[..k]) && DoAll(d, p, stamp, Ops(p)[..k])[name] == d[name]
  {
    hide DoAll, Writes, BackedUp;
    var ops := Ops(p)[..k];
    DoAllIsPartly(d, p, stamp, ops);
    var s := |When(p.sec.changed && p.sec.existed, Copy(Secrets))|;
    var i := |When(p.init.changed && p.init.existed, Copy(PostgresInit))|;
    var at := if f == Secrets then 0 else if f == PostgresInit then s else s + i;
    assert ops[at] == Copies(p)[at] == Copy(f);
    assert forall j :: 0 <= j <= at ==> ops[j] == Copies(p)[j];
    CopyIsBackup(d, p, stamp, ops, at, f);
  }
}
