/** The migrator as it runs: three files read, edited in place and written out in order. */
module SecretsScript {
  import opened Options
  import opened EnvText
  import opened EnvFiles
  import opened SecretsPlan
  import opened SecretsSafety
  import opened SecretsRecovery
  import opened SecretsSettled

  /** The three files being edited, and what the plan says of them. */
  datatype Draft = Draft(sec: EnvFile, init: EnvFile, mig: EnvFile, left: Todo, generated: bool)

  ghost predicate Drafts(draft: Draft, p: Planned)
    reads draft.sec, draft.init, draft.mig
  {
    && draft.sec != draft.init && draft.sec != draft.mig && draft.init != draft.mig
    && p == Planned(draft.sec.View(), draft.init.View(), draft.mig.View(), draft.left, draft.generated)
  }

  method MoveLine(sec: EnvFile, dest: EnvFile, key: Key) returns (ok: bool)
    requires sec != dest
    modifies sec, dest
    ensures ok == Move(old(sec.View()), old(dest.View()), key).Ok?
    ensures !ok ==> Move(old(sec.View()), old(dest.View()), key).Refused?
    ensures ok ==> Pair(sec.View(), dest.View()) == Move(old(sec.View()), old(dest.View()), key).value
  {
    hide KeyName, Read, Published, Put, Drop, ReplaceStale, MovedNote, Phrase, Strip;
    ReadIsSet(sec.lines, KeyName(key));
    var theirs := sec.Get(KeyName(key));
    if theirs.Missing? {
      return true;
    }
    var ours := dest.Get(KeyName(key));
    if theirs.Twice? || ours.Twice? {
      return false;
    }
    if ours.Once? && !Published(Some(ours.value)) && ours != theirs {
      if !Published(Some(theirs.value)) {
        return false;
      }
    } else {
      var line := sec.Line(KeyName(key));
      dest.PutLine(KeyName(key), line);
    }
    var _ := sec.ReplaceStaleComment(KeyName(key), Phrase(key), []);
    sec.DropKey(KeyName(key), MovedNote(key));
    return true;
  }

  /** Step 4: a new database's owner password. */
  method ChoosePasswords(urls: Urls, init: EnvFile, mig: EnvFile, newDatabase: bool, token: string)
    returns (status: Outcome<Todo>, generated: bool)
    requires init != mig
    modifies init, mig
    ensures var o := Choose(urls, old(init.View()), old(mig.View()), newDatabase, token);
      && (status.Ok? <==> o.Ok?) && (status.Refused? <==> o.Refused?)
      && (o.Ok? ==> Owner(init.View(), mig.View(), status.value, generated) == o.value)
  {
    hide KeyName, Read, Published, PasswordIn, OwnerUser, WithCredentials, Put;
    generated := false;
    var owner := init.Get(KeyName(PostgresPassword));
    var dsn := mig.Get(KeyName(MigrationUrl));
    if owner.Twice? || dsn.Twice? {
      return Refused, false;
    }
    if Published(Held(owner)) && Published(PasswordIn(urls, Held(dsn))) {
      if !newDatabase {
        return Ok(ChoosePassword), false;
      }
      var text := ValueOr(Held(dsn), "");
      if urls.split(text).None? {
        return Raised, false;
      }
      init.PutLine(KeyName(PostgresPassword), KeyName(PostgresPassword) + "=" + token);
      mig.PutLine(KeyName(MigrationUrl), KeyName(MigrationUrl) + "=" + OwnerDsn(urls, text, token));
      return Ok(Nothing), true;
    } else if dsn.Missing? {
      return Ok(NoDsn), false;
    } else if PasswordIn(urls, Held(dsn)) != Held(owner) {
      return Ok(Mismatch), false;
    }
    return Ok(Nothing), false;
  }

  /** Step 3: the limiter's Redis user. */
  method SetLimiter(disk: Disk, urls: Urls, sec: EnvFile, token: string) returns (ok: bool)
    modifies sec
    ensures var r := Limiter(urls, old(sec.View()), token, TemplateComment(disk, RedisPassword), TemplateComment(disk, RedisUrl));
      && !r.Raised? && (ok <==> r.Ok?) && (ok ==> sec.View() == r.value)
  {
    hide KeyName, Read, Published, LimiterUrl, NamesAnother, Usable, Put, ReplaceStale, Phrase, TemplateComment;
    var held := sec.Get(KeyName(RedisPassword));
    if held.Twice? {
      return false;
    }
    NothingUsable();
    var password := token;
    if Usable(Held(held)) {
      password := held.value;
    } else {
      sec.PutLine(KeyName(RedisPassword), KeyName(RedisPassword) + "=" + password);
    }
    var url := sec.Get(KeyName(RedisUrl));
    if url.Twice? {
      return false;
    }
    if !NamesAnother(urls, Held(url)) {
      var want := LimiterUrl(urls, Held(url), password);
      if Held(url) != Some(want) {
        sec.PutLine(KeyName(RedisUrl), KeyName(RedisUrl) + "=" + want);
      }
    }
    var _ := sec.ReplaceStaleComment(KeyName(RedisPassword), Phrase(RedisPassword), TemplateComment(disk, RedisPassword));
    var _ := sec.ReplaceStaleComment(KeyName(RedisUrl), Phrase(RedisUrl), TemplateComment(disk, RedisUrl));
    return true;
  }

  /** plan: works on its own copies and writes nothing. */
  method PlanFiles(disk: Disk, urls: Urls, newDatabase: bool, ownerToken: string, redisToken: string)
    returns (r: Outcome<Draft>)
    ensures var p := Plan(disk, urls, newDatabase, ownerToken, redisToken);
      && (r.Ok? <==> p.Ok?) && (r.Refused? <==> p.Refused?)
      && (r.Ok? ==> Drafts(r.value, p.value))
  {
    hide Load, Move, Choose, Limiter, TemplateComment, KeyName;
    var a, b, c := Load(disk, Secrets), Load(disk, PostgresInit), Load(disk, Migrate);
    if a.None? || b.None? || c.None? {
      return Refused;
    }
    var sec := new EnvFile(a.value);
    var init := new EnvFile(b.value);
    var mig := new EnvFile(c.value);
    var ok := MoveLine(sec, init, PostgresPassword);
    if !ok {
      return Refused;
    }
    ok := MoveLine(sec, mig, MigrationUrl);
    if !ok {
      return Refused;
    }
    var status, generated := ChoosePasswords(urls, init, mig, newDatabase, ownerToken);
    if status.Refused? {
      return Refused;
    } else if status.Raised? {
      return Raised;
    }
    ok := SetLimiter(disk, urls, sec, redisToken);
    if !ok {
      return Refused;
    }
    return Ok(Draft(sec, init, mig, status.value, generated));
  }

  const FILES := [Secrets, PostgresInit, Migrate]
  const ORDERED := [PostgresInit, Migrate, Secrets]

  function CopyOps(p: Planned, files: seq<File>): seq<Op> {
    if files == [] then []
    else
      var f := files[|files| - 1];
      CopyOps(p, files[..|files| - 1]) + When(EnvOf(p, f).changed && EnvOf(p, f).existed, Copy(f))
  }

  function WriteOps(p: Planned, files: seq<File>): seq<Op> {
    if files == [] then []
    else
      var f := files[|files| - 1];
      WriteOps(p, files[..|files| - 1]) + When(EnvOf(p, f).changed, Write(f))
  }

  lemma CopyOpsNext(p: Planned, i: nat)
    requires i < 3
    ensures CopyOps(p, FILES[..i + 1]) == CopyOps(p, FILES[..i]) + When(EnvOf(p, FILES[i]).changed && EnvOf(p, FILES[i]).existed, Copy(FILES[i]))
    ensures CopyOps(p, FILES[..i + 1]) <= Copies(p)
  {
    hide When;
    assert FILES[..i + 1][..i] == FILES[..i];
    CopyOpsAre(p);
  }

  lemma CopyOpsAre(p: Planned)
    ensures CopyOps(p, FILES[..0]) == []
    ensures CopyOps(p, FILES[..1]) == When(p.sec.changed && p.sec.existed, Copy(Secrets))
    ensures CopyOps(p, FILES[..2]) == CopyOps(p, FILES[..1]) + When(p.init.changed && p.init.existed, Copy(PostgresInit))
    ensures CopyOps(p, FILES[..3]) == Copies(p)
  {
    assert FILES[..3][..2] == FILES[..2] && FILES[..2][..1] == FILES[..1] && FILES[..1][..0] == [];
  }

  lemma WriteOpsNext(p: Planned, i: nat)
    requires i < 3
    ensures WriteOps(p, ORDERED[..i + 1]) == WriteOps(p, ORDERED[..i]) + When(EnvOf(p, ORDERED[i]).changed, Write(ORDERED[i]))
    ensures WriteOps(p, ORDERED[..i + 1]) <= Writes(p)
  {
    hide When;
    assert ORDERED[..i + 1][..i] == ORDERED[..i];
    WriteOpsAre(p);
  }

  lemma WriteOpsAre(p: Planned)
    ensures WriteOps(p, ORDERED[..0]) == []
    ensures WriteOps(p, ORDERED[..1]) == When(p.init.changed, Write(PostgresInit))
    ensures WriteOps(p, ORDERED[..2]) == WriteOps(p, ORDERED[..1]) + When(p.mig.changed, Write(Migrate))
    ensures WriteOps(p, ORDERED[..3]) == Writes(p)
  {
    assert ORDERED[..3][..2] == ORDERED[..2] && ORDERED[..2][..1] == ORDERED[..1] && ORDERED[..1][..0] == [];
  }

  lemma ExistedIsThere(d: Disk, urls: Urls, newDatabase: bool, ownerToken: string, redisToken: string, f: File)
    requires Plan(d, urls, newDatabase, ownerToken, redisToken).Ok?
    requires EnvOf(Plan(d, urls, newDatabase, ownerToken, redisToken).value, f).existed
    ensures Real(f) in d
  {
    hide Plan, SplitLines, HasCrLf;
    PlanTouches(d, urls, newDatabase, ownerToken, redisToken, f);
  }

  lemma OpsInOrder(p: Planned)
    ensures CopyOps(p, FILES[..0]) == [] && CopyOps(p, FILES[..3]) == Copies(p)
    ensures WriteOps(p, ORDERED[..0]) == [] && WriteOps(p, ORDERED[..3]) == Writes(p)
  {
    CopyOpsAre(p);
    WriteOpsAre(p);
  }

  lemma NoOps(d: Disk, p: Planned, stamp: string)
    ensures DoAll(d, p, stamp, []) == d
  {
  }

  lemma OneMore(d: Disk, p: Planned, stamp: string, done: seq<Op>, op: Op)
    ensures DoAll(d, p, stamp, done + [op]) == Do(DoAll(d, p, stamp, done), p, stamp, op)
  {
    assert (done + [op])[..|done|] == done;
  }

  lemma StillThere(d: Disk, p: Planned, stamp: string, i: nat, f: File)
    requires i <= 3 && Real(f) in d
    ensures Real(f) in DoAll(d, p, stamp, CopyOps(p, FILES[..i]))
  {
    hide DoAll, CopyOps;
    var ops := CopyOps(p, FILES[..i]);
    DoAllIsPartly(d, p, stamp, ops);
    assert FileOk(d, p, Done(ops), DoAll(d, p, stamp, ops), f);
  }

  /** infra/production. budget: how many more system calls succeed; torn: what a write cut short leaves;
      tidies: whether a temporary file can be removed after a failure. */
  class Directory {
    var disk: Disk
    var budget: nat
    const pid: nat
    const torn: Content
    const tidies: bool

    constructor (disk: Disk, budget: nat, pid: nat, torn: Content, tidies: bool)
      ensures this.disk == disk && this.budget == budget && this.pid == pid && this.torn == torn && this.tidies == tidies
    {
      this.disk, this.budget, this.pid, this.torn, this.tidies := disk, budget, pid, torn, tidies;
    }

    /** One system call. */
    method Call() returns (ok: bool)
      modifies this`budget
      ensures ok == (old(budget) > 0) && budget == old(budget) - if ok then 1 else 0
    {
      ok := budget > 0;
      if ok {
        budget := budget - 1;
      }
    }

    /** _backup: opened, written and closed to others, under a name of its own, never over another file.
        A failure leaves what was written so far. */
    method BackUp(f: File, original: Content, stamp: string) returns (ok: bool)
      requires Real(f) in disk && disk[Real(f)] == original
      modifies this
      ensures ok == (old(budget) >= 3)
      ensures budget == if ok then old(budget) - 3 else 0
      ensures var name := Backup(f, stamp, FreeCopy(old(disk), f, stamp, 1));
        && name !in old(disk)
        && (ok ==> disk == old(disk)[name := original])
        && forall other :: other != name ==> SameAt(old(disk), disk, other)
    {
      var count := 1;
      while Backup(f, stamp, count) in disk
        invariant disk == old(disk) && budget == old(budget)
        invariant FreeCopy(disk, f, stamp, 1) == FreeCopy(disk, f, stamp, count)
        decreases |set name | name in disk.Keys && name.Backup? && name.copy >= count|
      {
        FewerCopies(disk, f, stamp, count);
        count := count + 1;
      }
      var target := Backup(f, stamp, count);
      ok := Call();
      if !ok {
        return;
      }
      disk := disk[target := Text(false, "")];
      ok := Call();
      if !ok {
        disk := disk[target := torn];
        return;
      }
      disk := disk[target := original];
      ok := Call();
    }

    /** _write_private: opened, written, synced and closed to others beside the file, and put in its place
        last; the file is the old one or the finished new one whichever call fails. */
    method WritePrivate(f: File, data: Content) returns (ok: bool)
      modifies this
      ensures ok == (Temp(f, pid) !in old(disk) && old(budget) >= 5)
      ensures ok ==> budget == old(budget) - 5 && disk == old(disk)[Real(f) := data]
      ensures !ok ==> forall other :: other != Temp(f, pid) ==> SameAt(old(disk), disk, other)
      ensures !ok && (tidies || Temp(f, pid) in old(disk)) ==> disk == old(disk)
    {
      var temp := Temp(f, pid);
      if temp in disk {
        return false;
      }
      ok := Call();
      if !ok {
        return;
      }
      disk := disk[temp := Text(false, "")];
      var written := Call();
      disk := disk[temp := if written then data else torn];
      var synced := false;
      var closed := false;
      if written {
        synced := Call();
      }
      if synced {
        closed := Call();
      }
      ok := false;
      if closed {
        ok := Call();
      }
      if ok {
        disk := disk[Real(f) := data] - {temp};
        assert disk == old(disk)[Real(f) := data];
      } else if tidies {
        disk := disk - {temp};
        assert disk == old(disk);
      }
    }

    /** Every backup before any file is changed. */
    method BackUpAll(draft: Draft, ghost p: Planned, stamp: string) returns (ok: bool, ghost k: nat)
      requires Drafts(draft, p)
      requires forall f :: EnvOf(p, f).existed ==> Real(f) in disk
      modifies this
      ensures k <= |Copies(p)| && (ok <==> k == |Copies(p)|)
      ensures ok <==> old(budget) >= 3 * |Copies(p)|
      ensures ok ==> disk == DoAll(old(disk), p, stamp, Copies(p)) && budget == old(budget) - 3 * |Copies(p)|
      ensures Near(DoAll(old(disk), p, stamp, Copies(p)[..k]), disk)
    {
      hide FreeCopy, DoAll, Copies, CopyOps, Near;
      ghost var was := disk;
      ghost var done: seq<Op> := [];
      NoOps(was, p, stamp);
      OpsInOrder(p);
      var i := 0;
      while i < 3
        invariant 0 <= i <= 3 && Drafts(draft, p)
        invariant done == CopyOps(p, FILES[..i])
        invariant disk == DoAll(was, p, stamp, done) && budget == old(budget) - 3 * |done|
      {
        var f := FILES[i];
        var file := if i == 0 then draft.sec else if i == 1 then draft.init else draft.mig;
        CopyOpsNext(p, i);
        if file.changed && file.existed {
          StillThere(was, p, stamp, i, f);
          OneMore(was, p, stamp, done, Copy(f));
          assert done + [Copy(f)] == CopyOps(p, FILES[..i + 1]) <= Copies(p);
          assert done == Copies(p)[..|done|];
          ghost var before := disk;
          ok := BackUp(f, disk[Real(f)], stamp);
          if !ok {
            assert Near(before, disk) by { NearButOne(before, disk, Backup(f, stamp, FreeCopy(before, f, stamp, 1))); }
            return false, |done|;
          }
          done := done + [Copy(f)];
        }
        i := i + 1;
      }
      assert done == Copies(p) && Copies(p)[..|Copies(p)|] == Copies(p);
      NearItself(disk);
      return true, |done|;
    }

    /** The changed files, secrets.env last. */
    method WriteAll(draft: Draft, ghost p: Planned, stamp: string, ghost was: Disk) returns (ok: bool, ghost k: nat)
      requires Drafts(draft, p) && disk == DoAll(was, p, stamp, Copies(p))
      modifies this
      ensures k <= |Writes(p)| && (ok <==> k == |Writes(p)|)
      ensures old(budget) >= 5 * |Writes(p)| && (forall f :: Temp(f, pid) !in old(disk)) ==> ok
      ensures ok ==> disk == DoAll(was, p, stamp, Copies(p) + Writes(p))
      ensures Near(DoAll(was, p, stamp, Copies(p) + Writes(p)[..k]), disk)
    {
      hide DoAll, Copies, Writes, WriteOps, TextOf, Near;
      ghost var done: seq<Op> := [];
      OpsInOrder(p);
      assert Copies(p) + done == Copies(p);
      var i := 0;
      while i < 3
        invariant 0 <= i <= 3 && Drafts(draft, p)
        invariant done == WriteOps(p, ORDERED[..i])
        invariant disk == DoAll(was, p, stamp, Copies(p) + done) && budget == old(budget) - 5 * |done|
        invariant forall f :: Temp(f, pid) in disk <==> Temp(f, pid) in old(disk)
      {
        var f := ORDERED[i];
        var file := if i == 0 then draft.init else if i == 1 then draft.mig else draft.sec;
        WriteOpsNext(p, i);
        if file.changed {
          OneMore(was, p, stamp, Copies(p) + done, Write(f));
          assert Copies(p) + done + [Write(f)] == Copies(p) + (done + [Write(f)]);
          assert done + [Write(f)] == WriteOps(p, ORDERED[..i + 1]) <= Writes(p);
          assert done == Writes(p)[..|done|];
          ghost var before := disk;
          ok := WritePrivate(f, Text(false, TextOf(file.lines, file.crlf)));
          if !ok {
            assert Near(before, disk) by { NearButTemp(before, disk, Temp(f, pid)); }
            return false, |done|;
          }
          done := done + [Write(f)];
        }
        i := i + 1;
      }
      assert done == Writes(p) && Writes(p)[..|Writes(p)|] == Writes(p);
      NearItself(disk);
      return true, |done|;
    }

    /** apply: 1 when refused, stopped part way or something is left to the operator. A refusal
        writes nothing; otherwise the first k operations of the plan are done and the next may be cut
        short. Raised is the ValueError plan lets out, before anything is written. */
    method Apply(urls: Urls, newDatabase: bool, ownerToken: string, redisToken: string, stamp: string)
      returns (exit: Outcome<int>, ghost k: nat)
      modifies this
      ensures var p := Plan(old(disk), urls, newDatabase, ownerToken, redisToken);
        && (p.Refused? ==> exit == Ok(1) && disk == old(disk))
        && (p.Raised? ==> exit == Raised && disk == old(disk))
        && (p.Ok? ==>
              && k <= |Ops(p.value)| && Stopped(old(disk), p.value, stamp, k, disk)
              && exit == Ok(if k == |Ops(p.value)| && (p.value.generated || Agree(urls, p.value)) then 0 else 1)
              && (k == |Ops(p.value)| ==> disk == DoAll(old(disk), p.value, stamp, Ops(p.value)))
              && (old(budget) >= 5 * |Ops(p.value)| && (forall f :: Temp(f, pid) !in old(disk)) ==> k == |Ops(p.value)|))
    {
      hide Plan, DoAll, Copies, Writes, KeyName, Near, Agree, Unchosen, PlannedDsn;
      var planned := PlanFiles(disk, urls, newDatabase, ownerToken, redisToken);
      if planned.Refused? {
        return Ok(1), 0;
      } else if planned.Raised? {
        return Raised, 0;
      }
      var draft := planned.value;
      ghost var was := disk;
      ghost var p := Plan(was, urls, newDatabase, ownerToken, redisToken).value;
      LeftExactly(was, urls, newDatabase, ownerToken, redisToken);
      forall f | EnvOf(p, f).existed ensures Real(f) in disk {
        ExistedIsThere(was, urls, newDatabase, ownerToken, redisToken, f);
      }
      var ok;
      ok, k := BackUpAll(draft, p, stamp);
      assert Ops(p)[..k] == Copies(p)[..k];
      if !ok {
        NearIsStopped(was, p, stamp, k, disk);
        return Ok(1), k;
      }
      forall f ensures Temp(f, pid) in disk <==> Temp(f, pid) in was {
        NoTemp(was, p, stamp, Copies(p), Temp(f, pid));
      }
      ghost var rest;
      ok, rest := WriteAll(draft, p, stamp, was);
      k := |Copies(p)| + rest;
      assert Ops(p)[..k] == Copies(p) + Writes(p)[..rest];
      NearIsStopped(was, p, stamp, k, disk);
      if !ok || !draft.left.Nothing? {
        return Ok(1), k;
      }
      return Ok(0), k;
    }
  }

  /** The second disk is the first, but for a new backup or a temporary file. */
  ghost predicate Near(d: Disk, e: Disk) {
    && (forall name: FileName :: name.Real? || name.Example? ==> SameAt(d, e, name))
    && (forall name :: name in d && name.Backup? ==> name in e && e[name] == d[name])
  }

  lemma NearItself(d: Disk)
    ensures Near(d, d)
  {
  }

  lemma NearButOne(d: Disk, e: Disk, name: FileName)
    requires name.Backup? && name !in d && forall other :: other != name ==> SameAt(d, e, other)
    ensures Near(d, e)
  {
    forall other | other in d && other.Backup? ensures other in e && e[other] == d[other] {
      assert SameAt(d, e, other);
    }
  }

  lemma NearButTemp(d: Disk, e: Disk, name: FileName)
    requires name.Temp? && forall other :: other != name ==> SameAt(d, e, other)
    ensures Near(d, e)
  {
    forall other | other in d && other.Backup? ensures other in e && e[other] == d[other] {
      assert SameAt(d, e, other);
    }
  }

  lemma NearIsStopped(d: Disk, p: Planned, stamp: string, k: nat, e: Disk)
    requires k <= |Ops(p)| && Near(DoAll(d, p, stamp, Ops(p)[..k]), e)
    ensures Stopped(d, p, stamp, k, e)
  {
    hide Ops, DoAll;
  }

  lemma {:induction false} NoTemp(d: Disk, p: Planned, stamp: string, ops: seq<Op>, name: FileName)
    requires name.Temp?
    ensures name in DoAll(d, p, stamp, ops) <==> name in d
  {
    if ops != [] {
      NoTemp(d, p, stamp, ops[..|ops| - 1], name);
    }
  }
}
