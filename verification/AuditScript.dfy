/** scripts/audit_verify.py: when a recorded anchor is compared, when a tail may be
    recorded, and what a history of runs over one anchor file establishes.
 */
module AuditScript {
  import opened Basics
  import opened Options
  import opened LedgerVerify

  datatype AnchorRow = AnchorRow(audit: Option<Anchor>, custody: Option<Anchor>)
  datatype Line = Blank | NotAnchor | Recorded(row: AnchorRow)

  datatype Reading = Found(last: Option<AnchorRow>) | BadLine(number: nat)

  datatype Ledgers = Ledgers(audit: Table, custody: Table, auditBoundary: Option<int>, custodyBoundary: Option<int>)

  datatype Args = Args(limit: Option<int>, anchorFile: bool, record: bool)

  function LastRecorded(lines: seq<Line>): Option<AnchorRow> {
    if lines == [] then None
    else if lines[|lines| - 1].Recorded? then Some(lines[|lines| - 1].row)
    else LastRecorded(lines[..|lines| - 1])
  }

  predicate Readable(lines: seq<Line>) {
    NotAnchor !in lines
  }

  /** The newest anchor of the file; a line that is no anchor is an error, not a reason to
      compare against nothing.  An absent file has no lines. */
  method ReadLastAnchor(lines: seq<Line>) returns (reading: Reading)
    ensures reading.Found? <==> Readable(lines)
    ensures reading.Found? ==> reading.last == LastRecorded(lines)
    ensures reading.BadLine? ==>
              1 <= reading.number <= |lines| && lines[reading.number - 1] == NotAnchor && Readable(lines[..reading.number - 1])
  {
    var last: Option<AnchorRow> := None;
    var i := 0;
    while i < |lines|
      invariant 0 <= i <= |lines| && Readable(lines[..i])
      invariant last == LastRecorded(lines[..i])
    {
      assert lines[..i + 1][..i] == lines[..i];
      match lines[i] {
        case Blank =>
        case NotAnchor => return BadLine(i + 1);
        case Recorded(row) => last := Some(row);
      }
      i := i + 1;
    }
    assert lines[..i] == lines;
    reading := Found(last);
  }

  ghost predicate IsTailAnchor(t: Table, a: Option<Anchor>) {
    if a.None? then t == map[] else IsTail(t, a.value.number) && a.value == TailAnchor(t, a.value.number)
  }

  method FindTail(t: Table) returns (a: Option<Anchor>)
    ensures IsTailAnchor(t, a)
  {
    if t == map[] {
      return None;
    }
    var rest := t.Keys;
    ghost var some := Member(rest);
    var highest :| highest in rest;
    rest := rest - {highest};
    while rest != {}
      invariant highest in t && rest <= t.Keys
      invariant forall j :: j in t && j !in rest ==> j <= highest
      decreases rest
    {
      some := Member(rest);
      var k :| k in rest;
      if k > highest {
        highest := k;
      }
      rest := rest - {k};
    }
    a := Some(Anchor(highest, t[highest].rowHash));
  }

  /** Both reports, against the anchors of the file's last line. */
  predicate NothingWrong(db: Ledgers, limit: Option<nat>, last: Option<AnchorRow>) {
    && Intact(db.audit, db.auditBoundary, limit, if last.None? then None else last.value.audit)
    && Intact(db.custody, db.custodyBoundary, None, if last.None? then None else last.value.custody)
  }

  predicate BadArguments(args: Args) {
    (args.record && !args.anchorFile) || (args.record && args.limit.Some?) || (args.limit.Some? && args.limit.value < 1)
  }

  /** How an append ends: the whole line, nothing, or a part of it, which is no record. */
  datatype Append = Whole | Nothing | Part

  /** What one run answers and leaves in the file.  db is None when the database did not
      answer. */
  ghost predicate MainRun(args: Args, db: Option<Ledgers>, append: Append, before: seq<Line>, after: seq<Line>, status: int) {
    if BadArguments(args) || (args.anchorFile && !Readable(before)) || db.None? then
      status == 2 && after == before
    else
      var limit: Option<nat> := if args.limit.None? then None else Some(args.limit.value);
      var last := if args.anchorFile then LastRecorded(before) else None;
      if !NothingWrong(db.value, limit, last) then status == 1 && after == before
      else if !args.record then status == 0 && after == before
      else if append.Nothing? then status == 2 && after == before
      else if append.Part? then status == 2 && after == before + [NotAnchor]
      else
        && status == 0 && |after| == |before| + 1 && after[..|before|] == before && after[|before|].Recorded?
        && IsTailAnchor(db.value.audit, after[|before|].row.audit)
        && IsTailAnchor(db.value.custody, after[|before|].row.custody)
  }

  class AnchorFile {
    var lines: seq<Line>

    constructor (lines: seq<Line>)
      ensures this.lines == lines
    {
      this.lines := lines;
    }
  }

  method VerifyAndRecord(args: Args, file: AnchorFile, db: Option<Ledgers>, append: Append) returns (status: int)
    modifies file
    ensures MainRun(args, db, append, old(file.lines), file.lines, status)
  {
    if BadArguments(args) {
      return 2;
    }
    var last: Option<AnchorRow> := None;
    if args.anchorFile {
      var reading := ReadLastAnchor(file.lines);
      if reading.BadLine? {
        return 2;
      }
      last := reading.last;
    }
    if db.None? {
      return 2;
    }
    var limit: Option<nat> := if args.limit.None? then None else Some(args.limit.value);
    if !NothingWrong(db.value, limit, last) {
      return 1;
    }
    if !args.record {
      return 0;
    }
    if append.Nothing? {
      return 2;
    }
    if append.Part? {
      file.lines := file.lines + [NotAnchor];
      return 2;
    }
    var audit := FindTail(db.value.audit);
    var custody := FindTail(db.value.custody);
    file.lines := file.lines + [Recorded(AnchorRow(audit, custody))];
    status := 0;
  }

  /** A run changes the file only by recording, and records only after a whole-table run
      that found nothing wrong: a run over the newest events alone never records. What it adds is one
      record and the answer 0, or a part of one and the answer 2. */
  lemma RecordsOnlyWholeIntactRuns(args: Args, db: Option<Ledgers>, append: Append, before: seq<Line>, after: seq<Line>, status: int)
    requires MainRun(args, db, append, before, after, status) && after != before
    ensures args.record && args.anchorFile && Readable(before) && args.limit.None? && db.Some?
    ensures NothingWrong(db.value, None, LastRecorded(before))
    ensures |after| == |before| + 1 && after[..|before|] == before
    ensures status == (if after[|before|].Recorded? then 0 else 2) && (status == 2 ==> after[|before|].NotAnchor?)
  {
    if append.Part? {
      assert after == before + [NotAnchor];
    }
  }

  /** What both ledgers' checks establish, the audit ledger's over its newest rows under --limit. */
  ghost predicate BothEstablish(db: Ledgers, limit: Option<nat>, last: Option<AnchorRow>, audit: seq<int>, custody: seq<int>)
    requires Listing(db.audit, audit) && Listing(db.custody, custody)
  {
    && Establishes(db.audit, db.auditBoundary, limit, if last.None? then None else last.value.audit, audit)
    && Establishes(db.custody, db.custodyBoundary, None, if last.None? then None else last.value.custody, custody)
  }

  /** The answer of every run: 2 where the arguments do not go together, the file cannot be read or there is
      no database; else 1 exactly when the ledgers do not show what an intact run establishes; else 0, or 2
      when a tail was to be recorded and was not. */
  lemma AnswersExactly(args: Args, db: Option<Ledgers>, append: Append, before: seq<Line>, after: seq<Line>, status: int,
                       audit: seq<int>, custody: seq<int>)
    requires MainRun(args, db, append, before, after, status)
    requires db.Some? ==> Listing(db.value.audit, audit) && Listing(db.value.custody, custody)
    ensures var limit: Option<nat> := if args.limit.Some? && args.limit.value >= 1 then Some(args.limit.value) else None;
      var last := if args.anchorFile then LastRecorded(before) else None;
      status ==
        if (args.record && (!args.anchorFile || args.limit.Some?)) || (args.limit.Some? && limit.None?)
           || (args.anchorFile && NotAnchor in before) || db.None? then 2
        else if !BothEstablish(db.value, limit, last, audit, custody) then 1
        else if args.record && !append.Whole? then 2 else 0
  {
    hide Intact, Establishes, Listing, LastRecorded, IsTailAnchor;
    var limit: Option<nat> := if args.limit.Some? && args.limit.value >= 1 then Some(args.limit.value) else None;
    var last := if args.anchorFile then LastRecorded(before) else None;
    if db.Some? {
      IntactExactly(db.value.audit, db.value.auditBoundary, limit, if last.None? then None else last.value.audit, audit);
      IntactExactly(db.value.custody, db.value.custodyBoundary, None, if last.None? then None else last.value.custody, custody);
    }
  }

  // ---- Histories ----

  datatype Run = Run(args: Args, db: Option<Ledgers>, append: Append, before: seq<Line>, after: seq<Line>, status: int)

  /** Runs over one anchor file, whatever happened to the database between them. */
  ghost predicate History(runs: seq<Run>) {
    && (forall i :: 0 <= i < |runs| ==>
          var r := runs[i]; MainRun(r.args, r.db, r.append, r.before, r.after, r.status))
    && (forall i :: 0 < i < |runs| ==> runs[i].before == runs[i - 1].after)
  }

  ghost predicate Records(r: Run) {
    r.after != r.before && r.status == 0
  }

  /** The tables a run recorded end where their numbers end, with no fork. */
  ghost predicate EndsInOrder(r: Run)
    requires r.db.Some?
  {
    var db := r.db.value;
    && Forks(db.audit) == {} && Forks(db.custody) == {}
    && (forall k :: IsTail(db.audit, k) ==> Unclaimed(db.audit, k))
    && (forall k :: IsTail(db.custody, k) ==> Unclaimed(db.custody, k))
  }

  lemma StepCovers(t: Table, boundary: Option<int>, earlier: Option<Anchor>, a: Option<Anchor>, u: Table, later: Option<int>)
    requires CleanTable(t) && CleanTable(u) && Intact(t, boundary, None, earlier) && IsTailAnchor(t, a)
    requires Forks(t) == {} && (forall k :: IsTail(t, k) ==> Unclaimed(t, k))
    requires Intact(u, later, None, a)
    ensures Covers(t, u)
  {
    IntactMeans(t, boundary, earlier);
    IntactMeans(u, later, a);
    NoForks(t);
    if a.None? {
      assert Embeds(t, u, map[]);
    } else {
      HeldAnchorCovers(t, a.value.number, u);
    }
  }

  /** A file no run can read any more is left as it is. */
  lemma UnreadableStays(r: Run)
    requires MainRun(r.args, r.db, r.append, r.before, r.after, r.status) && !Records(r)
    ensures r.after == r.before || !Readable(r.after)
    ensures !Readable(r.before) ==> !Readable(r.after)
  {
    if r.after != r.before {
      RecordsOnlyWholeIntactRuns(r.args, r.db, r.append, r.before, r.after, r.status);
      assert r.after[|r.before|] in r.after;
    }
  }

  /** The file a run reads still ends with the line of the last run that recorded, unless an append cut
      short has left it unreadable. */
  lemma {:induction false} FileUnchanged(runs: seq<Run>, i: nat, j: nat)
    requires History(runs) && i < j < |runs|
    requires forall k :: i < k < j ==> !Records(runs[k])
    ensures runs[j].before == runs[i].after || !Readable(runs[j].before)
    decreases j
  {
    hide Readable;
    if i < j - 1 {
      FileUnchanged(runs, i, j - 1);
      assert !Records(runs[j - 1]);
      UnreadableStays(runs[j - 1]);
    }
  }

  /** The latest run before j that recorded, when run i did. */
  lemma LatestRecording(runs: seq<Run>, i: nat, j: nat) returns (m: nat)
    requires i < j < |runs| && Records(runs[i])
    ensures i <= m < j && Records(runs[m]) && forall k :: m < k < j ==> !Records(runs[k])
  {
    m := j - 1;
    while !Records(runs[m])
      invariant i <= m < j
      invariant forall k :: m < k < j ==> !Records(runs[k])
      decreases m
    {
      m := m - 1;
    }
  }

  /** Every recording run saw tables of clean rows. */
  ghost predicate CleanRecords(runs: seq<Run>) {
    forall k :: 0 <= k < |runs| && Records(runs[k]) ==> CleanDb(runs[k])
  }

  ghost predicate CleanDb(r: Run) {
    r.db.Some? && CleanTable(r.db.value.audit) && CleanTable(r.db.value.custody)
  }

  lemma NextRecordingCovers(runs: seq<Run>, i: nat, j: nat)
    requires History(runs) && i < j < |runs| && Records(runs[i]) && Records(runs[j])
    requires forall k :: i < k < j ==> !Records(runs[k])
    requires CleanDb(runs[i]) && CleanDb(runs[j]) && EndsInOrder(runs[i])
    ensures CoversBoth(runs[i], runs[j])
  {
    var r, s := runs[i], runs[j];
    FileUnchanged(runs, i, j);
    RecordsOnlyWholeIntactRuns(r.args, r.db, r.append, r.before, r.after, r.status);
    RecordsOnlyWholeIntactRuns(s.args, s.db, s.append, s.before, s.after, s.status);
    var line := r.after[|r.before|].row;
    assert LastRecorded(s.before) == Some(line);
    var earlier := LastRecorded(r.before);
    StepCovers(r.db.value.audit, r.db.value.auditBoundary, if earlier.None? then None else earlier.value.audit,
      line.audit, s.db.value.audit, s.db.value.auditBoundary);
    StepCovers(r.db.value.custody, r.db.value.custodyBoundary, if earlier.None? then None else earlier.value.custody,
      line.custody, s.db.value.custody, s.db.value.custodyBoundary);
  }

  ghost predicate CoversBoth(r: Run, s: Run)
    requires r.db.Some? && s.db.Some?
  {
    Covers(r.db.value.audit, s.db.value.audit) && Covers(r.db.value.custody, s.db.value.custody)
  }

  /** Anchors over a whole history: however the database was changed between runs, the
      ledgers at a recording run hold every row of the ledgers at any earlier one, as long
      as each recorded tail was the end of its chain. */
  lemma {:induction false} RecordedHistoryExtends(runs: seq<Run>, i: nat, j: nat)
    requires History(runs) && i < j < |runs| && Records(runs[i]) && Records(runs[j])
    requires CleanRecords(runs)
    requires forall k :: i <= k < j && Records(runs[k]) ==> EndsInOrder(runs[k])
    ensures CoversBoth(runs[i], runs[j])
    decreases j
  {
    hide History, Records, CleanTable, EndsInOrder, Covers;
    var m := LatestRecording(runs, i, j);
    assert CleanDb(runs[i]) && CleanDb(runs[m]) && CleanDb(runs[j]);
    NextRecordingCovers(runs, m, j);
    if m > i {
      RecordedHistoryExtends(runs, i, m);
      CoversTransitive(runs[i].db.value.audit, runs[m].db.value.audit, runs[j].db.value.audit);
      CoversTransitive(runs[i].db.value.custody, runs[m].db.value.custody, runs[j].db.value.custody);
    }
  }
}
