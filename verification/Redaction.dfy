/** The repair of dead letters recorded before the redactor existed. */
module Redaction {
  import opened Basics
  import opened Options

  /** SHA-256 of a text, kept as the text it is the digest of. */
  datatype Digest = Sha256(message: string)

  /** A dead letter; a NULL fragment is an empty one. */
  datatype Row = Row(fragment: Option<string>, redacted: bool, digest: Option<Digest>)

  const BATCH: nat := 500

  function TextOf(r: Row): string {
    if r.fragment.Some? then r.fragment.value else ""
  }

  function Redacted(r: Row, redact: string -> string): Row {
    Row(Some(redact(TextOf(r))), true, Some(Sha256(TextOf(r))))
  }

  /** Rows are in the order the script reads them, oldest first. */
  function Pending(rows: seq<Row>): nat {
    if rows == [] then 0 else (if rows[0].redacted then 0 else 1) + Pending(rows[1..])
  }

  /** The n oldest unredacted rows redacted, the others as they were. */
  function Oldest(rows: seq<Row>, n: nat, redact: string -> string): (r: seq<Row>)
    ensures |r| == |rows|
  {
    if rows == [] || n == 0 then rows
    else if rows[0].redacted then [rows[0]] + Oldest(rows[1..], n, redact)
    else [Redacted(rows[0], redact)] + Oldest(rows[1..], n - 1, redact)
  }

  lemma {:induction false} PendingJoins(a: seq<Row>, b: seq<Row>)
    ensures Pending(a + b) == Pending(a) + Pending(b)
  {
    if a == [] {
      assert a + b == b;
    } else {
      PendingJoins(a[1..], b);
      assert (a + b)[1..] == a[1..] + b;
    }
  }

  /** Redacting the oldest row left after n is redacting n + 1. */
  lemma {:induction false} OneMore(rows: seq<Row>, n: nat, i: nat, redact: string -> string)
    requires i < |rows| && !rows[i].redacted && Pending(rows[..i]) == n
    ensures Oldest(rows, n, redact)[i] == rows[i]
    ensures Oldest(rows, n + 1, redact) == Oldest(rows, n, redact)[i := Redacted(rows[i], redact)]
  {
    hide Redacted;
    if i > 0 {
      assert rows[..i][1..] == rows[1..][..i - 1];
      var less := if rows[0].redacted then n else n - 1;
      OneMore(rows[1..], less, i - 1, redact);
    }
  }

  /** Row by row: one of the oldest n unredacted rows holds the redaction of what it held, the flag and the
      digest of what it held; every other row is as it was. */
  lemma {:induction false} OldestAt(rows: seq<Row>, n: nat, redact: string -> string, i: nat)
    requires i < |rows|
    ensures var was, now := rows[i], Oldest(rows, n, redact)[i];
      if was.redacted || Pending(rows[..i]) >= n then now == was
      else
        var held := if was.fragment.Some? then was.fragment.value else "";
        now.fragment == Some(redact(held)) && now.redacted && now.digest == Some(Sha256(held))
  {
    if i > 0 && n > 0 {
      assert rows[..i][1..] == rows[1..][..i - 1];
      OldestAt(rows[1..], if rows[0].redacted then n else n - 1, redact, i - 1);
    } else if n == 0 {
      OldestNone(rows, redact);
    } else {
      assert rows[..0] == [];
    }
  }

  lemma {:induction false} OldestPending(rows: seq<Row>, n: nat, redact: string -> string)
    ensures Pending(Oldest(rows, n, redact)) == if n <= Pending(rows) then Pending(rows) - n else 0
  {
    if rows != [] && n > 0 {
      OldestPending(rows[1..], if rows[0].redacted then n else n - 1, redact);
    }
  }

  // The table under every write.

  /** One statement on the table: a row inserted, or one row given new values. */
  datatype Write = Insert(row: Row) | Update(at: nat, row: Row)

  /** CHECK (redacted) NOT VALID: asked of every row written from now on and of none already there. */
  predicate Allowed(w: Write) {
    w.row.redacted
  }

  /** None: the constraint refused the statement. */
  function Written(rows: seq<Row>, w: Write): Option<seq<Row>> {
    if w.Update? && w.at >= |rows| then Some(rows)
    else if !Allowed(w) then None
    else if w.Insert? then Some(rows + [w.row])
    else Some(rows[w.at := w.row])
  }

  function AfterWrites(rows: seq<Row>, writes: seq<Write>): seq<Row>
    decreases |writes|
  {
    if writes == [] then rows
    else
      var next := Written(rows, writes[0]);
      AfterWrites(if next.Some? then next.value else rows, writes[1..])
  }

  lemma PendingUpdated(rows: seq<Row>, k: nat, row: Row)
    requires k < |rows|
    ensures Pending(rows[k := row]) ==
      Pending(rows) - (if rows[k].redacted then 0 else 1) + (if row.redacted then 0 else 1)
  {
    hide Pending;
    assert rows == rows[..k] + [rows[k]] + rows[k + 1..];
    assert rows[k := row] == rows[..k] + [row] + rows[k + 1..];
    PendingJoins(rows[..k] + [rows[k]], rows[k + 1..]);
    PendingJoins(rows[..k], [rows[k]]);
    PendingJoins(rows[..k] + [row], rows[k + 1..]);
    PendingJoins(rows[..k], [row]);
    PendingOne(rows[k]);
    PendingOne(row);
  }

  lemma PendingOne(row: Row)
    ensures Pending([row]) == if row.redacted then 0 else 1
  {
    assert [row][1..] == [];
  }

  /** Whatever is written, by anybody, with any flag: the number of unredacted rows never rises. */
  lemma {:induction false} UnredactedNeverRises(rows: seq<Row>, writes: seq<Write>)
    ensures Pending(AfterWrites(rows, writes)) <= Pending(rows)
    decreases |writes|
  {
    hide Pending;
    if writes != [] {
      var w := writes[0];
      var next := Written(rows, w);
      if next.Some? {
        if w.Insert? {
          PendingJoins(rows, [w.row]);
          PendingOne(w.row);
        } else if w.at < |rows| {
          PendingUpdated(rows, w.at, w.row);
        }
        UnredactedNeverRises(next.value, writes[1..]);
      } else {
        UnredactedNeverRises(rows, writes[1..]);
      }
    }
  }

  // What the code writes.

  const UNSTORABLE := "[fragment not storable]"
  const PURGED := "[purged on retention]"

  /** Arrive: a dead letter recorded, its fragment redacted or, when even that cannot be stored, left
      out. Purge: the retention sweep over some rows. Repair: a run of the script, cut short after n rows. */
  datatype Event = Arrive(text: string, storable: bool) | Purge(at: nat) | Repair(n: nat)

  function ArriveWrite(text: string, storable: bool, redact: string -> string): Write {
    Insert(Row(Some(if storable then redact(text) else UNSTORABLE), true, Some(Sha256(text))))
  }

  function PurgeWrite(rows: seq<Row>, k: nat): Write
    requires k < |rows|
  {
    Update(k, rows[k].(fragment := Some(PURGED), redacted := true))
  }

  function WritesOf(rows: seq<Row>, e: Event, redact: string -> string): seq<Write> {
    match e
    case Arrive(text, storable) => [ArriveWrite(text, storable, redact)]
    case Purge(k) => if k < |rows| then [PurgeWrite(rows, k)] else []
    case Repair(n) => RepairWrites(rows, n, redact, 0)
  }

  /** The repair's updates of the oldest n unredacted rows from position i on. */
  function RepairWrites(rows: seq<Row>, n: nat, redact: string -> string, i: nat): seq<Write>
    decreases |rows| - i
  {
    if i >= |rows| || n == 0 then []
    else if rows[i].redacted then RepairWrites(rows, n, redact, i + 1)
    else [Update(i, Redacted(rows[i], redact))] + RepairWrites(rows, n - 1, redact, i + 1)
  }

  function After(rows: seq<Row>, e: Event, redact: string -> string): seq<Row> {
    AfterWrites(rows, WritesOf(rows, e, redact))
  }

  lemma RepairIsAllowed(r: Row, redact: string -> string)
    ensures Redacted(r, redact).redacted
  {
  }

  lemma OneWrite(rows: seq<Row>, w: Write)
    ensures AfterWrites(rows, [w]) == if Written(rows, w).Some? then Written(rows, w).value else rows
  {
    assert [w][1..] == [] && AfterWrites(rows, []) == rows;
  }

  /** An allowed update first and the rest after it. */
  lemma UpdateFirst(start: seq<Row>, i: nat, row: Row, rest: seq<Write>)
    requires i < |start| && row.redacted
    ensures AfterWrites(start, [Update(i, row)] + rest) == AfterWrites(start[i := row], rest)
  {
    assert ([Update(i, row)] + rest)[1..] == rest;
  }

  lemma OldestSkips(rows: seq<Row>, i: nat, n: nat, redact: string -> string)
    requires i < |rows| && n > 0
    ensures Oldest(rows[i..], n, redact) ==
      if rows[i].redacted then [rows[i]] + Oldest(rows[i + 1..], n, redact)
      else [Redacted(rows[i], redact)] + Oldest(rows[i + 1..], n - 1, redact)
  {
    hide Redacted;
    assert rows[i..][1..] == rows[i + 1..];
  }

  /** Each of those updates passes the constraint, and together they redact the oldest n. */
  lemma {:induction false} RepairWritesAre(rows: seq<Row>, start: seq<Row>, n: nat, redact: string -> string, i: nat)
    requires i <= |rows| && |start| == |rows| && rows[i..] == start[i..]
    ensures AfterWrites(start, RepairWrites(rows, n, redact, i)) == start[..i] + Oldest(rows[i..], n, redact)
    decreases |rows| - i
  {
    hide AfterWrites, Oldest, Redacted;
    if i == |rows| || n == 0 {
      NoWrites(start);
      OldestNone(rows[i..], redact);
      OldestEmpty(n, redact);
      assert start == start[..i] + rows[i..];
    } else {
      OldestSkips(rows, i, n, redact);
      assert start[i] == start[i..][0] == rows[i];
      if rows[i].redacted {
        assert start[i + 1..] == start[i..][1..] == rows[i..][1..] == rows[i + 1..];
        RepairWritesAre(rows, start, n, redact, i + 1);
        assert start[..i + 1] == start[..i] + [rows[i]];
      } else {
        var row := Redacted(rows[i], redact);
        RepairIsAllowed(rows[i], redact);
        var next := start[i := row];
        assert next[i + 1..] == start[i..][1..] == rows[i..][1..] == rows[i + 1..];
        RepairWritesAre(rows, next, n - 1, redact, i + 1);
        assert next[..i + 1] == start[..i] + [row];
        UpdateFirst(start, i, row, RepairWrites(rows, n - 1, redact, i + 1));
      }
    }
  }

  lemma NoWrites(rows: seq<Row>)
    ensures AfterWrites(rows, []) == rows
  {
  }

  lemma OldestEmpty(n: nat, redact: string -> string)
    ensures Oldest([], n, redact) == []
  {
  }

  lemma RepairIsOldest(rows: seq<Row>, n: nat, redact: string -> string)
    ensures After(rows, Repair(n), redact) == Oldest(rows, n, redact)
  {
    RepairWritesAre(rows, rows, n, redact, 0);
    assert rows[0..] == rows && rows[..0] == [];
  }

  lemma PurgeIs(rows: seq<Row>, k: nat, redact: string -> string)
    ensures After(rows, Purge(k), redact) ==
      if k < |rows| then rows[k := rows[k].(fragment := Some(PURGED), redacted := true)] else rows
  {
    hide AfterWrites, PURGED;
    if k < |rows| {
      OneWrite(rows, PurgeWrite(rows, k));
    } else {
      NoWrites(rows);
    }
  }

  lemma ArriveIs(rows: seq<Row>, text: string, storable: bool, redact: string -> string)
    ensures After(rows, Arrive(text, storable), redact) ==
      rows + [Row(Some(if storable then redact(text) else UNSTORABLE), true, Some(Sha256(text)))]
  {
    hide AfterWrites, UNSTORABLE;
    OneWrite(rows, ArriveWrite(text, storable, redact));
  }

  /** What a row says of the text that was first recorded in it: a stored digest is that text's, and a
      row not redacted still holds it. */
  ghost predicate Honest(r: Row, recorded: string) {
    && (r.digest.Some? ==> r.digest.value == Sha256(recorded))
    && (!r.redacted ==> TextOf(r) == recorded)
  }

  ghost predicate AllHonest(rows: seq<Row>, recorded: seq<string>) {
    |rows| == |recorded| && forall i :: 0 <= i < |rows| ==> Honest(rows[i], recorded[i])
  }

  lemma {:induction false} OldestKeepsHonest(rows: seq<Row>, n: nat, recorded: seq<string>, redact: string -> string)
    requires AllHonest(rows, recorded)
    ensures AllHonest(Oldest(rows, n, redact), recorded)
  {
    if rows != [] && n > 0 {
      OldestKeepsHonest(rows[1..], if rows[0].redacted then n else n - 1, recorded[1..], redact);
    }
  }

  function Run(rows: seq<Row>, events: seq<Event>, redact: string -> string): seq<Row>
    decreases |events|
  {
    if events == [] then rows else Run(After(rows, events[0], redact), events[1..], redact)
  }

  function RecordedAfter(recorded: seq<string>, e: Event): seq<string> {
    if e.Arrive? then recorded + [e.text] else recorded
  }

  function RecordedRun(recorded: seq<string>, events: seq<Event>): seq<string>
    decreases |events|
  {
    if events == [] then recorded else RecordedRun(RecordedAfter(recorded, events[0]), events[1..])
  }

  lemma EventKeepsHonest(rows: seq<Row>, e: Event, recorded: seq<string>, redact: string -> string)
    requires AllHonest(rows, recorded)
    ensures AllHonest(After(rows, e, redact), RecordedAfter(recorded, e))
  {
    hide After;
    match e {
      case Arrive(text, storable) => ArriveIs(rows, text, storable, redact);
      case Purge(k) => PurgeIs(rows, k, redact);
      case Repair(n) =>
        RepairIsOldest(rows, n, redact);
        OldestKeepsHonest(rows, n, recorded, redact);
    }
  }

  /** Over any run of arrivals, purges and repairs, each repair cut short anywhere, every stored digest
      is of the originally recorded fragment, never of a redacted or purged one, and the number of
      unredacted rows never rises. */
  lemma {:induction false} RunsKeepFaith(rows: seq<Row>, events: seq<Event>, recorded: seq<string>, redact: string -> string)
    requires AllHonest(rows, recorded)
    ensures AllHonest(Run(rows, events, redact), RecordedRun(recorded, events))
    ensures Pending(Run(rows, events, redact)) <= Pending(rows)
    decreases |events|
  {
    hide AllHonest, WritesOf;
    if events != [] {
      EventKeepsHonest(rows, events[0], recorded, redact);
      UnredactedNeverRises(rows, WritesOf(rows, events[0], redact));
      RunsKeepFaith(After(rows, events[0], redact), events[1..], RecordedAfter(recorded, events[0]), redact);
    }
  }

  class DeadLetters {
    var rows: seq<Row>

    constructor (rows: seq<Row>)
      ensures this.rows == rows
    {
      this.rows := rows;
    }

    /** The next batch: the positions of at most BATCH unredacted rows, oldest first. */
    method NextBatch() returns (batch: seq<nat>)
      ensures |batch| == Least(BATCH, Pending(rows))
      ensures forall k :: 0 <= k < |batch| ==> batch[k] < |rows| && !rows[batch[k]].redacted && Pending(rows[..batch[k]]) == k
    {
      batch := [];
      var i := 0;
      assert rows[..0] == [];
      while i < |rows| && |batch| < BATCH
        invariant 0 <= i <= |rows| && |batch| <= BATCH
        invariant |batch| == Pending(rows[..i])
        invariant forall k :: 0 <= k < |batch| ==> batch[k] < i && !rows[batch[k]].redacted && Pending(rows[..batch[k]]) == k
      {
        assert rows[..i + 1] == rows[..i] + [rows[i]];
        PendingJoins(rows[..i], [rows[i]]);
        if !rows[i].redacted {
          batch := batch + [i];
        }
        i := i + 1;
      }
      assert rows == rows[..i] + rows[i..];
      PendingJoins(rows[..i], rows[i..]);
    }

    /** --apply: batch after batch until nothing is pending or --limit rows are done (0 is all). */
    method Apply(limit: nat, redact: string -> string) returns (done: nat)
      modifies this
      ensures done == if limit == 0 then Pending(old(rows)) else Least(limit, Pending(old(rows)))
      ensures rows == Oldest(old(rows), done, redact)
      ensures Pending(rows) == Pending(old(rows)) - done
    {
      hide Oldest, Pending;
      ghost var was := rows;
      OldestNone(was, redact);
      var total := Pending(rows);
      done := 0;
      OldestPending(was, 0, redact);
      if total == 0 {
        return;
      }
      while true
        invariant rows == Oldest(was, done, redact) && done <= total == Pending(was)
        invariant Pending(rows) == total - done
        invariant limit > 0 ==> done < limit
        decreases total - done
      {
        var batch := NextBatch();
        if batch == [] {
          break;
        }
        ghost var start, before := done, rows;
        OldestNone(before, redact);
        var k := 0;
        while k < |batch| && (limit == 0 || done < limit)
          invariant 0 <= k <= |batch| && done == start + k
          invariant rows == Oldest(before, k, redact)
          invariant limit > 0 ==> done <= limit
        {
          OneMore(before, k, batch[k], redact);
          var original := TextOf(rows[batch[k]]);
          rows := rows[batch[k] := Row(Some(redact(original)), true, Some(Sha256(original)))];
          done := done + 1;
          k := k + 1;
        }
        OldestTwice(was, start, k, redact);
        OldestPending(was, done, redact);
        if limit > 0 && done >= limit {
          break;
        }
      }
    }
  }

  lemma OldestNone(rows: seq<Row>, redact: string -> string)
    ensures Oldest(rows, 0, redact) == rows
  {
  }

  lemma {:induction false} OldestTwice(rows: seq<Row>, a: nat, b: nat, redact: string -> string)
    ensures Oldest(Oldest(rows, a, redact), b, redact) == Oldest(rows, a + b, redact)
  {
    if rows != [] && a > 0 {
      OldestTwice(rows[1..], if rows[0].redacted then a else a - 1, b, redact);
      assert Oldest(rows, a, redact)[1..] == Oldest(rows[1..], if rows[0].redacted then a else a - 1, redact);
    }
  }
}
