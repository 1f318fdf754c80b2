/** Writers appending to one hash-chained ledger, interleaved step by step.

    A transaction holds the advisory lock from its first append until it commits or
    rolls back; the sequence is outside any transaction, so an aborted draw leaves a
    gap.  `UNDER_LOCK` is the trigger at head (migration 0149); in a form not `underLock`,
    like the first (0013, 0024), the column default draws the number before the trigger
    takes the lock.
 */
module LedgerProtocol {
  import opened Options
  import opened Chain

  /** underLock: number and clock are taken after the lock.  guarded: an append outside
      READ COMMITTED is refused before the lock. */
  datatype Form = Form(underLock: bool, guarded: bool)
  const UNDER_LOCK := Form(true, true)
  const UNGUARDED := Form(true, false)

  datatype Isolation = ReadCommitted | RepeatableRead

  datatype Entry = Entry(number: nat, row: Row)

  /** Where a writer is inside one row's INSERT. */
  datatype Phase =
    | Rest
    | Waiting(payload: Payload, marked: bool, drawn: Option<nat>)
    | Locked(payload: Payload, marked: bool, drawn: Option<nat>)
    | Placed(payload: Payload, number: nat)
    | Linked(payload: Payload, number: nat, prev: Option<Digest>)

  /** snapshot: what the transaction's first statement saw.  own: its uncommitted rows. */
  datatype Writer = Writer(isolation: Isolation, began: nat, snapshot: seq<Entry>, own: seq<Entry>, phase: Phase)

  datatype State = State(committed: seq<Entry>, last: nat, clock: nat, lock: Option<int>, writers: map<int, Writer>)

  /** marked: the request role's rows, whose time the database sets. */
  datatype Action =
    | Begin(w: int, isolation: Isolation)
    | Insert(w: int, payload: Payload, marked: bool)
    | Lock(w: int)
    | Number(w: int)
    | ReadTail(w: int)
    | Append(w: int)
    | Commit(w: int)
    | Abort(w: int)
    | Tick(micros: nat)

  /** The row an `ORDER BY number DESC LIMIT 1` answers. */
  function Highest(rows: seq<Entry>): Entry
    requires |rows| > 0
  {
    if |rows| == 1 then rows[0]
    else
      var rest := Highest(rows[1..]);
      if rest.number > rows[0].number then rest else rows[0]
  }

  function Tail(rows: seq<Entry>): Option<Digest> {
    if rows == [] then None else Some(Highest(rows).row.rowHash)
  }

  function Visible(s: State, w: int): seq<Entry>
    requires w in s.writers
  {
    (if s.writers[w].isolation.ReadCommitted? then s.committed else s.writers[w].snapshot) + s.writers[w].own
  }

  function WithPhase(s: State, w: int, phase: Phase): State
    requires w in s.writers
  {
    s.(writers := s.writers[w := s.writers[w].(phase := phase)])
  }

  /** The transaction ends: its lock is released with it. */
  function Ended(s: State, w: int): State {
    s.(lock := if s.lock == Some(w) then None else s.lock, writers := s.writers - {w})
  }

  /** The custody ledger always sets the time; the audit ledger does for a marked row. */
  function Stamped(p: Payload, marked: bool, time: nat): Payload {
    if p.Custody? || marked then AtTime(p, time) else p
  }

  predicate Enabled(form: Form, s: State, a: Action) {
    match a
    case Begin(w, _) => w !in s.writers
    case Tick(_) => true
    case Insert(w, _, _) => w in s.writers && s.writers[w].phase.Rest?
    case Lock(w) => w in s.writers && s.writers[w].phase.Waiting? && (s.lock.None? || s.lock == Some(w))
    case Number(w) => w in s.writers && s.writers[w].phase.Locked?
    case ReadTail(w) => w in s.writers && s.writers[w].phase.Placed?
    case Append(w) => w in s.writers && s.writers[w].phase.Linked?
    case Commit(w) => w in s.writers && s.writers[w].phase.Rest?
    case Abort(w) => w in s.writers
  }

  function Apply(form: Form, s: State, a: Action): State
    requires Enabled(form, s, a)
  {
    match a
    case Begin(w, isolation) =>
      s.(writers := s.writers[w := Writer(isolation, s.clock, s.committed, [], Rest)])
    case Insert(w, p, marked) =>
      if form.guarded && s.writers[w].isolation.RepeatableRead? then Ended(s, w)
      else if form.underLock then WithPhase(s, w, Waiting(p, marked, None))
      else WithPhase(s.(last := s.last + 1), w, Waiting(p, marked, Some(s.last + 1)))
    case Lock(w) =>
      var at := s.writers[w].phase;
      WithPhase(s.(lock := Some(w)), w, Locked(at.payload, at.marked, at.drawn))
    case Number(w) =>
      var at := s.writers[w].phase;
      if at.drawn.Some? then
        WithPhase(s, w, Placed(Stamped(at.payload, false, s.writers[w].began), at.drawn.value))
      else
        WithPhase(s.(last := s.last + 1), w, Placed(Stamped(at.payload, at.marked, s.clock), s.last + 1))
    case ReadTail(w) =>
      var at := s.writers[w].phase;
      WithPhase(s, w, Linked(at.payload, at.number, Tail(Visible(s, w))))
    case Append(w) =>
      var at := s.writers[w].phase;
      var entry := Entry(at.number, RowAfter(at.prev, at.payload));
      var writer := s.writers[w].(own := s.writers[w].own + [entry], phase := Rest);
      s.(writers := s.writers[w := writer])
    case Commit(w) =>
      Ended(s.(committed := s.committed + s.writers[w].own), w)
    case Abort(w) => Ended(s, w)
    case Tick(micros) => s.(clock := s.clock + micros)
  }

  /** A step that is not enabled waits: it changes nothing. */
  function Step(form: Form, s: State, a: Action): State {
    if Enabled(form, s, a) then Apply(form, s, a) else s
  }

  function Run(form: Form, s: State, actions: seq<Action>): State
    decreases |actions|
  {
    if actions == [] then s else Run(form, Step(form, s, actions[0]), actions[1..])
  }

  const START := State([], 0, 0, None, map[])

  // ---- At head: one chain, in number order, under every interleaving ----

  ghost predicate LinkedAt(rows: seq<Entry>, i: nat)
    requires i < |rows|
  {
    && ContentOk(rows[i].row)
    && rows[i].row.prevHash == (if i == 0 then None else Some(rows[i - 1].row.rowHash))
    && (i > 0 ==> rows[i - 1].number < rows[i].number)
  }

  ghost predicate Chained(rows: seq<Entry>) {
    forall i :: 0 <= i < |rows| ==> LinkedAt(rows, i)
  }

  ghost predicate NumbersUpTo(rows: seq<Entry>, last: nat) {
    forall i :: 0 <= i < |rows| ==> rows[i].number <= last
  }

  ghost predicate NumbersBelow(rows: seq<Entry>, n: nat) {
    forall i :: 0 <= i < |rows| ==> rows[i].number < n
  }

  /** Server-stamped times never run backwards along the chain. */
  ghost predicate TimesOrdered(rows: seq<Entry>, clock: nat) {
    && (forall i :: 0 <= i < |rows| && rows[i].row.payload.Custody? ==> rows[i].row.payload.occurredAt <= clock)
    && (forall i, j :: 0 <= i < j < |rows| && rows[i].row.payload.Custody? && rows[j].row.payload.Custody? ==>
          rows[i].row.payload.occurredAt <= rows[j].row.payload.occurredAt)
  }

  ghost predicate Extends(rows: seq<Entry>, last: nat, clock: nat) {
    Chained(rows) && NumbersUpTo(rows, last) && TimesOrdered(rows, clock)
  }

  /** What the lock holder has prepared fits on the chain it sees. */
  ghost predicate Fits(rows: seq<Entry>, last: nat, clock: nat, phase: Phase) {
    match phase
    case Rest => true
    case Waiting(_, _, drawn) => drawn.None?
    case Locked(_, _, drawn) => drawn.None?
    case Placed(p, n) => NumbersBelow(rows, n) && n <= last && (p.Custody? ==> TimesOrdered(rows, p.occurredAt) && p.occurredAt <= clock)
    case Linked(p, n, prev) =>
      && NumbersBelow(rows, n) && n <= last && (p.Custody? ==> TimesOrdered(rows, p.occurredAt) && p.occurredAt <= clock)
      && prev == (if rows == [] then None else Some(rows[|rows| - 1].row.rowHash))
  }

  ghost predicate HolderOk(s: State, w: int)
    requires w in s.writers
  {
    var writer := s.writers[w];
    && writer.isolation.ReadCommitted?
    && Extends(s.committed + writer.own, s.last, s.clock)
    && Fits(s.committed + writer.own, s.last, s.clock, writer.phase)
  }

  ghost predicate WaiterOk(writer: Writer) {
    writer.own == [] && (writer.phase.Rest? || (writer.phase.Waiting? && writer.phase.drawn.None? && writer.isolation.ReadCommitted?))
  }

  ghost predicate Inv(s: State) {
    && Extends(s.committed, s.last, s.clock)
    && (s.lock.Some? ==> s.lock.value in s.writers)
    && forall w :: w in s.writers ==> if s.lock == Some(w) then HolderOk(s, w) else WaiterOk(s.writers[w])
  }

  lemma HighestIsLast(rows: seq<Entry>)
    requires |rows| > 0
    requires NumbersBelow(rows[..|rows| - 1], rows[|rows| - 1].number)
    ensures Highest(rows) == rows[|rows| - 1]
  {
    if |rows| > 1 {
      assert rows[..|rows| - 1][0] == rows[0];
      forall i | 0 <= i < |rows| - 2 ensures rows[1..][i].number < rows[|rows| - 1].number {
        assert rows[..|rows| - 1][i + 1] == rows[i + 1];
      }
      HighestIsLast(rows[1..]);
    }
  }

  lemma Increasing(rows: seq<Entry>, i: nat, j: nat)
    requires Chained(rows) && i < j < |rows|
    ensures rows[i].number < rows[j].number
    decreases j - i
  {
    assert LinkedAt(rows, i + 1);
    if i + 1 < j {
      Increasing(rows, i + 1, j);
    }
  }

  lemma AppendExtends(rows: seq<Entry>, entry: Entry, last: nat, clock: nat)
    requires Extends(rows, last, clock)
    requires Fits(rows, last, clock, Linked(entry.row.payload, entry.number, entry.row.prevHash))
    requires ContentOk(entry.row)
    ensures Extends(rows + [entry], last, clock)
  {
    hide HashOf;
    ChainedAppend(rows, entry);
    TimesAppend(rows, entry, clock);
  }

  lemma ChainedAppend(rows: seq<Entry>, entry: Entry)
    requires Chained(rows) && ContentOk(entry.row) && NumbersBelow(rows, entry.number)
    requires entry.row.prevHash == (if rows == [] then None else Some(rows[|rows| - 1].row.rowHash))
    ensures Chained(rows + [entry])
  {
    hide HashOf;
    var longer := rows + [entry];
    forall i | 0 <= i < |longer| ensures LinkedAt(longer, i) {
      if i < |rows| {
        assert LinkedAt(rows, i);
      }
    }
  }

  lemma TimesAppend(rows: seq<Entry>, entry: Entry, clock: nat)
    requires TimesOrdered(rows, clock)
    requires var p := entry.row.payload; p.Custody? ==> TimesOrdered(rows, p.occurredAt) && p.occurredAt <= clock
    ensures TimesOrdered(rows + [entry], clock)
  {
  }

  lemma NumberKeepsInv(s: State, w: int)
    requires Inv(s) && Enabled(UNDER_LOCK, s, Number(w))
    ensures Inv(Apply(UNDER_LOCK, s, Number(w)))
  {
    hide HashOf;
    var t := Apply(UNDER_LOCK, s, Number(w));
    assert s.lock == Some(w);
    var rows := s.committed + s.writers[w].own;
    assert t.committed + t.writers[w].own == rows;
    assert NumbersBelow(rows, t.last);
    assert TimesOrdered(rows, s.clock);
    assert HolderOk(t, w);
  }

  lemma ChainEndsHighest(rows: seq<Entry>)
    requires Chained(rows) && rows != []
    ensures Highest(rows) == rows[|rows| - 1]
  {
    hide LinkedAt;
    forall i | 0 <= i < |rows| - 1 ensures rows[i].number < rows[|rows| - 1].number {
      Increasing(rows, i, |rows| - 1);
    }
    HighestIsLast(rows);
  }

  lemma ReadTailKeepsInv(s: State, w: int)
    requires Inv(s) && Enabled(UNDER_LOCK, s, ReadTail(w))
    ensures Inv(Apply(UNDER_LOCK, s, ReadTail(w)))
  {
    hide HashOf, Highest, LinkedAt, TimesOrdered, NumbersBelow;
    var t := Apply(UNDER_LOCK, s, ReadTail(w));
    assert s.lock == Some(w);
    var rows := Visible(s, w);
    assert rows == s.committed + s.writers[w].own == t.committed + t.writers[w].own;
    if rows != [] {
      ChainEndsHighest(rows);
    }
    hide Chained;
    assert HolderOk(t, w);
  }

  lemma AppendKeepsInv(s: State, w: int)
    requires Inv(s) && Enabled(UNDER_LOCK, s, Append(w))
    ensures Inv(Apply(UNDER_LOCK, s, Append(w)))
  {
    hide HashOf;
    var t := Apply(UNDER_LOCK, s, Append(w));
    assert s.lock == Some(w);
    var at := s.writers[w].phase;
    var entry := Entry(at.number, RowAfter(at.prev, at.payload));
    AppendExtends(s.committed + s.writers[w].own, entry, s.last, s.clock);
    assert t.committed + t.writers[w].own == s.committed + s.writers[w].own + [entry];
    assert HolderOk(t, w);
  }

  lemma CommitKeepsInv(s: State, w: int)
    requires Inv(s) && Enabled(UNDER_LOCK, s, Commit(w))
    ensures Inv(Apply(UNDER_LOCK, s, Commit(w)))
  {
    hide HashOf;
    var t := Apply(UNDER_LOCK, s, Commit(w));
    if s.lock != Some(w) {
      assert t.committed == s.committed;
    }
  }

  lemma LockKeepsInv(s: State, w: int)
    requires Inv(s) && Enabled(UNDER_LOCK, s, Lock(w))
    ensures Inv(Apply(UNDER_LOCK, s, Lock(w)))
  {
    hide HashOf;
    var t := Apply(UNDER_LOCK, s, Lock(w));
    if s.lock.None? {
      assert t.committed + t.writers[w].own == s.committed;
    }
    assert HolderOk(t, w);
  }

  lemma StepKeepsInv(s: State, a: Action)
    requires Inv(s)
    ensures Inv(Step(UNDER_LOCK, s, a))
  {
    hide HashOf;
    if Enabled(UNDER_LOCK, s, a) {
      match a {
        case Begin(w, _) =>
        case Tick(_) =>
        case Insert(w, _, _) =>
        case Lock(w) => LockKeepsInv(s, w);
        case Number(w) => NumberKeepsInv(s, w);
        case ReadTail(w) => ReadTailKeepsInv(s, w);
        case Append(w) => AppendKeepsInv(s, w);
        case Commit(w) => CommitKeepsInv(s, w);
        case Abort(w) =>
      }
    }
  }

  lemma {:induction false} RunKeepsInv(s: State, actions: seq<Action>)
    requires Inv(s)
    ensures Inv(Run(UNDER_LOCK, s, actions))
    decreases |actions|
  {
    if actions != [] {
      StepKeepsInv(s, actions[0]);
      RunKeepsInv(Step(UNDER_LOCK, s, actions[0]), actions[1..]);
    }
  }

  // ---- Reachable states ----

  ghost predicate Reachable(form: Form, s: State) {
    exists actions :: Run(form, START, actions) == s
  }

  lemma {:induction false} RunSnoc(form: Form, s: State, actions: seq<Action>, a: Action)
    ensures Run(form, s, actions + [a]) == Step(form, Run(form, s, actions), a)
    decreases |actions|
  {
    if actions == [] {
      assert actions + [a] == [a];
      assert [a][1..] == [];
    } else {
      assert (actions + [a])[1..] == actions[1..] + [a];
      RunSnoc(form, Step(form, s, actions[0]), actions[1..], a);
    }
  }

  lemma StartReachable(form: Form)
    ensures Reachable(form, START)
  {
    assert Run(form, START, []) == START;
  }

  lemma StepReachable(form: Form, s: State, a: Action)
    requires Reachable(form, s)
    ensures Reachable(form, Step(form, s, a))
  {
    var actions :| Run(form, START, actions) == s;
    RunSnoc(form, START, actions, a);
    assert Run(form, START, actions + [a]) == Step(form, s, a);
  }

  lemma ReachableInv(s: State)
    requires Reachable(UNDER_LOCK, s)
    ensures Inv(s)
  {
    var actions :| Run(UNDER_LOCK, START, actions) == s;
    RunKeepsInv(START, actions);
  }

  lemma DepthAlong(rows: seq<Entry>, i: nat)
    requires Chained(rows) && i < |rows|
    ensures Depth(rows[i].row.rowHash) == i + 1
  {
    assert LinkedAt(rows, i);
    DepthOf(rows[i].row.prevHash, rows[i].row.payload);
    if i > 0 {
      DepthAlong(rows, i - 1);
    }
  }

  ghost predicate OneChain(rows: seq<Entry>) {
    && (forall i, j :: 0 <= i < j < |rows| ==> rows[i].number < rows[j].number)
    && (forall i :: 0 <= i < |rows| ==> ContentOk(rows[i].row))
    && (forall i :: 0 <= i < |rows| ==> (rows[i].row.prevHash.None? <==> i == 0))
    && (forall i :: 0 < i < |rows| ==> rows[i].row.prevHash == Some(rows[i - 1].row.rowHash))
    && (forall i, j :: 0 <= i < j < |rows| ==> rows[i].row.rowHash != rows[j].row.rowHash)
  }

  /** No two rows name the same predecessor, or both none. */
  ghost predicate NoFork(rows: seq<Entry>) {
    forall i, j :: 0 <= i < j < |rows| ==> rows[i].row.prevHash != rows[j].row.prevHash
  }

  /** Whatever the interleaving, aborts and multi-row transactions included, the committed
      rows in number order are one chain: one first row, every other row names the row
      numbered just before it, and no row is named twice. */
  lemma NumberOrderIsChainOrder(s: State)
    requires Reachable(UNDER_LOCK, s)
    ensures OneChain(s.committed) && NoFork(s.committed)
  {
    hide HashOf;
    ReachableInv(s);
    var rows := s.committed;
    forall i | 0 <= i < |rows|
      ensures ContentOk(rows[i].row)
      ensures rows[i].row.prevHash.None? <==> i == 0
      ensures i > 0 ==> rows[i].row.prevHash == Some(rows[i - 1].row.rowHash)
    {
      assert LinkedAt(rows, i);
    }
    forall i, j | 0 <= i < j < |rows|
      ensures rows[i].number < rows[j].number
      ensures rows[i].row.rowHash != rows[j].row.rowHash
      ensures rows[i].row.prevHash != rows[j].row.prevHash
    {
      Increasing(rows, i, j);
      DepthAlong(rows, i);
      DepthAlong(rows, j);
      if i > 0 {
        DepthAlong(rows, i - 1);
        DepthAlong(rows, j - 1);
      }
    }
  }

  /** The custody ledger's times never run backwards in number order. */
  lemma CustodyTimesFollowNumbers(s: State, i: nat, j: nat)
    requires Reachable(UNDER_LOCK, s) && i < j < |s.committed|
    requires s.committed[i].row.payload.Custody? && s.committed[j].row.payload.Custody?
    ensures s.committed[i].row.payload.occurredAt <= s.committed[j].row.payload.occurredAt <= s.clock
  {
    ReachableInv(s);
  }

  // ---- What is in the table: the rows of the transactions that committed ----

  /** The state before action k. */
  function At(form: Form, actions: seq<Action>, k: nat): State
    requires k <= |actions|
  {
    Run(form, START, actions[..k])
  }

  lemma AtNext(form: Form, actions: seq<Action>, k: nat)
    requires k < |actions|
    ensures At(form, actions, k + 1) == Step(form, At(form, actions, k), actions[k])
  {
    hide Step;
    assert actions[..k + 1] == actions[..k] + [actions[k]];
    RunSnoc(form, START, actions[..k], actions[k]);
  }

  lemma AtStart(form: Form, actions: seq<Action>)
    ensures At(form, actions, 0) == START
  {
    assert actions[..0] == [];
  }

  /** COMMIT of an open transaction with no row half written. */
  predicate Commits(s: State, a: Action, w: int) {
    a == Commit(w) && w in s.writers && s.writers[w].phase.Rest?
  }

  /** ROLLBACK of an open transaction. */
  predicate RollsBack(s: State, a: Action, w: int) {
    a == Abort(w) && w in s.writers
  }

  /** An INSERT the isolation guard refuses, which ends its transaction. */
  predicate GuardRefuses(form: Form, s: State, a: Action, w: int) {
    && a.Insert? && a.w == w && w in s.writers && s.writers[w].phase.Rest?
    && form.guarded && s.writers[w].isolation.RepeatableRead?
  }

  predicate Ends(form: Form, s: State, a: Action, w: int) {
    Commits(s, a, w) || RollsBack(s, a, w) || GuardRefuses(form, s, a, w)
  }

  /** The row w adds to its own by this action. */
  predicate Writes(s: State, a: Action, w: int, e: Entry) {
    && a == Append(w) && w in s.writers && s.writers[w].phase.Linked?
    && e.number == s.writers[w].phase.number && e.row.payload == s.writers[w].phase.payload
    && e.row.prevHash == s.writers[w].phase.prev && ContentOk(e.row)
  }

  function OwnRows(s: State, w: int): seq<Entry> {
    if w in s.writers then s.writers[w].own else []
  }

  /** One action: only a commit changes the table, by the rows of its own transaction. */
  lemma OnlyCommitPublishes(form: Form, s: State, a: Action)
    ensures Step(form, s, a).committed ==
      if a.Commit? && Commits(s, a, a.w) then s.committed + s.writers[a.w].own else s.committed
  {
    hide HashOf;
  }

  /** And what is a writer's own: nothing once its transaction has ended, and one row more after an append. */
  lemma OwnRowsMove(form: Form, s: State, a: Action, w: int, e: Entry)
    ensures Ends(form, s, a, w) ==> w !in Step(form, s, a).writers
    ensures e in OwnRows(Step(form, s, a), w) <==> !Ends(form, s, a, w) && (e in OwnRows(s, w) || Writes(s, a, w, e))
  {
    hide HashOf;
  }

  /** Row e was written by w at step i and w's transaction was open from there to step k. */
  ghost predicate WrittenAt(form: Form, actions: seq<Action>, w: int, e: Entry, i: nat, k: nat) {
    && i < k <= |actions| && Writes(At(form, actions, i), actions[i], w, e)
    && forall j :: i < j < k ==> !Ends(form, At(form, actions, j), actions[j], w)
  }

  /** Row e was written by w and its transaction is still open at step k. */
  ghost predicate Pending(form: Form, actions: seq<Action>, w: int, e: Entry, k: nat) {
    exists i: nat :: WrittenAt(form, actions, w, e, i, k)
  }

  lemma {:induction false} OwnRowsExactly(form: Form, actions: seq<Action>, w: int, e: Entry, k: nat)
    requires k <= |actions|
    ensures e in OwnRows(At(form, actions, k), w) <==> Pending(form, actions, w, e, k)
  {
    hide Run, Step, At, Ends, Writes, Pending;
    if k == 0 {
      AtStart(form, actions);
      NothingPending(form, actions, w, e);
    } else {
      OwnRowsExactly(form, actions, w, e, k - 1);
      AtNext(form, actions, k - 1);
      OwnRowsMove(form, At(form, actions, k - 1), actions[k - 1], w, e);
      PendingNext(form, actions, w, e, k - 1);
    }
  }

  lemma NothingPending(form: Form, actions: seq<Action>, w: int, e: Entry)
    ensures !Pending(form, actions, w, e, 0)
  {
  }

  lemma PendingNext(form: Form, actions: seq<Action>, w: int, e: Entry, k: nat)
    requires k < |actions|
    ensures var s := At(form, actions, k);
      Pending(form, actions, w, e, k + 1) <==>
        !Ends(form, s, actions[k], w) && (Writes(s, actions[k], w, e) || Pending(form, actions, w, e, k))
  {
    hide Run, At, Ends, Writes;
    var s := At(form, actions, k);
    if Writes(s, actions[k], w, e) {
      WritesDoesNotEnd(form, s, actions[k], w, e);
      assert WrittenAt(form, actions, w, e, k, k + 1);
    }
    if Pending(form, actions, w, e, k + 1) {
      var i: nat :| WrittenAt(form, actions, w, e, i, k + 1);
      if i < k {
        assert WrittenAt(form, actions, w, e, i, k);
      } else {
        WritesDoesNotEnd(form, s, actions[k], w, e);
      }
    }
    if !Ends(form, s, actions[k], w) && Pending(form, actions, w, e, k) {
      var i: nat :| WrittenAt(form, actions, w, e, i, k);
      assert WrittenAt(form, actions, w, e, i, k + 1);
    }
  }

  lemma WritesDoesNotEnd(form: Form, s: State, a: Action, w: int, e: Entry)
    requires Writes(s, a, w, e)
    ensures !Ends(form, s, a, w)
  {
  }

  /** Row e was written in a transaction of w that committed at step c. */
  ghost predicate CommittedAt(form: Form, actions: seq<Action>, e: Entry, w: int, c: nat) {
    c < |actions| && Pending(form, actions, w, e, c) && Commits(At(form, actions, c), actions[c], w)
  }

  /** Over every run of any form, the table holds exactly the rows some transaction wrote and then
      committed: none of one that was rolled back, refused, or is still open. */
  lemma {:induction false} CommittedExactly(form: Form, actions: seq<Action>, e: Entry, k: nat)
    requires k <= |actions|
    ensures e in At(form, actions, k).committed <==> exists w, c: nat :: c < k && CommittedAt(form, actions, e, w, c)
    decreases k
  {
    hide Run, Step, At, Writes, Pending;
    if k == 0 {
      AtStart(form, actions);
    } else {
      CommittedExactly(form, actions, e, k - 1);
      AtNext(form, actions, k - 1);
      var s, a := At(form, actions, k - 1), actions[k - 1];
      OnlyCommitPublishes(form, s, a);
      if a.Commit? && Commits(s, a, a.w) {
        OwnRowsExactly(form, actions, a.w, e, k - 1);
        if e in OwnRows(s, a.w) {
          assert CommittedAt(form, actions, e, a.w, k - 1);
        }
      }
    }
  }

  /** What a row may differ in from the row its INSERT gave: the time, where the database sets it. */
  predicate Stored(p: Payload, marked: bool, q: Payload) {
    q == p || (q == AtTime(p, q.occurredAt) && (p.Custody? || marked))
  }

  predicate Busy(s: State, w: int) {
    w in s.writers && !s.writers[w].phase.Rest?
  }

  /** w inserted at step j the row it is writing at step k. */
  ghost predicate InsertedAt(form: Form, actions: seq<Action>, w: int, q: Payload, j: nat, k: nat) {
    && j < k <= |actions| && actions[j].Insert? && actions[j].w == w && Stored(actions[j].payload, actions[j].marked, q)
    && (w in At(form, actions, j).writers && At(form, actions, j).writers[w].phase.Rest?)
    && forall m :: j < m <= k ==> Busy(At(form, actions, m), w)
  }

  /** One action and a row being written: it comes from an INSERT, and only its time may change. */
  lemma BusyMove(form: Form, s: State, a: Action, w: int)
    requires Busy(Step(form, s, a), w)
    ensures var q := Step(form, s, a).writers[w].phase.payload;
      if Busy(s, w) then
        var p := s.writers[w].phase.payload;
        q == p || (s.writers[w].phase.Locked? && (q == AtTime(p, q.occurredAt) && (p.Custody? || s.writers[w].phase.marked)))
      else a.Insert? && a.w == w && w in s.writers && q == a.payload
    ensures var t := Step(form, s, a);
      if Busy(s, w) then Early(t.writers[w].phase) ==> Early(s.writers[w].phase) && Mark(t.writers[w].phase) == Mark(s.writers[w].phase)
      else Early(t.writers[w].phase) && Mark(t.writers[w].phase) == a.marked
    ensures Busy(s, w) && Early(Step(form, s, a).writers[w].phase) ==> Step(form, s, a).writers[w].phase.payload == s.writers[w].phase.payload
  {
    hide HashOf;
  }

  predicate Early(phase: Phase) {
    phase.Waiting? || phase.Locked?
  }

  function Mark(phase: Phase): bool {
    (phase.Waiting? || phase.Locked?) && phase.marked
  }

  /** The row being written is that of the INSERT at step j: still as given before its number is drawn. */
  ghost predicate Writing(form: Form, actions: seq<Action>, w: int, phase: Phase, j: nat, k: nat)
    requires !phase.Rest?
  {
    && InsertedAt(form, actions, w, phase.payload, j, k)
    && (Early(phase) ==> phase.payload == actions[j].payload && Mark(phase) == actions[j].marked)
  }

  lemma {:induction false} BusyWasInserted(form: Form, actions: seq<Action>, w: int, k: nat)
    requires k <= |actions| && Busy(At(form, actions, k), w)
    ensures exists j: nat :: Writing(form, actions, w, At(form, actions, k).writers[w].phase, j, k)
  {
    hide Run, Step, At, Early, Mark;
    if k == 0 {
      AtStart(form, actions);
    } else {
      AtNext(form, actions, k - 1);
      var s, t := At(form, actions, k - 1), At(form, actions, k);
      BusyMove(form, s, actions[k - 1], w);
      if Busy(s, w) {
        BusyWasInserted(form, actions, w, k - 1);
        var j: nat :| Writing(form, actions, w, s.writers[w].phase, j, k - 1);
        LockedIsEarly(s.writers[w].phase);
        assert Writing(form, actions, w, t.writers[w].phase, j, k);
      } else {
        assert Writing(form, actions, w, t.writers[w].phase, k - 1, k);
      }
    }
  }

  lemma LockedIsEarly(phase: Phase)
    ensures phase.Locked? ==> Early(phase) && Mark(phase) == phase.marked
  {
  }

  /** And each row it holds was written for an INSERT of that transaction: as it was given, but for the
      time where the database sets it. */
  lemma WrittenWasInserted(form: Form, actions: seq<Action>, w: int, e: Entry, i: nat, k: nat)
    requires WrittenAt(form, actions, w, e, i, k)
    ensures exists j: nat :: InsertedAt(form, actions, w, e.row.payload, j, i)
  {
    hide Run, At, Ends;
    BusyWasInserted(form, actions, w, i);
    var j: nat :| Writing(form, actions, w, At(form, actions, i).writers[w].phase, j, i);
    assert InsertedAt(form, actions, w, e.row.payload, j, i);
  }

  // ---- Each ordering rule is needed ----

  /** One row's INSERT, run without interruption. */
  function Insertion(form: Form, s: State, w: int, p: Payload, marked: bool): State {
    var s1 := Step(form, s, Insert(w, p, marked));
    var s2 := Step(form, s1, Lock(w));
    var s3 := Step(form, s2, Number(w));
    var s4 := Step(form, s3, ReadTail(w));
    Step(form, s4, Append(w))
  }

  /** The row that INSERT stores, when the lock is free or already the writer's. */
  function Inserted(form: Form, s: State, w: int, p: Payload, marked: bool): Entry
    requires w in s.writers
  {
    var time := if form.underLock then s.clock else s.writers[w].began;
    Entry(s.last + 1, RowAfter(Tail(Visible(s, w)), Stamped(p, form.underLock && marked, time)))
  }

  function InsertOutcome(form: Form, s: State, w: int, p: Payload, marked: bool): State
    requires w in s.writers
  {
    var writer := s.writers[w];
    if form.guarded && writer.isolation.RepeatableRead? then Ended(s, w)
    else
      s.(last := s.last + 1, lock := Some(w),
         writers := s.writers[w := writer.(own := writer.own + [Inserted(form, s, w, p, marked)])])
  }

  lemma RefusedInsertion(form: Form, s: State, w: int, p: Payload, marked: bool)
    requires w in s.writers && s.writers[w].phase.Rest?
    requires form.guarded && s.writers[w].isolation.RepeatableRead?
    ensures Insertion(form, s, w, p, marked) == Ended(s, w)
  {
  }

  /** The writer holds the lock and its row's number and time are settled. */
  lemma NumberedResult(form: Form, s: State, w: int, p: Payload, marked: bool)
    requires w in s.writers && s.writers[w].phase.Rest? && (s.lock.None? || s.lock == Some(w))
    requires !(form.guarded && s.writers[w].isolation.RepeatableRead?)
    ensures var entry := Inserted(form, s, w, p, marked);
            Step(form, Step(form, Step(form, s, Insert(w, p, marked)), Lock(w)), Number(w)) ==
            WithPhase(s.(last := s.last + 1, lock := Some(w)), w, Placed(entry.row.payload, entry.number))
  {
    hide HashOf;
  }

  lemma AppendedResult(form: Form, s: State, w: int, p: Payload, n: nat)
    requires w in s.writers
    ensures var entry := Entry(n, RowAfter(Tail(Visible(s, w)), p));
            var writer := s.writers[w].(own := s.writers[w].own + [entry], phase := Rest);
            Step(form, Step(form, WithPhase(s, w, Placed(p, n)), ReadTail(w)), Append(w)) ==
            s.(writers := s.writers[w := writer])
  {
    hide HashOf;
    var s1 := WithPhase(s, w, Placed(p, n));
    assert Visible(s1, w) == Visible(s, w);
    var s2 := Step(form, s1, ReadTail(w));
    assert s2 == WithPhase(s, w, Linked(p, n, Tail(Visible(s, w))));
  }

  lemma InsertionResult(form: Form, s: State, w: int, p: Payload, marked: bool)
    requires w in s.writers && s.writers[w].phase.Rest? && (s.lock.None? || s.lock == Some(w))
    ensures Insertion(form, s, w, p, marked) == InsertOutcome(form, s, w, p, marked)
  {
    hide HashOf;
    if form.guarded && s.writers[w].isolation.RepeatableRead? {
      RefusedInsertion(form, s, w, p, marked);
    } else {
      var entry := Inserted(form, s, w, p, marked);
      NumberedResult(form, s, w, p, marked);
      var t := s.(last := s.last + 1, lock := Some(w));
      assert Visible(t, w) == Visible(s, w);
      AppendedResult(form, t, w, entry.row.payload, entry.number);
    }
  }

  lemma InsertionReachable(form: Form, s: State, w: int, p: Payload, marked: bool)
    requires Reachable(form, s)
    ensures Reachable(form, Insertion(form, s, w, p, marked))
  {
    var s1 := Step(form, s, Insert(w, p, marked));
    var s2 := Step(form, s1, Lock(w));
    var s3 := Step(form, s2, Number(w));
    var s4 := Step(form, s3, ReadTail(w));
    StepReachable(form, s, Insert(w, p, marked));
    StepReachable(form, s1, Lock(w));
    StepReachable(form, s2, Number(w));
    StepReachable(form, s3, ReadTail(w));
    StepReachable(form, s4, Append(w));
  }

  /** One transaction of one row, run without interruption. */
  function Solo(form: Form, s: State, w: int, isolation: Isolation, p: Payload): State {
    Step(form, Insertion(form, Step(form, s, Begin(w, isolation)), w, p, false), Commit(w))
  }

  lemma SoloReachable(form: Form, s: State, w: int, isolation: Isolation, p: Payload)
    requires Reachable(form, s)
    ensures Reachable(form, Solo(form, s, w, isolation, p))
  {
    var s1 := Step(form, s, Begin(w, isolation));
    StepReachable(form, s, Begin(w, isolation));
    InsertionReachable(form, s1, w, p, false);
    StepReachable(form, Insertion(form, s1, w, p, false), Commit(w));
  }

  lemma InsertThenCommit(form: Form, s: State, w: int, p: Payload)
    requires w in s.writers && s.writers[w].phase.Rest? && s.writers[w].own == [] && s.lock.None?
    requires !(form.guarded && s.writers[w].isolation.RepeatableRead?)
    ensures Step(form, Insertion(form, s, w, p, false), Commit(w)) ==
            s.(committed := s.committed + [Inserted(form, s, w, p, false)], last := s.last + 1, writers := s.writers - {w})
  {
    hide HashOf;
    InsertionResult(form, s, w, p, false);
    var t := InsertOutcome(form, s, w, p, false);
    assert t.writers[w].own == [Inserted(form, s, w, p, false)];
    assert t.writers - {w} == s.writers - {w};
  }

  lemma SoloResult(form: Form, s: State, w: int, p: Payload)
    requires w !in s.writers && s.lock.None?
    ensures var time := s.clock;
            Solo(form, s, w, ReadCommitted, p) ==
            s.(committed := s.committed + [Entry(s.last + 1, RowAfter(Tail(s.committed), Stamped(p, false, time)))],
               last := s.last + 1)
  {
    hide HashOf;
    var s1 := Step(form, s, Begin(w, ReadCommitted));
    assert s1 == s.(writers := s.writers[w := Writer(ReadCommitted, s.clock, s.committed, [], Rest)]);
    assert Visible(s1, w) == s.committed;
    assert s1.writers - {w} == s.writers;
    var entry := Inserted(form, s1, w, p, false);
    assert entry == Entry(s.last + 1, RowAfter(Tail(s.committed), Stamped(p, false, s.clock)));
    InsertThenCommit(form, s1, w, p);
  }

  /** The rest of an INSERT whose number was drawn by the default before the lock came free. */
  function LateInsertion(form: Form, s: State, w: int): State {
    var s1 := Step(form, s, Lock(w));
    var s2 := Step(form, s1, Number(w));
    var s3 := Step(form, s2, ReadTail(w));
    var s4 := Step(form, s3, Append(w));
    Step(form, s4, Commit(w))
  }

  lemma LateInsertionResult(form: Form, s: State, w: int, p: Payload, n: nat)
    requires s.lock.None? && w in s.writers && s.writers[w].isolation.ReadCommitted? && s.writers[w].own == []
    requires s.writers[w].phase == Waiting(p, false, Some(n))
    ensures var t := LateInsertion(form, s, w);
            && t == s.(committed := t.committed, writers := s.writers - {w})
            && t.committed == s.committed + [Entry(n, RowAfter(Tail(s.committed), Stamped(p, false, s.writers[w].began)))]
    ensures Reachable(form, s) ==> Reachable(form, LateInsertion(form, s, w))
  {
    hide HashOf;
    var s1 := Step(form, s, Lock(w));
    var s2 := Step(form, s1, Number(w));
    var s3 := Step(form, s2, ReadTail(w));
    var s4 := Step(form, s3, Append(w));
    assert Visible(s2, w) == s.committed;
    assert s2.writers[w].phase == Placed(Stamped(p, false, s.writers[w].began), n);
    assert s4.writers[w].own == [Entry(n, RowAfter(Tail(s.committed), Stamped(p, false, s.writers[w].began)))];
    assert Ended(s4, w).writers == s.writers - {w};
    if Reachable(form, s) {
      StepReachable(form, s, Lock(w));
      StepReachable(form, s1, Number(w));
      StepReachable(form, s2, ReadTail(w));
      StepReachable(form, s3, Append(w));
      StepReachable(form, s4, Commit(w));
    }
  }

  /** Writer 1 has drawn number 1 and waits for the lock; a microsecond has passed. */
  lemma DrawnEarly(form: Form, p: Payload) returns (s: State)
    requires !form.underLock
    ensures Reachable(form, s)
    ensures s == State([], 1, 1, None, map[1 := Writer(ReadCommitted, 0, [], [], Waiting(p, false, Some(1)))])
  {
    StartReachable(form);
    var s1 := Step(form, START, Begin(1, ReadCommitted));
    var s2 := Step(form, s1, Insert(1, p, false));
    s := Step(form, s2, Tick(1));
    StepReachable(form, START, Begin(1, ReadCommitted));
    StepReachable(form, s1, Insert(1, p, false));
    StepReachable(form, s2, Tick(1));
  }

  /** Numbers drawn by the column default, before the lock: whatever the rows, an
      interleaving of honest writers forks the chain and orders custody times backwards. */
  lemma DefaultDrawnNumbersFork(form: Form, p: Payload, q: Payload, r: Payload)
    requires !form.underLock
    ensures exists s ::
      && Reachable(form, s)
      && |s.committed| == 3
      && s.committed[1].row.prevHash == s.committed[2].row.prevHash == Some(s.committed[0].row.rowHash)
      && s.committed[1].number < s.committed[0].number < s.committed[2].number
      && (p.Custody? && q.Custody? ==>
            s.committed[1].row.payload.occurredAt < s.committed[0].row.payload.occurredAt)
  {
    hide HashOf, Enabled, Apply;
    // Writer 1 begins and draws number 1; a moment later writer 2 begins, draws 2 and commits.
    var s3 := DrawnEarly(form, p);
    SoloResult(form, s3, 2, q);
    SoloReachable(form, s3, 2, ReadCommitted, q);
    var s4 := Solo(form, s3, 2, ReadCommitted, q);
    var first := Entry(2, RowAfter(None, Stamped(q, false, 1)));
    assert s4.committed == [first];
    // Writer 1 now gets the lock and chains number 1 off number 2.
    LateInsertionResult(form, s4, 1, p, 1);
    var s5 := LateInsertion(form, s4, 1);
    var second := Entry(1, RowAfter(Some(first.row.rowHash), Stamped(p, false, 0)));
    assert s5.committed == [first, second];
    // Writer 3 takes the highest number, 2, for the tail.
    SoloResult(form, s5, 3, r);
    SoloReachable(form, s5, 3, ReadCommitted, r);
    var s6 := Solo(form, s5, 3, ReadCommitted, r);
    assert Highest([first, second]) == first by {
      assert [first, second][1..] == [second];
    }
    assert s6.committed[..2] == [first, second];
    assert s6.committed[2].row.prevHash == Some(first.row.rowHash);
  }

  /** Without the isolation guard, a REPEATABLE READ transaction reads a stale tail under
      the lock and claims to be first a second time. */
  lemma StaleSnapshotForks(p: Payload, q: Payload)
    ensures exists s ::
      Reachable(UNGUARDED, s) && |s.committed| == 2 && s.committed[0].row.prevHash == s.committed[1].row.prevHash
  {
    hide HashOf;
    StartReachable(UNGUARDED);
    var s1 := Step(UNGUARDED, START, Begin(1, RepeatableRead));
    StepReachable(UNGUARDED, START, Begin(1, RepeatableRead));
    assert s1 == State([], 0, 0, None, map[1 := Writer(RepeatableRead, 0, [], [], Rest)]);
    SoloResult(UNGUARDED, s1, 2, q);
    SoloReachable(UNGUARDED, s1, 2, ReadCommitted, q);
    StaleWriterCommits(Solo(UNGUARDED, s1, 2, ReadCommitted, q), p);
  }

  lemma StaleWriterCommits(s: State, p: Payload)
    requires Reachable(UNGUARDED, s) && s.lock.None? && |s.committed| == 1
    requires 1 in s.writers && s.writers[1] == Writer(RepeatableRead, 0, [], [], Rest)
    ensures exists t ::
      Reachable(UNGUARDED, t) && |t.committed| == 2 && t.committed[0] == s.committed[0] && t.committed[1].row.prevHash == None
  {
    hide HashOf;
    InsertThenCommit(UNGUARDED, s, 1, p);
    InsertionReachable(UNGUARDED, s, 1, p, false);
    StepReachable(UNGUARDED, Insertion(UNGUARDED, s, 1, p, false), Commit(1));
    assert Visible(s, 1) == [];
  }

  /** Which forms of the trigger keep the chain, of the four: in every state they can reach the rows in
      number order are one chain, and no two name one predecessor, exactly when the number and the tail
      are taken under the lock and stale snapshots are refused. */
  lemma ChainOrderExactly(form: Form, p: Payload)
    ensures (forall s :: Reachable(form, s) ==> OneChain(s.committed)) <==> form.underLock && form.guarded
    ensures (forall s :: Reachable(form, s) ==> NoFork(s.committed)) <==> form.underLock && form.guarded
  {
    hide HashOf, Reachable, ContentOk;
    if form == UNDER_LOCK {
      forall s | Reachable(form, s) ensures OneChain(s.committed) && NoFork(s.committed) {
        hide *;
        NumberOrderIsChainOrder(s);
      }
    } else if !form.underLock {
      DefaultDrawnNumbersFork(form, p, p, p);
      var s :| Reachable(form, s) && |s.committed| == 3
        && s.committed[1].row.prevHash == s.committed[2].row.prevHash && s.committed[1].number < s.committed[0].number;
      assert !NoFork(s.committed) && !OneChain(s.committed);
    } else {
      assert form == UNGUARDED;
      StaleSnapshotForks(p, p);
      var s :| Reachable(UNGUARDED, s) && |s.committed| == 2 && s.committed[0].row.prevHash == s.committed[1].row.prevHash;
      assert !NoFork(s.committed) && !OneChain(s.committed);
    }
  }

  // ---- The trigger, as it runs ----

  /** The ledger's tables and locks, changed in place. */
  class Ledger {
    const form: Form
    var committed: seq<Entry>
    var last: nat
    var clock: nat
    var lock: Option<int>
    var writers: map<int, Writer>

    constructor (form: Form)
      ensures this.form == form && Now() == START
    {
      this.form := form;
      committed, last, clock, lock, writers := [], 0, 0, None, map[];
    }

    function Now(): State
      reads this
    {
      State(committed, last, clock, lock, writers)
    }

    method BeginTransaction(w: int, isolation: Isolation)
      modifies this
      ensures Now() == Step(form, old(Now()), Begin(w, isolation))
    {
      if w !in writers {
        writers := writers[w := Writer(isolation, clock, committed, [], Rest)];
      }
    }

    /** The BEFORE INSERT trigger and the row it lets in, when the lock is free or already
        held by this transaction; `stored` is the row as the table keeps it. */
    method ChainHash(w: int, payload: Payload, marked: bool) returns (stored: Option<Entry>)
      requires w in writers && writers[w].phase.Rest?
      requires lock.None? || lock == Some(w)
      modifies this
      ensures Now() == InsertOutcome(form, old(Now()), w, payload, marked)
      ensures stored.Some? ==> w in writers && writers[w].own == old(writers[w].own) + [stored.value]
      ensures stored.None? <==> form.guarded && old(writers[w].isolation.RepeatableRead?)
    {
      var writer := writers[w];
      if form.guarded && writer.isolation.RepeatableRead? {
        lock := if lock == Some(w) then None else lock;
        writers := writers - {w};
        return None;
      }
      var number := last + 1;
      var row := payload;
      if form.underLock {
        if row.Custody? || marked {
          row := AtTime(row, clock);
        }
      } else if row.Custody? {
        row := AtTime(row, writer.began);
      }
      var prev := ReadTailRow(w);
      var entry := Entry(number, RowAfter(prev, row));
      assert entry == Inserted(form, Now(), w, payload, marked);
      last, lock := number, Some(w);
      writers := writers[w := writer.(own := writer.own + [entry])];
      stored := Some(entry);
    }

    method ReadTailRow(w: int) returns (prev: Option<Digest>)
      requires w in writers
      ensures prev == Tail(Visible(Now(), w))
    {
      var writer := writers[w];
      var seen := (if writer.isolation.ReadCommitted? then committed else writer.snapshot) + writer.own;
      if |seen| == 0 {
        return None;
      }
      var highest := FindHighest(seen);
      prev := Some(highest.row.rowHash);
    }

    /** ORDER BY number DESC LIMIT 1 */
    method FindHighest(rows: seq<Entry>) returns (highest: Entry)
      requires |rows| > 0
      ensures highest == Highest(rows)
    {
      highest := rows[|rows| - 1];
      var i := |rows| - 1;
      while i > 0
        invariant 0 <= i < |rows|
        invariant highest == Highest(rows[i..])
      {
        i := i - 1;
        assert rows[i..][1..] == rows[i + 1..];
        if !(highest.number > rows[i].number) {
          highest := rows[i];
        }
      }
      assert rows[0..] == rows;
    }

    method CommitTransaction(w: int)
      modifies this
      ensures Now() == Step(form, old(Now()), Commit(w))
    {
      if w in writers && writers[w].phase.Rest? {
        committed := committed + writers[w].own;
        lock := if lock == Some(w) then None else lock;
        writers := writers - {w};
      }
    }

    method Rollback(w: int)
      modifies this
      ensures Now() == Step(form, old(Now()), Abort(w))
      ensures committed == old(committed) && w !in writers && (old(w in writers) ==> lock != Some(w))
    {
      if w in writers {
        lock := if lock == Some(w) then None else lock;
        writers := writers - {w};
      }
    }
  }
}
