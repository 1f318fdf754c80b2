/** No graph element without an assertion: the deferred constraint triggers of 0022.

    Transactions run one after another.  Each statement changes rows, then the foreign
    keys are checked, then the constraint triggers that are set IMMEDIATE fire; the
    others wait in a queue until SET CONSTRAINTS or COMMIT.
 */
module GraphStore {
  import opened Options

  type Id = int

  datatype Element = NodeOf(id: Id) | EdgeOf(id: Id)

  /** withdrawn: retracted or superseded, a mark on the row that fires no trigger here. */
  datatype Assertion = Assertion(subject: Element, withdrawn: bool)

  datatype Edge = Edge(src: Id, dst: Id)

  datatype Tables = Tables(nodes: set<Id>, edges: map<Id, Edge>, assertions: map<Id, Assertion>)

  datatype Constraint = NodeRequiresAssertion | EdgeRequiresAssertion | AssertionProtectsElement

  /** Inserted: a new node or edge.  Lost: an assertion row deleted or repointed, by its OLD subject. */
  datatype Event = Inserted(element: Element) | Lost(element: Element)

  /** renewed: the elements whose id some UPDATE of this transaction wrote; the database
      keeps no such record. */
  datatype Db = Db(tables: Tables, queue: seq<Event>, immediate: set<Constraint>, renewed: set<Element>)

  datatype Row =
    | InsertNode(id: Id)
    | InsertEdge(id: Id, src: Id, dst: Id)
    | InsertAssertion(id: Id, subject: Element)
    | DeleteNode(id: Id)
    | DeleteEdge(id: Id)
    | DeleteAssertion(id: Id)
    | Repoint(id: Id, subject: Element)
    | Withdraw(id: Id)
    | RenewNode(id: Id, newId: Id)
    | RenewEdge(id: Id, newId: Id)

  datatype Command =
    | Statement(rows: seq<Row>)
    | SetConstraints(names: set<Constraint>, immediately: bool)
    | Savepoint
    | RollbackTo(savepoint: nat)

  datatype Session = Session(db: Db, saves: seq<Db>, failed: bool)

  predicate Exists(t: Tables, e: Element) {
    match e
    case NodeOf(id) => id in t.nodes
    case EdgeOf(id) => id in t.edges
  }

  predicate Asserted(t: Tables, e: Element) {
    exists a :: a in t.assertions && t.assertions[a].subject == e
  }

  /** Invariant 1. */
  ghost predicate AllAsserted(t: Tables) {
    forall e :: Exists(t, e) ==> Asserted(t, e)
  }

  /** The foreign keys: assertions name existing elements, edges existing nodes. */
  predicate References(t: Tables) {
    && (forall a :: a in t.assertions ==> Exists(t, t.assertions[a].subject))
    && (forall e :: e in t.edges ==> t.edges[e].src in t.nodes && t.edges[e].dst in t.nodes)
  }

  /** One row's change and the events its AFTER triggers raise; None is an error: a key
      already there, or an edge from a node to itself. */
  function RowChange(t: Tables, row: Row): Option<(Tables, seq<Event>)> {
    match row
    case InsertNode(id) =>
      if id in t.nodes then None
      else Some((t.(nodes := t.nodes + {id}), [Inserted(NodeOf(id))]))
    case InsertEdge(id, src, dst) =>
      if id in t.edges || src == dst then None
      else Some((t.(edges := t.edges[id := Edge(src, dst)]), [Inserted(EdgeOf(id))]))
    case InsertAssertion(id, subject) =>
      if id in t.assertions then None
      else Some((t.(assertions := t.assertions[id := Assertion(subject, false)]), []))
    case DeleteNode(id) => Some((t.(nodes := t.nodes - {id}), []))
    case DeleteEdge(id) => Some((t.(edges := t.edges - {id}), []))
    case DeleteAssertion(id) =>
      if id !in t.assertions then Some((t, []))
      else Some((t.(assertions := t.assertions - {id}), [Lost(t.assertions[id].subject)]))
    case Repoint(id, subject) =>
      if id !in t.assertions then Some((t, []))
      else Some((t.(assertions := t.assertions[id := t.assertions[id].(subject := subject)]), [Lost(t.assertions[id].subject)]))
    case Withdraw(id) =>
      if id !in t.assertions then Some((t, []))
      else Some((t.(assertions := t.assertions[id := t.assertions[id].(withdrawn := true)]), []))
    case RenewNode(id, newId) =>
      if id !in t.nodes || id == newId then Some((t, []))
      else if newId in t.nodes then None
      else Some((t.(nodes := t.nodes - {id} + {newId}), []))
    case RenewEdge(id, newId) =>
      if id !in t.edges || id == newId then Some((t, []))
      else if newId in t.edges then None
      else Some((t.(edges := (t.edges - {id})[newId := t.edges[id]]), []))
  }

  function Renews(row: Row): set<Element> {
    match row
    case RenewNode(_, newId) => {NodeOf(newId)}
    case RenewEdge(_, newId) => {EdgeOf(newId)}
    case _ => {}
  }

  function ConstraintOf(event: Event): Constraint {
    if event.Lost? then AssertionProtectsElement
    else if event.element.NodeOf? then NodeRequiresAssertion
    else EdgeRequiresAssertion
  }

  /** What each trigger function asks when it fires: an element that is gone passes. */
  predicate Passes(t: Tables, event: Event) {
    Exists(t, event.element) ==> Asserted(t, event.element)
  }

  function RowChanges(db: Db, rows: seq<Row>): Option<Db>
    decreases |rows|
  {
    if rows == [] then Some(db)
    else
      var change := RowChange(db.tables, rows[0]);
      if change.None? then None
      else
        var (tables, events) := change.value;
        RowChanges(db.(tables := tables, queue := db.queue + events, renewed := db.renewed + Renews(rows[0])), rows[1..])
  }

  predicate AllPass(t: Tables, queue: seq<Event>, names: set<Constraint>) {
    forall i :: 0 <= i < |queue| && ConstraintOf(queue[i]) in names ==> Passes(t, queue[i])
  }

  /** The events left when those of `names` have fired. */
  function Waiting(queue: seq<Event>, names: set<Constraint>): seq<Event> {
    if queue == [] then []
    else (if ConstraintOf(queue[0]) in names then [] else [queue[0]]) + Waiting(queue[1..], names)
  }

  /** Fire the queued events of `names`; None when one raises. */
  function Fire(db: Db, names: set<Constraint>): Option<Db> {
    if AllPass(db.tables, db.queue, names) then Some(db.(queue := Waiting(db.queue, names))) else None
  }

  function Execute(db: Db, rows: seq<Row>): Option<Db> {
    var changed := RowChanges(db, rows);
    if changed.None? || !References(changed.value.tables) then None
    else Fire(changed.value, changed.value.immediate)
  }

  function Settle(s: Session, db: Option<Db>): Session {
    if db.None? then s.(failed := true) else s.(db := db.value)
  }

  /** One command.  After an error only ROLLBACK TO is taken; a rollback restores rows,
      queue and constraint modes alike. */
  function Step(s: Session, c: Command): Session {
    match c
    case RollbackTo(k) =>
      if k < |s.saves| then Session(s.saves[k], s.saves[..k + 1], false) else s.(failed := true)
    case Savepoint => if s.failed then s else s.(saves := s.saves + [s.db])
    case Statement(rows) => if s.failed then s else Settle(s, Execute(s.db, rows))
    case SetConstraints(names, immediately) =>
      if s.failed then s
      else if immediately then Settle(s, Fire(s.db.(immediate := s.db.immediate + names), names))
      else s.(db := s.db.(immediate := s.db.immediate - names))
  }

  function Steps(s: Session, commands: seq<Command>): Session
    decreases |commands|
  {
    if commands == [] then s else Steps(Step(s, commands[0]), commands[1..])
  }

  function Begin(t: Tables): Session {
    Session(Db(t, [], {}, {}), [], false)
  }

  const ALL := {NodeRequiresAssertion, EdgeRequiresAssertion, AssertionProtectsElement}

  /** COMMIT fires what is queued; a failed or refused transaction leaves the tables it found. */
  function Transaction(t: Tables, commands: seq<Command>): Tables {
    if Commits(t, commands) then Steps(Begin(t), commands).db.tables else t
  }

  predicate Commits(t: Tables, commands: seq<Command>) {
    var s := Steps(Begin(t), commands);
    !s.failed && Fire(s.db, ALL).Some?
  }

  function Transactions(t: Tables, history: seq<seq<Command>>): Tables
    decreases |history|
  {
    if history == [] then t else Transactions(Transaction(t, history[0]), history[1..])
  }

  // ---- The invariant inside a transaction ----

  ghost predicate Awaits(queue: seq<Event>, e: Element) {
    Inserted(e) in queue || Lost(e) in queue
  }

  /** Every element without an assertion still has an event waiting for it, unless its id
      was written by an UPDATE. */
  ghost predicate Covered(db: Db) {
    forall e :: Exists(db.tables, e) && !Asserted(db.tables, e) ==> e in db.renewed || Awaits(db.queue, e)
  }

  lemma AssertedBy(t: Tables, a: Id, e: Element)
    requires a in t.assertions && t.assertions[a].subject == e
    ensures Asserted(t, e)
  {
  }

  lemma RowKeepsCovered(db: Db, row: Row)
    requires Covered(db) && RowChange(db.tables, row).Some?
    ensures var (tables, events) := RowChange(db.tables, row).value;
            Covered(db.(tables := tables, queue := db.queue + events, renewed := db.renewed + Renews(row)))
  {
    var (tables, events) := RowChange(db.tables, row).value;
    var queue := db.queue + events;
    forall e | Exists(tables, e) && !Asserted(tables, e)
      ensures e in db.renewed + Renews(row) || Awaits(queue, e)
    {
      if Exists(db.tables, e) && Asserted(db.tables, e) {
        var a :| a in db.tables.assertions && db.tables.assertions[a].subject == e;
        if a in tables.assertions && tables.assertions[a].subject == e {
          AssertedBy(tables, a, e);
        } else {
          assert events == [Lost(e)];
        }
      } else if !Exists(db.tables, e) {
        assert events == [Inserted(e)] || e in Renews(row);
      }
    }
  }

  lemma {:induction false} RowsKeepCovered(db: Db, rows: seq<Row>)
    requires Covered(db) && RowChanges(db, rows).Some?
    ensures Covered(RowChanges(db, rows).value)
    decreases |rows|
  {
    if rows != [] {
      RowKeepsCovered(db, rows[0]);
      var (tables, events) := RowChange(db.tables, rows[0]).value;
      RowsKeepCovered(db.(tables := tables, queue := db.queue + events, renewed := db.renewed + Renews(rows[0])), rows[1..]);
    }
  }

  lemma WaitingKeeps(queue: seq<Event>, names: set<Constraint>, event: Event)
    ensures event in Waiting(queue, names) <==> event in queue && ConstraintOf(event) !in names
  {
  }

  lemma FireKeepsCovered(db: Db, names: set<Constraint>)
    requires Covered(db) && Fire(db, names).Some?
    ensures Covered(Fire(db, names).value)
  {
    forall e | Exists(db.tables, e) && !Asserted(db.tables, e) && e !in db.renewed
      ensures Awaits(Waiting(db.queue, names), e)
    {
      var event := if Inserted(e) in db.queue then Inserted(e) else Lost(e);
      assert event in db.queue && !Passes(db.tables, event);
      WaitingKeeps(db.queue, names, event);
    }
  }

  ghost predicate SessionOk(s: Session) {
    Covered(s.db) && forall i :: 0 <= i < |s.saves| ==> Covered(s.saves[i])
  }

  lemma StepKeepsOk(s: Session, c: Command)
    requires SessionOk(s)
    ensures SessionOk(Step(s, c))
  {
    match c {
      case Statement(rows) =>
        if !s.failed && Execute(s.db, rows).Some? {
          RowsKeepCovered(s.db, rows);
          var changed := RowChanges(s.db, rows).value;
          FireKeepsCovered(changed, changed.immediate);
        }
      case SetConstraints(names, immediately) =>
        var db := s.db.(immediate := s.db.immediate + names);
        if !s.failed && immediately && Fire(db, names).Some? {
          FireKeepsCovered(db, names);
        }
      case Savepoint =>
      case RollbackTo(k) =>
    }
  }

  lemma {:induction false} StepsKeepOk(s: Session, commands: seq<Command>)
    requires SessionOk(s)
    ensures SessionOk(Steps(s, commands))
    decreases |commands|
  {
    if commands != [] {
      StepKeepsOk(s, commands[0]);
      StepsKeepOk(Step(s, commands[0]), commands[1..]);
    }
  }

  ghost predicate RenewedAsserted(db: Db) {
    forall e :: e in db.renewed && Exists(db.tables, e) ==> Asserted(db.tables, e)
  }

  /** Exactly when a commit keeps invariant 1: it does unless an id written by an UPDATE of
      the same transaction stands, at commit, for an element nothing asserts. RenewedAsserted is the
      invariant itself, asked only of those ids: for every other element the triggers see to it. */
  lemma CommitKeepsAssertedExactly(t: Tables, commands: seq<Command>)
    requires AllAsserted(t) && Commits(t, commands)
    ensures AllAsserted(Transaction(t, commands)) <==> RenewedAsserted(Steps(Begin(t), commands).db)
  {
    var s := Steps(Begin(t), commands);
    assert Covered(Begin(t).db);
    StepsKeepOk(Begin(t), commands);
    FireKeepsCovered(s.db, ALL);
    var done := Fire(s.db, ALL).value;
    forall e | Exists(s.db.tables, e) && !Asserted(s.db.tables, e) ensures e in s.db.renewed {
      assert e in done.renewed || Awaits(done.queue, e);
      assert ConstraintOf(Inserted(e)) in ALL && ConstraintOf(Lost(e)) in ALL;
      WaitingKeeps(s.db.queue, ALL, Inserted(e));
      WaitingKeeps(s.db.queue, ALL, Lost(e));
    }
    if RenewedAsserted(s.db) {
      forall e | Exists(s.db.tables, e) ensures Asserted(s.db.tables, e) {
      }
    }
  }

  // ---- What is let through ----

  lemma AssertedPasses(t: Tables, queue: seq<Event>, names: set<Constraint>)
    requires AllAsserted(t)
    ensures AllPass(t, queue, names)
  {
  }

  /** A transaction that has not failed, in whose tables every element has an assertion, commits and keeps
      those tables; and SET CONSTRAINTS IMMEDIATE succeeds there, whatever is waiting. */
  lemma AssertedCommits(t: Tables, commands: seq<Command>, names: set<Constraint>)
    requires !Steps(Begin(t), commands).failed && AllAsserted(Steps(Begin(t), commands).db.tables)
    ensures var s := Steps(Begin(t), commands);
      && Commits(t, commands) && Transaction(t, commands) == s.db.tables
      && !Step(s, SetConstraints(names, true)).failed && Step(s, SetConstraints(names, true)).db.tables == s.db.tables
  {
    hide Steps;
    var s := Steps(Begin(t), commands);
    AssertedPasses(s.db.tables, s.db.queue, ALL);
    AssertedPasses(s.db.tables, s.db.queue, names);
  }

  /** So a transaction that rewrites no id, from tables that keep the invariant, is refused at commit exactly
      when it would break it. */
  lemma CommitsExactly(t: Tables, commands: seq<Command>)
    requires AllAsserted(t) && RenewsNothing(commands)
    ensures Commits(t, commands) <==> !Steps(Begin(t), commands).failed && AllAsserted(Steps(Begin(t), commands).db.tables)
  {
    hide Steps, RenewsNothing;
    if !Steps(Begin(t), commands).failed && AllAsserted(Steps(Begin(t), commands).db.tables) {
      AssertedCommits(t, commands, {});
    }
    if Commits(t, commands) {
      CommitKeepsAssertedExactly(t, commands);
      StepsRenewNothing(Begin(t), commands);
    }
  }

  /** A statement whose row is in order, under deferred constraints, adds just that row. */
  lemma StatementAdds(s: Session, row: Row)
    requires !s.failed && s.db.immediate == {} && References(s.db.tables)
    ensures var t, u := s.db.tables, Step(s, Statement([row])).db.tables;
      && (row.InsertNode? && row.id !in t.nodes ==>
            !Step(s, Statement([row])).failed && u == t.(nodes := t.nodes + {row.id}))
      && (row.InsertEdge? && row.id !in t.edges && row.src != row.dst && row.src in t.nodes && row.dst in t.nodes ==>
            !Step(s, Statement([row])).failed && u == t.(edges := t.edges[row.id := Edge(row.src, row.dst)]))
      && (row.InsertAssertion? && row.id !in t.assertions && Exists(t, row.subject) ==>
            !Step(s, Statement([row])).failed && u == t.(assertions := t.assertions[row.id := Assertion(row.subject, false)]))
    ensures Step(s, Statement([row])).db.immediate == {} && Step(s, Statement([row])).saves == s.saves
  {
    hide RowChanges, Waiting, References;
    OneRow(s.db, row);
    var change := RowChange(s.db.tables, row);
    if change.Some? {
      NothingFires(s.db.queue + change.value.1);
      InsertKeepsReferences(s.db.tables, row);
    }
  }

  lemma OneRow(db: Db, row: Row)
    ensures var change := RowChange(db.tables, row);
      RowChanges(db, [row]) ==
        if change.None? then None
        else Some(db.(tables := change.value.0, queue := db.queue + change.value.1, renewed := db.renewed + Renews(row)))
  {
    hide RowChange;
    assert [row][1..] == [];
  }

  /** An insert of something whose ends or subject are there. */
  predicate Grounded(t: Tables, row: Row) {
    || row.InsertNode?
    || (row.InsertEdge? && row.src in t.nodes && row.dst in t.nodes)
    || (row.InsertAssertion? && Exists(t, row.subject))
  }

  lemma InsertKeepsReferences(t: Tables, row: Row)
    requires References(t) && RowChange(t, row).Some?
    ensures Grounded(t, row) ==> References(RowChange(t, row).value.0)
  {
  }

  ghost predicate Above(commands: seq<Command>, n: nat) {
    forall i :: 0 <= i < |commands| && commands[i].RollbackTo? ==> commands[i].savepoint >= n
  }

  lemma {:induction false} SavedStays(s: Session, commands: seq<Command>, n: nat)
    requires n < |s.saves| && Above(commands, n)
    ensures var after := Steps(s, commands); n < |after.saves| && after.saves[..n + 1] == s.saves[..n + 1]
    decreases |commands|
  {
    hide Execute, Fire;
    if commands != [] {
      var next := Step(s, commands[0]);
      assert n < |next.saves| && next.saves[..n + 1] == s.saves[..n + 1];
      SavedStays(next, commands[1..], n);
    }
  }

  /** Rolling back to a savepoint undoes rows, waiting events and constraint modes alike, and a failure too. */
  lemma RollbackUndoes(s: Session, commands: seq<Command>)
    requires !s.failed && Above(commands, |s.saves|)
    ensures Step(Steps(Step(s, Savepoint), commands), RollbackTo(|s.saves|)) == Step(s, Savepoint)
  {
    hide Steps;
    var saved := Step(s, Savepoint);
    SavedStays(saved, commands, |s.saves|);
    var after := Steps(saved, commands);
    assert saved.saves[..|s.saves| + 1] == saved.saves;
    assert after.saves[|s.saves|] == after.saves[..|s.saves| + 1][|s.saves|] == s.db;
  }

  /** An element and its assertion may come in two statements, the element first: the check waits. */
  lemma AssertionMayFollow(t: Tables, row: Row, a: Id)
    requires References(t) && AllAsserted(t) && a !in t.assertions
    requires (row.InsertNode? && row.id !in t.nodes)
      || (row.InsertEdge? && row.id !in t.edges && row.src != row.dst && row.src in t.nodes && row.dst in t.nodes)
    ensures var e := if row.InsertNode? then NodeOf(row.id) else EdgeOf(row.id);
      var commands := [Statement([row]), Statement([InsertAssertion(a, e)])];
      && Commits(t, commands)
      && Transaction(t, commands) ==
           Tables(if row.InsertNode? then t.nodes + {row.id} else t.nodes,
                  if row.InsertEdge? then t.edges[row.id := Edge(row.src, row.dst)] else t.edges,
                  t.assertions[a := Assertion(e, false)])
      && !Commits(t, [Statement([row])])
  {
    hide Step, RowChange;
    var e := if row.InsertNode? then NodeOf(row.id) else EdgeOf(row.id);
    var claim := InsertAssertion(a, e);
    var s0 := Begin(t);
    StatementAdds(s0, row);
    var s1 := Step(s0, Statement([row]));
    assert References(s1.db.tables);
    StatementAdds(s1, claim);
    TwoSteps(s0, Statement([row]), Statement([claim]));
    var u := Step(s1, Statement([claim])).db.tables;
    assert AllAsserted(u) by { AssertionAdded(t, s1.db.tables, u, e, a); }
    AssertedCommits(t, [Statement([row]), Statement([claim])], {});
    OneStep(s0, Statement([row]));
    NotAsserted(t, s1.db.tables, e);
    CommitsExactly(t, [Statement([row])]);
  }

  lemma OneStep(s: Session, c: Command)
    ensures Steps(s, [c]) == Step(s, c)
  {
    assert [c][1..] == [] && Steps(Step(s, c), []) == Step(s, c);
  }

  lemma AssertionAdded(t: Tables, u: Tables, v: Tables, e: Element, a: Id)
    requires AllAsserted(t) && a !in t.assertions && u.assertions == t.assertions
    requires forall d :: Exists(u, d) ==> Exists(t, d) || d == e
    requires v == u.(assertions := u.assertions[a := Assertion(e, false)])
    ensures AllAsserted(v)
  {
    forall d | Exists(v, d) ensures Asserted(v, d) {
      if d == e {
        AssertedBy(v, a, e);
      } else {
        assert Asserted(t, d);
        var b :| b in t.assertions && t.assertions[b].subject == d;
        AssertedBy(v, b, d);
      }
    }
  }

  lemma NotAsserted(t: Tables, u: Tables, e: Element)
    requires References(t) && !Exists(t, e) && Exists(u, e) && u.assertions == t.assertions
    ensures !AllAsserted(u)
  {
    assert !Asserted(u, e);
  }

  // ---- Over whole histories ----

  ghost predicate RenewsNothing(commands: seq<Command>) {
    forall i, j :: 0 <= i < |commands| && commands[i].Statement? && 0 <= j < |commands[i].rows| ==>
      Renews(commands[i].rows[j]) == {}
  }

  lemma {:induction false} RowsRenewNothing(db: Db, rows: seq<Row>)
    requires db.renewed == {} && RowChanges(db, rows).Some?
    requires forall j :: 0 <= j < |rows| ==> Renews(rows[j]) == {}
    ensures RowChanges(db, rows).value.renewed == {}
    decreases |rows|
  {
    if rows != [] {
      var (tables, events) := RowChange(db.tables, rows[0]).value;
      assert Renews(rows[0]) == {};
      RowsRenewNothing(db.(tables := tables, queue := db.queue + events, renewed := db.renewed + Renews(rows[0])), rows[1..]);
    }
  }

  ghost predicate NothingRenewed(s: Session) {
    s.db.renewed == {} && forall i :: 0 <= i < |s.saves| ==> s.saves[i].renewed == {}
  }

  lemma {:induction false} StepsRenewNothing(s: Session, commands: seq<Command>)
    requires NothingRenewed(s) && RenewsNothing(commands)
    ensures NothingRenewed(Steps(s, commands))
    decreases |commands|
  {
    if commands != [] {
      var c := commands[0];
      if c.Statement? && !s.failed && Execute(s.db, c.rows).Some? {
        RowsRenewNothing(s.db, c.rows);
      }
      assert NothingRenewed(Step(s, c));
      assert RenewsNothing(commands[1..]) by {
        forall i, j | 0 <= i < |commands[1..]| && commands[1..][i].Statement? && 0 <= j < |commands[1..][i].rows|
          ensures Renews(commands[1..][i].rows[j]) == {}
        {
          assert commands[1..][i] == commands[i + 1];
        }
      }
      StepsRenewNothing(Step(s, c), commands[1..]);
    }
  }

  ghost predicate Referenced(s: Session) {
    References(s.db.tables) && forall i :: 0 <= i < |s.saves| ==> References(s.saves[i].tables)
  }

  lemma StepKeepsReferences(s: Session, c: Command)
    requires Referenced(s)
    ensures Referenced(Step(s, c))
  {
    hide References, RowChanges, AllPass, Waiting;
  }

  lemma {:induction false} StepsKeepReferences(s: Session, commands: seq<Command>)
    requires Referenced(s)
    ensures Referenced(Steps(s, commands))
    decreases |commands|
  {
    hide Referenced, Step;
    if commands != [] {
      StepKeepsReferences(s, commands[0]);
      StepsKeepReferences(Step(s, commands[0]), commands[1..]);
    }
  }

  /** Whatever any history does: no committed assertion is about a missing element, and no tie ends at a missing node. */
  lemma {:induction false} HistoriesKeepReferences(t: Tables, history: seq<seq<Command>>)
    requires References(t)
    ensures var u := Transactions(t, history);
      && (forall a :: a in u.assertions ==> match u.assertions[a].subject case NodeOf(id) => id in u.nodes case EdgeOf(id) => id in u.edges)
      && (forall e :: e in u.edges ==> u.edges[e].src in u.nodes && u.edges[e].dst in u.nodes)
    decreases |history|
  {
    hide Commits, Steps;
    if history != [] {
      StepsKeepReferences(Begin(t), history[0]);
      HistoriesKeepReferences(Transaction(t, history[0]), history[1..]);
      assert Transactions(t, history) == Transactions(Transaction(t, history[0]), history[1..]);
    }
  }

  /** However the events are deferred, fired early, rolled back or raised again, every
      committed state of transactions that rewrite no id has an assertion for every element. */
  lemma {:induction false} HistoriesKeepAsserted(t: Tables, history: seq<seq<Command>>)
    requires AllAsserted(t)
    requires forall i :: 0 <= i < |history| ==> RenewsNothing(history[i])
    ensures AllAsserted(Transactions(t, history))
    decreases |history|
  {
    if history != [] {
      if Commits(t, history[0]) {
        CommitKeepsAssertedExactly(t, history[0]);
        StepsRenewNothing(Begin(t), history[0]);
      }
      HistoriesKeepAsserted(Transaction(t, history[0]), history[1..]);
    }
  }

  /** An id rewritten in the inserting transaction leaves its event looking for a node that
      is gone: the condition above is needed. */
  lemma RenewedIdCommitsUnasserted(t: Tables, a: Id, b: Id)
    requires References(t) && a != b && a !in t.nodes && b !in t.nodes
    ensures var after := Transaction(t, [Statement([InsertNode(a)]), Statement([RenewNode(a, b)])]);
            Exists(after, NodeOf(b)) && !Asserted(after, NodeOf(b))
  {
    var s0 := Begin(t);
    var s1 := Step(s0, Statement([InsertNode(a)]));
    var u := t.(nodes := t.nodes + {a});
    assert RowChanges(s0.db, [InsertNode(a)]) == Some(Db(u, [Inserted(NodeOf(a))], {}, {})) by {
      assert [] + [Inserted(NodeOf(a))] == [Inserted(NodeOf(a))];
      assert [InsertNode(a)][1..] == [];
      assert {} + Renews(InsertNode(a)) == {};
    }
    NothingFires([Inserted(NodeOf(a))]);
    assert s1.db == Db(u, [Inserted(NodeOf(a))], {}, {}) && !s1.failed;
    var s2 := Step(s1, Statement([RenewNode(a, b)]));
    var v := t.(nodes := u.nodes - {a} + {b});
    assert RowChanges(s1.db, [RenewNode(a, b)]) == Some(Db(v, [Inserted(NodeOf(a))], {}, {NodeOf(b)})) by {
      assert [Inserted(NodeOf(a))] + [] == [Inserted(NodeOf(a))];
      assert [RenewNode(a, b)][1..] == [];
      assert {} + Renews(RenewNode(a, b)) == {NodeOf(b)};
    }
    assert s2.db == Db(v, [Inserted(NodeOf(a))], {}, {NodeOf(b)}) && !s2.failed;
    var commands := [Statement([InsertNode(a)]), Statement([RenewNode(a, b)])];
    TwoSteps(s0, commands[0], commands[1]);
    assert !Exists(v, NodeOf(a));
  }

  lemma TwoSteps(s: Session, c: Command, d: Command)
    ensures Steps(s, [c, d]) == Step(Step(s, c), d)
  {
    assert [c, d][1..] == [d] && [d][1..] == [];
    assert Steps(Step(Step(s, c), d), []) == Step(Step(s, c), d);
  }

  lemma NothingFires(queue: seq<Event>)
    ensures Waiting(queue, {}) == queue
  {
    NoneFire(queue, {});
  }

  lemma {:induction false} NoneFire(queue: seq<Event>, names: set<Constraint>)
    requires NoneDue(queue, names)
    ensures Waiting(queue, names) == queue
  {
    if queue != [] {
      NoneFire(queue[1..], names);
    }
  }

  /** No event waits for a constraint of these. */
  predicate NoneDue(queue: seq<Event>, names: set<Constraint>) {
    forall i :: 0 <= i < |queue| ==> ConstraintOf(queue[i]) !in names
  }

  // ---- What the triggers let through ----

  /** Between statements the foreign keys hold and no immediate constraint has an event waiting. */
  ghost predicate Rests(db: Db) {
    References(db.tables) && NoneDue(db.queue, db.immediate)
  }

  ghost predicate SessionRests(s: Session) {
    Rests(s.db) && forall i :: 0 <= i < |s.saves| ==> Rests(s.saves[i])
  }

  lemma {:induction false} WaitingIsNotDue(queue: seq<Event>, names: set<Constraint>, already: set<Constraint>)
    requires NoneDue(queue, already) || already == {}
    ensures NoneDue(Waiting(queue, names), names + already)
  {
    hide ConstraintOf;
    if queue != [] {
      WaitingIsNotDue(queue[1..], names, already);
    }
  }

  lemma StepRests(s: Session, c: Command)
    requires SessionRests(s)
    ensures SessionRests(Step(s, c))
  {
    hide RowChanges, Waiting, ConstraintOf, References;
    if c.Statement? && !s.failed && RowChanges(s.db, c.rows).Some? {
      var changed := RowChanges(s.db, c.rows).value;
      WaitingIsNotDue(changed.queue, changed.immediate, {});
      assert changed.immediate + {} == changed.immediate;
    } else if c.SetConstraints? {
      WaitingIsNotDue(s.db.queue, c.names, s.db.immediate);
      assert c.names + s.db.immediate == s.db.immediate + c.names;
    }
  }

  lemma {:induction false} StepsRest(s: Session, commands: seq<Command>)
    requires SessionRests(s)
    ensures SessionRests(Steps(s, commands))
    decreases |commands|
  {
    hide SessionRests, Step;
    if commands != [] {
      StepRests(s, commands[0]);
      StepsRest(Step(s, commands[0]), commands[1..]);
    }
  }

  function Withdrawals(ids: seq<Id>): seq<Row> {
    seq(|ids|, i requires 0 <= i < |ids| => Withdraw(ids[i]))
  }

  /** Wherever a transaction stands, with whatever deferred or immediate: withdrawing claims raises no
      event and is never refused, down to the last live one, and the elements, their assertion rows and
      the queue stay as they were. */
  lemma WithdrawalIsFree(t: Tables, commands: seq<Command>, ids: seq<Id>)
    requires References(t) && !Steps(Begin(t), commands).failed
    ensures var db := Steps(Begin(t), commands).db;
            var after := Step(Steps(Begin(t), commands), Statement(Withdrawals(ids)));
            && !after.failed && after.db.queue == db.queue
            && after.db.tables.nodes == db.tables.nodes && after.db.tables.edges == db.tables.edges
            && after.db.tables.assertions.Keys == db.tables.assertions.Keys
            && (forall a :: a in db.tables.assertions ==>
                  after.db.tables.assertions[a].subject == db.tables.assertions[a].subject &&
                  (after.db.tables.assertions[a].withdrawn <==> db.tables.assertions[a].withdrawn || a in ids))
  {
    hide Steps, RowChanges, Waiting;
    assert SessionRests(Begin(t));
    StepsRest(Begin(t), commands);
    var db := Steps(Begin(t), commands).db;
    WithdrawRows(db, ids, Withdrawals(ids));
    NoneFire(db.queue, db.immediate);
  }

  lemma {:induction false} WithdrawRows(db: Db, ids: seq<Id>, rows: seq<Row>)
    requires |rows| == |ids| && forall i :: 0 <= i < |ids| ==> rows[i] == Withdraw(ids[i])
    ensures var after := RowChanges(db, rows);
            && after.Some? && after.value == db.(tables := after.value.tables)
            && after.value.tables == db.tables.(assertions := after.value.tables.assertions)
            && after.value.tables.assertions.Keys == db.tables.assertions.Keys
            && (forall a :: a in db.tables.assertions ==>
                  after.value.tables.assertions[a].subject == db.tables.assertions[a].subject &&
                  (after.value.tables.assertions[a].withdrawn <==> db.tables.assertions[a].withdrawn || a in ids))
    decreases |ids|
  {
    if ids != [] {
      var (tables, events) := RowChange(db.tables, rows[0]).value;
      assert db.queue + events == db.queue && db.renewed + Renews(rows[0]) == db.renewed;
      WithdrawRows(db.(tables := tables), ids[1..], rows[1..]);
      assert forall a :: a in ids <==> a == ids[0] || a in ids[1..];
    }
  }

  function Deletions(ids: seq<Id>): seq<Row> {
    seq(|ids|, i requires 0 <= i < |ids| => DeleteAssertion(ids[i]))
  }

  function Delete(e: Element): Row {
    if e.NodeOf? then DeleteNode(e.id) else DeleteEdge(e.id)
  }

  /** The tables without an element and without these assertions. */
  function Purged(t: Tables, e: Element, ids: set<Id>): Tables {
    Tables(if e.NodeOf? then t.nodes - {e.id} else t.nodes, if e.EdgeOf? then t.edges - {e.id} else t.edges, t.assertions - ids)
  }

  /** A purge is let through: one transaction that deletes every assertion of a tie, or of a node at
      which no tie ends, and then the element commits. */
  lemma PurgeCommits(t: Tables, e: Element, ids: seq<Id>)
    requires References(t)
    requires forall a :: a in ids <==> a in t.assertions && t.assertions[a].subject == e
    requires e.NodeOf? ==> forall d :: d in t.edges ==> t.edges[d].src != e.id && t.edges[d].dst != e.id
    ensures Transaction(t, [Statement(Deletions(ids)), Statement([Delete(e)])]) == Purged(t, e, set a | a in ids)
  {
    hide RowChanges, RowChange, Waiting, Steps, References;
    var rows := Deletions(ids);
    var s0 := Begin(t);
    DeleteRows(s0.db, e, ids, rows);
    var d1 := RowChanges(s0.db, rows).value;
    NothingFires(d1.queue);
    assert References(d1.tables) by { FewerAssertions(t, set a | a in ids); }
    var s1 := Step(s0, Statement(rows));
    assert s1.db == d1 && !s1.failed;
    var u := Purged(t, e, set a | a in ids);
    DeleteElement(d1, e);
    PurgeKeepsReferences(t, e, set a | a in ids);
    var s2 := Step(s1, Statement([Delete(e)]));
    assert s2.db == d1.(tables := u) && !s2.failed;
    TwoSteps(s0, Statement(rows), Statement([Delete(e)]));
    LostPasses(u, d1.queue, e);
  }

  lemma FewerAssertions(t: Tables, ids: set<Id>)
    requires References(t)
    ensures References(t.(assertions := t.assertions - ids))
  {
  }

  lemma DeleteElement(db: Db, e: Element)
    ensures RowChanges(db, [Delete(e)]) == Some(db.(tables := Purged(db.tables, e, {})))
  {
    assert [Delete(e)][1..] == [] && db.queue + [] == db.queue && db.renewed + {} == db.renewed;
    assert db.tables.assertions - {} == db.tables.assertions;
  }

  lemma PurgeKeepsReferences(t: Tables, e: Element, ids: set<Id>)
    requires References(t)
    requires forall a :: a in ids <==> a in t.assertions && t.assertions[a].subject == e
    requires e.NodeOf? ==> forall d :: d in t.edges ==> t.edges[d].src != e.id && t.edges[d].dst != e.id
    ensures References(Purged(t, e, ids)) && !Exists(Purged(t, e, ids), e)
    ensures Purged(t.(assertions := t.assertions - ids), e, {}) == Purged(t, e, ids)
  {
    assert t.assertions - ids - {} == t.assertions - ids;
  }

  lemma LostPasses(t: Tables, queue: seq<Event>, e: Element)
    requires !Exists(t, e) && forall i :: 0 <= i < |queue| ==> queue[i] == Lost(e)
    ensures AllPass(t, queue, ALL)
  {
  }

  lemma {:induction false} DeleteRows(db: Db, subject: Element, ids: seq<Id>, rows: seq<Row>)
    requires |rows| == |ids| && forall i :: 0 <= i < |ids| ==> rows[i] == DeleteAssertion(ids[i])
    requires forall a :: a in ids && a in db.tables.assertions ==> db.tables.assertions[a].subject == subject
    requires forall i :: 0 <= i < |db.queue| ==> db.queue[i] == Lost(subject)
    ensures var after := RowChanges(db, rows);
            && after.Some? && after.value == db.(tables := after.value.tables, queue := after.value.queue)
            && after.value.tables == db.tables.(assertions := db.tables.assertions - (set a | a in ids))
            && forall i :: 0 <= i < |after.value.queue| ==> after.value.queue[i] == Lost(subject)
    decreases |ids|
  {
    if ids == [] {
      assert db.tables.assertions - {} == db.tables.assertions;
    } else {
      var (tables, events) := RowChange(db.tables, rows[0]).value;
      assert db.renewed + Renews(rows[0]) == db.renewed;
      var next := db.(tables := tables, queue := db.queue + events);
      forall a | a in ids[1..] && a in tables.assertions ensures tables.assertions[a].subject == subject {
        assert a in ids;
      }
      DeleteRows(next, subject, ids[1..], rows[1..]);
      assert tables.assertions - (set a | a in ids[1..]) == db.tables.assertions - (set a | a in ids);
    }
  }

  // ---- The store, changed in place ----

  /** One session's tables, event queue and constraint modes, as the server changes them. */
  class Store {
    var tables: Tables
    var queue: seq<Event>
    var immediate: set<Constraint>
    var begun: Tables
    ghost var renewed: set<Element>

    constructor (tables: Tables)
      ensures Now() == Begin(tables).db && begun == tables
    {
      this.tables := tables;
      begun := tables;
      queue, immediate, renewed := [], {}, {};
    }

    ghost function Now(): Db
      reads this
    {
      Db(tables, queue, immediate, renewed)
    }

    /** The row changes of one statement; a key violation leaves the rest undone. */
    method ChangeRows(rows: seq<Row>) returns (ok: bool)
      modifies this`tables, this`queue, this`renewed
      ensures ok <==> RowChanges(old(Now()), rows).Some?
      ensures ok ==> Now() == RowChanges(old(Now()), rows).value
    {
      var i := 0;
      assert rows[0..] == rows;
      while i < |rows|
        invariant 0 <= i <= |rows|
        invariant RowChanges(Now(), rows[i..]) == RowChanges(old(Now()), rows)
      {
        assert rows[i..][1..] == rows[i + 1..];
        var change := RowChange(tables, rows[i]);
        if change.None? {
          return false;
        }
        renewed := renewed + Renews(rows[i]);
        tables, queue := change.value.0, queue + change.value.1;
        i := i + 1;
      }
      ok := true;
    }

    /** Fire the queued events of `names`, oldest first. */
    method FireQueued(names: set<Constraint>) returns (ok: bool)
      modifies this`queue
      ensures ok <==> Fire(old(Now()), names).Some?
      ensures ok ==> Now() == Fire(old(Now()), names).value
      ensures !ok ==> queue == old(queue)
    {
      hide Passes, ConstraintOf;
      var left: seq<Event> := [];
      var i := 0;
      assert queue[..0] == [];
      while i < |queue|
        invariant 0 <= i <= |queue| && queue == old(queue)
        invariant left + Waiting(queue[i..], names) == Waiting(queue, names)
        invariant AllPass(tables, queue[..i], names)
      {
        assert queue[i..][1..] == queue[i + 1..] && queue[i..][0] == queue[i];
        if ConstraintOf(queue[i]) in names {
          if !Passes(tables, queue[i]) {
            return false;
          }
        } else {
          left := left + [queue[i]];
        }
        assert queue[..i + 1] == queue[..i] + [queue[i]];
        i := i + 1;
      }
      assert queue[..i] == queue;
      queue := left;
      ok := true;
    }

    /** One statement: rows, foreign keys, then the triggers that fire at once. */
    method ExecuteStatement(rows: seq<Row>) returns (ok: bool)
      modifies this`tables, this`queue, this`renewed
      ensures ok <==> Execute(old(Now()), rows).Some?
      ensures ok ==> Now() == Execute(old(Now()), rows).value
    {
      ok := ChangeRows(rows);
      if !ok || !References(tables) {
        return false;
      }
      ok := FireQueued(immediate);
    }

    method SetImmediate(names: set<Constraint>) returns (ok: bool)
      modifies this`immediate, this`queue
      ensures ok <==> Fire(old(Now()).(immediate := old(immediate) + names), names).Some?
      ensures ok ==> Now() == Fire(old(Now()).(immediate := old(immediate) + names), names).value
    {
      immediate := immediate + names;
      ok := FireQueued(names);
    }

    /** COMMIT: true when every waiting trigger lets it through, and else the tables are those the
        transaction began with. A new transaction begins either way. */
    method Commit() returns (ok: bool)
      modifies this
      ensures ok <==> Fire(old(Now()), ALL).Some?
      ensures tables == if ok then old(tables) else old(begun)
      ensures Now() == Begin(tables).db && begun == tables
      ensures ok && old(Covered(Now())) && old(renewed) == {} ==> AllAsserted(tables)
    {
      ghost var before := Now();
      ok := FireQueued(ALL);
      if ok && Covered(before) && before.renewed == {} {
        FiredIsAsserted(before);
      }
      if !ok {
        tables := begun;
      }
      queue, immediate, begun, renewed := [], {}, tables, {};
    }
  }

  lemma FiredIsAsserted(db: Db)
    requires Covered(db) && db.renewed == {} && Fire(db, ALL).Some?
    ensures AllAsserted(db.tables)
  {
    FireKeepsCovered(db, ALL);
    var done := Fire(db, ALL).value;
    forall e ensures !Awaits(done.queue, e) {
      assert ConstraintOf(Inserted(e)) in ALL && ConstraintOf(Lost(e)) in ALL;
      WaitingKeeps(db.queue, ALL, Inserted(e));
      WaitingKeeps(db.queue, ALL, Lost(e));
    }
  }
}
