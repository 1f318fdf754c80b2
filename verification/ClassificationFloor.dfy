/** The classification floor of the case tables.

    The trigger skips a row whose label and case do not change, so what it keeps is a statement
    about history: each state carries, besides the tables, when a case was last raised and when
    a row was last checked.
 */
module ClassificationFloor {
  import opened Options

  type Id = int

  /** CLEAR, GREEN, AMBER, AMBER_STRICT, RED. */
  type Tlp = t: nat | t < 5

  datatype Table = Node | Edge | Evidence | Sample
  datatype Child = Child(table: Table, id: Id)

  /** A sample may belong to no case. */
  datatype Marks = Marks(caseId: Option<Id>, tlp: Tlp)

  datatype State = State(
    cases: map<Id, Tlp>, children: map<Child, Marks>, guarded: set<Table>,
    now: nat, raised: map<Id, nat>, checked: map<Child, nat>)

  /** exempt: the owner or the system role, which row security leaves alone. */
  datatype Write =
    | SetCase(caseId: Id, tlp: Tlp)
    | Insert(child: Child, marks: Marks)
    | Update(child: Child, marks: Marks, exempt: bool)
    | Delete(child: Child)
    | GuardSamples

  const START := State(map[], map[], {Node, Edge, Evidence}, 1, map[], map[])

  /** core.enforce_tlp_floor on the new row: no case found means no floor to compare with. */
  predicate MeetsFloor(cases: map<Id, Tlp>, marks: Marks) {
    marks.caseId.Some? && marks.caseId.value in cases ==> marks.tlp >= cases[marks.caseId.value]
  }

  /** NEW = OLD in both columns; a NULL case compares as unknown and is checked. */
  predicate Unchanged(was: Marks, marks: Marks) {
    was.tlp == marks.tlp && was.caseId.Some? && was.caseId == marks.caseId
  }

  predicate CaseExists(s: State, marks: Marks) {
    marks.caseId.Some? ==> marks.caseId.value in s.cases
  }

  function Checked(s: State, child: Child, marks: Marks): State {
    s.(children := s.children[child := marks], checked := s.checked[child := s.now])
  }

  /** 0043: raise every sample below its case, then attach the trigger. */
  function RaisedSamples(s: State): map<Child, Marks> {
    map c | c in s.children ::
      if c.table.Sample? && !MeetsFloor(s.cases, s.children[c])
      then s.children[c].(tlp := s.cases[s.children[c].caseId.value]) else s.children[c]
  }

  /** One write; None when a trigger or a foreign key refuses it. */
  function Outcome(s: State, w: Write): Option<State> {
    match w
    case SetCase(c, tlp) =>
      var up := c in s.cases && s.cases[c] < tlp;
      Some(s.(cases := s.cases[c := tlp], raised := if up then s.raised[c := s.now] else s.raised))
    case Insert(child, marks) =>
      if child in s.children || !CaseExists(s, marks) then None
      else if child.table in s.guarded && !MeetsFloor(s.cases, marks) then None
      else Some(Checked(s, child, marks))
    case Update(child, marks, exempt) =>
      if child !in s.children then Some(s)
      else
        var was := s.children[child];
        if !CaseExists(s, marks) then None
        else if (child.table.Node? || child.table.Edge?) && !exempt && marks.tlp < was.tlp then None
        else if child.table !in s.guarded then Some(s.(children := s.children[child := marks]))
        else if Unchanged(was, marks) then Some(s)
        else if !MeetsFloor(s.cases, marks) then None
        else Some(Checked(s, child, marks))
    case Delete(child) => Some(s.(children := s.children - {child}))
    case GuardSamples =>
      if Sample in s.guarded then Some(s)
      else
        Some(s.(children := RaisedSamples(s), guarded := s.guarded + {Sample},
                checked := s.checked + map c | c in s.children && c.table.Sample? :: s.now))
  }

  /** A refused write changes nothing; every write takes its place in time. */
  function Step(s: State, w: Write): State {
    var after := Outcome(s, w);
    (if after.Some? then after.value else s).(now := s.now + 1)
  }

  function Run(s: State, writes: seq<Write>): State
    decreases |writes|
  {
    if writes == [] then s else Run(Step(s, writes[0]), writes[1..])
  }

  ghost predicate BelowFloor(s: State, child: Child)
    requires child in s.children
  {
    !MeetsFloor(s.cases, s.children[child])
  }

  function LastRaised(s: State, marks: Marks): nat {
    if marks.caseId.Some? && marks.caseId.value in s.raised then s.raised[marks.caseId.value] else 0
  }

  ghost predicate ChildOk(s: State, child: Child)
    requires child in s.children
  {
    && CaseExists(s, s.children[child])
    && (child.table in s.guarded ==>
          child in s.checked && s.checked[child] < s.now &&
          (BelowFloor(s, child) ==> LastRaised(s, s.children[child]) > s.checked[child]))
  }

  ghost predicate Inv(s: State) {
    forall child :: child in s.children ==> ChildOk(s, child)
  }

  lemma SetCaseKeepsChild(s: State, caseId: Id, tlp: Tlp, child: Child)
    requires child in s.children && ChildOk(s, child)
    ensures child in Step(s, SetCase(caseId, tlp)).children && ChildOk(Step(s, SetCase(caseId, tlp)), child)
  {
    var t := Step(s, SetCase(caseId, tlp));
    if BelowFloor(t, child) && !BelowFloor(s, child) {
      assert t.raised[caseId] == s.now;
    }
  }

  lemma UpdateKeepsChild(s: State, target: Child, marks: Marks, exempt: bool, child: Child)
    requires child in s.children && ChildOk(s, child)
    ensures child in Step(s, Update(target, marks, exempt)).children && ChildOk(Step(s, Update(target, marks, exempt)), child)
  {
    hide RaisedSamples, MeetsFloor;
    var t := Step(s, Update(target, marks, exempt));
    if child != target || (t.children == s.children && t.checked == s.checked) {
      hide ChildOk;
      OtherStaysOk(s, t, child);
    } else if child.table in s.guarded {
      assert MeetsFloor(t.cases, t.children[child]) && t.checked[child] == s.now;
    }
  }

  /** A write of another row leaves this one as it was. */
  lemma OtherStaysOk(s: State, t: State, child: Child)
    requires child in s.children && ChildOk(s, child)
    requires child in t.children && t.children[child] == s.children[child] && t.cases == s.cases && t.raised == s.raised
    requires t.guarded == s.guarded && t.now >= s.now
    requires child in s.checked ==> child in t.checked && t.checked[child] == s.checked[child]
    ensures ChildOk(t, child)
  {
  }

  lemma StepKeepsInv(s: State, w: Write)
    requires Inv(s)
    ensures Inv(Step(s, w))
  {
    var t := Step(s, w);
    forall child | child in t.children ensures ChildOk(t, child) {
      StepKeepsChild(s, w, child);
    }
  }

  lemma StepKeepsChild(s: State, w: Write, child: Child)
    requires Inv(s) && child in Step(s, w).children
    ensures ChildOk(Step(s, w), child)
  {
    if w.Update? || w.SetCase? {
      hide Step, ChildOk;
      StepMakesNoChild(s, w, child);
      assert child in s.children && ChildOk(s, child);
      if w.Update? {
        UpdateKeepsChild(s, w.child, w.marks, w.exempt, child);
      } else {
        SetCaseKeepsChild(s, w.caseId, w.tlp, child);
      }
    } else if w.GuardSamples? {
      GuardKeepsChild(s, child);
    } else {
      hide RaisedSamples;
      if child in s.children {
        assert ChildOk(s, child);
        if w.child != child {
          OtherStaysOk(s, Step(s, w), child);
        }
      }
    }
  }

  lemma GuardKeepsChild(s: State, child: Child)
    requires child in s.children ==> ChildOk(s, child)
    requires child in Step(s, GuardSamples).children
    ensures ChildOk(Step(s, GuardSamples), child)
  {
  }

  lemma StepMakesNoChild(s: State, w: Write, child: Child)
    requires (w.Update? || w.SetCase?) && child in Step(s, w).children
    ensures child in s.children
  {
  }

  lemma {:induction false} RunKeepsInv(s: State, writes: seq<Write>)
    requires Inv(s)
    ensures Inv(Run(s, writes))
    decreases |writes|
  {
    if writes != [] {
      StepKeepsInv(s, writes[0]);
      RunKeepsInv(Step(s, writes[0]), writes[1..]);
    }
  }

  /** In every reachable state a guarded row is below its case only if the case was raised
      after the row's last checked write. */
  lemma BelowOnlyByALaterRaise(writes: seq<Write>, child: Child)
    ensures var s := Run(START, writes);
            child in s.children && child.table in s.guarded && BelowFloor(s, child) ==>
            child in s.checked && LastRaised(s, s.children[child]) > s.checked[child]
  {
    RunKeepsInv(START, writes);
  }

  /** A row's label is no lower than its case's, where it has a case. */
  predicate AtFloor(s: State, marks: Marks) {
    marks.caseId.None? || (marks.caseId.value in s.cases && s.cases[marks.caseId.value] <= marks.tlp)
  }

  /** A new row is let in exactly when its case is there and, on a guarded table, its label is no lower. */
  lemma InsertAcceptedExactly(s: State, child: Child, marks: Marks)
    ensures Outcome(s, Insert(child, marks)).Some? <==>
      && child !in s.children && (marks.caseId.Some? ==> marks.caseId.value in s.cases)
      && (child.table in s.guarded ==> AtFloor(s, marks))
    ensures Outcome(s, Insert(child, marks)).Some? ==>
      var t := Outcome(s, Insert(child, marks)).value;
      t.children == s.children[child := marks] && t.cases == s.cases && t.guarded == s.guarded
  {
  }

  /** An update of a row is let through exactly when its case is there, a node or tie keeps its label or
      raises it unless the role is exempt, and, on a guarded table, label and case are those it had or the
      label is no lower than the case's. */
  lemma UpdateAcceptedExactly(s: State, child: Child, marks: Marks, exempt: bool)
    requires child in s.children
    ensures var was := s.children[child];
      Outcome(s, Update(child, marks, exempt)).Some? <==>
        && (marks.caseId.Some? ==> marks.caseId.value in s.cases)
        && (child.table.Node? || child.table.Edge? ==> exempt || was.tlp <= marks.tlp)
        && (child.table in s.guarded ==> (marks == was && marks.caseId.Some?) || AtFloor(s, marks))
    ensures Outcome(s, Update(child, marks, exempt)).Some? ==>
      var t := Outcome(s, Update(child, marks, exempt)).value;
      t.children == s.children[child := marks] && t.cases == s.cases && t.guarded == s.guarded
  {
  }

  /** No insert, relabelling or move to another case commits a row below the floor. */
  lemma NothingIsWrittenBelow(s: State, w: Write)
    requires w.Insert? || w.Update?
    requires w.child.table in s.guarded && Outcome(s, w).Some?
    ensures var t := Outcome(s, w).value;
            w.child in t.children && (w.Update? && w.child in s.children ==> !Unchanged(s.children[w.child], w.marks)) ==>
            MeetsFloor(s.cases, t.children[w.child]) && t.children[w.child] == w.marks
  {
  }

  /** An update that touches neither column is let through however high the case has been
      raised since, and whoever makes it. */
  lemma BookkeepingNeverFails(writes: seq<Write>, child: Child, exempt: bool)
    ensures var s := Run(START, writes);
            child in s.children ==>
            var t := Outcome(s, Update(child, s.children[child], exempt));
            t.Some? && t.value.children == s.children && t.value.cases == s.cases
  {
    RunKeepsInv(START, writes);
    var s := Run(START, writes);
    if child in s.children {
      assert s.children[child := s.children[child]] == s.children;
    }
  }

  /** 0043 leaves no sample below its case, lowers nothing, and changes no row that was not
      a sample below its case. */
  lemma UpgradeRaisesSamples(s: State, child: Child)
    requires Inv(s) && child in s.children && Sample !in s.guarded
    ensures var t := Step(s, GuardSamples);
            && child in t.children && t.children[child].caseId == s.children[child].caseId
            && t.children[child].tlp >= s.children[child].tlp
            && (child.table.Sample? ==> MeetsFloor(t.cases, t.children[child]))
            && (t.children[child] != s.children[child] ==> child.table.Sample? && BelowFloor(s, child))
            && t.cases == s.cases
  {
  }

  ghost predicate RequestRole(w: Write) {
    !w.Delete? && !w.GuardSamples? && (w.Update? ==> !w.exempt)
  }

  /** However long the request role writes, no node or tie ends with a lower label. */
  lemma {:induction false} RequestRoleNeverLowers(s: State, writes: seq<Write>, child: Child)
    requires child in s.children && (child.table.Node? || child.table.Edge?)
    requires forall i :: 0 <= i < |writes| ==> RequestRole(writes[i])
    ensures child in Run(s, writes).children && Run(s, writes).children[child].tlp >= s.children[child].tlp
    decreases |writes|
  {
    if writes != [] {
      assert RequestRole(writes[0]);
      RequestRoleNeverLowers(Step(s, writes[0]), writes[1..], child);
    }
  }

  // ---- The tables, changed in place ----

  class Tables {
    var cases: map<Id, Tlp>
    var children: map<Child, Marks>
    var guarded: set<Table>
    ghost var now: nat
    ghost var raised: map<Id, nat>
    ghost var checked: map<Child, nat>

    constructor ()
      ensures Now() == START
    {
      cases, children, guarded := map[], map[], {Node, Edge, Evidence};
      now, raised, checked := 1, map[], map[];
    }

    ghost function Now(): State
      reads this
    {
      State(cases, children, guarded, now, raised, checked)
    }

    /** UPDATE core."case" SET classification. */
    method Reclassify(c: Id, tlp: Tlp)
      modifies this
      ensures Now() == Step(old(Now()), SetCase(c, tlp))
    {
      if c in cases && cases[c] < tlp {
        raised := raised[c := now];
      }
      cases := cases[c := tlp];
      now := now + 1;
    }

    /** The BEFORE UPDATE triggers on one child row, and the row they let in. */
    method UpdateChild(child: Child, marks: Marks, exempt: bool) returns (ok: bool)
      modifies this
      ensures Now() == Step(old(Now()), Update(child, marks, exempt))
      ensures ok <==> Outcome(old(Now()), Update(child, marks, exempt)).Some?
    {
      now := now + 1;
      if child !in children {
        return true;
      }
      var was := children[child];
      if marks.caseId.Some? && marks.caseId.value !in cases {
        return false;
      }
      if (child.table.Node? || child.table.Edge?) && !exempt && marks.tlp < was.tlp {
        return false;
      }
      if child.table in guarded {
        if Unchanged(was, marks) {
          return true;
        }
        if marks.caseId.Some? && marks.tlp < cases[marks.caseId.value] {
          return false;
        }
        checked := checked[child := now - 1];
      }
      children := children[child := marks];
      ok := true;
    }
  }
}
