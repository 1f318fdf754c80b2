/** Many passes in a row: whether a due source is ever reached. */
module CollectionTurns {
  import opened Basics
  import opened CollectionPass

  /** next_due_at of every active source. */
  type Schedule = map<Id, int>

  /** One pass: its reading of the schedule, the due sources it listed and its clock. */
  datatype Turn = Turn(now: int, listed: seq<Source>, moments: seq<Moment>)

  /** What stays in the list whatever a pass does. tooLong: budgets beyond a whole pass. refused: a
      poll of these ends without a run row, so nothing reschedules them. */
  datatype Stuck = Stuck(tooLong: set<Id>, refused: set<Id>)

  function Ids(sources: seq<Source>): set<Id> {
    set i | 0 <= i < |sources| :: sources[i].id
  }

  predicate Distinct(sources: seq<Source>) {
    forall i, j :: 0 <= i < j < |sources| ==> sources[i].id != sources[j].id
  }

  /** Due sources, most overdue first; held ones are left out. */
  ghost predicate Reads(due: Schedule, held: set<Id>, t: Turn) {
    && Distinct(t.listed)
    && (forall i :: 0 <= i < |t.listed| ==> t.listed[i].id in due && due[t.listed[i].id] <= t.now && t.listed[i].id !in held)
    && (forall id :: id in due && due[id] <= t.now && id !in held ==> id in Ids(t.listed))
    && (forall i, j :: 0 <= i < j < |t.listed| ==> due[t.listed[i].id] <= due[t.listed[j].id])
  }

  /** One moment for each selected source, on a clock that does not go back. */
  predicate Clocked(o: Limits, t: Turn) {
    && |t.moments| == |Selected(o, t.listed)|
    && forall i, j :: 0 <= i < j < |t.moments| ==> t.moments[i].elapsed <= t.moments[j].elapsed
  }

  /** What the pass decides for each selected source; a dry run decides nothing. */
  function DecisionsOf(o: Limits, t: Turn): (ds: seq<Decision>)
    ensures !o.dryRun && Clocked(o, t) ==> |ds| == |t.moments|
  {
    if !o.dryRun && |t.moments| == |Selected(o, t.listed)| then Decisions(o, Selected(o, t.listed), t.moments) else []
  }

  /** The sources whose poll the pass began. */
  function Attempted(o: Limits, t: Turn): set<Id> {
    set i | 0 <= i < |DecisionsOf(o, t)| && i < |t.listed| && DecisionsOf(o, t)[i].Started? :: t.listed[i].id
  }

  /** A source keeps its place unless it is rescheduled, and whatever is rescheduled, added or
      moved becomes due after the pass's reading. Only a refused source is polled and left in place. */
  ghost predicate Carries(o: Limits, due: Schedule, next: Schedule, t: Turn, stuck: Stuck) {
    forall id :: id in next ==>
      next[id] > t.now || (id in due && next[id] == due[id] && (id in Attempted(o, t) ==> id in stuck.refused))
  }

  predicate BeyondPass(o: Limits, s: Source) {
    o.maxSeconds != 0.0 && s.needs > o.maxSeconds
  }

  ghost predicate Budgets(o: Limits, t: Turn, stuck: Stuck) {
    forall i :: 0 <= i < |t.listed| ==> (t.listed[i].id in stuck.tooLong <==> BeyondPass(o, t.listed[i]))
  }

  predicate IsStuck(stuck: Stuck, id: Id) {
    id in stuck.tooLong || id in stuck.refused
  }

  /** Fewer stuck sources than the pass selects. */
  ghost predicate Room(o: Limits, t: Turn, stuck: Stuck) {
    o.limit > 0 ==> |(stuck.tooLong + stuck.refused) * Ids(t.listed)| < o.limit
  }

  ghost predicate TurnOk(o: Limits, due: Schedule, next: Schedule, t: Turn, stuck: Stuck) {
    && Clocked(o, t)
    && (exists held :: Reads(due, held, t))
    && Budgets(o, t, stuck)
    && Carries(o, due, next, t, stuck)
    && Room(o, t, stuck)
  }

  // The first source that is not stuck.

  ghost predicate FirstUnstuck(t: Turn, stuck: Stuck, j: int) {
    && 0 <= j < |t.listed| && !IsStuck(stuck, t.listed[j].id)
    && forall i :: 0 <= i < j ==> IsStuck(stuck, t.listed[i].id)
  }

  /** A refused source that is not too long stands before it. */
  predicate RefusedAhead(t: Turn, stuck: Stuck, j: int)
    requires j <= |t.listed|
  {
    exists i :: 0 <= i < j && t.listed[i].id in stuck.refused && t.listed[i].id !in stuck.tooLong
  }

  /** The pass's time is not up when source j is reached and, behind a refused source, j's budget fits
      what is left of it. */
  predicate TimeFor(o: Limits, t: Turn, stuck: Stuck, j: int)
    requires 0 <= j < |t.moments| && j < |t.listed|
  {
    o.maxSeconds != 0.0 ==>
      && t.moments[j].elapsed < o.maxSeconds
      && (RefusedAhead(t, stuck, j) ==> t.moments[j].elapsed + t.listed[j].needs <= o.maxSeconds)
  }

  lemma DecisionAt(o: Limits, t: Turn, i: int)
    requires !o.dryRun && Clocked(o, t) && 0 <= i < |t.moments|
    ensures i < |t.listed|
    ensures DecisionsOf(o, t)[i] == Decide(o, t.listed[i].needs, AnyStarted(DecisionsOf(o, t)[..i]), t.moments[i])
  {
    DecidedAt(o, Selected(o, t.listed), t.moments, i);
    assert Selected(o, t.listed)[i] == t.listed[i];
  }

  /** Too-long sources alone begin no poll. */
  lemma TooLongStartNothing(o: Limits, t: Turn, stuck: Stuck, j: int)
    requires !o.dryRun && Clocked(o, t) && Budgets(o, t, stuck) && 0 <= j <= |t.moments|
    requires forall i :: 0 <= i < j ==> t.listed[i].id in stuck.tooLong
    ensures !AnyStarted(DecisionsOf(o, t)[..j])
  {
    hide DecisionsOf;
    forall i | 0 <= i < j ensures !DecisionsOf(o, t)[..j][i].Started? {
      DecisionAt(o, t, i);
    }
  }

  /** While the time is not up, a poll has begun before source j exactly when a refused source that fits
      stands before it: the first of those took the first poll's privilege. */
  lemma BegunExactly(o: Limits, t: Turn, stuck: Stuck, j: int)
    requires !o.dryRun && Clocked(o, t) && Budgets(o, t, stuck) && 0 <= j < |t.moments|
    requires forall i :: 0 <= i < j ==> IsStuck(stuck, t.listed[i].id)
    requires o.maxSeconds != 0.0 ==> t.moments[j].elapsed < o.maxSeconds
    ensures j < |t.listed| && (AnyStarted(DecisionsOf(o, t)[..j]) <==> RefusedAhead(t, stuck, j))
  {
    hide DecisionsOf, Decide;
    var ds := DecisionsOf(o, t);
    DecisionAt(o, t, j);
    if AnyStarted(ds[..j]) {
      var i :| 0 <= i < j && ds[..j][i].Started?;
      DecisionAt(o, t, i);
      StartedFits(o, t.listed[i].needs, AnyStarted(ds[..i]), t.moments[i]);
      assert t.listed[i].id in stuck.refused;
    }
    if RefusedAhead(t, stuck, j) {
      var i := FirstRefused(t, stuck, j);
      TooLongStartNothing(o, t, stuck, i);
      DecisionAt(o, t, i);
      StartsFirst(o, t.listed[i].needs, t.moments[i]);
      assert ds[..j][i].Started?;
    }
  }

  lemma StartedFits(o: Limits, needs: real, begun: bool, m: Moment)
    ensures Decide(o, needs, begun, m).Started? ==> !(o.maxSeconds != 0.0 && needs > o.maxSeconds)
  {
  }

  lemma StartsFirst(o: Limits, needs: real, m: Moment)
    requires o.maxSeconds != 0.0 ==> needs <= o.maxSeconds && m.elapsed < o.maxSeconds
    ensures Decide(o, needs, false, m).Started?
  {
  }

  lemma FirstRefused(t: Turn, stuck: Stuck, j: int) returns (i: int)
    requires 0 <= j <= |t.listed| && RefusedAhead(t, stuck, j)
    requires forall k :: 0 <= k < j ==> IsStuck(stuck, t.listed[k].id)
    ensures 0 <= i < j && t.listed[i].id !in stuck.tooLong
    ensures forall k :: 0 <= k < i ==> t.listed[k].id in stuck.tooLong
  {
    i := 0;
    while t.listed[i].id in stuck.tooLong
      invariant 0 <= i < j
      invariant forall k :: 0 <= k < i ==> t.listed[k].id in stuck.tooLong
      invariant RefusedAhead(t, stuck, j)
      decreases j - i
    {
      var k :| 0 <= k < j && t.listed[k].id in stuck.refused && t.listed[k].id !in stuck.tooLong;
      i := i + 1;
    }
  }

  /** A pass polls its first source that is not stuck if and only if it is no dry run and there is time
      for it. */
  lemma FirstIsAttemptedExactly(o: Limits, t: Turn, stuck: Stuck, j: int)
    requires Clocked(o, t) && Distinct(t.listed) && Budgets(o, t, stuck)
    requires FirstUnstuck(t, stuck, j) && j < |t.moments|
    ensures t.listed[j].id in Attempted(o, t) <==> !o.dryRun && TimeFor(o, t, stuck, j)
  {
    if !o.dryRun {
      FirstIsPolledExactly(o, t, stuck, j);
    }
  }

  lemma FirstIsPolledExactly(o: Limits, t: Turn, stuck: Stuck, j: int)
    requires !o.dryRun && Clocked(o, t) && Distinct(t.listed) && Budgets(o, t, stuck)
    requires FirstUnstuck(t, stuck, j) && j < |t.moments|
    ensures t.listed[j].id in Attempted(o, t) <==> TimeFor(o, t, stuck, j)
  {
    hide DecisionsOf;
    DecisionAt(o, t, j);
    if o.maxSeconds == 0.0 || t.moments[j].elapsed < o.maxSeconds {
      BegunExactly(o, t, stuck, j);
    }
    if t.listed[j].id in Attempted(o, t) {
      var i :| 0 <= i < |DecisionsOf(o, t)| && i < |t.listed| && DecisionsOf(o, t)[i].Started? && t.listed[i].id == t.listed[j].id;
      assert i == j;
    }
  }

  /** The pass is no dry run and has time for the first source that is not stuck. */
  ghost predicate Timely(o: Limits, t: Turn, stuck: Stuck) {
    !o.dryRun && forall j :: FirstUnstuck(t, stuck, j) && j < |t.moments| ==> TimeFor(o, t, stuck, j)
  }

  // Over many passes.

  ghost predicate History(o: Limits, dues: seq<Schedule>, turns: seq<Turn>, stuck: Stuck) {
    && |dues| == |turns| + 1
    && forall i :: 0 <= i < |turns| ==> TurnOk(o, dues[i], dues[i + 1], turns[i], stuck)
  }

  function Ahead(due: Schedule, id: Id, stuck: Stuck): set<Id>
    requires id in due
  {
    set x | x in due && x != id && due[x] <= due[id] && !IsStuck(stuck, x)
  }

  lemma {:induction false} CountIds(listed: seq<Source>, n: nat)
    requires n <= |listed| && Distinct(listed)
    ensures |Ids(listed[..n])| == n
  {
    hide Ids, Distinct;
    if n == 0 {
      NoIds(listed);
    } else {
      CountIds(listed, n - 1);
      IdsNext(listed, n - 1);
    }
  }

  lemma NoIds(listed: seq<Source>)
    ensures Ids(listed[..0]) == {}
  {
  }

  lemma IdsNext(listed: seq<Source>, n: nat)
    requires n < |listed| && Distinct(listed)
    ensures Ids(listed[..n + 1]) == Ids(listed[..n]) + {listed[n].id} && listed[n].id !in Ids(listed[..n])
  {
    forall id | id in Ids(listed[..n + 1]) ensures id in Ids(listed[..n]) + {listed[n].id} {
      var i :| 0 <= i < n + 1 && listed[..n + 1][i].id == id;
      assert i == n || listed[..n][i].id == id;
    }
    forall id | id in Ids(listed[..n]) ensures id in Ids(listed[..n + 1]) {
      var i :| 0 <= i < n && listed[..n][i].id == id;
      assert listed[..n + 1][i].id == id;
    }
    assert listed[..n + 1][n].id in Ids(listed[..n + 1]);
  }

  /** The first unstuck source is among the selected ones. */
  lemma FirstIsSelected(o: Limits, due: Schedule, next: Schedule, t: Turn, stuck: Stuck, s: int) returns (j: int)
    requires TurnOk(o, due, next, t, stuck) && 0 <= s < |t.listed| && !IsStuck(stuck, t.listed[s].id)
    ensures 0 <= j <= s && FirstUnstuck(t, stuck, j) && j < |t.moments|
  {
    hide Budgets, Carries, Reads;
    j := 0;
    while IsStuck(stuck, t.listed[j].id)
      invariant 0 <= j <= s && forall i :: 0 <= i < j ==> IsStuck(stuck, t.listed[i].id)
      decreases s - j
    {
      j := j + 1;
    }
    var held :| Reads(due, held, t);
    assert Distinct(t.listed) by { ReadsApart(due, held, t); }
    CountIds(t.listed, j);
    Smaller(Ids(t.listed[..j]), (stuck.tooLong + stuck.refused) * Ids(t.listed));
  }

  lemma ReadsApart(due: Schedule, held: set<Id>, t: Turn)
    requires Reads(due, held, t)
    ensures Distinct(t.listed)
    ensures forall i :: 0 <= i < |t.listed| ==> t.listed[i].id in due && due[t.listed[i].id] <= t.now
    ensures forall i, j :: 0 <= i < j < |t.listed| ==> due[t.listed[i].id] <= due[t.listed[j].id]
  {
  }

  /** A timely pass that lists an unstuck source begins a poll of an unstuck one no less overdue. */
  lemma FirstIsAttempted(o: Limits, due: Schedule, next: Schedule, t: Turn, stuck: Stuck, s: int) returns (j: int)
    requires TurnOk(o, due, next, t, stuck) && Timely(o, t, stuck)
    requires 0 <= s < |t.listed| && !IsStuck(stuck, t.listed[s].id)
    ensures 0 <= j <= s && t.listed[j].id in Attempted(o, t) && !IsStuck(stuck, t.listed[j].id)
    ensures t.listed[j].id in due && t.listed[s].id in due && due[t.listed[j].id] <= due[t.listed[s].id]
    ensures due[t.listed[s].id] <= t.now
  {
    hide Attempted, Budgets, Carries, Reads, Room, Distinct, TimeFor;
    j := FirstIsSelected(o, due, next, t, stuck, s);
    var held :| Reads(due, held, t);
    ReadsApart(due, held, t);
    FirstIsAttemptedExactly(o, t, stuck, j);
  }

  /** Due, not held, and its due time not moved by anybody else. */
  ghost predicate Waiting(o: Limits, due: Schedule, next: Schedule, t: Turn, id: Id) {
    && id in due && id in Ids(t.listed)
    && (id !in Attempted(o, t) ==> id in next && next[id] == due[id])
  }

  /** After a pass that did not reach a source, fewer unstuck ones stand before it. */
  lemma OneFewerAhead(o: Limits, due: Schedule, next: Schedule, t: Turn, stuck: Stuck, id: Id)
    requires TurnOk(o, due, next, t, stuck) && Timely(o, t, stuck)
    requires Waiting(o, due, next, t, id) && !IsStuck(stuck, id) && id !in Attempted(o, t)
    ensures |Ahead(next, id, stuck)| < |Ahead(due, id, stuck)|
  {
    hide Attempted, Room, Timely, Reads, Budgets;
    var s :| 0 <= s < |t.listed| && t.listed[s].id == id;
    var j := FirstIsAttempted(o, due, next, t, stuck, s);
    var f := t.listed[j].id;
    assert f in Ahead(due, id, stuck);
    assert Ahead(next, id, stuck) <= Ahead(due, id, stuck) - {f};
    Smaller(Ahead(next, id, stuck), Ahead(due, id, stuck) - {f});
  }

  ghost predicate Unreached(o: Limits, turns: seq<Turn>, id: Id) {
    forall j :: 0 <= j < |turns| ==> id !in Attempted(o, turns[j])
  }

  ghost predicate Waits(o: Limits, dues: seq<Schedule>, turns: seq<Turn>, id: Id) {
    && |dues| == |turns| + 1
    && forall i :: 0 <= i < |turns| && Unreached(o, turns[..i], id) ==> Waiting(o, dues[i], dues[i + 1], turns[i], id)
  }

  ghost predicate AllTimely(o: Limits, turns: seq<Turn>, stuck: Stuck) {
    forall i :: 0 <= i < |turns| ==> Timely(o, turns[i], stuck)
  }

  /** A due source with k unstuck sources before it is polled within k + 1 timely passes. */
  lemma {:induction false} NoStarvation(o: Limits, dues: seq<Schedule>, turns: seq<Turn>, stuck: Stuck, id: Id)
    requires History(o, dues, turns, stuck) && Waits(o, dues, turns, id) && AllTimely(o, turns, stuck)
    requires !IsStuck(stuck, id) && id in dues[0] && |turns| > |Ahead(dues[0], id, stuck)|
    ensures exists i :: 0 <= i <= |Ahead(dues[0], id, stuck)| && id in Attempted(o, turns[i])
  {
    hide Attempted, Timely, TurnOk, Ahead, Waiting, Waits;
    FirstWaits(o, dues, turns, id);
    var k := |Ahead(dues[0], id, stuck)|;
    if id !in Attempted(o, turns[0]) {
      OneFewerAhead(o, dues[0], dues[1], turns[0], stuck, id);
      WaitsOn(o, dues, turns, id);
      NoStarvation(o, dues[1..], turns[1..], stuck, id);
      var i :| 0 <= i <= |Ahead(dues[1], id, stuck)| && id in Attempted(o, turns[1..][i]);
      assert id in Attempted(o, turns[i + 1]);
    }
  }

  lemma FirstWaits(o: Limits, dues: seq<Schedule>, turns: seq<Turn>, id: Id)
    requires Waits(o, dues, turns, id) && |turns| > 0
    ensures Waiting(o, dues[0], dues[1], turns[0], id)
    ensures id in dues[0] && (id !in Attempted(o, turns[0]) ==> id in dues[1])
  {
    assert Unreached(o, turns[..0], id);
  }

  lemma WaitsOn(o: Limits, dues: seq<Schedule>, turns: seq<Turn>, id: Id)
    requires |turns| > 0 && Waits(o, dues, turns, id) && id !in Attempted(o, turns[0])
    ensures Waits(o, dues[1..], turns[1..], id)
  {
    hide Attempted, Waiting;
    forall i | 0 <= i < |turns[1..]| && Unreached(o, turns[1..][..i], id)
      ensures Waiting(o, dues[1..][i], dues[1..][i + 1], turns[1..][i], id)
    {
      forall j | 0 <= j <= i ensures id !in Attempted(o, turns[j]) {
        if j > 0 {
          assert turns[1..][..i][j - 1] == turns[j];
        }
      }
      assert Unreached(o, turns[..i + 1], id);
    }
  }

  // A source refused before its run row takes the first poll's privilege from the one behind it.

  const BOTH: Schedule := map[1 := 0, 2 := 0]

  function Same<T>(x: T, n: nat): seq<T> {
    seq(n, _ => x)
  }

  /** A pass with a refused source first and a fitting one behind it. */
  function Behind(refusedNeeds: real, needs: real, reached: real, elapsed: real): Turn {
    Turn(0, [Source(1, refusedNeeds), Source(2, needs)], [Moment(reached, CollectionError), Moment(elapsed, Busy)])
  }

  const ONE_REFUSED := Stuck({}, {1})

  lemma BehindDecisions(o: Limits, refusedNeeds: real, needs: real, reached: real, elapsed: real)
    requires !o.dryRun && o.limit != 1 && o.maxSeconds != 0.0
    requires refusedNeeds <= o.maxSeconds && reached < o.maxSeconds
    requires o.maxSeconds - elapsed < needs <= o.maxSeconds
    ensures var t := Behind(refusedNeeds, needs, reached, elapsed);
      DecisionsOf(o, t) == [Started(CollectionError), Deferred] && Attempted(o, t) == {1}
  {
    var t := Behind(refusedNeeds, needs, reached, elapsed);
    assert Selected(o, t.listed) == t.listed;
    DecidedAt(o, t.listed, t.moments, 0);
    DecidedAt(o, t.listed, t.moments, 1);
    assert DecisionsOf(o, t)[..1][0].Started?;
  }

  lemma BehindIsATurn(o: Limits, refusedNeeds: real, needs: real, reached: real, elapsed: real)
    requires !o.dryRun && o.limit != 1 && o.maxSeconds != 0.0
    requires refusedNeeds <= o.maxSeconds && reached < o.maxSeconds && reached <= elapsed
    requires o.maxSeconds - elapsed < needs <= o.maxSeconds
    ensures var t := Behind(refusedNeeds, needs, reached, elapsed);
      TurnOk(o, BOTH, BOTH, t, ONE_REFUSED) && Waiting(o, BOTH, BOTH, t, 2)
  {
    hide DecisionsOf, Attempted;
    var t := Behind(refusedNeeds, needs, reached, elapsed);
    BehindDecisions(o, refusedNeeds, needs, reached, elapsed);
    assert t.listed[0].id == 1 && t.listed[1].id == 2;
    assert Ids(t.listed) == {1, 2};
    assert Reads(BOTH, {}, t);
    assert ({} + {1}) * {1, 2} == {1};
  }

  /** Whatever the limit, the budgets and the clock, as long as the budget behind the refused source no
      longer fits the time left: through any number of passes a source that fits a pass alone is never
      polled, though only one source is stuck and --limit leaves room. */
  lemma RefusedSourceStarves(o: Limits, refusedNeeds: real, needs: real, reached: real, elapsed: real, n: nat)
    requires !o.dryRun && o.limit != 1 && o.maxSeconds != 0.0
    requires refusedNeeds <= o.maxSeconds && reached < o.maxSeconds && reached <= elapsed
    requires o.maxSeconds - elapsed < needs <= o.maxSeconds
    ensures var turns := Same(Behind(refusedNeeds, needs, reached, elapsed), n);
      && History(o, Same(BOTH, n + 1), turns, ONE_REFUSED)
      && Waits(o, Same(BOTH, n + 1), turns, 2) && !IsStuck(ONE_REFUSED, 2)
      && forall i :: 0 <= i < n ==> 2 !in Attempted(o, turns[i])
  {
    hide Attempted, TurnOk, Waiting;
    BehindDecisions(o, refusedNeeds, needs, reached, elapsed);
    BehindIsATurn(o, refusedNeeds, needs, reached, elapsed);
  }
}
