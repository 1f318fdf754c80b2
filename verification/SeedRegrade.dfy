/** Regrading the demonstration estate: each seeded tie is found again by its key, and its founding
    claim is brought to the seeded grade by supersession. */
module SeedRegrade {
  import opened Options
  import SeedNetwork

  type Id = int

  /** What finds a tie again: the columns of the unique index on live edges, ends by their labels. */
  datatype Key = Key(caseId: Id, kind: string, src: string, dst: string, validFrom: int)

  /** A tie as the replay records it. */
  datatype SeededTie = SeededTie(key: Key, grade: int, rationale: string)

  /** A live edge. */
  datatype Row = Row(id: Id, key: Key)

  // The two dictionaries.

  function Place(ties: seq<SeededTie>, key: Key): (i: nat)
    ensures i <= |ties| && (i < |ties| ==> ties[i].key == key)
    ensures forall j :: 0 <= j < i ==> ties[j].key != key
  {
    if ties == [] || ties[0].key == key then 0 else 1 + Place(ties[1..], key)
  }

  /** One entry of `wanted`: a key seen before keeps its place and takes the new value. */
  function Enter(wanted: seq<SeededTie>, t: SeededTie): seq<SeededTie> {
    var i := Place(wanted, t.key);
    if i < |wanted| then wanted[i := t] else wanted + [t]
  }

  function Wanted(ties: seq<SeededTie>): seq<SeededTie> {
    if ties == [] then [] else Enter(Wanted(ties[..|ties| - 1]), ties[|ties| - 1])
  }

  function Found(rows: seq<Row>): map<Key, Id> {
    if rows == [] then map[] else Found(rows[..|rows| - 1])[rows[|rows| - 1].key := rows[|rows| - 1].id]
  }

  /** A wanted tie and the edge found for it. */
  datatype Match = Match(edge: Id, grade: int, rationale: string)

  function Matched(wanted: seq<SeededTie>, found: map<Key, Id>): seq<Match> {
    if wanted == [] then []
    else
      var n := |wanted| - 1;
      Matched(wanted[..n], found) +
        if wanted[n].key in found then [Match(found[wanted[n].key], wanted[n].grade, wanted[n].rationale)] else []
  }

  function Matches(ties: seq<SeededTie>, rows: seq<Row>): seq<Match> {
    Matched(Wanted(ties), Found(rows))
  }

  ghost predicate PrimaryKey(rows: seq<Row>) {
    forall i, j :: 0 <= i < j < |rows| ==> rows[i].id != rows[j].id
  }

  ghost predicate KeysDiffer(ties: seq<SeededTie>) {
    forall i, j :: 0 <= i < j < |ties| ==> ties[i].key != ties[j].key
  }

  lemma {:induction false} WantedKeysDiffer(ties: seq<SeededTie>)
    ensures KeysDiffer(Wanted(ties))
  {
    if ties != [] {
      WantedKeysDiffer(ties[..|ties| - 1]);
    }
  }

  lemma {:induction false} FoundIsARow(rows: seq<Row>, key: Key)
    requires key in Found(rows)
    ensures Row(Found(rows)[key], key) in rows
  {
    var n := |rows| - 1;
    if rows[n].key != key {
      FoundIsARow(rows[..n], key);
    }
  }

  lemma {:induction false} MatchHasAKey(wanted: seq<SeededTie>, found: map<Key, Id>, m: Match) returns (i: nat)
    requires m in Matched(wanted, found)
    ensures i < |wanted| && wanted[i].key in found && found[wanted[i].key] == m.edge
  {
    var n := |wanted| - 1;
    if m in Matched(wanted[..n], found) {
      i := MatchHasAKey(wanted[..n], found, m);
    } else {
      i := n;
    }
  }

  lemma {:induction false} MatchesApart(wanted: seq<SeededTie>, rows: seq<Row>)
    requires KeysDiffer(wanted) && PrimaryKey(rows)
    ensures Apart(Matched(wanted, Found(rows)))
  {
    hide Found;
    if wanted != [] {
      var n := |wanted| - 1;
      MatchesApart(wanted[..n], rows);
      var before := Matched(wanted[..n], Found(rows));
      if wanted[n].key in Found(rows) {
        forall i | 0 <= i < |before| ensures before[i].edge != Found(rows)[wanted[n].key] {
          var j := MatchHasAKey(wanted[..n], Found(rows), before[i]);
          FoundIsARow(rows, wanted[n].key);
          FoundIsARow(rows, wanted[j].key);
        }
      }
    }
  }

  /** No edge is found for two wanted ties. */
  ghost predicate Apart(matches: seq<Match>) {
    forall i, j :: 0 <= i < j < |matches| ==> matches[i].edge != matches[j].edge
  }

  lemma TiesApart(ties: seq<SeededTie>, rows: seq<Row>)
    requires PrimaryKey(rows)
    ensures Apart(Matches(ties, rows))
  {
    WantedKeysDiffer(ties);
    MatchesApart(Wanted(ties), rows);
  }

  // The claims.

  /** core.assertion in recording order. pathless: no claim path or value; rest: everything else a
      regrade copies. */
  datatype Claim = Claim(edge: Id, author: Id, rationale: string, pathless: bool, retracted: bool,
                         supersededBy: Option<nat>, grade: int, rest: int)

  /** A live founding claim of the seed on this tie. */
  predicate Seeds(c: Claim, edge: Id, owner: Id, rationale: string) {
    c.edge == edge && c.author == owner && c.rationale == rationale && c.pathless && !c.retracted && c.supersededBy.None?
  }

  /** Where the live seed claims of a tie stand, oldest first. */
  function Lives(claims: seq<Claim>, edge: Id, owner: Id, rationale: string): (r: seq<nat>)
    ensures forall k :: 0 <= k < |r| ==> r[k] < |claims| && Seeds(claims[r[k]], edge, owner, rationale)
  {
    if claims == [] then []
    else
      var n := |claims| - 1;
      Lives(claims[..n], edge, owner, rationale) + if Seeds(claims[n], edge, owner, rationale) then [n] else []
  }

  function LivesOf(claims: seq<Claim>, owner: Id, m: Match): seq<nat> {
    Lives(claims, m.edge, owner, m.rationale)
  }

  /** One tie: a claim with the seed's grade recorded, the founding one stamped. */
  function RegradeOne(claims: seq<Claim>, owner: Id, m: Match): seq<Claim> {
    var lives := LivesOf(claims, owner, m);
    if lives == [] || claims[lives[0]].grade == m.grade then claims
    else
      claims[lives[0] := claims[lives[0]].(supersededBy := Some(|claims|))]
      + [claims[lives[0]].(grade := m.grade, supersededBy := None)]
  }

  function Regrade(claims: seq<Claim>, owner: Id, matches: seq<Match>): seq<Claim> {
    if matches == [] then claims
    else RegradeOne(Regrade(claims, owner, matches[..|matches| - 1]), owner, matches[|matches| - 1])
  }

  /** Claims are only added and stamped: no field of a recorded claim is rewritten. */
  ghost predicate Grows(was: seq<Claim>, now: seq<Claim>) {
    && |was| <= |now|
    && forall k :: 0 <= k < |was| ==> now[k] == was[k] || (was[k].supersededBy.None? && now[k] == was[k].(supersededBy := now[k].supersededBy))
  }

  lemma {:induction false} OnlyGrows(claims: seq<Claim>, owner: Id, matches: seq<Match>)
    ensures Grows(claims, Regrade(claims, owner, matches))
  {
    hide Lives;
    if matches != [] {
      OnlyGrows(claims, owner, matches[..|matches| - 1]);
    }
  }

  /** Claim h was recorded in claim k's place: it says what k says at another grade, and k names it. */
  predicate Succeeds(claims: seq<Claim>, k: nat, h: nat) {
    k < h < |claims| && claims[k].supersededBy == Some(h) && claims[h].grade != claims[k].grade
      && claims[h] == claims[k].(grade := claims[h].grade, supersededBy := claims[h].supersededBy)
  }

  /** What is recorded from the n-th claim on has the grade a tie should carry and a predecessor. */
  ghost predicate Founded(claims: seq<Claim>, n: nat, owner: Id, matches: seq<Match>) {
    forall h :: n <= h < |claims| ==> Wants(claims[h], owner, matches) && exists k :: 0 <= k < h && Succeeds(claims, k, h)
  }

  ghost predicate Wants(c: Claim, owner: Id, matches: seq<Match>) {
    c.author == owner && exists i :: 0 <= i < |matches| && matches[i] == Match(c.edge, c.grade, c.rationale)
  }

  /** What was stamped meanwhile has a successor. */
  ghost predicate Followed(was: seq<Claim>, now: seq<Claim>) {
    |was| <= |now| && forall k :: 0 <= k < |was| && now[k] != was[k] ==> now[k].supersededBy.Some? && Succeeds(now, k, now[k].supersededBy.value)
  }

  /** Claim k has been stamped and its successor recorded. */
  predicate Replaced(claims: seq<Claim>, k: nat, grade: int, now: seq<Claim>) {
    k < |claims| && claims[k].supersededBy.None? && claims[k].grade != grade
      && now == claims[k := claims[k].(supersededBy := Some(|claims|))] + [claims[k].(grade := grade, supersededBy := None)]
  }

  /** One tie's regrade, seen from the claims. */
  lemma RegradeOneIs(claims: seq<Claim>, owner: Id, m: Match) returns (k: nat)
    ensures var now := RegradeOne(claims, owner, m);
      now == claims || (Replaced(claims, k, m.grade, now) && Seeds(claims[k], m.edge, owner, m.rationale))
  {
    hide Lives;
    var lives := LivesOf(claims, owner, m);
    k := if lives == [] then 0 else lives[0];
  }

  lemma SuccessionStays(claims: seq<Claim>, k: nat, h: nat, i: nat, grade: int, now: seq<Claim>)
    requires Succeeds(claims, k, h) && Replaced(claims, i, grade, now)
    ensures Succeeds(now, k, h)
  {
  }

  lemma WantsMore(c: Claim, owner: Id, matches: seq<Match>, m: Match)
    requires Wants(c, owner, matches) || (c.author == owner && m == Match(c.edge, c.grade, c.rationale))
    ensures Wants(c, owner, matches + [m])
  {
    assert (matches + [m])[|matches|] == m;
    if Wants(c, owner, matches) {
      var i :| 0 <= i < |matches| && matches[i] == Match(c.edge, c.grade, c.rationale);
      assert (matches + [m])[i] == matches[i];
    }
  }

  lemma OneSuccession(was: seq<Claim>, claims: seq<Claim>, owner: Id, matches: seq<Match>, m: Match)
    requires Founded(claims, |was|, owner, matches) && Followed(was, claims)
    ensures var now := RegradeOne(claims, owner, m); Founded(now, |was|, owner, matches + [m]) && Followed(was, now)
  {
    var i := RegradeOneIs(claims, owner, m);
    hide RegradeOne, Wants;
    var now := RegradeOne(claims, owner, m);
    forall h | |was| <= h < |now|
      ensures Wants(now[h], owner, matches + [m]) && exists k :: 0 <= k < h && Succeeds(now, k, h)
    {
      if h == |claims| {
        WantsMore(now[h], owner, matches, m);
        assert Succeeds(now, i, h);
      } else {
        WantsMore(claims[h], owner, matches, m);
        var k :| 0 <= k < h && Succeeds(claims, k, h);
        if now != claims {
          SuccessionStays(claims, k, h, i, m.grade, now);
          StampedWants(claims[h], now[h], owner, matches + [m]);
        }
        assert Succeeds(now, k, h);
      }
    }
    forall k | 0 <= k < |was| && now[k] != was[k] ensures now[k].supersededBy.Some? && Succeeds(now, k, now[k].supersededBy.value) {
      if claims[k] != was[k] {
        assert Succeeds(claims, k, claims[k].supersededBy.value);
        if now != claims {
          SuccessionStays(claims, k, claims[k].supersededBy.value, i, m.grade, now);
        }
      }
    }
  }

  lemma StampedWants(c: Claim, d: Claim, owner: Id, matches: seq<Match>)
    requires Wants(c, owner, matches) && d == c.(supersededBy := d.supersededBy)
    ensures Wants(d, owner, matches)
  {
  }

  /** Supersession, claim by claim: every claim a run stamps names its successor, and every claim it adds succeeds one,
      differing from it in nothing but the grade, which is the one wanted for that tie. */
  lemma {:induction false} SupersededBySuccessor(claims: seq<Claim>, owner: Id, matches: seq<Match>)
    ensures var now := Regrade(claims, owner, matches); Founded(now, |claims|, owner, matches) && Followed(claims, now)
  {
    hide Founded, Followed, RegradeOne;
    if matches == [] {
      NothingRecorded(claims, owner);
    } else {
      var n := |matches| - 1;
      SupersededBySuccessor(claims, owner, matches[..n]);
      OneSuccession(claims, Regrade(claims, owner, matches[..n]), owner, matches[..n], matches[n]);
      assert matches[..n] + [matches[n]] == matches;
    }
  }

  lemma NothingRecorded(claims: seq<Claim>, owner: Id)
    ensures Founded(claims, |claims|, owner, []) && Followed(claims, claims)
  {
  }

  /** A claim that is not a live founding claim of the seed on a tie it finds is left as it was. */
  lemma {:induction false} OtherClaimsStay(claims: seq<Claim>, owner: Id, matches: seq<Match>, k: nat)
    requires k < |claims| && forall i :: 0 <= i < |matches| ==> !Seeds(claims[k], matches[i].edge, owner, matches[i].rationale)
    ensures k < |Regrade(claims, owner, matches)| && Regrade(claims, owner, matches)[k] == claims[k]
  {
    hide Lives;
    if matches != [] {
      var n := |matches| - 1;
      assert forall i :: 0 <= i < n ==> matches[..n][i] == matches[i];
      OtherClaimsStay(claims, owner, matches[..n], k);
    }
  }

  lemma {:induction false} LivesStamped(claims: seq<Claim>, edge: Id, owner: Id, rationale: string, heir: nat)
    requires Lives(claims, edge, owner, rationale) != []
    ensures var lives := Lives(claims, edge, owner, rationale);
      Lives(claims[lives[0] := claims[lives[0]].(supersededBy := Some(heir))], edge, owner, rationale) == lives[1..]
  {
    var n := |claims| - 1;
    var before := Lives(claims[..n], edge, owner, rationale);
    var lives := Lives(claims, edge, owner, rationale);
    var stamped := claims[lives[0] := claims[lives[0]].(supersededBy := Some(heir))];
    if before == [] {
      assert stamped[..n] == claims[..n];
    } else {
      LivesStamped(claims[..n], edge, owner, rationale, heir);
      assert stamped[..n] == claims[..n][lives[0] := claims[lives[0]].(supersededBy := Some(heir))];
    }
  }

  lemma {:induction false} LivesElsewhere(claims: seq<Claim>, edge: Id, owner: Id, rationale: string, k: nat, c: Claim)
    requires k < |claims| && claims[k].edge != edge && c.edge != edge
    ensures Lives(claims[k := c], edge, owner, rationale) == Lives(claims, edge, owner, rationale)
  {
    var n := |claims| - 1;
    if k < n {
      LivesElsewhere(claims[..n], edge, owner, rationale, k, c);
      assert claims[k := c][..n] == claims[..n][k := c];
    } else {
      assert claims[k := c][..n] == claims[..n];
    }
  }

  lemma LivesMore(claims: seq<Claim>, c: Claim, edge: Id, owner: Id, rationale: string)
    ensures Lives(claims + [c], edge, owner, rationale) ==
      Lives(claims, edge, owner, rationale) + if Seeds(c, edge, owner, rationale) then [|claims|] else []
  {
    assert (claims + [c])[..|claims|] == claims;
  }

  /** The live seed claims of the tie itself: the oldest leaves the list and the new one ends it. */
  lemma RegradeOneLives(claims: seq<Claim>, owner: Id, m: Match)
    ensures var lives := LivesOf(claims, owner, m);
      LivesOf(RegradeOne(claims, owner, m), owner, m) ==
        if lives == [] || claims[lives[0]].grade == m.grade then lives else lives[1..] + [|claims|]
  {
    hide Lives;
    var lives := LivesOf(claims, owner, m);
    if lives != [] && claims[lives[0]].grade != m.grade {
      LivesStamped(claims, m.edge, owner, m.rationale, |claims|);
      var stamped := claims[lives[0] := claims[lives[0]].(supersededBy := Some(|claims|))];
      LivesMore(stamped, claims[lives[0]].(grade := m.grade, supersededBy := None), m.edge, owner, m.rationale);
    }
  }

  /** Those of another tie do not change. */
  lemma RegradeOneElsewhere(claims: seq<Claim>, owner: Id, m: Match, other: Match)
    requires m.edge != other.edge
    ensures LivesOf(RegradeOne(claims, owner, m), owner, other) == LivesOf(claims, owner, other)
    ensures forall k :: k in LivesOf(claims, owner, other) ==> RegradeOne(claims, owner, m)[k] == claims[k]
  {
    hide Lives;
    var lives := LivesOf(claims, owner, m);
    if lives != [] && claims[lives[0]].grade != m.grade {
      var stamp := claims[lives[0]].(supersededBy := Some(|claims|));
      LivesElsewhere(claims, other.edge, owner, other.rationale, lives[0], stamp);
      LivesMore(claims[lives[0] := stamp], claims[lives[0]].(grade := m.grade, supersededBy := None), other.edge, owner, other.rationale);
    }
  }

  // The whole list.

  predicate Right(claims: seq<Claim>, owner: Id, m: Match) {
    var lives := LivesOf(claims, owner, m);
    lives == [] || claims[lives[0]].grade == m.grade
  }

  /** What a run makes of one tie's live seed claims. */
  ghost predicate Handled(was: seq<Claim>, now: seq<Claim>, owner: Id, m: Match) {
    var before, after := LivesOf(was, owner, m), LivesOf(now, owner, m);
    if Right(was, owner, m) then after == before && (before != [] ==> now[before[0]] == was[before[0]])
    else
      && |after| == |before| && after[..|before| - 1] == before[1..]
      && now[after[|after| - 1]].grade == m.grade
      && (forall k :: 0 <= k < |before| - 1 ==> now[after[k]] == was[after[k]])
  }

  ghost predicate Untouched(was: seq<Claim>, now: seq<Claim>, owner: Id, m: Match) {
    LivesOf(now, owner, m) == LivesOf(was, owner, m) && forall k :: k in LivesOf(was, owner, m) ==> k < |now| && now[k] == was[k]
  }

  lemma {:induction false} OthersUntouched(claims: seq<Claim>, owner: Id, matches: seq<Match>, m: Match)
    requires forall i :: 0 <= i < |matches| ==> matches[i].edge != m.edge
    ensures Untouched(claims, Regrade(claims, owner, matches), owner, m)
  {
    hide LivesOf, RegradeOne, Untouched;
    assert Untouched(claims, claims, owner, m) by { UntouchedItself(claims, owner, m); }
    if matches != [] {
      var n := |matches| - 1;
      OthersUntouched(claims, owner, matches[..n], m);
      var before := Regrade(claims, owner, matches[..n]);
      Unaffected(before, owner, matches[n], m);
      UntouchedThrough(claims, before, RegradeOne(before, owner, matches[n]), owner, m);
    }
  }

  lemma UntouchedItself(claims: seq<Claim>, owner: Id, m: Match)
    ensures Untouched(claims, claims, owner, m)
  {
    hide Lives;
  }

  lemma UntouchedThrough(a: seq<Claim>, b: seq<Claim>, c: seq<Claim>, owner: Id, m: Match)
    requires Untouched(a, b, owner, m) && Untouched(b, c, owner, m)
    ensures Untouched(a, c, owner, m)
  {
    hide LivesOf;
  }

  lemma LongerBy(claims: seq<Claim>, owner: Id, m: Match)
    ensures RegradeOne(claims, owner, m) == claims <==> Right(claims, owner, m)
    ensures |RegradeOne(claims, owner, m)| == |claims| + if Right(claims, owner, m) then 0 else 1
  {
  }

  lemma HandlesOne(claims: seq<Claim>, owner: Id, m: Match)
    ensures Handled(claims, RegradeOne(claims, owner, m), owner, m)
  {
    hide Lives;
    RegradeOneLives(claims, owner, m);
    LivesDiffer(claims, m.edge, owner, m.rationale);
  }

  ghost predicate Ascending(s: seq<nat>) {
    forall i, j :: 0 <= i < j < |s| ==> s[i] < s[j]
  }

  lemma AscendingMore(s: seq<nat>, n: nat)
    requires Ascending(s) && forall k :: 0 <= k < |s| ==> s[k] < n
    ensures Ascending(s + [n]) && s + [] == s
  {
  }

  lemma {:induction false} LivesDiffer(claims: seq<Claim>, edge: Id, owner: Id, rationale: string)
    ensures Ascending(Lives(claims, edge, owner, rationale))
  {
    hide Seeds, Ascending;
    assert Ascending([]) by { NothingAscends(); }
    if claims != [] {
      var n := |claims| - 1;
      LivesDiffer(claims[..n], edge, owner, rationale);
      AscendingMore(Lives(claims[..n], edge, owner, rationale), n);
    }
  }

  lemma NothingAscends()
    ensures Ascending([])
  {
  }

  lemma HandledThrough(a: seq<Claim>, b: seq<Claim>, c: seq<Claim>, owner: Id, m: Match)
    requires (Untouched(a, b, owner, m) && Handled(b, c, owner, m)) || (Handled(a, b, owner, m) && Untouched(b, c, owner, m))
    ensures Handled(a, c, owner, m)
  {
    hide LivesOf;
  }

  /** Each wanted tie is handled once, wherever it stands in the list. */
  lemma {:induction false} HandlesEach(claims: seq<Claim>, owner: Id, matches: seq<Match>, i: nat)
    requires Apart(matches) && i < |matches|
    ensures Handled(claims, Regrade(claims, owner, matches), owner, matches[i])
  {
    hide LivesOf, RegradeOne, Handled, Untouched;
    var n := |matches| - 1;
    var before := Regrade(claims, owner, matches[..n]);
    if i < n {
      HandlesEach(claims, owner, matches[..n], i);
      RegradeOneElsewhere(before, owner, matches[n], matches[i]);
      LongerBy(before, owner, matches[n]);
      assert Untouched(before, RegradeOne(before, owner, matches[n]), owner, matches[i]) by { Unaffected(before, owner, matches[n], matches[i]); }
      HandledThrough(claims, before, RegradeOne(before, owner, matches[n]), owner, matches[i]);
    } else {
      OthersUntouched(claims, owner, matches[..n], matches[n]);
      HandlesOne(before, owner, matches[n]);
      HandledThrough(claims, before, RegradeOne(before, owner, matches[n]), owner, matches[n]);
    }
  }

  lemma Unaffected(claims: seq<Claim>, owner: Id, m: Match, other: Match)
    requires m.edge != other.edge
    ensures Untouched(claims, RegradeOne(claims, owner, m), owner, other)
  {
    hide RegradeOne;
    RegradeOneElsewhere(claims, owner, m, other);
    LongerBy(claims, owner, m);
  }

  /** No second live seed claim would come first with another grade. */
  predicate Settles(claims: seq<Claim>, owner: Id, m: Match) {
    var lives := LivesOf(claims, owner, m);
    Right(claims, owner, m) || |lives| == 1 || claims[lives[1]].grade == m.grade
  }

  /** A found tie with one live seed claim has one afterwards, at the seed's grade. */
  lemma OneLiveClaimIsRegraded(claims: seq<Claim>, owner: Id, ties: seq<SeededTie>, rows: seq<Row>, i: nat)
    requires PrimaryKey(rows) && i < |Matches(ties, rows)| && |LivesOf(claims, owner, Matches(ties, rows)[i])| == 1
    ensures var now, m := Regrade(claims, owner, Matches(ties, rows)), Matches(ties, rows)[i];
      |LivesOf(now, owner, m)| == 1 && now[LivesOf(now, owner, m)[0]].grade == m.grade
  {
    hide LivesOf, Regrade, Matches;
    TiesApart(ties, rows);
    HandlesEach(claims, owner, Matches(ties, rows), i);
  }

  lemma SettlesExactly(was: seq<Claim>, now: seq<Claim>, owner: Id, m: Match)
    requires Handled(was, now, owner, m)
    ensures Right(now, owner, m) <==> Settles(was, owner, m)
  {
    hide LivesOf;
    var before, after := LivesOf(was, owner, m), LivesOf(now, owner, m);
    if !Right(was, owner, m) && |before| > 1 {
      assert after[0] == before[1..][0];
    }
  }

  lemma {:induction false} UnchangedExactly(claims: seq<Claim>, owner: Id, matches: seq<Match>)
    ensures |Regrade(claims, owner, matches)| >= |claims|
    ensures Regrade(claims, owner, matches) == claims <==> forall i :: 0 <= i < |matches| ==> Right(claims, owner, matches[i])
  {
    hide RegradeOne, Right;
    if matches != [] {
      var n := |matches| - 1;
      UnchangedExactly(claims, owner, matches[..n]);
      LongerBy(Regrade(claims, owner, matches[..n]), owner, matches[n]);
      assert forall i :: 0 <= i < n ==> matches[..n][i] == matches[i];
    }
  }

  /** A second run changes nothing exactly when no found tie had a wrong founding claim with a
      second live one of another grade behind it. */
  lemma SecondRunExactly(claims: seq<Claim>, owner: Id, ties: seq<SeededTie>, rows: seq<Row>)
    requires PrimaryKey(rows)
    ensures var matches := Matches(ties, rows);
      var once := Regrade(claims, owner, matches);
      Regrade(once, owner, matches) == once <==> forall i :: 0 <= i < |matches| ==> Settles(claims, owner, matches[i])
  {
    hide Regrade, Right, Settles, Handled, Matches;
    var matches := Matches(ties, rows);
    TiesApart(ties, rows);
    var once := Regrade(claims, owner, matches);
    UnchangedExactly(once, owner, matches);
    forall i | 0 <= i < |matches| ensures Right(once, owner, matches[i]) <==> Settles(claims, owner, matches[i]) {
      HandlesEach(claims, owner, matches, i);
      SettlesExactly(claims, once, owner, matches[i]);
    }
  }

  /** A tie with two live seed claims, both of another grade than the seed's. */
  function TwoClaims(edge: Id, owner: Id, rationale: string, grade: int): seq<Claim> {
    var c := Claim(edge, owner, rationale, true, false, None, grade, 0);
    [c, c]
  }

  /** The first run regrades the one and the second run the other. */
  lemma TwoClaimsTakeTwoRuns(edge: Id, owner: Id, t: SeededTie, grade: int)
    requires grade != t.grade
    ensures var claims, matches := TwoClaims(edge, owner, t.rationale, grade), Matches([t], [Row(edge, t.key)]);
      var once := Regrade(claims, owner, matches);
      once != claims && Regrade(once, owner, matches) != once
  {
    hide Regrade, Lives;
    var m, claims := Match(edge, t.grade, t.rationale), TwoClaims(edge, owner, t.rationale, grade);
    OneTie(edge, t);
    SecondRunExactly(claims, owner, [t], [Row(edge, t.key)]);
    UnchangedExactly(claims, owner, [m]);
    LivesMore([], claims[0], edge, owner, t.rationale);
    LivesMore([claims[0]], claims[1], edge, owner, t.rationale);
    assert [] + [claims[0]] == [claims[0]] && [claims[0]] + [claims[1]] == claims;
    NoLives(edge, owner, t.rationale);
    assert LivesOf(claims, owner, m) == [0, 1];
    assert Matches([t], [Row(edge, t.key)])[0] == m && [m][0] == m;
  }

  lemma NoLives(edge: Id, owner: Id, rationale: string)
    ensures Lives([], edge, owner, rationale) == []
  {
  }

  lemma OneTie(edge: Id, t: SeededTie)
    ensures Matches([t], [Row(edge, t.key)]) == [Match(edge, t.grade, t.rationale)]
  {
    var row := Row(edge, t.key);
    assert [t][..0] == [] && [row][..0] == [];
    assert Wanted([]) == [] && Found([]) == map[] && Matched([], map[t.key := edge]) == [];
    assert Wanted([t]) == [t] && Found([row]) == map[t.key := edge];
  }

  /** The table of claims, and the regrade's transaction over it. */
  class Estate {
    var claims: seq<Claim>

    constructor (claims: seq<Claim>)
      ensures this.claims == claims
    {
      this.claims := claims;
    }

    /** The oldest live founding claim of the seed on a tie. */
    method FindClaim(owner: Id, m: Match) returns (found: Option<nat>)
      ensures found.Some? ==> found.value < |claims|
      ensures found == if LivesOf(claims, owner, m) == [] then None else Some(LivesOf(claims, owner, m)[0])
    {
      hide Seeds;
      var i := 0;
      assert claims[..0] == [];
      while i < |claims|
        invariant 0 <= i <= |claims| && Lives(claims[..i], m.edge, owner, m.rationale) == []
      {
        assert claims[..i + 1] == claims[..i] + [claims[i]];
        LivesMore(claims[..i], claims[i], m.edge, owner, m.rationale);
        if Seeds(claims[i], m.edge, owner, m.rationale) {
          FirstStays(claims, i + 1, m.edge, owner, m.rationale);
          return Some(i);
        }
        i := i + 1;
      }
      assert claims[..i] == claims;
      return None;
    }

    /** regrade, over the live edges. */
    method RegradeAll(owner: Id, ties: seq<SeededTie>, rows: seq<Row>)
      modifies this
      ensures claims == Regrade(old(claims), owner, Matches(ties, rows))
    {
      hide LivesOf, Enter, Regrade, Matched;
      var wanted := EnterAll(ties);
      var found := FindEdges(rows);
      var i := 0;
      NothingToRegrade(claims, owner, wanted, found);
      while i < |wanted|
        invariant 0 <= i <= |wanted| && claims == Regrade(old(claims), owner, Matched(wanted[..i], found))
      {
        MatchedMore(wanted, found, i);
        var t := wanted[i];
        if t.key in found {
          var m := Match(found[t.key], t.grade, t.rationale);
          RegradeLast(old(claims), owner, Matched(wanted[..i], found), m);
          var claim := FindClaim(owner, m);
          if claim.Some? && claims[claim.value].grade != m.grade {
            var c := claims[claim.value];
            var heir := |claims|;
            claims := claims + [c.(grade := m.grade, supersededBy := None)];
            claims := claims[claim.value := c.(supersededBy := Some(heir))];
          }
        }
        i := i + 1;
      }
      assert wanted[..i] == wanted;
    }

    method EnterAll(ties: seq<SeededTie>) returns (wanted: seq<SeededTie>)
      ensures wanted == Wanted(ties)
    {
      wanted := [];
      var i := 0;
      while i < |ties|
        invariant 0 <= i <= |ties| && wanted == Wanted(ties[..i])
      {
        assert ties[..i + 1][..i] == ties[..i];
        wanted := Enter(wanted, ties[i]);
        i := i + 1;
      }
      assert ties[..i] == ties;
    }

    method FindEdges(rows: seq<Row>) returns (found: map<Key, Id>)
      ensures found == Found(rows)
    {
      found := map[];
      var i := 0;
      while i < |rows|
        invariant 0 <= i <= |rows| && found == Found(rows[..i])
      {
        assert rows[..i + 1][..i] == rows[..i];
        found := found[rows[i].key := rows[i].id];
        i := i + 1;
      }
      assert rows[..i] == rows;
    }
  }

  lemma NothingToRegrade(claims: seq<Claim>, owner: Id, wanted: seq<SeededTie>, found: map<Key, Id>)
    ensures Regrade(claims, owner, Matched(wanted[..0], found)) == claims
  {
    assert wanted[..0] == [];
  }

  lemma MatchedMore(wanted: seq<SeededTie>, found: map<Key, Id>, i: nat)
    requires i < |wanted|
    ensures var t := wanted[i];
      Matched(wanted[..i + 1], found) ==
        if t.key in found then Matched(wanted[..i], found) + [Match(found[t.key], t.grade, t.rationale)] else Matched(wanted[..i], found)
  {
    assert wanted[..i + 1][..i] == wanted[..i];
  }

  lemma RegradeLast(claims: seq<Claim>, owner: Id, matches: seq<Match>, m: Match)
    ensures Regrade(claims, owner, matches + [m]) == RegradeOne(Regrade(claims, owner, matches), owner, m)
  {
    assert (matches + [m])[..|matches|] == matches;
  }

  lemma {:induction false} FirstStays(claims: seq<Claim>, k: nat, edge: Id, owner: Id, rationale: string)
    requires k <= |claims| && Lives(claims[..k], edge, owner, rationale) != []
    ensures Lives(claims, edge, owner, rationale) != []
    ensures Lives(claims, edge, owner, rationale)[0] == Lives(claims[..k], edge, owner, rationale)[0]
  {
    hide Seeds;
    if k < |claims| {
      assert claims[..|claims| - 1][..k] == claims[..k];
      FirstStays(claims[..|claims| - 1], k, edge, owner, rationale);
    } else {
      assert claims[..k] == claims;
    }
  }

  // The replay's own ties.

  /** How the builder's templates are written out. */
  datatype Texts = Texts(kind: SeedNetwork.Kind -> string, name: SeedNetwork.Label -> string,
                         grade: SeedNetwork.Grade -> int, rationale: SeedNetwork.Rationale -> string)

  function Printed(t: SeedNetwork.Tie, texts: Texts): SeededTie {
    SeededTie(Key(t.caseId, texts.kind(t.kind), texts.name(t.src), texts.name(t.dst), t.validFrom),
              texts.grade(t.grade), texts.rationale(t.rationale))
  }

  /** _Replay.ties */
  function Recorded(asked: seq<SeedNetwork.Asked>, texts: Texts): seq<SeededTie> {
    seq(|asked|, i requires 0 <= i < |asked| => Printed(asked[i].tie, texts))
  }

  /** No later tie has the key of this one: the unique index lets no two stand. */
  ghost predicate LastOfItsKey(ties: seq<SeededTie>, i: nat)
    requires i < |ties|
  {
    forall j :: i < j < |ties| ==> ties[j].key != ties[i].key
  }

  lemma {:induction false} LastIsWanted(ties: seq<SeededTie>, i: nat)
    requires i < |ties| && LastOfItsKey(ties, i)
    ensures ties[i] in Wanted(ties)
  {
    var n := |ties| - 1;
    var before := Wanted(ties[..n]);
    var at := Place(before, ties[n].key);
    if i < n {
      LastIsWanted(ties[..n], i);
      var k :| 0 <= k < |before| && before[k] == ties[i];
      assert Wanted(ties)[k] == ties[i];
    } else {
      assert Wanted(ties)[at] == ties[n];
    }
  }

  lemma {:induction false} WantedIsMatched(wanted: seq<SeededTie>, found: map<Key, Id>, t: SeededTie)
    requires t in wanted && t.key in found
    ensures Match(found[t.key], t.grade, t.rationale) in Matched(wanted, found)
  {
    var n := |wanted| - 1;
    if t != wanted[n] {
      var k :| 0 <= k < |wanted| && wanted[k] == t;
      assert wanted[..n][k] == t;
      WantedIsMatched(wanted[..n], found, t);
    }
  }

  /** The tie is the last of its key, its key finds an edge, and that has one live seed claim. */
  ghost predicate Regradable(claims: seq<Claim>, owner: Id, ties: seq<SeededTie>, rows: seq<Row>, i: nat)
    requires i < |ties|
  {
    && LastOfItsKey(ties, i) && ties[i].key in Found(rows)
    && |Lives(claims, Found(rows)[ties[i].key], owner, ties[i].rationale)| == 1
  }

  /** One live seed claim of the edge the tie's key finds, at the tie's grade. */
  ghost predicate Stands(claims: seq<Claim>, owner: Id, t: SeededTie, rows: seq<Row>) {
    t.key in Found(rows) &&
    var lives := Lives(claims, Found(rows)[t.key], owner, t.rationale);
    |lives| == 1 && claims[lives[0]].grade == t.grade
  }

  lemma TieIsRegraded(claims: seq<Claim>, owner: Id, ties: seq<SeededTie>, rows: seq<Row>, i: nat)
    requires PrimaryKey(rows) && i < |ties| && Regradable(claims, owner, ties, rows, i)
    ensures Stands(Regrade(claims, owner, Matches(ties, rows)), owner, ties[i], rows)
  {
    hide Wanted, Matched, Found, Lives, Regrade;
    var t := ties[i];
    LastIsWanted(ties, i);
    WantedIsMatched(Wanted(ties), Found(rows), t);
    var m := Match(Found(rows)[t.key], t.grade, t.rationale);
    var j :| 0 <= j < |Matches(ties, rows)| && Matches(ties, rows)[j] == m;
    OneLiveClaimIsRegraded(claims, owner, ties, rows, j);
  }

  /** A seeding run that found no smaller case populated, through a sink that draws nothing and gives out
      new references: what it asked for is what the replay records. */
  ghost predicate Sown<R(!new), S(!new), N(!new)>(
    k: SeedNetwork.Kit<R, S, N>, held: S -> set<N>, s: S, caseId: Id, kestrel: Id, corvid: Id, asked: seq<SeedNetwork.Asked>)
  {
    && SeedNetwork.Sound(k.rng) && SeedNetwork.Good(k, held) && kestrel != corvid
    && SeedNetwork.Unpopulated(k, SeedNetwork.Flagship(k, SeedNetwork.Seeded(k, s), caseId), SeedNetwork.Smaller(kestrel, corvid))
    && asked == SeedNetwork.Build(k, s, caseId, kestrel, corvid).asked
  }

  lemma SownIsReplayed<R(!new), S(!new), N(!new)>(
    k: SeedNetwork.Kit<R, S, N>, held: S -> set<N>, s: S, caseId: Id, kestrel: Id, corvid: Id, asked: seq<SeedNetwork.Asked>)
    requires Sown(k, held, s, caseId, kestrel, corvid, asked)
    ensures SeedNetwork.Sound(k.rng)
    ensures asked == SeedNetwork.Replayed(k.rng, k.patience, caseId, kestrel, corvid).asked
  {
    hide SeedNetwork.Build, SeedNetwork.Replayed, SeedNetwork.Unpopulated, SeedNetwork.Flagship, SeedNetwork.Good, SeedNetwork.Sound;
    SeedNetwork.ReplayIsFaithful(k, held, s, caseId, kestrel, corvid);
  }

  /** The ties replay answers. */
  function ReplayTies<R(!new)>(rng: SeedNetwork.Random<R>, patience: nat, caseId: Id, kestrel: Id, corvid: Id, texts: Texts): seq<SeededTie>
    requires SeedNetwork.Sound(rng)
  {
    Recorded(SeedNetwork.Replayed(rng, patience, caseId, kestrel, corvid).asked, texts)
  }

  /** Regraded by the replay's ties afterwards, each tie such a run asked for that its key still finds and
      that has one live seed claim has one afterwards, at the grade the builder asked for. */
  lemma SeededTieIsRegraded<R(!new), S(!new), N(!new)>(
    k: SeedNetwork.Kit<R, S, N>, held: S -> set<N>, s: S, caseId: Id, kestrel: Id, corvid: Id, asked: seq<SeedNetwork.Asked>,
    texts: Texts, claims: seq<Claim>, owner: Id, rows: seq<Row>, i: nat)
    requires PrimaryKey(rows) && i < |asked| && Regradable(claims, owner, Recorded(asked, texts), rows, i)
    requires SeedNetwork.Sound(k.rng) && Sown(k, held, s, caseId, kestrel, corvid, asked)
    ensures var ties := ReplayTies(k.rng, k.patience, caseId, kestrel, corvid, texts);
      Stands(Regrade(claims, owner, Matches(ties, rows)), owner, Printed(asked[i].tie, texts), rows)
  {
    hide Sown, SeedNetwork.Replayed, SeedNetwork.Sound, Matches, Regradable, Stands, Regrade, Printed;
    SownIsReplayed(k, held, s, caseId, kestrel, corvid, asked);
    TieIsRegraded(claims, owner, Recorded(asked, texts), rows, i);
  }
}
