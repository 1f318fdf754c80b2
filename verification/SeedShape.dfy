/** What the demonstration network looks like: six crews tied inside, brokers and a redundant pair between
    them, negative ties, infrastructure, wallets and victims, and the smaller cases' networks. */
module SeedShape {
  import opened Options
  import opened SeedNetwork

  /** What one kind of tie carries: its dates go back that many months. */
  datatype Law = Law(kinds: set<Kind>, months: nat, grades: set<Grade>, rationale: Rationale)

  const VOUCHES := Law({VouchedFor}, 30, {Low, Moderate, High}, Vouch)
  const CHANNELS := Law({CommunicatesWith}, 30, {Moderate}, PrivateChannel)
  const CONFLICTS := Law({AccusedScam, DisputedWith}, 12, {Low, Moderate}, Accusation)
  const HOSTS := Law({Controls}, 18, {Moderate}, OwnPost)
  const WALLETS := Law({Controls}, 20, {Low}, PostedByHandle)
  const INTRUSIONS := Law({BrokeredAccess}, 10, {Moderate}, AccessAdvertised)
  const REPLIES := Law({CommunicatesWith}, 14, {Low, Moderate}, SameThread)

  function Joining(j: nat, handle: Label, crew: Label): Law {
    if j == 0 then Law({Leads}, 30, {High}, Directing(handle, crew))
    else Law({MemberOf}, 30, {Moderate}, PostingAs(handle, crew))
  }

  /** The i-th tie asked for is of this case, as the law has it, and names its two entities. */
  ghost predicate Tied<R, S, N>(w: World<R, S, N>, i: nat, caseId: Id, law: Law) {
    i < |w.asked| &&
    var a := w.asked[i];
    && a.src < |w.made| && a.dst < |w.made| && a.tie.src == w.made[a.src].name && a.tie.dst == w.made[a.dst].name
    && a.tie.caseId == caseId && a.tie.kind in law.kinds && a.tie.grade in law.grades && a.tie.rationale == law.rationale
    && -30 * law.months <= a.tie.validFrom <= -20
  }

  ghost predicate Joins<R, S, N>(w: World<R, S, N>, i: nat, srcs: seq<nat>, dsts: seq<nat>) {
    i < |w.asked| && w.asked[i].src in srcs && w.asked[i].dst in dsts
  }

  /** The ties asked for from the lo-th to before the hi-th. */
  ghost predicate Ties<R, S, N>(w: World<R, S, N>, lo: nat, hi: nat, caseId: Id, law: Law, srcs: seq<nat>, dsts: seq<nat>) {
    lo <= hi <= |w.asked| && forall i :: lo <= i < hi ==> Tied(w, i, caseId, law) && Joins(w, i, srcs, dsts)
  }

  lemma TiesOn<R, S, N>(w: World<R, S, N>, v: World<R, S, N>, lo: nat, hi: nat, caseId: Id, law: Law, srcs: seq<nat>, dsts: seq<nat>)
    requires Ties(w, lo, hi, caseId, law, srcs, dsts) && w.made <= v.made && w.asked <= v.asked
    ensures Ties(v, lo, hi, caseId, law, srcs, dsts)
  {
    forall i | lo <= i < hi ensures Tied(v, i, caseId, law) && Joins(v, i, srcs, dsts) {
      assert Tied(w, i, caseId, law) && Joins(w, i, srcs, dsts);
    }
  }

  lemma WhenMeans<R(!new), S, N>(k: Kit<R, S, N>, w: World<R, S, N>, months: nat)
    requires Sound(k.rng) && months > 0
    ensures -30 * months <= When(k, w, months).1 <= -20
  {
  }

  lemma EdgeIs<R(!new), S, N>(k: Kit<R, S, N>, w: World<R, S, N>, caseId: Id, kind: Kind, a: nat, b: nat,
                                  weight: Option<real>, months: nat, grade: Grade, rationale: Rationale)
    requires Sound(k.rng) && a < |w.made| && b < |w.made| && a != b && months > 0
    ensures var v := CreateEdge(k, w, caseId, kind, a, b, weight, months, grade, rationale);
      && v.made == w.made && w.asked <= v.asked && |v.asked| == |w.asked| + 1
      && v.asked[|w.asked|].src == a && v.asked[|w.asked|].dst == b
      && Tied(v, |w.asked|, caseId, Law({kind}, months, {grade}, rationale))
  {
    hide When, NoLoops;
    WhenMeans(k, w, months);
  }

  lemma TiedBy<R, S, N>(w: World<R, S, N>, i: nat, caseId: Id, law: Law, wider: Law)
    requires Tied(w, i, caseId, law)
    requires law.kinds <= wider.kinds && law.grades <= wider.grades && law.months == wider.months && law.rationale == wider.rationale
    ensures Tied(w, i, caseId, wider)
  {
  }

  // Crews.

  lemma {:induction false} HandleIsHandle<R(!new), S, N>(k: Kit<R, S, N>, w: World<R, S, N>, tries: nat)
    requires Sound(k.rng)
    ensures NewHandle(k, w, tries).1.Handle?
    ensures NewHandle(k, w, tries).0.made == w.made && NewHandle(k, w, tries).0.asked == w.asked
    decreases tries
  {
    hide Sound;
    if DrawHandle(k, w).1 in w.used && tries > 0 {
      HandleIsHandle(k, DrawHandle(k, w).0, tries - 1);
    }
  }

  /** The lo-th tie on: each member of a crew joined it in turn, the first as its leader. */
  ghost predicate JoinedInTurn<R, S, N>(w: World<R, S, N>, lo: nat, caseId: Id, crew: nat, members: seq<nat>) {
    && crew < |w.made| && lo + |members| <= |w.asked| && Below(members, |w.made|)
    && forall j :: 0 <= j < |members| ==> JoinedAt(w, lo + j, caseId, crew, members[j], j)
  }

  ghost predicate JoinedAt<R, S, N>(w: World<R, S, N>, i: nat, caseId: Id, crew: nat, member: nat, j: nat) {
    && i < |w.asked| && crew < |w.made| && member < |w.made|
    && w.asked[i].src == member && w.asked[i].dst == crew && w.made[member].name.Handle?
    && Tied(w, i, caseId, Joining(j, w.made[member].name, w.made[crew].name))
  }

  lemma JoinedOn<R, S, N>(w: World<R, S, N>, v: World<R, S, N>, lo: nat, caseId: Id, crew: nat, members: seq<nat>)
    requires JoinedInTurn(w, lo, caseId, crew, members) && w.made <= v.made && w.asked <= v.asked
    ensures JoinedInTurn(v, lo, caseId, crew, members)
  {
    forall j | 0 <= j < |members| ensures JoinedAt(v, lo + j, caseId, crew, members[j], j) {
      assert JoinedAt(w, lo + j, caseId, crew, members[j], j);
    }
  }

  lemma MemberShape<R(!new), S, N>(k: Kit<R, S, N>, w: World<R, S, N>, caseId: Id, crew: nat, i: nat)
    requires Sound(k.rng) && crew < |w.made|
    ensures var n := Member(k, w, caseId, crew, i);
      |n.0.asked| == |w.asked| + 1 && w.made <= n.0.made && JoinedAt(n.0, |w.asked|, caseId, crew, n.1, i)
  {
    hide NewHandle, Letters, CreateEdge, NoLoops, Sound;
    HandleIsHandle(k, w, k.patience);
    var h := NewHandle(k, w, k.patience);
    var n := CreateNode(k, h.0, caseId, h.1);
    var w1 := Record(k, n.0, n.1, h.1);
    var d := Letters(k, w1, if i % 3 == 0 then 38 else 0, []);
    var w2 := if i % 3 == 0 then Record(k, d.0, n.1, Address(d.1)) else w1;
    var name := At(w, crew);
    EdgeIs(k, w2, caseId, if i == 0 then Leads else MemberOf, n.1, crew, None, 30,
           if i == 0 then High else Moderate, if i == 0 then Directing(h.1, name) else PostingAs(h.1, name));
  }

  lemma {:induction false} MembersShape<R(!new), S, N>(k: Kit<R, S, N>, w: World<R, S, N>, caseId: Id, crew: nat, size: nat, members: seq<nat>, first: nat, lo: nat)
    requires Sound(k.rng) && crew < |w.made| && |members| <= size && Kept(w, members) && Since(members, first) && first <= |w.made|
    requires JoinedInTurn(w, lo, caseId, crew, members) && |w.asked| == lo + |members|
    ensures var m := Members(k, w, caseId, crew, size, members, first);
      |m.0.asked| == lo + size && w.made <= m.0.made && JoinedInTurn(m.0, lo, caseId, crew, m.1)
    decreases size - |members|
  {
    hide Member, JoinedAt, Sound, NoLoops, Since, Kept;
    if |members| < size {
      MemberShape(k, w, caseId, crew, |members|);
      var n := Member(k, w, caseId, crew, |members|);
      KeptMore(w, n.0, members, first);
      JoinedOn(w, n.0, lo, caseId, crew, members);
      MembersShape(k, n.0, caseId, crew, size, members + [n.1], first, lo);
    }
  }

  /** Where the c-th crew's ties begin among all crews'. */
  function Before(c: nat): nat
    requires c <= |CREWS|
  {
    if c == 0 then 0 else Before(c - 1) + CREWS[c - 1]
  }

  ghost predicate CrewAt<R, S, N>(w: World<R, S, N>, lo: nat, caseId: Id, c: nat, members: seq<nat>) {
    exists crew: nat :: crew < |w.made| && w.made[crew].name == CrewName(c) && JoinedInTurn(w, lo, caseId, crew, members)
  }

  /** Each crew has a node of its own, and all its members joined it. */
  ghost predicate CrewsFrom<R, S, N>(w: World<R, S, N>, lo: nat, caseId: Id, crews: seq<seq<nat>>) {
    |crews| <= |CREWS| && forall c :: 0 <= c < |crews| ==> CrewAt(w, lo + Before(c), caseId, c, crews[c])
  }

  lemma CrewsFromOn<R, S, N>(w: World<R, S, N>, v: World<R, S, N>, lo: nat, caseId: Id, crews: seq<seq<nat>>)
    requires CrewsFrom(w, lo, caseId, crews) && w.made <= v.made && w.asked <= v.asked
    ensures CrewsFrom(v, lo, caseId, crews)
  {
    hide CREWS, JoinedInTurn;
    forall c | 0 <= c < |crews| ensures CrewAt(v, lo + Before(c), caseId, c, crews[c]) {
      assert CrewAt(w, lo + Before(c), caseId, c, crews[c]);
      var crew: nat :| crew < |w.made| && w.made[crew].name == CrewName(c) && JoinedInTurn(w, lo + Before(c), caseId, crew, crews[c]);
      JoinedOn(w, v, lo + Before(c), caseId, crew, crews[c]);
    }
  }

  lemma NodeIs<R(!new), S, N>(k: Kit<R, S, N>, w: World<R, S, N>, caseId: Id, name: Label)
    requires Sound(k.rng)
    ensures var n := CreateNode(k, w, caseId, name);
      n.0.asked == w.asked && w.made <= n.0.made && n.1 == |w.made| && |n.0.made| == |w.made| + 1 && n.0.made[n.1].name == name
  {
  }

  lemma {:induction false} CrewsShape<R(!new), S, N>(k: Kit<R, S, N>, w: World<R, S, N>, caseId: Id, crews: seq<seq<nat>>, lo: nat)
    requires Sound(k.rng) && Groups(w, crews) && CrewsFrom(w, lo, caseId, crews) && |w.asked| == lo + Before(|crews|)
    ensures var m := Crews(k, w, caseId, crews);
      |m.0.asked| == lo + Before(|CREWS|) && w.made <= m.0.made && CrewsFrom(m.0, lo, caseId, m.1) && |m.1| == |CREWS|
    decreases |CREWS| - |crews|
  {
    hide CREWS, CreateNode, Members, JoinedInTurn, CrewAt, Sound, NoLoops, Kept, Flat, Before, Groups, Since;
    if |crews| < |CREWS| {
      BeforeNext(|crews|);
      NodeIs(k, w, caseId, CrewName(|crews|));
      var g := CreateNode(k, w, caseId, CrewName(|crews|));
      NoneKept(g.0);
      assert Since([], |w.made|) by { SinceNone(|w.made|); }
      NoneJoined(g.0, |w.asked|, caseId, g.1);
      MembersShape(k, g.0, caseId, g.1, CREWS[|crews|], [], |w.made|, |w.asked|);
      var m := Members(k, g.0, caseId, g.1, CREWS[|crews|], [], |w.made|);
      OneMoreGroup(w, m.0, crews, m.1);
      CrewsFromOn(w, m.0, lo, caseId, crews);
      assert CrewAt(m.0, |w.asked|, caseId, |crews|, m.1) by { IsCrewAt(m.0, |w.asked|, caseId, |crews|, g.1, m.1); }
      CrewsShape(k, m.0, caseId, crews + [m.1], lo);
    }
  }

  lemma IsCrewAt<R, S, N>(w: World<R, S, N>, lo: nat, caseId: Id, c: nat, crew: nat, members: seq<nat>)
    requires crew < |w.made| && w.made[crew].name == CrewName(c) && JoinedInTurn(w, lo, caseId, crew, members)
    ensures CrewAt(w, lo, caseId, c, members)
  {
  }

  lemma SinceNone(first: nat)
    ensures Since([], first)
  {
  }

  lemma NoneJoined<R, S, N>(w: World<R, S, N>, lo: nat, caseId: Id, crew: nat)
    requires crew < |w.made| && lo <= |w.asked|
    ensures JoinedInTurn(w, lo, caseId, crew, [])
  {
  }

  // Vouches.

  ghost predicate OwnReferences<R, S, N>(w: World<R, S, N>) {
    forall i, j :: 0 <= i < j < |w.made| ==> w.made[i].ref != w.made[j].ref
  }

  lemma SameMeans<R, S, N>(w: World<R, S, N>, a: nat, b: nat)
    requires OwnReferences(w) && a < |w.made| && b < |w.made|
    ensures Same(w, a, b) <==> a == b
  {
  }

  /** How many ties a member asks for: one for each pick that is not itself. */
  function Others(a: nat, picks: seq<nat>): (n: nat)
    ensures n <= |picks|
    ensures Distinct(picks) ==> n >= |picks| - 1
    ensures a !in picks ==> n == |picks|
  {
    if picks == [] then 0
    else
      assert Distinct(picks) ==> Distinct(picks[1..]) && (picks[0] == a ==> a !in picks[1..]);
      (if picks[0] == a then 0 else 1) + Others(a, picks[1..])
  }

  predicate Subset(s: seq<nat>, t: seq<nat>) {
    forall x :: x in s ==> x in t
  }

  /** One tie more, by the same member. */
  lemma OneMoreTie<R, S, N>(w: World<R, S, N>, v: World<R, S, N>, lo: nat, caseId: Id, law: Law, srcs: seq<nat>, dsts: seq<nat>)
    requires Ties(w, lo, |w.asked|, caseId, law, srcs, dsts) && v.made == w.made && w.asked <= v.asked && |v.asked| == |w.asked| + 1
    requires Tied(v, |w.asked|, caseId, law) && Joins(v, |w.asked|, srcs, dsts)
    ensures Ties(v, lo, |v.asked|, caseId, law, srcs, dsts)
  {
    TiesOn(w, v, lo, |w.asked|, caseId, law, srcs, dsts);
  }

  lemma {:induction false} VouchesShape<R(!new), S, N>(k: Kit<R, S, N>, w: World<R, S, N>, caseId: Id, a: nat, picks: seq<nat>, members: seq<nat>, lo: nat)
    requires Sound(k.rng) && a < |w.made| && Known(w, picks) && OwnReferences(w)
    requires a in members && Subset(picks, members) && Ties(w, lo, |w.asked|, caseId, VOUCHES, members, members)
    ensures var v := Vouches(k, w, caseId, a, picks);
      v.made == w.made && |v.asked| == |w.asked| + Others(a, picks) && Ties(v, lo, |v.asked|, caseId, VOUCHES, members, members)
    decreases |picks|
  {
    hide CreateEdge, Uniform, Choose, Same, Sound, NoLoops, OwnReferences, Ties, Tied;
    if picks != [] {
      SameMeans(w, a, picks[0]);
      assert picks[0] in picks && Subset(picks[1..], picks);
      if a == picks[0] {
        VouchesShape(k, w, caseId, a, picks[1..], members, lo);
      } else {
        var weight := Uniform(k, w, 0.4, 1.0);
        var conf := Choose(k, weight.0, 4);
        var grade := [Low, Moderate, Moderate, High][conf.1];
        EdgeIs(k, conf.0, caseId, VouchedFor, a, picks[0], Some(weight.1), 30, grade, Vouch);
        var v := CreateEdge(k, conf.0, caseId, VouchedFor, a, picks[0], Some(weight.1), 30, grade, Vouch);
        TiedBy(v, |w.asked|, caseId, Law({VouchedFor}, 30, {grade}, Vouch), VOUCHES);
        OneMoreTie(w, v, lo, caseId, VOUCHES, members, members) by { TiesOn(w, conf.0, lo, |w.asked|, caseId, VOUCHES, members, members); }
        SameReferences(w, v);
        VouchesShape(k, v, caseId, a, picks[1..], members, lo);
      }
    }
  }

  lemma SameReferences<R, S, N>(w: World<R, S, N>, v: World<R, S, N>)
    requires OwnReferences(w) && v.made == w.made
    ensures OwnReferences(v)
  {
  }

  /** One crew's members from the i-th on vouch for two to six of it each. */
  lemma {:induction false} CrewVouchesShape<R(!new), S, N>(k: Kit<R, S, N>, w: World<R, S, N>, caseId: Id, members: seq<nat>, i: nat, lo: nat)
    requires Sound(k.rng) && Kept(w, members) && i <= |members| && |members| >= 6 && OwnReferences(w)
    requires Ties(w, lo, |w.asked|, caseId, VOUCHES, members, members)
    ensures var v := CrewVouches(k, w, caseId, members, i);
      && v.made == w.made && Ties(v, lo, |v.asked|, caseId, VOUCHES, members, members)
      && |w.asked| + 2 * (|members| - i) <= |v.asked| <= |w.asked| + 6 * (|members| - i)
    decreases |members| - i
  {
    hide Vouches, Sound, NoLoops, OwnReferences, Ties, Distinct, Between, Sample;
    if i < |members| {
      var n := Between(k, w, 3, 6);
      var count := if n.1 < |members| then n.1 else |members|;
      var picks := Sample(k, n.0, members, count);
      assert 3 <= |picks.1| <= 6 && Distinct(picks.1);
      assert Subset(picks.1, members);
      TiesOn(w, picks.0, lo, |w.asked|, caseId, VOUCHES, members, members);
      SameReferences(w, picks.0);
      VouchesShape(k, picks.0, caseId, members[i], picks.1, members, lo);
      var v := Vouches(k, picks.0, caseId, members[i], picks.1);
      SameReferences(w, v);
      CrewVouchesShape(k, v, caseId, members, i + 1, lo);
    }
  }

  ghost predicate InOneCrew(a: Asked, crews: seq<seq<nat>>) {
    exists c :: 0 <= c < |crews| && a.src in crews[c] && a.dst in crews[c]
  }

  /** Each of these ties is a vouch between two members of one crew. */
  ghost predicate VouchedInside<R, S, N>(w: World<R, S, N>, lo: nat, hi: nat, caseId: Id, crews: seq<seq<nat>>) {
    lo <= hi <= |w.asked| && forall i :: lo <= i < hi ==> Tied(w, i, caseId, VOUCHES) && InOneCrew(w.asked[i], crews)
  }

  lemma VouchedInsideMore<R, S, N>(w: World<R, S, N>, v: World<R, S, N>, lo: nat, caseId: Id, crews: seq<seq<nat>>, c: nat)
    requires VouchedInside(w, lo, |w.asked|, caseId, crews) && w.made <= v.made && w.asked <= v.asked && c < |crews|
    requires Ties(v, |w.asked|, |v.asked|, caseId, VOUCHES, crews[c], crews[c])
    ensures VouchedInside(v, lo, |v.asked|, caseId, crews)
  {
    forall i | lo <= i < |v.asked| ensures Tied(v, i, caseId, VOUCHES) && InOneCrew(v.asked[i], crews) {
      if i < |w.asked| {
        assert Tied(w, i, caseId, VOUCHES) && InOneCrew(w.asked[i], crews);
      } else {
        assert Tied(v, i, caseId, VOUCHES) && Joins(v, i, crews[c], crews[c]);
      }
    }
  }

  lemma VouchedOn<R, S, N>(w: World<R, S, N>, v: World<R, S, N>, lo: nat, hi: nat, caseId: Id, crews: seq<seq<nat>>)
    requires VouchedInside(w, lo, hi, caseId, crews) && w.made <= v.made && w.asked <= v.asked
    ensures VouchedInside(v, lo, hi, caseId, crews)
  {
    forall i | lo <= i < hi ensures Tied(v, i, caseId, VOUCHES) && InOneCrew(v.asked[i], crews) {
      assert Tied(w, i, caseId, VOUCHES) && InOneCrew(w.asked[i], crews);
    }
  }

  lemma NoTies<R, S, N>(w: World<R, S, N>, caseId: Id, law: Law, srcs: seq<nat>, dsts: seq<nat>)
    ensures Ties(w, |w.asked|, |w.asked|, caseId, law, srcs, dsts)
  {
  }

  lemma BeforeNext(c: nat)
    requires c < |CREWS|
    ensures Before(c + 1) == Before(c) + CREWS[c] && CREWS[c] >= 7
  {
  }

  lemma {:induction false} WeaveShape<R(!new), S, N>(k: Kit<R, S, N>, w: World<R, S, N>, caseId: Id, crews: seq<seq<nat>>, i: nat, lo: nat)
    requires Sound(k.rng) && Groups(w, crews) && i <= |crews| && OwnReferences(w)
    requires VouchedInside(w, lo, |w.asked|, caseId, crews)
    ensures var v := Weave(k, w, caseId, crews, i);
      && v.made == w.made && VouchedInside(v, lo, |v.asked|, caseId, crews)
      && |w.asked| + 2 * (Before(|crews|) - Before(i)) <= |v.asked| <= |w.asked| + 6 * (Before(|crews|) - Before(i))
    decreases |crews| - i
  {
    hide CrewVouches, Sound, NoLoops, OwnReferences, Ties, Kept, CREWS, Flat, VouchedInside, Before;
    if i < |crews| {
      BeforeNext(i);
      NoTies(w, caseId, VOUCHES, crews[i], crews[i]);
      CrewVouchesShape(k, w, caseId, crews[i], 0, |w.asked|);
      var v := CrewVouches(k, w, caseId, crews[i], 0);
      VouchedInsideMore(w, v, lo, caseId, crews, i);
      GroupsOn(w, v, crews);
      SameReferences(w, v);
      WeaveShape(k, v, caseId, crews, i + 1, lo);
    }
  }

  // Brokers.

  /** The ties a broker asks for on one side: three, to different members. */
  ghost predicate SideAt<R, S, N>(w: World<R, S, N>, lo: nat, caseId: Id, broker: nat, side: seq<nat>) {
    && Ties(w, lo, lo + 3, caseId, CHANNELS, [broker], side)
    && w.asked[lo].dst != w.asked[lo + 1].dst && w.asked[lo].dst != w.asked[lo + 2].dst && w.asked[lo + 1].dst != w.asked[lo + 2].dst
  }

  /** A handle tied to three members of each of two crews. */
  ghost predicate BridgeAt<R, S, N>(w: World<R, S, N>, lo: nat, caseId: Id, broker: nat, one: seq<nat>, other: seq<nat>) {
    && broker < |w.made| && w.made[broker].name.Handle?
    && SideAt(w, lo, caseId, broker, one) && SideAt(w, lo + 3, caseId, broker, other)
  }

  lemma SideOn<R, S, N>(w: World<R, S, N>, v: World<R, S, N>, lo: nat, caseId: Id, broker: nat, side: seq<nat>)
    requires SideAt(w, lo, caseId, broker, side) && w.made <= v.made && w.asked <= v.asked
    ensures SideAt(v, lo, caseId, broker, side)
  {
    hide Tied, Joins;
    TiesOn(w, v, lo, lo + 3, caseId, CHANNELS, [broker], side);
  }

  lemma BridgeOn<R, S, N>(w: World<R, S, N>, v: World<R, S, N>, lo: nat, caseId: Id, broker: nat, one: seq<nat>, other: seq<nat>)
    requires BridgeAt(w, lo, caseId, broker, one, other) && w.made <= v.made && w.asked <= v.asked
    ensures BridgeAt(v, lo, caseId, broker, one, other)
  {
    hide SideAt;
    SideOn(w, v, lo, caseId, broker, one);
    SideOn(w, v, lo + 3, caseId, broker, other);
  }

  lemma {:induction false} PeersShape<R(!new), S, N>(k: Kit<R, S, N>, w: World<R, S, N>, caseId: Id, a: nat, peers: seq<nat>, weighted: bool, side: seq<nat>, lo: nat)
    requires Sound(k.rng) && a < |w.made| && Below(peers, a) && Subset(peers, side)
    requires Ties(w, lo, |w.asked|, caseId, CHANNELS, [a], side)
    ensures var v := Peers(k, w, caseId, a, peers, weighted);
      && v.made == w.made && w.asked <= v.asked && |v.asked| == |w.asked| + |peers| && Ties(v, lo, |v.asked|, caseId, CHANNELS, [a], side)
      && forall j :: 0 <= j < |peers| ==> v.asked[|w.asked| + j].dst == peers[j]
    decreases |peers|
  {
    hide CreateEdge, Uniform, Sound, NoLoops, Ties, Tied;
    if peers != [] {
      assert peers[0] in peers && Subset(peers[1..], peers);
      var weight := Uniform(k, w, 0.5, 1.0);
      var w1 := if weighted then weight.0 else w;
      var given := if weighted then Some(weight.1) else None;
      EdgeIs(k, w1, caseId, CommunicatesWith, a, peers[0], given, 30, Moderate, PrivateChannel);
      var v := CreateEdge(k, w1, caseId, CommunicatesWith, a, peers[0], given, 30, Moderate, PrivateChannel);
      assert Tied(v, |w.asked|, caseId, CHANNELS);
      OneMoreTie(w, v, lo, caseId, CHANNELS, [a], side);
      PeersShape(k, v, caseId, a, peers[1..], weighted, side, lo);
    }
  }

  lemma SideShape<R(!new), S, N>(k: Kit<R, S, N>, w: World<R, S, N>, caseId: Id, a: nat, side: seq<nat>, weighted: bool)
    requires Sound(k.rng) && a < |w.made| && Below(side, a) && |side| >= 3 && Distinct(side)
    ensures var v := Side(k, w, caseId, a, side, weighted);
      v.made == w.made && w.asked <= v.asked && |v.asked| == |w.asked| + 3 && SideAt(v, |w.asked|, caseId, a, side)
  {
    hide Peers, Sample, Sound, NoLoops, Ties;
    var picks := Sample(k, w, side, 3);
    assert picks.1[0] != picks.1[1] && picks.1[0] != picks.1[2] && picks.1[1] != picks.1[2];
    assert Subset(picks.1, side);
    NoTies(picks.0, caseId, CHANNELS, [a], side);
    PeersShape(k, picks.0, caseId, a, picks.1, weighted, side, |w.asked|);
    var v := Peers(k, picks.0, caseId, a, picks.1, weighted);
    assert v.asked[|w.asked| + 0].dst == picks.1[0] && v.asked[|w.asked| + 1].dst == picks.1[1] && v.asked[|w.asked| + 2].dst == picks.1[2];
  }

  lemma BridgeShape<R(!new), S, N>(k: Kit<R, S, N>, w: World<R, S, N>, caseId: Id, one: seq<nat>, other: seq<nat>, weighted: bool)
    requires Sound(k.rng) && Kept(w, one) && Kept(w, other) && |one| >= 3 && |other| >= 3
    ensures var b := Bridge(k, w, caseId, one, other, weighted);
      && w.made <= b.0.made && w.asked <= b.0.asked && |b.0.asked| == |w.asked| + 6 && b.1 == |w.made| < |b.0.made|
      && BridgeAt(b.0, |w.asked|, caseId, b.1, one, other)
  {
    hide NewHandle, CreateNode, Side, SideAt, Sound, NoLoops, Distinct;
    HandleIsHandle(k, w, k.patience);
    var h := NewHandle(k, w, k.patience);
    NodeIs(k, h.0, caseId, h.1);
    var n := CreateNode(k, h.0, caseId, h.1);
    SideShape(k, n.0, caseId, n.1, one, weighted);
    var v := Side(k, n.0, caseId, n.1, one, weighted);
    SideShape(k, v, caseId, n.1, other, weighted);
    SideOn(v, Side(k, v, caseId, n.1, other, weighted), |w.asked|, caseId, n.1, one);
  }

  /** The i-th broker stands between the i-th crew and the next, round to the first. */
  ghost predicate BrokersFrom<R, S, N>(w: World<R, S, N>, lo: nat, caseId: Id, crews: seq<seq<nat>>, brokers: seq<nat>) {
    |crews| > 0 &&
    forall i :: 0 <= i < |brokers| ==> BridgeAt(w, lo + 6 * i, caseId, brokers[i], crews[i % |crews|], crews[(i + 1) % |crews|])
  }

  lemma BrokersOn<R, S, N>(w: World<R, S, N>, v: World<R, S, N>, lo: nat, caseId: Id, crews: seq<seq<nat>>, brokers: seq<nat>)
    requires BrokersFrom(w, lo, caseId, crews, brokers) && w.made <= v.made && w.asked <= v.asked
    ensures BrokersFrom(v, lo, caseId, crews, brokers)
  {
    hide BridgeAt;
    forall i | 0 <= i < |brokers| ensures BridgeAt(v, lo + 6 * i, caseId, brokers[i], crews[i % |crews|], crews[(i + 1) % |crews|]) {
      BridgeOn(w, v, lo + 6 * i, caseId, brokers[i], crews[i % |crews|], crews[(i + 1) % |crews|]);
    }
  }

  lemma GroupsKept<R, S, N>(w: World<R, S, N>, crews: seq<seq<nat>>, c: nat)
    requires Groups(w, crews) && c < |crews|
    ensures Kept(w, crews[c])
  {
    hide CREWS, Flat;
  }

  /** Brokers are none of the entities made before them, and no two are the same. */
  lemma {:induction false} BrokersShape<R(!new), S, N>(k: Kit<R, S, N>, w: World<R, S, N>, caseId: Id, crews: seq<seq<nat>>, brokers: seq<nat>, lo: nat, first: nat)
    requires Sound(k.rng) && Groups(w, crews) && |crews| == |CREWS| && |brokers| <= |crews| && Kept(w, brokers) && Since(brokers, first)
    requires BrokersFrom(w, lo, caseId, crews, brokers) && |w.asked| == lo + 6 * |brokers| && first <= |w.made|
    ensures var b := Brokers(k, w, caseId, crews, brokers);
      && w.made <= b.0.made && w.asked <= b.0.asked && |b.0.asked| == lo + 36 && BrokersFrom(b.0, lo, caseId, crews, b.1) && |b.1| == 6
      && Kept(b.0, b.1) && Since(b.1, first)
    decreases |crews| - |brokers|
  {
    hide Bridge, BridgeAt, Sound, NoLoops, Kept, Flat, Groups, Since;
    GroupsAreBig(w, crews);
    if |brokers| < |crews| {
      var i := |brokers|;
      GroupsKept(w, crews, i);
      GroupsKept(w, crews, (i + 1) % |crews|);
      BridgeShape(k, w, caseId, crews[i], crews[(i + 1) % |crews|], true);
      var b := Bridge(k, w, caseId, crews[i], crews[(i + 1) % |crews|], true);
      GroupsOn(w, b.0, crews);
      KeptMore(w, b.0, brokers, first);
      BrokersOn(w, b.0, lo, caseId, crews, brokers);
      BrokersShape(k, b.0, caseId, crews, brokers + [b.1], lo, first);
    }
  }

  // Conflict, and what is attached.

  lemma {:induction false} ConflictShape<R(!new), S, N>(k: Kit<R, S, N>, w: World<R, S, N>, caseId: Id, flat: seq<nat>, n: nat, lo: nat)
    requires Sound(k.rng) && Kept(w, flat) && |flat| >= 2 && Ties(w, lo, |w.asked|, caseId, CONFLICTS, flat, flat)
    ensures var v := Conflict(k, w, caseId, flat, n);
      v.made == w.made && w.asked <= v.asked && |v.asked| == |w.asked| + n && Ties(v, lo, |v.asked|, caseId, CONFLICTS, flat, flat)
    decreases n
  {
    hide CreateEdge, Sample, Choose, Sound, NoLoops, Ties, Tied;
    if n > 0 {
      var pair := Sample(k, w, flat, 2);
      assert pair.1[0] in flat && pair.1[1] in flat && pair.1[0] != pair.1[1];
      hide Distinct, Below;
      var kind := Choose(k, pair.0, 2);
      var conf := Choose(k, kind.0, 2);
      var what := if kind.1 == 0 then AccusedScam else DisputedWith;
      var grade := if conf.1 == 0 then Low else Moderate;
      EdgeIs(k, conf.0, caseId, what, pair.1[0], pair.1[1], None, 12, grade, Accusation);
      var v := CreateEdge(k, conf.0, caseId, what, pair.1[0], pair.1[1], None, 12, grade, Accusation);
      TiedBy(v, |w.asked|, caseId, Law({what}, 12, {grade}, Accusation), CONFLICTS);
      OneMoreTie(w, v, lo, caseId, CONFLICTS, flat, flat);
      ConflictShape(k, v, caseId, flat, n - 1, lo);
    }
  }

  datatype Thing = AHost | AWallet | AVictim

  predicate IsA(name: Label, thing: Thing) {
    match thing
    case AHost => name.Host? && 1000 <= name.number <= 9999
    case AWallet => name.Address?
    case AVictim => name.Victim? && 100 <= name.number <= 999
  }

  /** From the lo-th tie on: each ties one of these entities to a thing of its own, made for it. */
  ghost predicate Attachments<R, S, N>(w: World<R, S, N>, lo: nat, hi: nat, caseId: Id, law: Law, owners: seq<nat>, thing: Thing, first: nat) {
    && lo <= hi <= |w.asked|
    && (forall i :: lo <= i < hi ==> AttachedAt(w, i, caseId, law, owners, thing) && w.asked[i].dst >= first)
    && (forall i, j :: lo <= i < j < hi ==> w.asked[i].dst < w.asked[j].dst)
  }

  ghost predicate AttachedAt<R, S, N>(w: World<R, S, N>, i: nat, caseId: Id, law: Law, owners: seq<nat>, thing: Thing) {
    Tied(w, i, caseId, law) && w.asked[i].src in owners && IsA(w.asked[i].tie.dst, thing)
  }

  lemma AttachmentsOn<R, S, N>(w: World<R, S, N>, v: World<R, S, N>, lo: nat, hi: nat, caseId: Id, law: Law, owners: seq<nat>, thing: Thing, first: nat)
    requires Attachments(w, lo, hi, caseId, law, owners, thing, first) && w.made <= v.made && w.asked <= v.asked
    ensures Attachments(v, lo, hi, caseId, law, owners, thing, first)
  {
    forall i | lo <= i < hi ensures AttachedAt(v, i, caseId, law, owners, thing) && v.asked[i].dst >= first {
      assert AttachedAt(w, i, caseId, law, owners, thing);
    }
  }

  lemma HeldShape<R(!new), S, N>(k: Kit<R, S, N>, w: World<R, S, N>, caseId: Id, owners: seq<nat>, name: Label, kind: Kind, months: nat,
                                 grade: Grade, rationale: Rationale, thing: Thing, lo: nat, first: nat)
    requires Sound(k.rng) && Known(w, owners) && |owners| > 0 && months > 0 && IsA(name, thing) && first <= |w.made|
    requires Attachments(w, lo, |w.asked|, caseId, Law({kind}, months, {grade}, rationale), owners, thing, first)
    ensures var v := Held(k, w, caseId, owners, name, kind, months, grade, rationale);
      && w.made <= v.made && w.asked <= v.asked && |v.asked| == |w.asked| + 1
      && Attachments(v, lo, |v.asked|, caseId, Law({kind}, months, {grade}, rationale), owners, thing, first)
  {
    hide CreateNode, CreateEdge, Choose, Sound, NoLoops, IsA;
    NodeIs(k, w, caseId, name);
    var n := CreateNode(k, w, caseId, name);
    var src := Choose(k, n.0, |owners|);
    EdgeIs(k, src.0, caseId, kind, owners[src.1], n.1, None, months, grade, rationale);
    var v := CreateEdge(k, src.0, caseId, kind, owners[src.1], n.1, None, months, grade, rationale);
    AttachmentsOn(w, v, lo, |w.asked|, caseId, Law({kind}, months, {grade}, rationale), owners, thing, first);
    forall i | lo <= i < |w.asked| ensures v.asked[i].dst < n.1 {
      assert AttachedAt(w, i, caseId, Law({kind}, months, {grade}, rationale), owners, thing);
      assert v.asked[i] == w.asked[i];
    }
  }

  lemma {:induction false} HostsShape<R(!new), S, N>(k: Kit<R, S, N>, w: World<R, S, N>, caseId: Id, flat: seq<nat>, n: nat, lo: nat, first: nat)
    requires Sound(k.rng) && Known(w, flat) && |flat| > 0 && first <= |w.made| && Attachments(w, lo, |w.asked|, caseId, HOSTS, flat, AHost, first)
    ensures var v := Hosts(k, w, caseId, flat, n);
      && w.made <= v.made && w.asked <= v.asked && |v.asked| == |w.asked| + n && Attachments(v, lo, |v.asked|, caseId, HOSTS, flat, AHost, first)
    decreases n
  {
    hide Held, Between, Choose, Sound, NoLoops, Attachments;
    if n > 0 {
      var number := Between(k, w, 1000, 9999);
      var asn := Choose(k, number.0, 3);
      AttachmentsOn(w, asn.0, lo, |w.asked|, caseId, HOSTS, flat, AHost, first);
      HeldShape(k, asn.0, caseId, flat, Host(number.1), Controls, 18, Moderate, OwnPost, AHost, lo, first);
      HostsShape(k, Held(k, asn.0, caseId, flat, Host(number.1), Controls, 18, Moderate, OwnPost), caseId, flat, n - 1, lo, first);
    }
  }

  lemma {:induction false} WalletsShape<R(!new), S, N>(k: Kit<R, S, N>, w: World<R, S, N>, caseId: Id, flat: seq<nat>, n: nat, lo: nat, first: nat)
    requires Sound(k.rng) && Known(w, flat) && |flat| > 0 && first <= |w.made| && Attachments(w, lo, |w.asked|, caseId, WALLETS, flat, AWallet, first)
    ensures var v := Wallets(k, w, caseId, flat, n);
      && w.made <= v.made && w.asked <= v.asked && |v.asked| == |w.asked| + n && Attachments(v, lo, |v.asked|, caseId, WALLETS, flat, AWallet, first)
    decreases n
  {
    hide Held, Letters, Sound, NoLoops, Attachments;
    if n > 0 {
      var letters := Letters(k, w, 38, []);
      AttachmentsOn(w, letters.0, lo, |w.asked|, caseId, WALLETS, flat, AWallet, first);
      HeldShape(k, letters.0, caseId, flat, Address(letters.1), Controls, 20, Low, PostedByHandle, AWallet, lo, first);
      WalletsShape(k, Held(k, letters.0, caseId, flat, Address(letters.1), Controls, 20, Low, PostedByHandle), caseId, flat, n - 1, lo, first);
    }
  }

  lemma {:induction false} VictimsShape<R(!new), S, N>(k: Kit<R, S, N>, w: World<R, S, N>, caseId: Id, brokers: seq<nat>, n: nat, lo: nat, first: nat)
    requires Sound(k.rng) && Known(w, brokers) && |brokers| > 0 && first <= |w.made|
    requires Attachments(w, lo, |w.asked|, caseId, INTRUSIONS, brokers, AVictim, first)
    ensures var v := Victims(k, w, caseId, brokers, n);
      && w.made <= v.made && w.asked <= v.asked && |v.asked| == |w.asked| + n && Attachments(v, lo, |v.asked|, caseId, INTRUSIONS, brokers, AVictim, first)
    decreases n
  {
    hide Held, Choose, Between, Sound, NoLoops, Attachments;
    if n > 0 {
      var name := Choose(k, w, VICTIMS);
      var number := Between(k, name.0, 100, 999);
      AttachmentsOn(w, number.0, lo, |w.asked|, caseId, INTRUSIONS, brokers, AVictim, first);
      HeldShape(k, number.0, caseId, brokers, Victim(name.1, number.1), BrokeredAccess, 10, Moderate, AccessAdvertised, AVictim, lo, first);
      VictimsShape(k, Held(k, number.0, caseId, brokers, Victim(name.1, number.1), BrokeredAccess, 10, Moderate, AccessAdvertised), caseId, brokers, n - 1, lo, first);
    }
  }

  lemma NoAttachments<R, S, N>(w: World<R, S, N>, caseId: Id, law: Law, owners: seq<nat>, thing: Thing, first: nat)
    ensures Attachments(w, |w.asked|, |w.asked|, caseId, law, owners, thing, first)
  {
  }

  /** Twenty-six hosts, twenty wallets and fourteen victims, none of them anything made before. */
  ghost predicate AllAttached<R, S, N>(w: World<R, S, N>, lo: nat, caseId: Id, flat: seq<nat>, brokers: seq<nat>, first: nat) {
    && Attachments(w, lo, lo + 26, caseId, HOSTS, flat, AHost, first)
    && Attachments(w, lo + 26, lo + 46, caseId, WALLETS, flat, AWallet, first)
    && Attachments(w, lo + 46, lo + 60, caseId, INTRUSIONS, brokers, AVictim, first)
  }

  lemma AttachedShape<R(!new), S, N>(k: Kit<R, S, N>, w: World<R, S, N>, caseId: Id, flat: seq<nat>, brokers: seq<nat>)
    requires Sound(k.rng) && Known(w, flat) && |flat| > 0 && Known(w, brokers) && |brokers| > 0
    ensures var v := Attached(k, w, caseId, flat, brokers);
      && w.made <= v.made && w.asked <= v.asked && |v.asked| == |w.asked| + 60 && AllAttached(v, |w.asked|, caseId, flat, brokers, |w.made|)
  {
    hide Hosts, Wallets, Victims, Sound, NoLoops, Attachments, Distinct;
    var first, lo := |w.made|, |w.asked|;
    NoAttachments(w, caseId, HOSTS, flat, AHost, first);
    HostsShape(k, w, caseId, flat, 26, lo, first);
    var hosted := Hosts(k, w, caseId, flat, 26);
    NoAttachments(hosted, caseId, WALLETS, flat, AWallet, first);
    WalletsShape(k, hosted, caseId, flat, 20, lo + 26, first);
    var paid := Wallets(k, hosted, caseId, flat, 20);
    AttachmentsOn(hosted, paid, lo, lo + 26, caseId, HOSTS, flat, AHost, first);
    NoAttachments(paid, caseId, INTRUSIONS, brokers, AVictim, first);
    VictimsShape(k, paid, caseId, brokers, 14, lo + 46, first);
    var v := Victims(k, paid, caseId, brokers, 14);
    AttachmentsOn(paid, v, lo, lo + 26, caseId, HOSTS, flat, AHost, first);
    AttachmentsOn(paid, v, lo + 26, lo + 46, caseId, WALLETS, flat, AWallet, first);
  }

  // The flagship case.

  /** No entity is in two crews, and none is in one twice. */
  ghost predicate Apart(crews: seq<seq<nat>>) {
    && (forall c :: 0 <= c < |crews| ==> Distinct(crews[c]))
    && (forall c, d, x :: 0 <= c < d < |crews| && x in crews[c] ==> x !in crews[d])
  }

  lemma {:induction false} FlatHolds(crews: seq<seq<nat>>, c: nat, x: nat)
    requires c < |crews| && x in crews[c]
    ensures x in Flat(crews)
  {
    if c < |crews| - 1 {
      FlatHolds(crews[..|crews| - 1], c, x);
    }
  }

  lemma {:induction false} FlatApart(crews: seq<seq<nat>>)
    requires Distinct(Flat(crews))
    ensures Apart(crews)
  {
    if crews != [] {
      var last := |crews| - 1;
      var rest := crews[..last];
      var flat := Flat(rest);
      assert Flat(crews) == flat + crews[last];
      assert Distinct(flat) by { assert forall i :: 0 <= i < |flat| ==> Flat(crews)[i] == flat[i]; }
      assert Distinct(crews[last]) by { assert forall i :: 0 <= i < |crews[last]| ==> Flat(crews)[|flat| + i] == crews[last][i]; }
      FlatApart(rest);
      forall c, x | 0 <= c < last && x in crews[c] ensures x !in crews[last] {
        FlatHolds(rest, c, x);
        InBoth(flat, crews[last], x);
      }
    }
  }

  lemma InBoth(s: seq<nat>, t: seq<nat>, x: nat)
    requires Distinct(s + t) && x in s
    ensures x !in t
  {
    var i :| 0 <= i < |s| && s[i] == x;
    forall j | 0 <= j < |t| ensures t[j] != x {
      assert (s + t)[i] == x && (s + t)[|s| + j] == t[j];
    }
  }

  /** The flagship case's ties from the lo-th on: its crews' members join, vouch for each other, brokers and the
      twin stand between crews, members fall out, and things are attached. */
  ghost predicate Structured<R, S, N>(w: World<R, S, N>, lo: nat, caseId: Id, crews: seq<seq<nat>>, brokers: seq<nat>, vouches: nat, first: nat) {
    && Sizes(crews) == [18, 15, 13, 11, 9, 7] && Apart(crews) && |brokers| == 7 && Distinct(brokers)
    && (forall b :: b in brokers ==> b !in Flat(crews) && b < first)
    && (forall x :: x in Flat(crews) ==> x < first)
    && 146 <= vouches <= 438 && |w.asked| == lo + 199 + vouches
    && CrewsFrom(w, lo, caseId, crews)
    && VouchedInside(w, lo + 73, lo + 73 + vouches, caseId, crews)
    && BrokersFrom(w, lo + 73 + vouches, caseId, crews, brokers)
    && Ties(w, lo + 115 + vouches, lo + 139 + vouches, caseId, CONFLICTS, Flat(crews), Flat(crews))
    && AllAttached(w, lo + 139 + vouches, caseId, Flat(crews), brokers, first)
  }

  function Sizes(crews: seq<seq<nat>>): seq<nat> {
    seq(|crews|, c requires 0 <= c < |crews| => |crews[c]|)
  }

  lemma GroupsSized<R, S, N>(w: World<R, S, N>, crews: seq<seq<nat>>)
    requires Groups(w, crews) && |crews| == |CREWS|
    ensures Sizes(crews) == [18, 15, 13, 11, 9, 7] && Apart(crews) && Before(|CREWS|) == 73
  {
    hide Kept;
    assert Distinct(Flat(crews)) by { KeptDistinct(w, Flat(crews)); }
    hide Flat;
    FlatApart(crews);
    assert CREWS == [18, 15, 13, 11, 9, 7];
    assert Before(1) == 18 && Before(2) == 33 && Before(3) == 46 && Before(4) == 57 && Before(5) == 66;
  }

  lemma KeptDistinct<R, S, N>(w: World<R, S, N>, s: seq<nat>)
    requires Kept(w, s)
    ensures Distinct(s) && Below(s, |w.made|)
  {
  }

  lemma OwnedReferences<R, S, N>(held: S -> set<N>, w: World<R, S, N>, v: World<R, nat, nat>)
    requires InStep(held, w, v)
    ensures OwnReferences(w)
  {
    hide SameNames;
  }

  lemma OneMoreBroker<R, S, N>(w: World<R, S, N>, lo: nat, caseId: Id, crews: seq<seq<nat>>, brokers: seq<nat>, twin: nat)
    requires BrokersFrom(w, lo, caseId, crews, brokers) && |crews| == 6 && |brokers| == 6
    requires BridgeAt(w, lo + 36, caseId, twin, crews[0], crews[1])
    ensures BrokersFrom(w, lo, caseId, crews, brokers + [twin])
  {
    hide BridgeAt;
  }

  /** The crews and their vouches. */
  lemma InsideShape<R(!new), S(!new), N(!new)>(k: Kit<R, S, N>, held: S -> set<N>, w: World<R, S, N>, v: World<R, nat, nat>, caseId: Id)
    requires Good(k, held) && InStep(held, w, v) && Groups(w, [])
    ensures var crews := Crews(k, w, caseId, []); var woven := Weave(k, crews.0, caseId, crews.1, 0);
      && |crews.1| == 6 && Groups(woven, crews.1) && w.made <= woven.made && CrewsFrom(woven, |w.asked|, caseId, crews.1)
      && Sizes(crews.1) == [18, 15, 13, 11, 9, 7] && Apart(crews.1)
      && |w.asked| + 73 + 146 <= |woven.asked| <= |w.asked| + 73 + 438
      && VouchedInside(woven, |w.asked| + 73, |woven.asked|, caseId, crews.1)
  {
    hide Sound, Quiet, Fresh, InStep, NoLoops, Crews, Weave, CrewsFrom, VouchedInside, Groups, Flat, OwnReferences, Before, Apart, Sizes;
    var lo := |w.asked|;
    NoCrews(w, lo, caseId);
    CrewsShape(k, w, caseId, [], lo);
    CrewsInStep(k, held, w, v, caseId, []);
    var crews := Crews(k, w, caseId, []);
    GroupsSized(crews.0, crews.1);
    OwnedReferences(held, crews.0, Crews(Replaying(k), v, caseId, []).0);
    NoneVouched(crews.0, caseId, crews.1);
    WeaveShape(k, crews.0, caseId, crews.1, 0, lo + 73);
    var woven := Weave(k, crews.0, caseId, crews.1, 0);
    GroupsOn(crews.0, woven, crews.1);
    CrewsFromOn(crews.0, woven, lo, caseId, crews.1);
  }

  lemma NoCrews<R, S, N>(w: World<R, S, N>, lo: nat, caseId: Id)
    ensures CrewsFrom(w, lo, caseId, []) && Before(0) == 0
  {
  }

  lemma NoneVouched<R, S, N>(w: World<R, S, N>, caseId: Id, crews: seq<seq<nat>>)
    ensures VouchedInside(w, |w.asked|, |w.asked|, caseId, crews)
  {
  }

  /** Whatever the draws: the flagship network has the structure it is drawn to have. */
  lemma FlagshipIsStructured<R(!new), S(!new), N(!new)>(k: Kit<R, S, N>, held: S -> set<N>, w: World<R, S, N>, v: World<R, nat, nat>, caseId: Id)
    requires Good(k, held) && InStep(held, w, v)
    ensures exists crews, brokers, vouches, first :: Structured(Flagship(k, w, caseId), |w.asked|, caseId, crews, brokers, vouches, first)
  {
    hide Sound, Quiet, Fresh, InStep, NoLoops, Crews, Weave, Brokers, Bridge, Conflict, Attached, Groups, Flat, Distinct, CREWS, Since,
         CrewsFrom, VouchedInside, BrokersFrom, BridgeAt, Ties, AllAttached, Apart, Sizes;
    var lo := |w.asked|;
    NoGroups(w);
    InsideShape(k, held, w, v, caseId);
    var crews := Crews(k, w, caseId, []);
    var woven := Weave(k, crews.0, caseId, crews.1, 0);
    var flat := Flat(crews.1);
    GroupsAreBig(woven, crews.1);
    var n := |woven.asked| - lo - 73;
    NoBrokers(woven, lo + 73 + n, caseId, crews.1);
    BrokersShape(k, woven, caseId, crews.1, [], lo + 73 + n, |woven.made|);
    var brokers := Brokers(k, woven, caseId, crews.1, []);
    GroupsOn(woven, brokers.0, crews.1);
    GroupsKept(brokers.0, crews.1, 0);
    GroupsKept(brokers.0, crews.1, 1);
    BridgeShape(k, brokers.0, caseId, crews.1[0], crews.1[1], false);
    var twin := Bridge(k, brokers.0, caseId, crews.1[0], crews.1[1], false);
    var all := brokers.1 + [twin.1];
    KeptMore(brokers.0, twin.0, brokers.1, |woven.made|);
    BrokersOn(brokers.0, twin.0, lo + 73 + n, caseId, crews.1, brokers.1);
    OneMoreBroker(twin.0, lo + 73 + n, caseId, crews.1, brokers.1, twin.1);
    FlatIsKept(woven, twin.0, crews.1);
    FlatIsKept(woven, woven, crews.1);
    NoTies(twin.0, caseId, CONFLICTS, flat, flat);
    ConflictShape(k, twin.0, caseId, flat, 24, lo + 115 + n);
    var fought := Conflict(k, twin.0, caseId, flat, 24);
    AttachedShape(k, fought, caseId, flat, all);
    var done := Attached(k, fought, caseId, flat, all);
    CrewsFromOn(woven, done, lo, caseId, crews.1);
    VouchedOn(woven, done, lo + 73, lo + 73 + n, caseId, crews.1);
    BrokersOn(twin.0, done, lo + 73 + n, caseId, crews.1, all);
    TiesOn(fought, done, lo + 115 + n, lo + 139 + n, caseId, CONFLICTS, flat, flat);
    BrokersAreNone(woven, twin.0, flat, all);
    assert Flagship(k, w, caseId) == done;
    assert Structured(done, lo, caseId, crews.1, all, n, |fought.made|);
  }

  lemma NoBrokers<R, S, N>(w: World<R, S, N>, lo: nat, caseId: Id, crews: seq<seq<nat>>)
    requires crews != []
    ensures BrokersFrom(w, lo, caseId, crews, []) && Kept(w, []) && Since([], |w.made|)
  {
  }

  lemma BrokersAreNone<R, S, N>(w: World<R, S, N>, v: World<R, S, N>, flat: seq<nat>, brokers: seq<nat>)
    requires Kept(w, flat) && Kept(v, brokers) && Since(brokers, |w.made|) && w.made <= v.made
    ensures Distinct(brokers)
    ensures forall b :: b in brokers ==> b !in flat && b < |v.made|
    ensures forall x :: x in flat ==> x < |v.made|
  {
  }

  lemma MembersAreHandles<R, S, N>(w: World<R, S, N>, lo: nat, caseId: Id, crews: seq<seq<nat>>, c: nat, x: nat)
    requires CrewsFrom(w, lo, caseId, crews) && c < |crews| && x in crews[c]
    ensures x < |w.made| && w.made[x].name.Handle?
  {
    hide CREWS, Before, Tied;
    assert CrewAt(w, lo + Before(c), caseId, c, crews[c]);
    var crew: nat :| crew < |w.made| && w.made[crew].name == CrewName(c) && JoinedInTurn(w, lo + Before(c), caseId, crew, crews[c]);
    var j :| 0 <= j < |crews[c]| && crews[c][j] == x;
    assert JoinedAt(w, lo + Before(c) + j, caseId, crew, crews[c][j], j);
  }

  /** Which crew the n-th member of all is of. */
  lemma CrewOfTie(n: nat) returns (c: nat)
    requires n < 73
    ensures c < |CREWS| && Before(c) <= n < Before(c) + CREWS[c]
  {
    assert Before(1) == 18 && Before(2) == 33 && Before(3) == 46 && Before(4) == 57 && Before(5) == 66;
    c := if n < 18 then 0 else if n < 33 then 1 else if n < 46 then 2 else if n < 57 then 3 else if n < 66 then 4 else 5;
  }

  /** A membership tie leads to a crew, which is no member. */
  lemma JoinsLeadToCrews<R, S, N>(w: World<R, S, N>, lo: nat, caseId: Id, crews: seq<seq<nat>>, n: nat)
    requires CrewsFrom(w, lo, caseId, crews) && Sizes(crews) == CREWS && n < 73
    ensures lo + n < |w.asked| && w.asked[lo + n].dst < |w.made| && w.made[w.asked[lo + n].dst].name.CrewName?
  {
    var c := CrewOfTie(n);
    hide CREWS, Before, Tied;
    assert Sizes(crews)[c] == |crews[c]| == CREWS[c];
    assert CrewAt(w, lo + Before(c), caseId, c, crews[c]);
    var crew: nat :| crew < |w.made| && w.made[crew].name == CrewName(c) && JoinedInTurn(w, lo + Before(c), caseId, crew, crews[c]);
    assert JoinedAt(w, lo + Before(c) + (n - Before(c)), caseId, crew, crews[c][n - Before(c)], n - Before(c));
  }

  /** Between two crews there are only negative ties: anything else runs through a broker. */
  lemma OnlyBrokersBridge<R, S, N>(w: World<R, S, N>, lo: nat, caseId: Id, crews: seq<seq<nat>>, brokers: seq<nat>, vouches: nat, first: nat, i: nat, c: nat, d: nat)
    requires Structured(w, lo, caseId, crews, brokers, vouches, first) && lo <= i < |w.asked|
    requires c < |crews| && d < |crews| && c != d && w.asked[i].src in crews[c] && w.asked[i].dst in crews[d]
    ensures w.asked[i].tie.kind in {AccusedScam, DisputedWith}
  {
    hide CrewsFrom, Flat, Distinct, VouchedInside, BrokersFrom, Ties, AllAttached, Apart, Sizes;
    FlatHolds(crews, c, w.asked[i].src);
    FlatHolds(crews, d, w.asked[i].dst);
    if i < lo + 73 {
      JoinsLeadToCrews(w, lo, caseId, crews, i - lo);
      MembersAreHandles(w, lo, caseId, crews, d, w.asked[i].dst);
      assert false;
    } else if i < lo + 73 + vouches {
      VouchesStayInside(w, lo + 73, lo + 73 + vouches, caseId, crews, i, c, d);
      assert false;
    } else if i < lo + 115 + vouches {
      BrokersAsk(w, lo + 73 + vouches, caseId, crews, brokers, i - lo - 73 - vouches);
      assert false;
    } else if i < lo + 139 + vouches {
      FoughtOver(w, lo + 115 + vouches, lo + 139 + vouches, caseId, Flat(crews), i);
    } else {
      AttachedIsNew(w, lo + 139 + vouches, caseId, Flat(crews), brokers, first, i);
      assert false;
    }
  }

  lemma VouchesStayInside<R, S, N>(w: World<R, S, N>, lo: nat, hi: nat, caseId: Id, crews: seq<seq<nat>>, i: nat, c: nat, d: nat)
    requires VouchedInside(w, lo, hi, caseId, crews) && Apart(crews) && lo <= i < hi
    requires c < |crews| && d < |crews| && w.asked[i].src in crews[c] && w.asked[i].dst in crews[d]
    ensures c == d
  {
    assert InOneCrew(w.asked[i], crews);
    var e :| 0 <= e < |crews| && w.asked[i].src in crews[e] && w.asked[i].dst in crews[e];
  }

  lemma BrokersAsk<R, S, N>(w: World<R, S, N>, lo: nat, caseId: Id, crews: seq<seq<nat>>, brokers: seq<nat>, n: nat)
    requires BrokersFrom(w, lo, caseId, crews, brokers) && n < 6 * |brokers|
    ensures lo + n < |w.asked| && w.asked[lo + n].src in brokers
  {
    hide Tied;
    var b := n / 6;
    assert BridgeAt(w, lo + 6 * b, caseId, brokers[b], crews[b % |crews|], crews[(b + 1) % |crews|]);
    assert Joins(w, lo + n, [brokers[b]], if n < 6 * b + 3 then crews[b % |crews|] else crews[(b + 1) % |crews|]);
  }

  lemma FoughtOver<R, S, N>(w: World<R, S, N>, lo: nat, hi: nat, caseId: Id, flat: seq<nat>, i: nat)
    requires Ties(w, lo, hi, caseId, CONFLICTS, flat, flat) && lo <= i < hi
    ensures w.asked[i].tie.kind in {AccusedScam, DisputedWith}
  {
    assert Tied(w, i, caseId, CONFLICTS);
  }

  lemma AttachedIsNew<R, S, N>(w: World<R, S, N>, lo: nat, caseId: Id, flat: seq<nat>, brokers: seq<nat>, first: nat, i: nat)
    requires AllAttached(w, lo, caseId, flat, brokers, first) && lo <= i < lo + 60
    ensures w.asked[i].dst >= first
  {
    hide AttachedAt;
  }

  // The smaller cases.

  ghost predicate Handles<R, S, N>(w: World<R, S, N>, s: seq<nat>) {
    Below(s, |w.made|) && forall i :: 0 <= i < |s| ==> w.made[s[i]].name.Handle?
  }

  lemma {:induction false} LocalsShape<R(!new), S, N>(k: Kit<R, S, N>, w: World<R, S, N>, caseId: Id, size: nat, local: seq<nat>, first: nat)
    requires Sound(k.rng) && |local| <= size && Kept(w, local) && Since(local, first) && first <= |w.made| && Handles(w, local)
    ensures var m := Locals(k, w, caseId, size, local); w.made <= m.0.made && Since(m.1, first) && Handles(m.0, m.1)
    decreases size - |local|
  {
    hide NewHandle, CreateNode, Sound, NoLoops, Kept;
    if |local| < size {
      HandleIsHandle(k, w, k.patience);
      var h := NewHandle(k, w, k.patience);
      NodeIs(k, h.0, caseId, h.1);
      var n := CreateNode(k, h.0, caseId, h.1);
      KeptMore(w, n.0, local, first);
      LocalsShape(k, n.0, caseId, size, local + [n.1], first);
    }
  }

  lemma {:induction false} RepliesShape<R(!new), S, N>(k: Kit<R, S, N>, w: World<R, S, N>, caseId: Id, a: nat, picks: seq<nat>, local: seq<nat>, lo: nat)
    requires Sound(k.rng) && a < |w.made| && Known(w, picks) && OwnReferences(w)
    requires a in local && Subset(picks, local) && Ties(w, lo, |w.asked|, caseId, REPLIES, local, local)
    ensures var v := Replies(k, w, caseId, a, picks);
      v.made == w.made && |v.asked| == |w.asked| + Others(a, picks) && Ties(v, lo, |v.asked|, caseId, REPLIES, local, local)
    decreases |picks|
  {
    hide CreateEdge, Choose, Same, Sound, NoLoops, OwnReferences, Ties, Tied;
    if picks != [] {
      SameMeans(w, a, picks[0]);
      assert picks[0] in picks && Subset(picks[1..], picks);
      if a == picks[0] {
        RepliesShape(k, w, caseId, a, picks[1..], local, lo);
      } else {
        var conf := Choose(k, w, 2);
        var grade := if conf.1 == 0 then Low else Moderate;
        EdgeIs(k, conf.0, caseId, CommunicatesWith, a, picks[0], None, 14, grade, SameThread);
        var v := CreateEdge(k, conf.0, caseId, CommunicatesWith, a, picks[0], None, 14, grade, SameThread);
        TiedBy(v, |w.asked|, caseId, Law({CommunicatesWith}, 14, {grade}, SameThread), REPLIES);
        OneMoreTie(w, v, lo, caseId, REPLIES, local, local);
        SameReferences(w, v);
        RepliesShape(k, v, caseId, a, picks[1..], local, lo);
      }
    }
  }

  lemma {:induction false} LocalRepliesShape<R(!new), S, N>(k: Kit<R, S, N>, w: World<R, S, N>, caseId: Id, local: seq<nat>, i: nat, lo: nat)
    requires Sound(k.rng) && Kept(w, local) && |local| >= 4 && i <= |local| && OwnReferences(w)
    requires Ties(w, lo, |w.asked|, caseId, REPLIES, local, local)
    ensures var v := LocalReplies(k, w, caseId, local, i);
      && v.made == w.made && Ties(v, lo, |v.asked|, caseId, REPLIES, local, local)
      && |w.asked| + (|local| - i) <= |v.asked| <= |w.asked| + 4 * (|local| - i)
    decreases |local| - i
  {
    hide Replies, Sound, NoLoops, OwnReferences, Ties, Distinct, Between, Sample;
    if i < |local| {
      var n := Between(k, w, 2, 4);
      var picks := Sample(k, n.0, local, n.1);
      assert 2 <= |picks.1| <= 4 && Distinct(picks.1);
      assert Subset(picks.1, local);
      TiesOn(w, picks.0, lo, |w.asked|, caseId, REPLIES, local, local);
      SameReferences(w, picks.0);
      RepliesShape(k, picks.0, caseId, local[i], picks.1, local, lo);
      var v := Replies(k, picks.0, caseId, local[i], picks.1);
      SameReferences(w, v);
      LocalRepliesShape(k, v, caseId, local, i + 1, lo);
    }
  }

  /** A smaller case: that many new handles, each replying to between one and four others of them. */
  ghost predicate SmallNetwork<R, S, N>(w: World<R, S, N>, lo: nat, first: nat, c: Network, local: seq<nat>) {
    && |local| == c.size && Distinct(local) && Since(local, first) && Handles(w, local)
    && lo + c.size <= |w.asked| <= lo + 4 * c.size && Ties(w, lo, |w.asked|, c.caseId, REPLIES, local, local)
  }

  lemma OneCaseShape<R(!new), S(!new), N(!new)>(k: Kit<R, S, N>, held: S -> set<N>, w: World<R, S, N>, v: World<R, nat, nat>, c: Network)
    requires Good(k, held) && InStep(held, w, v) && c.size >= 4
    ensures exists local :: SmallNetwork(OneCase(k, w, c), |w.asked|, |w.made|, c, local)
  {
    hide Sound, Quiet, Fresh, InStep, NoLoops, Locals, LocalReplies, Ties, Distinct, OwnReferences, Since;
    NoneKept(w);
    NoneSince(w);
    LocalsInStep(k, held, w, v, c.caseId, c.size, []);
    LocalsShape(k, w, c.caseId, c.size, [], |w.made|);
    var local := Locals(k, w, c.caseId, c.size, []);
    OwnedReferences(held, local.0, Locals(Replaying(k), v, c.caseId, c.size, []).0);
    NoTies(local.0, c.caseId, REPLIES, local.1, local.1);
    LocalRepliesShape(k, local.0, c.caseId, local.1, 0, |w.asked|);
    assert SmallNetwork(OneCase(k, w, c), |w.asked|, |w.made|, c, local.1);
  }

  lemma NoneSince<R, S, N>(w: World<R, S, N>)
    ensures Since([], |w.made|) && Handles(w, [])
  {
  }
}
