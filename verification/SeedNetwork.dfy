/** The demonstration network: the builder, the generator it draws from, the sink it writes through,
    and why a replay of it asks for the same ties. */
module SeedNetwork {
  import opened Options

  type Id = int

  datatype Kind =
    | Leads | MemberOf | VouchedFor | CommunicatesWith | AccusedScam | DisputedWith | Controls | BrokeredAccess

  datatype Grade = Low | Moderate | High

  /** A label: the template it is made from, with what was drawn. */
  datatype Label =
    | CrewName(crew: nat)
    | Handle(head: nat, tail: nat, suffix: Option<int>)
    | Host(number: int)
    | Address(letters: seq<nat>)
    | Victim(name: nat, number: int)

  datatype Rationale =
    | Directing(handle: Label, crew: Label)
    | PostingAs(handle: Label, crew: Label)
    | Vouch | PrivateChannel | Accusation | OwnPost | PostedByHandle | AccessAdvertised | SameThread

  /** A tie as the seeder writes it: what finds it again and the grade it should carry. Dates are in days. */
  datatype Tie = Tie(caseId: Id, kind: Kind, src: Label, dst: Label, validFrom: int, grade: Grade, rationale: Rationale)

  /** random.Random: each method answers and moves the state on. */
  datatype Random<!R> = Random(seeded: R, choice: (R, nat) -> (R, nat), randint: (R, int, int) -> (R, int),
                               random: R -> (R, real), uniform: (R, real, real) -> (R, real),
                               sample: (R, nat, nat) -> (R, seq<nat>))

  predicate Distinct(s: seq<nat>) {
    forall i, j :: 0 <= i < j < |s| ==> s[i] != s[j]
  }

  predicate Below(s: seq<nat>, n: nat) {
    forall i :: 0 <= i < |s| ==> s[i] < n
  }

  predicate PicksFrom(s: seq<nat>, n: nat, k: nat) {
    |s| == k && Distinct(s) && Below(s, n)
  }

  /** What random documents: choice answers an element, sample that many different ones. */
  ghost predicate Sound<R(!new)>(rng: Random<R>) {
    && (forall r, n: nat :: n > 0 ==> rng.choice(r, n).1 < n)
    && (forall r, lo, hi :: lo <= hi ==> lo <= rng.randint(r, lo, hi).1 <= hi)
    && (forall r, n: nat, k: nat :: k <= n ==> PicksFrom(rng.sample(r, n, k).1, n, k))
  }

  datatype NodeCall = NodeCall(caseId: Id, name: Label, observed: int)
  datatype EdgeCall = EdgeCall(tie: Tie, weight: Option<real>, observed: int)

  /** GraphWriteService and SelectorStore, or what stands in for both. A sink could draw from the generator. */
  datatype Sink<!R, !S, !N> = Sink(node: (S, R, NodeCall) -> (S, R, N), edge: (S, R, N, N, EdgeCall) -> (S, R),
                                   record: (S, R, N, Label) -> (S, R), populated: (S, Id) -> bool)

  datatype Made<N> = Made(ref: N, name: Label)
  datatype Asked = Asked(tie: Tie, src: nat, dst: nat)

  /** Everything a run changes. The builder's variables name an entity by its place in made; asked is what
      the sink was asked for. stalled: a handle was looked for longer than the run's patience. */
  datatype World<R, S, N> = World(rng: R, sink: S, used: set<Label>, stalled: bool, made: seq<Made<N>>, asked: seq<Asked>)

  /** patience bounds the tries of one handle. */
  datatype Kit<!R, !S, !N> = Kit(rng: Random<R>, sink: Sink<R, S, N>, patience: nat)

  datatype Network = Network(caseId: Id, size: nat)

  const NOW := 0
  const HEADS: nat := 37
  const TAILS: nat := 23
  const LETTERS: nat := 32
  const VICTIMS: nat := 7
  const CREWS: seq<nat> := [18, 15, 13, 11, 9, 7]
  const KESTREL: nat := 22
  const CORVID: nat := 30

  function At<R, S, N>(w: World<R, S, N>, a: nat): Label
    requires a < |w.made|
  {
    w.made[a].name
  }

  predicate Known<R, S, N>(w: World<R, S, N>, s: seq<nat>) {
    Below(s, |w.made|)
  }

  // One draw.

  function Choose<R(!new), S, N>(k: Kit<R, S, N>, w: World<R, S, N>, n: nat): (a: (World<R, S, N>, nat))
    requires Sound(k.rng) && n > 0
    ensures a.1 < n && a.0 == w.(rng := a.0.rng)
  {
    var d := k.rng.choice(w.rng, n);
    (w.(rng := d.0), d.1)
  }

  function Between<R(!new), S, N>(k: Kit<R, S, N>, w: World<R, S, N>, lo: int, hi: int): (a: (World<R, S, N>, int))
    requires Sound(k.rng) && lo <= hi
    ensures lo <= a.1 <= hi && a.0 == w.(rng := a.0.rng)
  {
    var d := k.rng.randint(w.rng, lo, hi);
    (w.(rng := d.0), d.1)
  }

  /** A day at least twenty back and at most that many months. */
  function When<R(!new), S, N>(k: Kit<R, S, N>, w: World<R, S, N>, months: nat): (a: (World<R, S, N>, int))
    requires Sound(k.rng) && months > 0
    ensures a.0 == w.(rng := a.0.rng)
  {
    var d := Between(k, w, 20, months * 30);
    (d.0, NOW - d.1)
  }

  function Uniform<R(!new), S, N>(k: Kit<R, S, N>, w: World<R, S, N>, lo: real, hi: real): (a: (World<R, S, N>, real))
    ensures a.0 == w.(rng := a.0.rng)
  {
    var d := k.rng.uniform(w.rng, lo, hi);
    (w.(rng := d.0), d.1)
  }

  function Pick(s: seq<nat>, places: seq<nat>): seq<nat>
    requires Below(places, |s|)
  {
    seq(|places|, i requires 0 <= i < |places| => s[places[i]])
  }

  /** RNG.sample over a list of entities. */
  function Sample<R(!new), S, N>(k: Kit<R, S, N>, w: World<R, S, N>, s: seq<nat>, n: nat): (a: (World<R, S, N>, seq<nat>))
    requires Sound(k.rng) && n <= |s|
    ensures a.0 == w.(rng := a.0.rng) && |a.1| == n
    ensures forall i :: 0 <= i < n ==> a.1[i] in s
    ensures Distinct(s) ==> Distinct(a.1)
  {
    var d := k.rng.sample(w.rng, |s|, n);
    assert PicksFrom(d.1, |s|, n);
    (w.(rng := d.0), Pick(s, d.1))
  }

  function Letters<R(!new), S, N>(k: Kit<R, S, N>, w: World<R, S, N>, n: nat, drawn: seq<nat>): (a: (World<R, S, N>, seq<nat>))
    requires Sound(k.rng)
    ensures a.0 == w.(rng := a.0.rng)
    decreases n
  {
    if n == 0 then (w, drawn)
    else
      var d := Choose(k, w, LETTERS);
      Letters(k, d.0, n - 1, drawn + [d.1])
  }

  /** A head, a tail and, a third of the time, a number. */
  function DrawHandle<R(!new), S, N>(k: Kit<R, S, N>, w: World<R, S, N>): (a: (World<R, S, N>, Label))
    requires Sound(k.rng)
    ensures a.0 == w.(rng := a.0.rng)
  {
    var head := Choose(k, w, HEADS);
    var tail := Choose(k, head.0, TAILS);
    var d := k.rng.random(tail.0.rng);
    var w1 := tail.0.(rng := d.0);
    if d.1 < 0.35 then
      var number := Between(k, w1, 2, 99);
      (number.0, Handle(head.1, tail.1, Some(number.1)))
    else (w1, Handle(head.1, tail.1, None))
  }

  /** _handle: drawn again until it is new. */
  function NewHandle<R(!new), S, N>(k: Kit<R, S, N>, w: World<R, S, N>, tries: nat): (a: (World<R, S, N>, Label))
    requires Sound(k.rng)
    ensures a.0 == w.(rng := a.0.rng, used := a.0.used, stalled := a.0.stalled)
    ensures w.used <= a.0.used && (!a.0.stalled ==> !w.stalled && a.1 !in w.used && a.1 in a.0.used)
    decreases tries
  {
    var h := DrawHandle(k, w);
    if h.1 !in w.used then (h.0.(used := w.used + {h.1}), h.1)
    else if tries == 0 then (h.0.(stalled := true), h.1)
    else NewHandle(k, h.0, tries - 1)
  }

  // One call of the sink. The assertion's date is drawn after the other arguments.

  function CreateNode<R(!new), S, N(==)>(k: Kit<R, S, N>, w: World<R, S, N>, caseId: Id, name: Label): (a: (World<R, S, N>, nat))
    requires Sound(k.rng)
    ensures On(w, a.0) && a.1 == |w.made| && |a.0.made| == |w.made| + 1
  {
    var t := When(k, w, 30);
    var d := k.sink.node(w.sink, t.0.rng, NodeCall(caseId, name, t.1));
    (w.(sink := d.0, rng := d.1, made := w.made + [Made(d.2, name)]), |w.made|)
  }

  function Record<R, S, N(==)>(k: Kit<R, S, N>, w: World<R, S, N>, a: nat, value: Label): (v: World<R, S, N>)
    requires a < |w.made|
    ensures v.made == w.made && v.asked == w.asked
  {
    var d := k.sink.record(w.sink, w.rng, w.made[a].ref, value);
    w.(sink := d.0, rng := d.1)
  }

  /** No tie joins an entity to itself. */
  predicate NoLoops(asked: seq<Asked>) {
    forall i :: 0 <= i < |asked| ==> asked[i].src != asked[i].dst
  }

  /** The run went on: nothing made or asked for is forgotten, and no loop asked for. */
  ghost predicate On<R, S, N>(w: World<R, S, N>, v: World<R, S, N>) {
    w.made <= v.made && w.asked <= v.asked && (NoLoops(w.asked) ==> NoLoops(v.asked))
  }

  function CreateEdge<R(!new), S, N(==)>(k: Kit<R, S, N>, w: World<R, S, N>, caseId: Id, kind: Kind, a: nat, b: nat,
                                         weight: Option<real>, months: nat, grade: Grade, rationale: Rationale): (v: World<R, S, N>)
    requires Sound(k.rng) && a < |w.made| && b < |w.made| && a != b && months > 0
    ensures v.made == w.made && On(w, v) && |v.asked| == |w.asked| + 1 && v.asked[|w.asked|].tie.caseId == caseId
  {
    var from := When(k, w, months);
    var t := When(k, from.0, 30);
    var tie := Tie(caseId, kind, At(w, a), At(w, b), from.1, grade, rationale);
    var d := k.sink.edge(w.sink, t.0.rng, w.made[a].ref, w.made[b].ref, EdgeCall(tie, weight, t.1));
    w.(sink := d.0, rng := d.1, asked := w.asked + [Asked(tie, a, b)])
  }

  /** a is b */
  predicate Same<R, S, N(==)>(w: World<R, S, N>, a: nat, b: nat)
    requires a < |w.made| && b < |w.made|
  {
    w.made[a].ref == w.made[b].ref
  }

  /** A list of entities the builder keeps: made already, no two the same. */
  predicate Kept<R, S, N>(w: World<R, S, N>, s: seq<nat>) {
    Distinct(s) && Known(w, s)
  }

  // build_network, loop by loop.

  /** One member: a handle, its node, its selectors, its tie to the crew. */
  function Member<R(!new), S, N(==)>(k: Kit<R, S, N>, w: World<R, S, N>, caseId: Id, crew: nat, i: nat): (a: (World<R, S, N>, nat))
    requires Sound(k.rng) && crew < |w.made|
    ensures On(w, a.0) && a.1 == |w.made| && |a.0.made| == |w.made| + 1
  {
    var h := NewHandle(k, w, k.patience);
    var n := CreateNode(k, h.0, caseId, h.1);
    var w1 := Record(k, n.0, n.1, h.1);
    var d := Letters(k, w1, if i % 3 == 0 then 38 else 0, []);
    var w2 := if i % 3 == 0 then Record(k, d.0, n.1, Address(d.1)) else w1;
    var name := At(w, crew);
    (CreateEdge(k, w2, caseId, if i == 0 then Leads else MemberOf, n.1, crew, None, 30,
                if i == 0 then High else Moderate, if i == 0 then Directing(h.1, name) else PostingAs(h.1, name)), n.1)
  }

  /** None made before place `first`. */
  predicate Since(s: seq<nat>, first: nat) {
    forall i :: 0 <= i < |s| ==> s[i] >= first
  }

  lemma KeptMore<R, S, N>(w: World<R, S, N>, v: World<R, S, N>, s: seq<nat>, first: nat)
    requires Kept(w, s) && |v.made| == |w.made| + 1 && Since(s, first) && first <= |w.made|
    ensures Kept(v, s + [|w.made|]) && Since(s + [|w.made|], first)
  {
  }

  function Members<R(!new), S, N(==)>(k: Kit<R, S, N>, w: World<R, S, N>, caseId: Id, crew: nat, size: nat, members: seq<nat>, ghost first: nat): (a: (World<R, S, N>, seq<nat>))
    requires Sound(k.rng) && crew < |w.made| && |members| <= size && Kept(w, members) && Since(members, first) && first <= |w.made|
    ensures On(w, a.0) && |a.1| == size && Kept(a.0, a.1) && Since(a.1, first)
    decreases size - |members|
  {
    hide NoLoops, Kept, Member, Sound, Since;
    if |members| == size then (w, members)
    else
      var n := Member(k, w, caseId, crew, |members|);
      KeptMore(w, n.0, members, first);
      Members(k, n.0, caseId, crew, size, members + [n.1], first)
  }

  function Flat(crews: seq<seq<nat>>): seq<nat> {
    if crews == [] then [] else Flat(crews[..|crews| - 1]) + crews[|crews| - 1]
  }

  lemma FlatMore(crews: seq<seq<nat>>, members: seq<nat>)
    ensures Flat(crews + [members]) == Flat(crews) + members
  {
    assert (crews + [members])[..|crews|] == crews;
  }

  /** crew_nodes */
  predicate Groups<R, S, N>(w: World<R, S, N>, crews: seq<seq<nat>>) {
    && |crews| <= |CREWS| && Kept(w, Flat(crews))
    && forall c :: 0 <= c < |crews| ==> |crews[c]| == CREWS[c] && Kept(w, crews[c])
  }

  lemma OneMoreGroup<R, S, N>(w: World<R, S, N>, v: World<R, S, N>, crews: seq<seq<nat>>, members: seq<nat>)
    requires Groups(w, crews) && |crews| < |CREWS| && w.made <= v.made
    requires |members| == CREWS[|crews|] && Kept(v, members)
    requires Since(members, |w.made|)
    ensures Groups(v, crews + [members])
  {
    hide CREWS;
    FlatMore(crews, members);
  }

  function Crews<R(!new), S, N(==)>(k: Kit<R, S, N>, w: World<R, S, N>, caseId: Id, crews: seq<seq<nat>>): (a: (World<R, S, N>, seq<seq<nat>>))
    requires Sound(k.rng) && Groups(w, crews)
    ensures On(w, a.0) && |a.1| == |CREWS| && Groups(a.0, a.1)
    decreases |CREWS| - |crews|
  {
    hide Kept, NoLoops, CREWS;
    if |crews| == |CREWS| then (w, crews)
    else
      var g := CreateNode(k, w, caseId, CrewName(|crews|));
      assert Kept(g.0, []) by { NoneKept(g.0); }
      var m := Members(k, g.0, caseId, g.1, CREWS[|crews|], [], |w.made|);
      OneMoreGroup(w, m.0, crews, m.1);
      Crews(k, m.0, caseId, crews + [m.1])
  }

  lemma NoneKept<R, S, N>(w: World<R, S, N>)
    ensures Kept(w, [])
  {
  }

  lemma GroupsOn<R, S, N>(w: World<R, S, N>, v: World<R, S, N>, crews: seq<seq<nat>>)
    requires Groups(w, crews) && w.made <= v.made
    ensures Groups(v, crews)
  {
    hide CREWS, Flat;
  }

  /** The vouches of one member: itself, if drawn, is passed over. */
  function Vouches<R(!new), S, N(==)>(k: Kit<R, S, N>, w: World<R, S, N>, caseId: Id, a: nat, picks: seq<nat>): (v: World<R, S, N>)
    requires Sound(k.rng) && a < |w.made| && Known(w, picks)
    ensures v.made == w.made && On(w, v)
    decreases |picks|
  {
    hide NoLoops;
    if picks == [] then w
    else if Same(w, a, picks[0]) then Vouches(k, w, caseId, a, picks[1..])
    else
      var weight := Uniform(k, w, 0.4, 1.0);
      var conf := Choose(k, weight.0, 4);
      var v := CreateEdge(k, conf.0, caseId, VouchedFor, a, picks[0], Some(weight.1), 30, [Low, Moderate, Moderate, High][conf.1], Vouch);
      Vouches(k, v, caseId, a, picks[1..])
  }

  function CrewVouches<R(!new), S, N(==)>(k: Kit<R, S, N>, w: World<R, S, N>, caseId: Id, members: seq<nat>, i: nat): (v: World<R, S, N>)
    requires Sound(k.rng) && Kept(w, members) && i <= |members|
    ensures v.made == w.made && On(w, v)
    decreases |members| - i
  {
    hide NoLoops, Distinct;
    if i == |members| then w
    else
      var n := Between(k, w, 3, 6);
      var picks := Sample(k, n.0, members, if n.1 < |members| then n.1 else |members|);
      CrewVouches(k, Vouches(k, picks.0, caseId, members[i], picks.1), caseId, members, i + 1)
  }

  function Weave<R(!new), S, N(==)>(k: Kit<R, S, N>, w: World<R, S, N>, caseId: Id, crews: seq<seq<nat>>, i: nat): (v: World<R, S, N>)
    requires Sound(k.rng) && Groups(w, crews) && i <= |crews|
    ensures v.made == w.made && On(w, v)
    decreases |crews| - i
  {
    hide NoLoops, Kept, CREWS, Flat;
    if i == |crews| then w
    else
      var v := CrewVouches(k, w, caseId, crews[i], 0);
      GroupsOn(w, v, crews);
      Weave(k, v, caseId, crews, i + 1)
  }

  function Peers<R(!new), S, N(==)>(k: Kit<R, S, N>, w: World<R, S, N>, caseId: Id, a: nat, peers: seq<nat>, weighted: bool): (v: World<R, S, N>)
    requires Sound(k.rng) && a < |w.made| && Below(peers, a)
    ensures v.made == w.made && On(w, v)
    decreases |peers|
  {
    hide NoLoops;
    if peers == [] then w
    else
      var weight := Uniform(k, w, 0.5, 1.0);
      var w1 := if weighted then weight.0 else w;
      var v := CreateEdge(k, w1, caseId, CommunicatesWith, a, peers[0], if weighted then Some(weight.1) else None, 30, Moderate, PrivateChannel);
      Peers(k, v, caseId, a, peers[1..], weighted)
  }

  /** Three peers on one side of a bridge. */
  function Side<R(!new), S, N(==)>(k: Kit<R, S, N>, w: World<R, S, N>, caseId: Id, a: nat, side: seq<nat>, weighted: bool): (v: World<R, S, N>)
    requires Sound(k.rng) && a < |w.made| && Below(side, a) && |side| >= 3
    ensures v.made == w.made && On(w, v)
  {
    hide NoLoops, Distinct;
    var picks := Sample(k, w, side, 3);
    Peers(k, picks.0, caseId, a, picks.1, weighted)
  }

  /** A new identity bridging two crews. */
  function Bridge<R(!new), S, N(==)>(k: Kit<R, S, N>, w: World<R, S, N>, caseId: Id, one: seq<nat>, other: seq<nat>, weighted: bool): (a: (World<R, S, N>, nat))
    requires Sound(k.rng) && Known(w, one) && Known(w, other) && |one| >= 3 && |other| >= 3
    ensures On(w, a.0) && a.1 == |w.made| && |a.0.made| == |w.made| + 1
  {
    hide NoLoops;
    var h := NewHandle(k, w, k.patience);
    var n := CreateNode(k, h.0, caseId, h.1);
    (Side(k, Side(k, n.0, caseId, n.1, one, weighted), caseId, n.1, other, weighted), n.1)
  }

  lemma NoGroups<R, S, N>(w: World<R, S, N>)
    ensures Groups(w, [])
  {
    hide CREWS;
  }

  lemma GroupsAreBig<R, S, N>(w: World<R, S, N>, crews: seq<seq<nat>>)
    requires Groups(w, crews) && |crews| == |CREWS|
    ensures |crews| == 6 && |Flat(crews)| >= 7 && forall c :: 0 <= c < |crews| ==> |crews[c]| >= 3 && Known(w, crews[c])
  {
    hide Flat, Distinct;
    assert |crews[5]| == 7;
    assert |Flat(crews)| >= |crews[5]| by { FlatEndsWith(crews); }
  }

  lemma FlatEndsWith(crews: seq<seq<nat>>)
    requires crews != []
    ensures |Flat(crews)| >= |crews[|crews| - 1]|
  {
  }

  function Brokers<R(!new), S, N(==)>(k: Kit<R, S, N>, w: World<R, S, N>, caseId: Id, crews: seq<seq<nat>>, brokers: seq<nat>): (a: (World<R, S, N>, seq<nat>))
    requires Sound(k.rng) && Groups(w, crews) && |crews| == |CREWS| && |brokers| <= |crews| && Known(w, brokers)
    ensures On(w, a.0) && |a.1| == |crews| && Known(a.0, a.1)
    decreases |crews| - |brokers|
  {
    hide NoLoops, Flat, Kept, Bridge, Sound;
    if |brokers| == |crews| then (w, brokers)
    else
      var i := |brokers|;
      GroupsAreBig(w, crews);
      var b := Bridge(k, w, caseId, crews[i], crews[(i + 1) % |crews|], true);
      GroupsOn(w, b.0, crews);
      Brokers(k, b.0, caseId, crews, brokers + [b.1])
  }

  function Conflict<R(!new), S, N(==)>(k: Kit<R, S, N>, w: World<R, S, N>, caseId: Id, flat: seq<nat>, n: nat): (v: World<R, S, N>)
    requires Sound(k.rng) && Kept(w, flat) && |flat| >= 2
    ensures v.made == w.made && On(w, v)
    decreases n
  {
    hide NoLoops;
    if n == 0 then w
    else
      var pair := Sample(k, w, flat, 2);
      var kind := Choose(k, pair.0, 2);
      var conf := Choose(k, kind.0, 2);
      var v := CreateEdge(k, conf.0, caseId, if kind.1 == 0 then AccusedScam else DisputedWith, pair.1[0], pair.1[1], None, 12,
                          if conf.1 == 0 then Low else Moderate, Accusation);
      Conflict(k, v, caseId, flat, n - 1)
  }

  /** A new node under the control of one of the entities given. */
  function Held<R(!new), S, N(==)>(k: Kit<R, S, N>, w: World<R, S, N>, caseId: Id, owners: seq<nat>, name: Label, kind: Kind, months: nat,
                                   grade: Grade, rationale: Rationale): (v: World<R, S, N>)
    requires Sound(k.rng) && Known(w, owners) && |owners| > 0 && months > 0
    ensures On(w, v)
  {
    hide NoLoops;
    var n := CreateNode(k, w, caseId, name);
    var src := Choose(k, n.0, |owners|);
    CreateEdge(k, src.0, caseId, kind, owners[src.1], n.1, None, months, grade, rationale)
  }

  function Hosts<R(!new), S, N(==)>(k: Kit<R, S, N>, w: World<R, S, N>, caseId: Id, flat: seq<nat>, n: nat): (v: World<R, S, N>)
    requires Sound(k.rng) && Known(w, flat) && |flat| > 0
    ensures On(w, v)
    decreases n
  {
    hide NoLoops;
    if n == 0 then w
    else
      var number := Between(k, w, 1000, 9999);
      var asn := Choose(k, number.0, 3);
      Hosts(k, Held(k, asn.0, caseId, flat, Host(number.1), Controls, 18, Moderate, OwnPost), caseId, flat, n - 1)
  }

  function Wallets<R(!new), S, N(==)>(k: Kit<R, S, N>, w: World<R, S, N>, caseId: Id, flat: seq<nat>, n: nat): (v: World<R, S, N>)
    requires Sound(k.rng) && Known(w, flat) && |flat| > 0
    ensures On(w, v)
    decreases n
  {
    hide NoLoops;
    if n == 0 then w
    else
      var letters := Letters(k, w, 38, []);
      Wallets(k, Held(k, letters.0, caseId, flat, Address(letters.1), Controls, 20, Low, PostedByHandle), caseId, flat, n - 1)
  }

  function Victims<R(!new), S, N(==)>(k: Kit<R, S, N>, w: World<R, S, N>, caseId: Id, brokers: seq<nat>, n: nat): (v: World<R, S, N>)
    requires Sound(k.rng) && Known(w, brokers) && |brokers| > 0
    ensures On(w, v)
    decreases n
  {
    hide NoLoops;
    if n == 0 then w
    else
      var name := Choose(k, w, VICTIMS);
      var number := Between(k, name.0, 100, 999);
      Victims(k, Held(k, number.0, caseId, brokers, Victim(name.1, number.1), BrokeredAccess, 10, Moderate, AccessAdvertised), caseId, brokers, n - 1)
  }

  /** Hosts, wallets and victims. */
  function Attached<R(!new), S, N(==)>(k: Kit<R, S, N>, w: World<R, S, N>, caseId: Id, flat: seq<nat>, brokers: seq<nat>): (v: World<R, S, N>)
    requires Sound(k.rng) && Known(w, flat) && |flat| > 0 && Known(w, brokers) && |brokers| > 0
    ensures On(w, v)
  {
    hide NoLoops, Distinct, Hosts, Wallets, Victims;
    var hosted := Hosts(k, w, caseId, flat, 26);
    var paid := Wallets(k, hosted, caseId, flat, 20);
    Victims(k, paid, caseId, brokers, 14)
  }

  /** The flagship case. */
  function Flagship<R(!new), S, N(==)>(k: Kit<R, S, N>, w: World<R, S, N>, caseId: Id): (v: World<R, S, N>)
    requires Sound(k.rng)
    ensures On(w, v)
  {
    hide NoLoops, Distinct, CREWS, Groups, Flat, Sound, Crews, Weave, Brokers, Bridge, Conflict, Attached;
    NoGroups(w);
    var crews := Crews(k, w, caseId, []);
    var woven := Weave(k, crews.0, caseId, crews.1, 0);
    GroupsOn(crews.0, woven, crews.1);
    GroupsAreBig(woven, crews.1);
    var brokers := Brokers(k, woven, caseId, crews.1, []);
    var twin := Bridge(k, brokers.0, caseId, crews.1[0], crews.1[1], false);
    FlatIsKept(woven, twin.0, crews.1);
    var fought := Conflict(k, twin.0, caseId, Flat(crews.1), 24);
    Attached(k, fought, caseId, Flat(crews.1), brokers.1 + [twin.1])
  }

  lemma FlatIsKept<R, S, N>(w: World<R, S, N>, v: World<R, S, N>, crews: seq<seq<nat>>)
    requires Groups(w, crews) && w.made <= v.made
    ensures Kept(v, Flat(crews))
  {
    hide CREWS, Flat;
  }

  function Locals<R(!new), S, N(==)>(k: Kit<R, S, N>, w: World<R, S, N>, caseId: Id, size: nat, local: seq<nat>): (a: (World<R, S, N>, seq<nat>))
    requires Sound(k.rng) && |local| <= size && Kept(w, local)
    ensures On(w, a.0) && a.0.asked == w.asked && |a.1| == size && Kept(a.0, a.1)
    decreases size - |local|
  {
    hide NoLoops;
    if |local| == size then (w, local)
    else
      var h := NewHandle(k, w, k.patience);
      var n := CreateNode(k, h.0, caseId, h.1);
      Locals(k, n.0, caseId, size, local + [n.1])
  }

  /** The ties asked for meanwhile are all of one case. */
  ghost predicate Within<R, S, N>(w: World<R, S, N>, v: World<R, S, N>, caseId: Id) {
    |w.asked| <= |v.asked| && forall i :: |w.asked| <= i < |v.asked| ==> v.asked[i].tie.caseId == caseId
  }

  function Replies<R(!new), S, N(==)>(k: Kit<R, S, N>, w: World<R, S, N>, caseId: Id, a: nat, picks: seq<nat>): (v: World<R, S, N>)
    requires Sound(k.rng) && a < |w.made| && Known(w, picks)
    ensures v.made == w.made && On(w, v) && Within(w, v, caseId)
    ensures (exists i :: 0 <= i < |picks| && !Same(w, a, picks[i])) ==> |v.asked| > |w.asked|
    decreases |picks|
  {
    hide NoLoops;
    if picks == [] then w
    else if Same(w, a, picks[0]) then Replies(k, w, caseId, a, picks[1..])
    else
      var conf := Choose(k, w, 2);
      var v := CreateEdge(k, conf.0, caseId, CommunicatesWith, a, picks[0], None, 14, if conf.1 == 0 then Low else Moderate, SameThread);
      Replies(k, v, caseId, a, picks[1..])
  }

  function LocalReplies<R(!new), S, N(==)>(k: Kit<R, S, N>, w: World<R, S, N>, caseId: Id, local: seq<nat>, i: nat): (v: World<R, S, N>)
    requires Sound(k.rng) && Known(w, local) && |local| >= 4 && i <= |local|
    ensures v.made == w.made && On(w, v) && Within(w, v, caseId)
    decreases |local| - i
  {
    hide NoLoops, Distinct;
    if i == |local| then w
    else
      var n := Between(k, w, 2, 4);
      var picks := Sample(k, n.0, local, n.1);
      LocalReplies(k, Replies(k, picks.0, caseId, local[i], picks.1), caseId, local, i + 1)
  }

  predicate Sized(cases: seq<Network>) {
    forall i :: 0 <= i < |cases| ==> cases[i].size >= 4
  }

  function OneCase<R(!new), S, N(==)>(k: Kit<R, S, N>, w: World<R, S, N>, c: Network): (v: World<R, S, N>)
    requires Sound(k.rng) && c.size >= 4
    ensures On(w, v) && Within(w, v, c.caseId)
  {
    hide NoLoops;
    NoneKept(w);
    var local := Locals(k, w, c.caseId, c.size, []);
    LocalReplies(k, local.0, c.caseId, local.1, 0)
  }

  /** The secondary cases, the populated ones passed over. */
  function Secondary<R(!new), S, N(==)>(k: Kit<R, S, N>, w: World<R, S, N>, cases: seq<Network>): (v: World<R, S, N>)
    requires Sound(k.rng) && Sized(cases)
    ensures On(w, v)
    decreases |cases|
  {
    hide NoLoops;
    if cases == [] then w
    else if k.sink.populated(w.sink, cases[0].caseId) then Secondary(k, w, cases[1..])
    else Secondary(k, OneCase(k, w, cases[0]), cases[1..])
  }

  function Seeded<R, S, N>(k: Kit<R, S, N>, s: S): World<R, S, N> {
    World(k.rng.seeded, s, {}, false, [], [])
  }

  /** SECONDARY, with the two cases' ids. */
  function Smaller(kestrel: Id, corvid: Id): (cases: seq<Network>)
    ensures Sized(cases)
  {
    [Network(kestrel, KESTREL), Network(corvid, CORVID)]
  }

  /** build_network: the flagship case, then the two smaller ones. */
  function Build<R(!new), S, N(==)>(k: Kit<R, S, N>, s: S, caseId: Id, kestrel: Id, corvid: Id): (v: World<R, S, N>)
    requires Sound(k.rng)
    ensures NoLoops(v.asked)
  {
    hide NoLoops, Smaller, Sound, Sized;
    assert NoLoops([]) by { NothingLoops(); }
    Secondary(k, Flagship(k, Seeded(k, s), caseId), Smaller(kestrel, corvid))
  }

  lemma NothingLoops()
    ensures NoLoops([])
  {
  }

  // The replay.

  /** _Replay: it writes nothing, draws nothing, and each reference it gives out is new. */
  function Replay<R>(): Sink<R, nat, nat> {
    Sink((s, r, _) => (s + 1, r, s), (s, r, _, _, _) => (s, r), (s, r, _, _) => (s, r), (_, _) => false)
  }

  function Replaying<R, S, N>(k: Kit<R, S, N>): Kit<R, nat, nat> {
    Kit(k.rng, Replay(), k.patience)
  }

  /** replay */
  function Replayed<R(!new)>(rng: Random<R>, patience: nat, caseId: Id, kestrel: Id, corvid: Id): World<R, nat, nat>
    requires Sound(rng)
  {
    Build(Kit(rng, Replay(), patience), 0, caseId, kestrel, corvid)
  }

  /** Nothing is drawn inside the sink. */
  ghost predicate Quiet<R(!new), S(!new), N(!new)>(sink: Sink<R, S, N>) {
    && (forall s, r, c :: sink.node(s, r, c).1 == r)
    && (forall s, r, a, b, c :: sink.edge(s, r, a, b, c).1 == r)
    && (forall s, r, a, x :: sink.record(s, r, a, x).1 == r)
  }

  /** A new node's reference is none the sink has given out. */
  ghost predicate Fresh<R(!new), S(!new), N(!new)>(sink: Sink<R, S, N>, held: S -> set<N>) {
    && (forall s, r, c :: var d := sink.node(s, r, c); d.2 !in held(s) && held(s) + {d.2} <= held(d.0))
    && (forall s, r, a, b, c :: held(s) <= held(sink.edge(s, r, a, b, c).0))
    && (forall s, r, a, x :: held(s) <= held(sink.record(s, r, a, x).0))
  }

  ghost predicate Good<R(!new), S(!new), N(!new)>(k: Kit<R, S, N>, held: S -> set<N>) {
    Sound(k.rng) && Quiet(k.sink) && Fresh(k.sink, held)
  }

  ghost predicate Owned<N>(made: seq<Made<N>>, held: set<N>) {
    && (forall i :: 0 <= i < |made| ==> made[i].ref in held)
    && (forall i, j :: 0 <= i < j < |made| ==> made[i].ref != made[j].ref)
  }

  /** The replay's references are numbered, and its names are those of the other run. */
  ghost predicate SameNames<N>(made: seq<Made<N>>, replayed: seq<Made<nat>>) {
    |made| == |replayed| && forall i :: 0 <= i < |made| ==> replayed[i] == Made(i, made[i].name)
  }

  /** The two runs stand at the same place: same draws to come, same ties asked for, same entities. */
  ghost predicate InStep<R, S, N>(held: S -> set<N>, w: World<R, S, N>, v: World<R, nat, nat>) {
    && v.rng == w.rng && v.used == w.used && v.stalled == w.stalled && v.asked == w.asked
    && v.sink == |v.made| && SameNames(w.made, v.made) && Owned(w.made, held(w.sink))
  }

  function Given(n: nat): (s: set<nat>)
    ensures forall i :: i in s ==> i < n
  {
    if n == 0 then {} else Given(n - 1) + {n - 1}
  }

  /** The replay is itself such a sink: it holds the numbers it has given out. */
  lemma ReplayIsGood<R(!new)>(rng: Random<R>, patience: nat)
    requires Sound(rng)
    ensures Good(Kit(rng, Replay(), patience), s => Given(s))
  {
  }

  // Draws.

  lemma ChooseInStep<R(!new), S(!new), N(!new)>(k: Kit<R, S, N>, held: S -> set<N>, w: World<R, S, N>, v: World<R, nat, nat>, n: nat)
    requires Sound(k.rng) && InStep(held, w, v) && n > 0
    ensures var a, b := Choose(k, w, n), Choose(Replaying(k), v, n); InStep(held, a.0, b.0) && a.1 == b.1
  {
    hide SameNames, Owned;
  }

  lemma BetweenInStep<R(!new), S(!new), N(!new)>(k: Kit<R, S, N>, held: S -> set<N>, w: World<R, S, N>, v: World<R, nat, nat>, lo: int, hi: int)
    requires Sound(k.rng) && InStep(held, w, v) && lo <= hi
    ensures var a, b := Between(k, w, lo, hi), Between(Replaying(k), v, lo, hi); InStep(held, a.0, b.0) && a.1 == b.1
  {
    hide SameNames, Owned;
  }

  lemma UniformInStep<R(!new), S(!new), N(!new)>(k: Kit<R, S, N>, held: S -> set<N>, w: World<R, S, N>, v: World<R, nat, nat>, lo: real, hi: real)
    requires InStep(held, w, v)
    ensures var a, b := Uniform(k, w, lo, hi), Uniform(Replaying(k), v, lo, hi); InStep(held, a.0, b.0) && a.1 == b.1
  {
    hide SameNames, Owned;
  }

  lemma SampleInStep<R(!new), S(!new), N(!new)>(k: Kit<R, S, N>, held: S -> set<N>, w: World<R, S, N>, v: World<R, nat, nat>, s: seq<nat>, n: nat)
    requires Sound(k.rng) && InStep(held, w, v) && n <= |s|
    ensures var a, b := Sample(k, w, s, n), Sample(Replaying(k), v, s, n); InStep(held, a.0, b.0) && a.1 == b.1
  {
    hide SameNames, Owned;
  }

  lemma {:induction false} LettersInStep<R(!new), S(!new), N(!new)>(k: Kit<R, S, N>, held: S -> set<N>, w: World<R, S, N>, v: World<R, nat, nat>, n: nat, drawn: seq<nat>)
    requires Sound(k.rng) && InStep(held, w, v)
    ensures var a, b := Letters(k, w, n, drawn), Letters(Replaying(k), v, n, drawn); InStep(held, a.0, b.0) && a.1 == b.1
    decreases n
  {
    hide InStep, Choose, Sound;
    if n > 0 {
      ChooseInStep(k, held, w, v, LETTERS);
      LettersInStep(k, held, Choose(k, w, LETTERS).0, Choose(Replaying(k), v, LETTERS).0, n - 1, drawn + [Choose(k, w, LETTERS).1]);
    }
  }

  lemma DrawHandleInStep<R(!new), S(!new), N(!new)>(k: Kit<R, S, N>, held: S -> set<N>, w: World<R, S, N>, v: World<R, nat, nat>)
    requires Sound(k.rng) && InStep(held, w, v)
    ensures var a, b := DrawHandle(k, w), DrawHandle(Replaying(k), v); InStep(held, a.0, b.0) && a.1 == b.1
  {
    hide SameNames, Owned;
  }

  lemma {:induction false} HandleInStep<R(!new), S(!new), N(!new)>(k: Kit<R, S, N>, held: S -> set<N>, w: World<R, S, N>, v: World<R, nat, nat>, tries: nat)
    requires Sound(k.rng) && InStep(held, w, v)
    ensures var a, b := NewHandle(k, w, tries), NewHandle(Replaying(k), v, tries); InStep(held, a.0, b.0) && a.1 == b.1
    decreases tries
  {
    hide SameNames, Owned, DrawHandle;
    DrawHandleInStep(k, held, w, v);
    if DrawHandle(k, w).1 in w.used && tries > 0 {
      HandleInStep(k, held, DrawHandle(k, w).0, DrawHandle(Replaying(k), v).0, tries - 1);
    }
  }

  // Calls of the sink.

  lemma NodeInStep<R(!new), S(!new), N(!new)>(k: Kit<R, S, N>, held: S -> set<N>, w: World<R, S, N>, v: World<R, nat, nat>, caseId: Id, name: Label)
    requires Good(k, held) && InStep(held, w, v)
    ensures var a, b := CreateNode(k, w, caseId, name), CreateNode(Replaying(k), v, caseId, name); InStep(held, a.0, b.0) && a.1 == b.1
  {
  }

  lemma RecordInStep<R(!new), S(!new), N(!new)>(k: Kit<R, S, N>, held: S -> set<N>, w: World<R, S, N>, v: World<R, nat, nat>, a: nat, value: Label)
    requires Good(k, held) && InStep(held, w, v) && a < |w.made|
    ensures InStep(held, Record(k, w, a, value), Record(Replaying(k), v, a, value))
  {
  }

  lemma EdgeInStep<R(!new), S(!new), N(!new)>(k: Kit<R, S, N>, held: S -> set<N>, w: World<R, S, N>, v: World<R, nat, nat>, caseId: Id, kind: Kind,
                                              a: nat, b: nat, weight: Option<real>, months: nat, grade: Grade, rationale: Rationale)
    requires Good(k, held) && InStep(held, w, v) && a < |w.made| && b < |w.made| && a != b && months > 0
    ensures InStep(held, CreateEdge(k, w, caseId, kind, a, b, weight, months, grade, rationale),
                   CreateEdge(Replaying(k), v, caseId, kind, a, b, weight, months, grade, rationale))
  {
  }

  lemma SameInStep<R(!new), S(!new), N(!new)>(held: S -> set<N>, w: World<R, S, N>, v: World<R, nat, nat>, a: nat, b: nat)
    requires InStep(held, w, v) && a < |w.made| && b < |w.made|
    ensures Same(w, a, b) <==> a == b
    ensures Same(v, a, b) <==> a == b
  {
  }

  // The loops, one by one.

  lemma MemberInStep<R(!new), S(!new), N(!new)>(k: Kit<R, S, N>, held: S -> set<N>, w: World<R, S, N>, v: World<R, nat, nat>, caseId: Id, crew: nat, i: nat)
    requires Good(k, held) && InStep(held, w, v) && crew < |w.made|
    ensures var a, b := Member(k, w, caseId, crew, i), Member(Replaying(k), v, caseId, crew, i); InStep(held, a.0, b.0) && a.1 == b.1
  {
    hide NewHandle, CreateNode, Record, Letters, CreateEdge, Sound, Quiet, Fresh, SameNames, Owned, NoLoops;
    var l := Replaying(k);
    HandleInStep(k, held, w, v, k.patience);
    var h, g := NewHandle(k, w, k.patience), NewHandle(l, v, k.patience);
    NodeInStep(k, held, h.0, g.0, caseId, h.1);
    var n, m := CreateNode(k, h.0, caseId, h.1), CreateNode(l, g.0, caseId, g.1);
    RecordInStep(k, held, n.0, m.0, n.1, h.1);
    var w1, v1 := Record(k, n.0, n.1, h.1), Record(l, m.0, m.1, g.1);
    var count := if i % 3 == 0 then 38 else 0;
    LettersInStep(k, held, w1, v1, count, []);
    var d, e := Letters(k, w1, count, []), Letters(l, v1, count, []);
    RecordInStep(k, held, d.0, e.0, n.1, Address(d.1));
    var w2, v2 := if i % 3 == 0 then Record(k, d.0, n.1, Address(d.1)) else w1, if i % 3 == 0 then Record(l, e.0, m.1, Address(e.1)) else v1;
    NameInStep(held, w, v, crew);
    var name := At(w, crew);
    EdgeInStep(k, held, w2, v2, caseId, if i == 0 then Leads else MemberOf, n.1, crew, None, 30,
               if i == 0 then High else Moderate, if i == 0 then Directing(h.1, name) else PostingAs(h.1, name));
  }

  lemma NameInStep<R, S, N>(held: S -> set<N>, w: World<R, S, N>, v: World<R, nat, nat>, a: nat)
    requires InStep(held, w, v) && a < |w.made|
    ensures a < |v.made| && At(v, a) == At(w, a)
  {
  }

  lemma SameLength<R, S, N>(held: S -> set<N>, w: World<R, S, N>, v: World<R, nat, nat>)
    requires InStep(held, w, v)
    ensures |v.made| == |w.made| && v.asked == w.asked
  {
  }

  lemma {:induction false} MembersInStep<R(!new), S(!new), N(!new)>(k: Kit<R, S, N>, held: S -> set<N>, w: World<R, S, N>, v: World<R, nat, nat>, caseId: Id, crew: nat, size: nat, members: seq<nat>, first: nat)
    requires Good(k, held) && InStep(held, w, v) && crew < |w.made| && |members| <= size && Kept(w, members) && Since(members, first) && first <= |w.made|
    ensures Kept(v, members)
    ensures var a, b := Members(k, w, caseId, crew, size, members, first), Members(Replaying(k), v, caseId, crew, size, members, first);
      InStep(held, a.0, b.0) && a.1 == b.1
    decreases size - |members|
  {
    hide Member, InStep, Sound, Quiet, Fresh, NoLoops;
    SameLength(held, w, v);
    if |members| < size {
      MemberInStep(k, held, w, v, caseId, crew, |members|);
      var n, m := Member(k, w, caseId, crew, |members|), Member(Replaying(k), v, caseId, crew, |members|);
      MembersInStep(k, held, n.0, m.0, caseId, crew, size, members + [n.1], first);
    }
  }

  lemma SameKept<R, S, N>(held: S -> set<N>, w: World<R, S, N>, v: World<R, nat, nat>, s: seq<nat>)
    requires InStep(held, w, v)
    ensures Known(v, s) <==> Known(w, s)
    ensures Kept(v, s) <==> Kept(w, s)
  {
    hide Distinct;
  }

  lemma SameGroups<R, S, N>(held: S -> set<N>, w: World<R, S, N>, v: World<R, nat, nat>, crews: seq<seq<nat>>)
    requires InStep(held, w, v)
    ensures Groups(v, crews) <==> Groups(w, crews)
  {
    hide CREWS, Flat, Kept, InStep;
    SameKept(held, w, v, Flat(crews));
    forall c | 0 <= c < |crews| ensures Kept(v, crews[c]) <==> Kept(w, crews[c]) {
      SameKept(held, w, v, crews[c]);
    }
  }

  lemma {:induction false} CrewsInStep<R(!new), S(!new), N(!new)>(k: Kit<R, S, N>, held: S -> set<N>, w: World<R, S, N>, v: World<R, nat, nat>, caseId: Id, crews: seq<seq<nat>>)
    requires Good(k, held) && InStep(held, w, v) && Groups(w, crews)
    ensures Groups(v, crews)
    ensures var a, b := Crews(k, w, caseId, crews), Crews(Replaying(k), v, caseId, crews); InStep(held, a.0, b.0) && a.1 == b.1
    decreases |CREWS| - |crews|
  {
    hide CREWS, CreateNode, Members, Kept, Flat, InStep, Sound, Quiet, Fresh, NoLoops;
    var l := Replaying(k);
    SameGroups(held, w, v, crews);
    if |crews| < |CREWS| {
      NodeInStep(k, held, w, v, caseId, CrewName(|crews|));
      var g, h := CreateNode(k, w, caseId, CrewName(|crews|)), CreateNode(l, v, caseId, CrewName(|crews|));
      NoneKept(g.0);
      NoneKept(h.0);
      MembersInStep(k, held, g.0, h.0, caseId, g.1, CREWS[|crews|], [], |w.made|);
      var m, n := Members(k, g.0, caseId, g.1, CREWS[|crews|], [], |w.made|), Members(l, h.0, caseId, h.1, CREWS[|crews|], [], |w.made|);
      OneMoreGroup(w, m.0, crews, m.1);
      CrewsInStep(k, held, m.0, n.0, caseId, crews + [m.1]);
    }
  }

  lemma {:induction false} VouchesInStep<R(!new), S(!new), N(!new)>(k: Kit<R, S, N>, held: S -> set<N>, w: World<R, S, N>, v: World<R, nat, nat>, caseId: Id, a: nat, picks: seq<nat>)
    requires Good(k, held) && InStep(held, w, v) && a < |w.made| && Known(w, picks)
    ensures a < |v.made| && Known(v, picks)
    ensures InStep(held, Vouches(k, w, caseId, a, picks), Vouches(Replaying(k), v, caseId, a, picks))
    decreases |picks|
  {
    hide CreateEdge, Uniform, Choose, InStep, Same, Sound, Quiet, Fresh, NoLoops;
    var l := Replaying(k);
    SameLength(held, w, v);
    if picks != [] {
      SameInStep(held, w, v, a, picks[0]);
      if Same(w, a, picks[0]) {
        VouchesInStep(k, held, w, v, caseId, a, picks[1..]);
      } else {
        UniformInStep(k, held, w, v, 0.4, 1.0);
        var weight, z := Uniform(k, w, 0.4, 1.0), Uniform(l, v, 0.4, 1.0);
        ChooseInStep(k, held, weight.0, z.0, 4);
        var conf, y := Choose(k, weight.0, 4), Choose(l, z.0, 4);
        var grade := [Low, Moderate, Moderate, High][conf.1];
        EdgeInStep(k, held, conf.0, y.0, caseId, VouchedFor, a, picks[0], Some(weight.1), 30, grade, Vouch);
        VouchesInStep(k, held, CreateEdge(k, conf.0, caseId, VouchedFor, a, picks[0], Some(weight.1), 30, grade, Vouch),
                      CreateEdge(l, y.0, caseId, VouchedFor, a, picks[0], Some(weight.1), 30, grade, Vouch), caseId, a, picks[1..]);
      }
    }
  }

  lemma {:induction false} CrewVouchesInStep<R(!new), S(!new), N(!new)>(k: Kit<R, S, N>, held: S -> set<N>, w: World<R, S, N>, v: World<R, nat, nat>, caseId: Id, members: seq<nat>, i: nat)
    requires Good(k, held) && InStep(held, w, v) && Kept(w, members) && i <= |members|
    ensures Kept(v, members)
    ensures InStep(held, CrewVouches(k, w, caseId, members, i), CrewVouches(Replaying(k), v, caseId, members, i))
    decreases |members| - i
  {
    hide Vouches, Between, Sample, InStep, Distinct, Sound, Quiet, Fresh, NoLoops;
    var l := Replaying(k);
    SameKept(held, w, v, members);
    if i < |members| {
      BetweenInStep(k, held, w, v, 3, 6);
      var n, m := Between(k, w, 3, 6), Between(l, v, 3, 6);
      var size := if n.1 < |members| then n.1 else |members|;
      SampleInStep(k, held, n.0, m.0, members, size);
      var p, q := Sample(k, n.0, members, size), Sample(l, m.0, members, size);
      VouchesInStep(k, held, p.0, q.0, caseId, members[i], p.1);
      CrewVouchesInStep(k, held, Vouches(k, p.0, caseId, members[i], p.1), Vouches(l, q.0, caseId, members[i], q.1), caseId, members, i + 1);
    }
  }

  lemma {:induction false} WeaveInStep<R(!new), S(!new), N(!new)>(k: Kit<R, S, N>, held: S -> set<N>, w: World<R, S, N>, v: World<R, nat, nat>, caseId: Id, crews: seq<seq<nat>>, i: nat)
    requires Good(k, held) && InStep(held, w, v) && Groups(w, crews) && i <= |crews|
    ensures Groups(v, crews)
    ensures InStep(held, Weave(k, w, caseId, crews, i), Weave(Replaying(k), v, caseId, crews, i))
    decreases |crews| - i
  {
    hide CREWS, CrewVouches, Kept, Flat, InStep, Sound, Quiet, Fresh, NoLoops;
    var l := Replaying(k);
    SameGroups(held, w, v, crews);
    if i < |crews| {
      CrewVouchesInStep(k, held, w, v, caseId, crews[i], 0);
      var w1, v1 := CrewVouches(k, w, caseId, crews[i], 0), CrewVouches(l, v, caseId, crews[i], 0);
      GroupsOn(w, w1, crews);
      GroupsOn(v, v1, crews);
      WeaveInStep(k, held, w1, v1, caseId, crews, i + 1);
    }
  }

  lemma {:induction false} PeersInStep<R(!new), S(!new), N(!new)>(k: Kit<R, S, N>, held: S -> set<N>, w: World<R, S, N>, v: World<R, nat, nat>, caseId: Id, a: nat, peers: seq<nat>, weighted: bool)
    requires Good(k, held) && InStep(held, w, v) && a < |w.made| && Below(peers, a)
    ensures a < |v.made|
    ensures InStep(held, Peers(k, w, caseId, a, peers, weighted), Peers(Replaying(k), v, caseId, a, peers, weighted))
    decreases |peers|
  {
    hide CreateEdge, Uniform, InStep, Sound, Quiet, Fresh, NoLoops;
    var l := Replaying(k);
    SameLength(held, w, v);
    if peers != [] {
      UniformInStep(k, held, w, v, 0.5, 1.0);
      var x, y := Uniform(k, w, 0.5, 1.0), Uniform(l, v, 0.5, 1.0);
      var w1, v1 := if weighted then x.0 else w, if weighted then y.0 else v;
      var weight := if weighted then Some(x.1) else None;
      EdgeInStep(k, held, w1, v1, caseId, CommunicatesWith, a, peers[0], weight, 30, Moderate, PrivateChannel);
      PeersInStep(k, held, CreateEdge(k, w1, caseId, CommunicatesWith, a, peers[0], weight, 30, Moderate, PrivateChannel),
                  CreateEdge(l, v1, caseId, CommunicatesWith, a, peers[0], weight, 30, Moderate, PrivateChannel), caseId, a, peers[1..], weighted);
    }
  }

  lemma SideInStep<R(!new), S(!new), N(!new)>(k: Kit<R, S, N>, held: S -> set<N>, w: World<R, S, N>, v: World<R, nat, nat>, caseId: Id, a: nat, side: seq<nat>, weighted: bool)
    requires Good(k, held) && InStep(held, w, v) && a < |w.made| && Below(side, a) && |side| >= 3
    ensures a < |v.made|
    ensures InStep(held, Side(k, w, caseId, a, side, weighted), Side(Replaying(k), v, caseId, a, side, weighted))
  {
    hide Sample, Peers, InStep, Distinct, Sound, Quiet, Fresh, NoLoops;
    SampleInStep(k, held, w, v, side, 3);
    SameLength(held, w, v);
    PeersInStep(k, held, Sample(k, w, side, 3).0, Sample(Replaying(k), v, side, 3).0, caseId, a, Sample(k, w, side, 3).1, weighted);
  }

  lemma BridgeInStep<R(!new), S(!new), N(!new)>(k: Kit<R, S, N>, held: S -> set<N>, w: World<R, S, N>, v: World<R, nat, nat>, caseId: Id, one: seq<nat>, other: seq<nat>, weighted: bool)
    requires Good(k, held) && InStep(held, w, v) && Known(w, one) && Known(w, other) && |one| >= 3 && |other| >= 3
    ensures Known(v, one) && Known(v, other)
    ensures var a, b := Bridge(k, w, caseId, one, other, weighted), Bridge(Replaying(k), v, caseId, one, other, weighted);
      InStep(held, a.0, b.0) && a.1 == b.1
  {
    hide NewHandle, CreateNode, Side, InStep, Sound, Quiet, Fresh, NoLoops;
    var l := Replaying(k);
    SameLength(held, w, v);
    HandleInStep(k, held, w, v, k.patience);
    var h, g := NewHandle(k, w, k.patience), NewHandle(l, v, k.patience);
    NodeInStep(k, held, h.0, g.0, caseId, h.1);
    var n, m := CreateNode(k, h.0, caseId, h.1), CreateNode(l, g.0, caseId, g.1);
    SideInStep(k, held, n.0, m.0, caseId, n.1, one, weighted);
    SideInStep(k, held, Side(k, n.0, caseId, n.1, one, weighted), Side(l, m.0, caseId, m.1, one, weighted), caseId, n.1, other, weighted);
  }

  lemma {:induction false} BrokersInStep<R(!new), S(!new), N(!new)>(k: Kit<R, S, N>, held: S -> set<N>, w: World<R, S, N>, v: World<R, nat, nat>, caseId: Id, crews: seq<seq<nat>>, brokers: seq<nat>)
    requires Good(k, held) && InStep(held, w, v) && Groups(w, crews) && |crews| == |CREWS| && |brokers| <= |crews| && Known(w, brokers)
    ensures Groups(v, crews) && Known(v, brokers)
    ensures var a, b := Brokers(k, w, caseId, crews, brokers), Brokers(Replaying(k), v, caseId, crews, brokers);
      InStep(held, a.0, b.0) && a.1 == b.1
    decreases |crews| - |brokers|
  {
    hide Bridge, Flat, Kept, InStep, Sound, Quiet, Fresh, NoLoops;
    var l := Replaying(k);
    SameLength(held, w, v);
    SameGroups(held, w, v, crews);
    if |brokers| < |crews| {
      var i := |brokers|;
      GroupsAreBig(w, crews);
      GroupsAreBig(v, crews);
      BridgeInStep(k, held, w, v, caseId, crews[i], crews[(i + 1) % |crews|], true);
      var b, c := Bridge(k, w, caseId, crews[i], crews[(i + 1) % |crews|], true), Bridge(l, v, caseId, crews[i], crews[(i + 1) % |crews|], true);
      GroupsOn(w, b.0, crews);
      GroupsOn(v, c.0, crews);
      BrokersInStep(k, held, b.0, c.0, caseId, crews, brokers + [b.1]);
    }
  }

  lemma {:induction false} ConflictInStep<R(!new), S(!new), N(!new)>(k: Kit<R, S, N>, held: S -> set<N>, w: World<R, S, N>, v: World<R, nat, nat>, caseId: Id, flat: seq<nat>, n: nat)
    requires Good(k, held) && InStep(held, w, v) && Kept(w, flat) && |flat| >= 2
    ensures Kept(v, flat)
    ensures InStep(held, Conflict(k, w, caseId, flat, n), Conflict(Replaying(k), v, caseId, flat, n))
    decreases n
  {
    hide CreateEdge, Sample, Choose, InStep, Sound, Quiet, Fresh, NoLoops;
    var l := Replaying(k);
    SameKept(held, w, v, flat);
    if n > 0 {
      SampleInStep(k, held, w, v, flat, 2);
      var p, q := Sample(k, w, flat, 2), Sample(l, v, flat, 2);
      ChooseInStep(k, held, p.0, q.0, 2);
      var kind, x := Choose(k, p.0, 2), Choose(l, q.0, 2);
      ChooseInStep(k, held, kind.0, x.0, 2);
      var conf, y := Choose(k, kind.0, 2), Choose(l, x.0, 2);
      var name := if kind.1 == 0 then AccusedScam else DisputedWith;
      var grade := if conf.1 == 0 then Low else Moderate;
      EdgeInStep(k, held, conf.0, y.0, caseId, name, p.1[0], p.1[1], None, 12, grade, Accusation);
      ConflictInStep(k, held, CreateEdge(k, conf.0, caseId, name, p.1[0], p.1[1], None, 12, grade, Accusation),
                     CreateEdge(l, y.0, caseId, name, p.1[0], p.1[1], None, 12, grade, Accusation), caseId, flat, n - 1);
    }
  }

  lemma HeldInStep<R(!new), S(!new), N(!new)>(k: Kit<R, S, N>, held: S -> set<N>, w: World<R, S, N>, v: World<R, nat, nat>, caseId: Id, owners: seq<nat>, name: Label, kind: Kind, months: nat,
                      grade: Grade, rationale: Rationale)
    requires Good(k, held) && InStep(held, w, v) && Known(w, owners) && |owners| > 0 && months > 0
    ensures Known(v, owners)
    ensures InStep(held, Held(k, w, caseId, owners, name, kind, months, grade, rationale),
                   Held(Replaying(k), v, caseId, owners, name, kind, months, grade, rationale))
  {
    hide CreateNode, Choose, CreateEdge, InStep, Sound, Quiet, Fresh, NoLoops;
    var l := Replaying(k);
    SameLength(held, w, v);
    NodeInStep(k, held, w, v, caseId, name);
    var n, m := CreateNode(k, w, caseId, name), CreateNode(l, v, caseId, name);
    ChooseInStep(k, held, n.0, m.0, |owners|);
    var src, x := Choose(k, n.0, |owners|), Choose(l, m.0, |owners|);
    EdgeInStep(k, held, src.0, x.0, caseId, kind, owners[src.1], n.1, None, months, grade, rationale);
  }

  lemma {:induction false} HostsInStep<R(!new), S(!new), N(!new)>(k: Kit<R, S, N>, held: S -> set<N>, w: World<R, S, N>, v: World<R, nat, nat>, caseId: Id, flat: seq<nat>, n: nat)
    requires Good(k, held) && InStep(held, w, v) && Known(w, flat) && |flat| > 0
    ensures Known(v, flat)
    ensures InStep(held, Hosts(k, w, caseId, flat, n), Hosts(Replaying(k), v, caseId, flat, n))
    decreases n
  {
    hide Held, Between, Choose, InStep, Sound, Quiet, Fresh, NoLoops;
    var l := Replaying(k);
    SameLength(held, w, v);
    if n > 0 {
      BetweenInStep(k, held, w, v, 1000, 9999);
      var number, x := Between(k, w, 1000, 9999), Between(l, v, 1000, 9999);
      ChooseInStep(k, held, number.0, x.0, 3);
      var asn, y := Choose(k, number.0, 3), Choose(l, x.0, 3);
      HeldInStep(k, held, asn.0, y.0, caseId, flat, Host(number.1), Controls, 18, Moderate, OwnPost);
      HostsInStep(k, held, Held(k, asn.0, caseId, flat, Host(number.1), Controls, 18, Moderate, OwnPost),
                  Held(l, y.0, caseId, flat, Host(number.1), Controls, 18, Moderate, OwnPost), caseId, flat, n - 1);
    }
  }

  lemma {:induction false} WalletsInStep<R(!new), S(!new), N(!new)>(k: Kit<R, S, N>, held: S -> set<N>, w: World<R, S, N>, v: World<R, nat, nat>, caseId: Id, flat: seq<nat>, n: nat)
    requires Good(k, held) && InStep(held, w, v) && Known(w, flat) && |flat| > 0
    ensures Known(v, flat)
    ensures InStep(held, Wallets(k, w, caseId, flat, n), Wallets(Replaying(k), v, caseId, flat, n))
    decreases n
  {
    hide Held, Letters, InStep, Sound, Quiet, Fresh, NoLoops;
    var l := Replaying(k);
    SameLength(held, w, v);
    if n > 0 {
      LettersInStep(k, held, w, v, 38, []);
      var x, y := Letters(k, w, 38, []), Letters(l, v, 38, []);
      HeldInStep(k, held, x.0, y.0, caseId, flat, Address(x.1), Controls, 20, Low, PostedByHandle);
      WalletsInStep(k, held, Held(k, x.0, caseId, flat, Address(x.1), Controls, 20, Low, PostedByHandle),
                    Held(l, y.0, caseId, flat, Address(y.1), Controls, 20, Low, PostedByHandle), caseId, flat, n - 1);
    }
  }

  lemma {:induction false} VictimsInStep<R(!new), S(!new), N(!new)>(k: Kit<R, S, N>, held: S -> set<N>, w: World<R, S, N>, v: World<R, nat, nat>, caseId: Id, brokers: seq<nat>, n: nat)
    requires Good(k, held) && InStep(held, w, v) && Known(w, brokers) && |brokers| > 0
    ensures Known(v, brokers)
    ensures InStep(held, Victims(k, w, caseId, brokers, n), Victims(Replaying(k), v, caseId, brokers, n))
    decreases n
  {
    hide Held, Between, Choose, InStep, Sound, Quiet, Fresh, NoLoops;
    var l := Replaying(k);
    SameLength(held, w, v);
    if n > 0 {
      ChooseInStep(k, held, w, v, VICTIMS);
      var name, x := Choose(k, w, VICTIMS), Choose(l, v, VICTIMS);
      BetweenInStep(k, held, name.0, x.0, 100, 999);
      var number, y := Between(k, name.0, 100, 999), Between(l, x.0, 100, 999);
      var made := Victim(name.1, number.1);
      HeldInStep(k, held, number.0, y.0, caseId, brokers, made, BrokeredAccess, 10, Moderate, AccessAdvertised);
      VictimsInStep(k, held, Held(k, number.0, caseId, brokers, made, BrokeredAccess, 10, Moderate, AccessAdvertised),
                    Held(l, y.0, caseId, brokers, made, BrokeredAccess, 10, Moderate, AccessAdvertised), caseId, brokers, n - 1);
    }
  }

  lemma AttachedInStep<R(!new), S(!new), N(!new)>(k: Kit<R, S, N>, held: S -> set<N>, w: World<R, S, N>, v: World<R, nat, nat>, caseId: Id, flat: seq<nat>, brokers: seq<nat>)
    requires Good(k, held) && InStep(held, w, v) && Known(w, flat) && |flat| > 0 && Known(w, brokers) && |brokers| > 0
    ensures Known(v, flat) && Known(v, brokers)
    ensures InStep(held, Attached(k, w, caseId, flat, brokers), Attached(Replaying(k), v, caseId, flat, brokers))
  {
    hide Hosts, Wallets, Victims, InStep, Sound, Quiet, Fresh, NoLoops;
    var l := Replaying(k);
    SameLength(held, w, v);
    HostsInStep(k, held, w, v, caseId, flat, 26);
    var w1, v1 := Hosts(k, w, caseId, flat, 26), Hosts(l, v, caseId, flat, 26);
    WalletsInStep(k, held, w1, v1, caseId, flat, 20);
    VictimsInStep(k, held, Wallets(k, w1, caseId, flat, 20), Wallets(l, v1, caseId, flat, 20), caseId, brokers, 14);
  }

  /** The flagship case is in step with the replay, whatever the sink says of any case. */
  lemma FlagshipInStep<R(!new), S(!new), N(!new)>(k: Kit<R, S, N>, held: S -> set<N>, w: World<R, S, N>, v: World<R, nat, nat>, caseId: Id)
    requires Good(k, held) && InStep(held, w, v)
    ensures InStep(held, Flagship(k, w, caseId), Flagship(Replaying(k), v, caseId))
  {
    hide CREWS, Groups, Flat, Distinct, Crews, Weave, Brokers, Bridge, Conflict, Attached, InStep, Sound, Quiet, Fresh, NoLoops;
    var l := Replaying(k);
    NoGroups(w);
    CrewsInStep(k, held, w, v, caseId, []);
    var crews, c := Crews(k, w, caseId, []), Crews(l, v, caseId, []);
    WeaveInStep(k, held, crews.0, c.0, caseId, crews.1, 0);
    var woven, x := Weave(k, crews.0, caseId, crews.1, 0), Weave(l, c.0, caseId, c.1, 0);
    GroupsOn(crews.0, woven, crews.1);
    GroupsOn(c.0, x, crews.1);
    GroupsAreBig(woven, crews.1);
    GroupsAreBig(x, crews.1);
    BrokersInStep(k, held, woven, x, caseId, crews.1, []);
    var brokers, b := Brokers(k, woven, caseId, crews.1, []), Brokers(l, x, caseId, c.1, []);
    BridgeInStep(k, held, brokers.0, b.0, caseId, crews.1[0], crews.1[1], false);
    var twin, t := Bridge(k, brokers.0, caseId, crews.1[0], crews.1[1], false), Bridge(l, b.0, caseId, c.1[0], c.1[1], false);
    FlatIsKept(woven, twin.0, crews.1);
    FlatIsKept(x, t.0, crews.1);
    ConflictInStep(k, held, twin.0, t.0, caseId, Flat(crews.1), 24);
    AttachedInStep(k, held, Conflict(k, twin.0, caseId, Flat(crews.1), 24), Conflict(l, t.0, caseId, Flat(c.1), 24),
                   caseId, Flat(crews.1), brokers.1 + [twin.1]);
  }

  lemma {:induction false} LocalsInStep<R(!new), S(!new), N(!new)>(k: Kit<R, S, N>, held: S -> set<N>, w: World<R, S, N>, v: World<R, nat, nat>, caseId: Id, size: nat, local: seq<nat>)
    requires Good(k, held) && InStep(held, w, v) && |local| <= size && Kept(w, local)
    ensures Kept(v, local)
    ensures var a, b := Locals(k, w, caseId, size, local), Locals(Replaying(k), v, caseId, size, local); InStep(held, a.0, b.0) && a.1 == b.1
    decreases size - |local|
  {
    hide NewHandle, CreateNode, InStep, Sound, Quiet, Fresh, NoLoops;
    var l := Replaying(k);
    SameLength(held, w, v);
    if |local| < size {
      HandleInStep(k, held, w, v, k.patience);
      var h, g := NewHandle(k, w, k.patience), NewHandle(l, v, k.patience);
      NodeInStep(k, held, h.0, g.0, caseId, h.1);
      var n, m := CreateNode(k, h.0, caseId, h.1), CreateNode(l, g.0, caseId, g.1);
      LocalsInStep(k, held, n.0, m.0, caseId, size, local + [n.1]);
    }
  }

  lemma {:induction false} RepliesInStep<R(!new), S(!new), N(!new)>(k: Kit<R, S, N>, held: S -> set<N>, w: World<R, S, N>, v: World<R, nat, nat>, caseId: Id, a: nat, picks: seq<nat>)
    requires Good(k, held) && InStep(held, w, v) && a < |w.made| && Known(w, picks)
    ensures a < |v.made| && Known(v, picks)
    ensures InStep(held, Replies(k, w, caseId, a, picks), Replies(Replaying(k), v, caseId, a, picks))
    decreases |picks|
  {
    hide CreateEdge, Choose, InStep, Same, Sound, Quiet, Fresh, NoLoops;
    var l := Replaying(k);
    SameLength(held, w, v);
    if picks != [] {
      SameInStep(held, w, v, a, picks[0]);
      if Same(w, a, picks[0]) {
        RepliesInStep(k, held, w, v, caseId, a, picks[1..]);
      } else {
        ChooseInStep(k, held, w, v, 2);
        var conf, y := Choose(k, w, 2), Choose(l, v, 2);
        var grade := if conf.1 == 0 then Low else Moderate;
        EdgeInStep(k, held, conf.0, y.0, caseId, CommunicatesWith, a, picks[0], None, 14, grade, SameThread);
        RepliesInStep(k, held, CreateEdge(k, conf.0, caseId, CommunicatesWith, a, picks[0], None, 14, grade, SameThread),
                      CreateEdge(l, y.0, caseId, CommunicatesWith, a, picks[0], None, 14, grade, SameThread), caseId, a, picks[1..]);
      }
    }
  }

  lemma {:induction false} LocalRepliesInStep<R(!new), S(!new), N(!new)>(k: Kit<R, S, N>, held: S -> set<N>, w: World<R, S, N>, v: World<R, nat, nat>, caseId: Id, local: seq<nat>, i: nat)
    requires Good(k, held) && InStep(held, w, v) && Known(w, local) && |local| >= 4 && i <= |local|
    ensures Known(v, local)
    ensures InStep(held, LocalReplies(k, w, caseId, local, i), LocalReplies(Replaying(k), v, caseId, local, i))
    decreases |local| - i
  {
    hide Replies, Between, Sample, InStep, Distinct, Sound, Quiet, Fresh, NoLoops;
    var l := Replaying(k);
    SameLength(held, w, v);
    if i < |local| {
      BetweenInStep(k, held, w, v, 2, 4);
      var n, m := Between(k, w, 2, 4), Between(l, v, 2, 4);
      SampleInStep(k, held, n.0, m.0, local, n.1);
      var p, q := Sample(k, n.0, local, n.1), Sample(l, m.0, local, m.1);
      RepliesInStep(k, held, p.0, q.0, caseId, local[i], p.1);
      LocalRepliesInStep(k, held, Replies(k, p.0, caseId, local[i], p.1), Replies(l, q.0, caseId, local[i], q.1), caseId, local, i + 1);
    }
  }

  /** No smaller case the run comes to holds a network yet. */
  predicate Unpopulated<R(!new), S, N(==)>(k: Kit<R, S, N>, w: World<R, S, N>, cases: seq<Network>)
    requires Sound(k.rng) && Sized(cases)
    decreases |cases|
  {
    cases == [] ||
    (&& !k.sink.populated(w.sink, cases[0].caseId)
     && Unpopulated(k, OneCase(k, w, cases[0]), cases[1..]))
  }

  lemma OneCaseInStep<R(!new), S(!new), N(!new)>(k: Kit<R, S, N>, held: S -> set<N>, w: World<R, S, N>, v: World<R, nat, nat>, c: Network)
    requires Good(k, held) && InStep(held, w, v) && c.size >= 4
    ensures InStep(held, OneCase(k, w, c), OneCase(Replaying(k), v, c))
  {
    hide Locals, LocalReplies, InStep, Sound, Quiet, Fresh, NoLoops;
    var l := Replaying(k);
    NoneKept(w);
    LocalsInStep(k, held, w, v, c.caseId, c.size, []);
    var a, b := Locals(k, w, c.caseId, c.size, []), Locals(l, v, c.caseId, c.size, []);
    LocalRepliesInStep(k, held, a.0, b.0, c.caseId, a.1, 0);
  }

  /** The replay asks for a tie of every case: two different picks are not both the member itself. */
  lemma ReplayAsks<R(!new), S(!new), N(!new)>(k: Kit<R, S, N>, held: S -> set<N>, w: World<R, S, N>, v: World<R, nat, nat>, c: Network)
    requires Good(k, held) && InStep(held, w, v) && c.size >= 4
    ensures |OneCase(Replaying(k), v, c).asked| > |v.asked|
  {
    hide Locals, Replies, Between, Sample, Sound, Quiet, Fresh, NoLoops, InStep;
    var l := Replaying(k);
    NoneKept(w);
    LocalsInStep(k, held, w, v, c.caseId, c.size, []);
    var a, b := Locals(k, w, c.caseId, c.size, []), Locals(l, v, c.caseId, c.size, []);
    SameLength(held, w, v);
    var n, m := Between(k, a.0, 2, 4), Between(l, b.0, 2, 4);
    BetweenInStep(k, held, a.0, b.0, 2, 4);
    var p, q := Sample(k, n.0, a.1, n.1), Sample(l, m.0, b.1, m.1);
    SampleInStep(k, held, n.0, m.0, a.1, n.1);
    OneIsAnother(held, p.0, q.0, b.1[0], q.1);
    var asked := Replies(l, q.0, c.caseId, b.1[0], q.1);
    assert OneCase(l, v, c) == LocalReplies(l, asked, c.caseId, b.1, 1);
  }

  lemma OneIsAnother<R, S, N>(held: S -> set<N>, w: World<R, S, N>, v: World<R, nat, nat>, a: nat, picks: seq<nat>)
    requires InStep(held, w, v) && a < |v.made| && Known(v, picks) && Distinct(picks) && |picks| >= 2
    ensures exists i :: 0 <= i < |picks| && !Same(v, a, picks[i])
  {
    var i := if picks[0] == a then 1 else 0;
    assert !Same(v, a, picks[i]);
  }

  /** No tie asked for meanwhile is of this case. */
  ghost predicate Without<R, S, N>(w: World<R, S, N>, v: World<R, S, N>, caseId: Id) {
    |w.asked| <= |v.asked| && forall i :: |w.asked| <= i < |v.asked| ==> v.asked[i].tie.caseId != caseId
  }

  lemma {:induction false} OtherCasesAvoid<R(!new), S, N>(k: Kit<R, S, N>, w: World<R, S, N>, cases: seq<Network>, caseId: Id)
    requires Sound(k.rng) && Sized(cases) && forall i :: 0 <= i < |cases| ==> cases[i].caseId != caseId
    ensures Without(w, Secondary(k, w, cases), caseId)
    decreases |cases|
  {
    hide OneCase, NoLoops, Sound;
    if cases != [] {
      OtherCasesAvoid(k, w, cases[1..], caseId);
      OtherCasesAvoid(k, OneCase(k, w, cases[0]), cases[1..], caseId);
    }
  }

  ghost predicate Different(cases: seq<Network>) {
    forall i, j :: 0 <= i < j < |cases| ==> cases[i].caseId != cases[j].caseId
  }

  lemma Diverges<R, S, N>(w: World<R, S, N>, v: World<R, nat, nat>, w1: World<R, S, N>, v1: World<R, nat, nat>, v2: World<R, nat, nat>, caseId: Id)
    requires v.asked == w.asked && Without(w, w1, caseId)
    requires Within(v, v1, caseId) && |v1.asked| > |v.asked| && v1.asked <= v2.asked
    ensures v2.asked != w1.asked
  {
    var i := |v.asked|;
    assert v2.asked[i].tie.caseId == caseId && (i < |w1.asked| ==> w1.asked[i].tie.caseId != caseId);
  }

  /** The smaller cases' ties are the replay's if and only if none of them was found populated. */
  lemma {:induction false} CasesInStepExactly<R(!new), S(!new), N(!new)>(k: Kit<R, S, N>, held: S -> set<N>, w: World<R, S, N>, v: World<R, nat, nat>, cases: seq<Network>)
    requires Good(k, held) && InStep(held, w, v) && Sized(cases) && Different(cases)
    ensures var a, b := Secondary(k, w, cases), Secondary(Replaying(k), v, cases);
      && (a.asked == b.asked <==> Unpopulated(k, w, cases))
      && (Unpopulated(k, w, cases) ==> InStep(held, a, b))
    decreases |cases|
  {
    hide OneCase, InStep, Sound, Quiet, Fresh, NoLoops;
    var l := Replaying(k);
    SameLength(held, w, v);
    if cases != [] {
      OneCaseInStep(k, held, w, v, cases[0]);
      var w1, v1 := OneCase(k, w, cases[0]), OneCase(l, v, cases[0]);
      if k.sink.populated(w.sink, cases[0].caseId) {
        ReplayAsks(k, held, w, v, cases[0]);
        OtherCasesAvoid(k, w, cases[1..], cases[0].caseId);
        Diverges(w, v, Secondary(k, w, cases[1..]), v1, Secondary(l, v1, cases[1..]), cases[0].caseId);
      } else {
        CasesInStepExactly(k, held, w1, v1, cases[1..]);
      }
    }
  }

  lemma SeededInStep<R(!new), S(!new), N(!new)>(k: Kit<R, S, N>, held: S -> set<N>, s: S)
    ensures InStep(held, Seeded(k, s), Seeded(Replaying(k), 0))
  {
  }

  /** A seeding run through any sink that draws nothing and gives out new references, whatever else it
      does: its flagship ties are the replay's, and all its ties are if and only if it found no smaller
      case populated. */
  lemma ReplayIsFaithful<R(!new), S(!new), N(!new)>(k: Kit<R, S, N>, held: S -> set<N>, s: S, caseId: Id, kestrel: Id, corvid: Id)
    requires Good(k, held) && kestrel != corvid
    ensures var w, v := Build(k, s, caseId, kestrel, corvid), Replayed(k.rng, k.patience, caseId, kestrel, corvid);
      var main, again := Flagship(k, Seeded(k, s), caseId), Flagship(Replaying(k), Seeded(Replaying(k), 0), caseId);
      && main.asked == again.asked && main.asked <= w.asked && main.asked <= v.asked
      && (w.asked == v.asked <==> Unpopulated(k, main, Smaller(kestrel, corvid)))
      && (w.asked == v.asked ==> w.stalled == v.stalled)
  {
    hide Flagship, Secondary, Unpopulated, InStep, Sound, Quiet, Fresh, NoLoops;
    SeededInStep(k, held, s);
    FlagshipInStep(k, held, Seeded(k, s), Seeded(Replaying(k), 0), caseId);
    var main, again := Flagship(k, Seeded(k, s), caseId), Flagship(Replaying(k), Seeded(Replaying(k), 0), caseId);
    SameLength(held, main, again);
    CasesInStepExactly(k, held, main, again, Smaller(kestrel, corvid));
    if Unpopulated(k, main, Smaller(kestrel, corvid)) {
      SameProgress(held, Secondary(k, main, Smaller(kestrel, corvid)), Secondary(Replaying(k), again, Smaller(kestrel, corvid)));
    }
  }

  lemma SameProgress<R, S, N>(held: S -> set<N>, w: World<R, S, N>, v: World<R, nat, nat>)
    requires InStep(held, w, v)
    ensures v.stalled == w.stalled && v.rng == w.rng
  {
  }

  /** A sink like the replay that has a network for one case already. */
  function Holding<R>(id: Id): Sink<R, nat, nat> {
    Replay().(populated := (_, c) => c == id)
  }

  lemma HoldingIsGood<R(!new)>(rng: Random<R>, patience: nat, id: Id)
    requires Sound(rng)
    ensures Good(Kit(rng, Holding(id), patience), s => Given(s))
  {
  }

  /** With either smaller case populated a run's ties are not the replay's. */
  lemma PopulatedCaseDiverges<R(!new)>(rng: Random<R>, patience: nat, caseId: Id, kestrel: Id, corvid: Id, id: Id)
    requires Sound(rng) && kestrel != corvid && (id == kestrel || id == corvid)
    ensures Build(Kit(rng, Holding(id), patience), 0, caseId, kestrel, corvid).asked !=
      Replayed(rng, patience, caseId, kestrel, corvid).asked
  {
    hide Sound, Flagship, OneCase, Build, Replayed, Good, NoLoops;
    var k := Kit(rng, Holding(id), patience);
    HoldingIsGood(rng, patience, id);
    ReplayIsFaithful(k, s => Given(s), 0, caseId, kestrel, corvid);
    var main := Flagship(k, Seeded(k, 0), caseId);
    var cases := Smaller(kestrel, corvid);
    assert cases[1..] == [Network(corvid, CORVID)];
    assert !Unpopulated(k, main, cases);
  }
}
