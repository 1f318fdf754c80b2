/** Entity merges and their reversal: the ledger of moved ties, and what reversing restores. */
module Merges {
  import opened Basics
  import opened Options

  type Id = int

  datatype Labels = Labels(level: nat, compartments: set<int>)

  datatype Kind = Identity | Person | Other(name: int)

  datatype Node = Node(kind: Kind, labels: Labels, deleted: bool, mergedInto: Option<Id>)

  /** tie: what edge_uniq_active compares besides the two ends: type, start of validity, labels. */
  datatype Edge = Edge(src: Id, dst: Id, tie: int, deleted: bool)

  /** One node_merge_edge row. */
  datatype Entry = Entry(src: Id, dst: Id, setAside: bool)

  datatype Merge = Merge(source: Id, target: Id, at: int, live: bool, moved: map<Id, Entry>)

  datatype Graph = Graph(nodes: map<Id, Node>, edges: map<Id, Edge>, merges: map<Id, Merge>)

  // The unique index on live ties.

  predicate SameTie(a: Edge, b: Edge) {
    a.src == b.src && a.dst == b.dst && a.tie == b.tie
  }

  ghost predicate UniqueActive(edges: map<Id, Edge>) {
    forall a, b :: a in edges && b in edges && a != b && !edges[a].deleted && !edges[b].deleted ==> !SameTie(edges[a], edges[b])
  }

  predicate Taken(edges: map<Id, Edge>, id: Id, e: Edge) {
    exists f :: f in edges && f != id && !edges[f].deleted && SameTie(edges[f], e)
  }

  // Merging.

  /** readable: the ties the caller may read, both ends; None when the caller gives no labels. */
  datatype Request = Request(source: Id, target: Id, hasReason: bool, readable: Option<set<Id>>)

  datatype Refusal =
    | NoReason | SameNode | NotInCase | SourceMergedAway | TargetMergedAway | NodeDeleted
    | PersonaIntoPerson | OtherKind | Declassifying | Collision
    | NoSuchMerge | AlreadyReversed | Blocked | RestoreCollision

  datatype Outcome = Done(graph: Graph) | Refused(why: Refusal)

  /** The checks before anything is written, in their order. */
  function Precheck(g: Graph, r: Request): Option<Refusal> {
    if !r.hasReason then Some(NoReason)
    else if r.source == r.target then Some(SameNode)
    else if r.source !in g.nodes || r.target !in g.nodes then Some(NotInCase)
    else
      var src, dst := g.nodes[r.source], g.nodes[r.target];
      if src.mergedInto.Some? then Some(SourceMergedAway)
      else if dst.mergedInto.Some? then Some(TargetMergedAway)
      else if src.deleted || dst.deleted then Some(NodeDeleted)
      else if (src.kind.Identity? && dst.kind.Person?) || (src.kind.Person? && dst.kind.Identity?) then Some(PersonaIntoPerson)
      else if src.kind != dst.kind then Some(OtherKind)
      else if dst.labels.level < src.labels.level || !(src.labels.compartments <= dst.labels.compartments) then Some(Declassifying)
      else None
  }

  predicate Touches(e: Edge, n: Id) {
    e.src == n || e.dst == n
  }

  function Swap(n: Id, source: Id, target: Id): Id {
    if n == source then target else n
  }

  function Repointed(e: Edge, source: Id, target: Id): Edge {
    e.(src := Swap(e.src, source, target), dst := Swap(e.dst, source, target))
  }

  /** The ties a merge selects: live, with the source at an end. */
  predicate Selected(e: Edge, source: Id) {
    !e.deleted && Touches(e, source)
  }

  datatype Fate = Moves | SetAside | Collides

  /** What becomes of one selected tie. A tie between the two entities is set aside; so is a
      duplicate the caller may not read; a duplicate they may read refuses the merge. */
  function FateOf(edges: map<Id, Edge>, r: Request, id: Id): Fate
    requires id in edges
  {
    var e := Repointed(edges[id], r.source, r.target);
    if e.src == e.dst then SetAside
    else if !Taken(edges, id, e) then Moves
    else if r.readable.Some? && id !in r.readable.value then SetAside
    else Collides
  }

  function Chosen(edges: map<Id, Edge>, source: Id): set<Id> {
    set id | id in edges && Selected(edges[id], source)
  }

  function EdgesAfter(edges: map<Id, Edge>, r: Request, done: set<Id>): map<Id, Edge> {
    map id | id in edges ::
      if id !in done then edges[id]
      else if FateOf(edges, r, id).SetAside? then edges[id].(deleted := true)
      else Repointed(edges[id], r.source, r.target)
  }

  function EntriesOf(edges: map<Id, Edge>, r: Request, done: set<Id>): map<Id, Entry>
    requires done <= edges.Keys
  {
    map id | id in done :: Entry(edges[id].src, edges[id].dst, FateOf(edges, r, id).SetAside?)
  }

  predicate AnyCollides(edges: map<Id, Edge>, r: Request) {
    exists id :: id in Chosen(edges, r.source) && FateOf(edges, r, id).Collides?
  }

  /** MergeService.merge, as one step. */
  function Fold(g: Graph, id: Id, r: Request, at: int): Outcome {
    if Precheck(g, r).Some? then Refused(Precheck(g, r).value)
    else if AnyCollides(g.edges, r) then Refused(Collision)
    else
      var chosen := Chosen(g.edges, r.source);
      Done(Graph(g.nodes[r.source := g.nodes[r.source].(mergedInto := Some(r.target))],
                 EdgesAfter(g.edges, r, chosen),
                 g.merges[id := Merge(r.source, r.target, at, true, EntriesOf(g.edges, r, chosen))]))
  }

  // Reversing.

  /** A later live merge that recorded one of the same ties. */
  predicate Blocks(g: Graph, id: Id, other: Id)
    requires id in g.merges
  {
    && other in g.merges && other != id && g.merges[other].live && g.merges[other].at > g.merges[id].at
    && g.merges[id].moved.Keys * g.merges[other].moved.Keys != {}
  }

  function Restored(e: Edge, entry: Entry): Edge {
    e.(src := entry.src, dst := entry.dst, deleted := e.deleted && !entry.setAside)
  }

  /** One UPDATE of a reversal: a live tie may not duplicate another. */
  function RestoreOne(edges: map<Id, Edge>, id: Id, entry: Entry): Option<map<Id, Edge>> {
    if id !in edges then Some(edges)
    else
      var e := Restored(edges[id], entry);
      if !e.deleted && Taken(edges, id, e) then None else Some(edges[id := e])
  }

  /** The rows in the order the query gives them. */
  function RestoreRows(edges: map<Id, Edge>, moved: map<Id, Entry>, rows: seq<Id>): Option<map<Id, Edge>>
    requires forall k :: 0 <= k < |rows| ==> rows[k] in moved
  {
    if rows == [] then Some(edges)
    else
      var before := RestoreRows(edges, moved, rows[..|rows| - 1]);
      if before.None? then None else RestoreOne(before.value, rows[|rows| - 1], moved[rows[|rows| - 1]])
  }

  /** Each of the merge's rows once, in some order. */
  ghost predicate RowsOf(m: Merge, rows: seq<Id>) {
    && (forall k :: 0 <= k < |rows| ==> rows[k] in m.moved)
    && (forall i, j :: 0 <= i < j < |rows| ==> rows[i] != rows[j])
    && (forall id :: id in m.moved ==> id in rows)
  }

  /** MergeService.unmerge, as one step. */
  function Unfold(g: Graph, id: Id, hasReason: bool, rows: seq<Id>): Outcome
    requires id in g.merges ==> forall k :: 0 <= k < |rows| ==> rows[k] in g.merges[id].moved
  {
    if !hasReason then Refused(NoReason)
    else if id !in g.merges then Refused(NoSuchMerge)
    else if !g.merges[id].live then Refused(AlreadyReversed)
    else if exists other :: other in g.merges && Blocks(g, id, other) then Refused(Blocked)
    else
      var m := g.merges[id];
      var edges := RestoreRows(g.edges, m.moved, rows);
      if edges.None? then Refused(RestoreCollision)
      else
        Done(Graph(if m.source in g.nodes then g.nodes[m.source := g.nodes[m.source].(mergedInto := None)] else g.nodes,
                   edges.value, g.merges[id := m.(live := false)]))
  }

  // One merge.

  lemma RepointedApart(a: Edge, b: Edge, source: Id, target: Id)
    requires source != target && Touches(a, source) && Touches(b, source)
    requires Repointed(a, source, target).src != Repointed(a, source, target).dst
    requires SameTie(Repointed(a, source, target), Repointed(b, source, target))
    ensures SameTie(a, b)
  {
  }

  /** While the ties are moved one by one, whether the next one collides is settled by how the ties
      stood before the first: the order of the rows does not matter. */
  lemma TakenEitherWay(edges: map<Id, Edge>, r: Request, done: set<Id>, id: Id)
    requires UniqueActive(edges) && r.source != r.target
    requires done <= Chosen(edges, r.source) && id in Chosen(edges, r.source) && id !in done
    requires forall f :: f in done ==> !FateOf(edges, r, f).Collides?
    ensures var e := Repointed(edges[id], r.source, r.target);
      e.src != e.dst ==> (Taken(EdgesAfter(edges, r, done), id, e) <==> Taken(edges, id, e))
  {
    var e := Repointed(edges[id], r.source, r.target);
    var now := EdgesAfter(edges, r, done);
    if e.src != e.dst {
      if Taken(now, id, e) {
        var f :| f in now && f != id && !now[f].deleted && SameTie(now[f], e);
        if f in done {
          RepointedApart(edges[id], edges[f], r.source, r.target);
          assert false;
        }
      }
      if Taken(edges, id, e) {
        var f :| f in edges && f != id && !edges[f].deleted && SameTie(edges[f], e);
        assert f !in done;
        assert now[f] == edges[f];
      }
    }
  }

  /** One more row done. */
  lemma OneMoreDone(edges: map<Id, Edge>, r: Request, done: set<Id>, id: Id)
    requires id in edges && id !in done && done <= edges.Keys
    ensures EntriesOf(edges, r, done + {id}) ==
      EntriesOf(edges, r, done)[id := Entry(edges[id].src, edges[id].dst, FateOf(edges, r, id).SetAside?)]
    ensures EdgesAfter(edges, r, done + {id}) ==
      EdgesAfter(edges, r, done)[id := if FateOf(edges, r, id).SetAside? then edges[id].(deleted := true) else Repointed(edges[id], r.source, r.target)]
  {
    hide FateOf;
  }

  lemma NothingDone(edges: map<Id, Edge>, r: Request)
    ensures EdgesAfter(edges, r, {}) == edges && EntriesOf(edges, r, {}) == map[]
  {
  }

  lemma CheckedApart(g: Graph, r: Request)
    requires Precheck(g, r).None?
    ensures r.source != r.target && r.source in g.nodes
  {
  }

  lemma StillAsItWas(edges: map<Id, Edge>, r: Request, done: set<Id>, id: Id)
    requires id in Chosen(edges, r.source) && id !in done && done <= Chosen(edges, r.source)
    ensures done <= edges.Keys && id in edges && id in EdgesAfter(edges, r, done) && EdgesAfter(edges, r, done)[id] == edges[id]
  {
  }

  lemma CollidesHere(edges: map<Id, Edge>, r: Request, id: Id)
    requires id in Chosen(edges, r.source) && FateOf(edges, r, id).Collides?
    ensures AnyCollides(edges, r)
  {
  }

  lemma NoneCollides(edges: map<Id, Edge>, r: Request)
    ensures (forall f :: f in Chosen(edges, r.source) ==> !FateOf(edges, r, f).Collides?) ==> !AnyCollides(edges, r)
  {
  }

  lemma InRows(rows: seq<Id>, k: nat)
    requires k < |rows| && forall i, j :: 0 <= i < j < |rows| ==> rows[i] != rows[j]
    ensures rows[k] in AsSet(rows) && rows[k] !in AsSet(rows[..k])
  {
  }

  /** A merge keeps the index: no two live ties of one kind between the same two ends. */
  lemma FoldKeepsUnique(g: Graph, id: Id, r: Request, at: int)
    requires UniqueActive(g.edges) && Fold(g, id, r, at).Done?
    ensures UniqueActive(Fold(g, id, r, at).graph.edges)
  {
    var now := Fold(g, id, r, at).graph.edges;
    forall a, b | a in now && b in now && a != b && !now[a].deleted && !now[b].deleted ensures !SameTie(now[a], now[b]) {
      MovedIsFree(g, r, a, b);
      MovedIsFree(g, r, b, a);
    }
  }

  lemma MovedIsFree(g: Graph, r: Request, a: Id, b: Id)
    requires UniqueActive(g.edges) && Precheck(g, r).None? && !AnyCollides(g.edges, r)
    requires a in g.edges && b in g.edges && a != b
    ensures var now := EdgesAfter(g.edges, r, Chosen(g.edges, r.source));
      a in Chosen(g.edges, r.source) && !now[a].deleted && !now[b].deleted ==> !SameTie(now[a], now[b])
  {
    var now := EdgesAfter(g.edges, r, Chosen(g.edges, r.source));
    if a in Chosen(g.edges, r.source) && !now[a].deleted && !now[b].deleted {
      assert FateOf(g.edges, r, a).Moves?;
      if SameTie(now[a], now[b]) {
        if b in Chosen(g.edges, r.source) {
          RepointedApart(g.edges[a], g.edges[b], r.source, r.target);
        }
      }
    }
  }

  function AsSet(rows: seq<Id>): set<Id> {
    set x | x in rows
  }

  lemma AsSetNext(rows: seq<Id>, k: nat)
    requires k < |rows|
    ensures AsSet(rows[..k + 1]) == AsSet(rows[..k]) + {rows[k]}
  {
    assert rows[..k + 1] == rows[..k] + [rows[k]];
  }

  /** What a merge does to the graph. No live tie is left on the source; a tie is only ever moved whole,
      or set aside because it ran between the two entities or duplicated one the caller may not
      read; nothing else changes; and the survivor is of the same kind and no less restricted. */
  lemma MergeMovesEveryTie(g: Graph, id: Id, r: Request, at: int, e: Id)
    requires Fold(g, id, r, at).Done? && e in g.edges
    ensures var after := Fold(g, id, r, at).graph;
      && after.edges.Keys == g.edges.Keys
      && (!after.edges[e].deleted ==> !Touches(after.edges[e], r.source))
      && (g.edges[e].deleted || !Touches(g.edges[e], r.source) ==> after.edges[e] == g.edges[e])
    ensures var was, now := g.edges[e], Fold(g, id, r, at).graph.edges[e];
      !was.deleted && Touches(was, r.source) ==>
        var moved := Repointed(was, r.source, r.target);
        if now.deleted
        then
          && now == was.(deleted := true)
          && (moved.src == moved.dst || (Taken(g.edges, e, moved) && r.readable.Some? && e !in r.readable.value))
        else now == moved && moved.src != moved.dst && !Taken(g.edges, e, moved)
    ensures var src, dst := g.nodes[r.source], g.nodes[r.target];
      src.kind == dst.kind && src.labels.level <= dst.labels.level && src.labels.compartments <= dst.labels.compartments
  {
    hide Taken;
    CheckedApart(g, r);
  }

  /** A merge that passes the first checks is refused exactly when a tie the caller may read, or any tie
      when no labels are given, would duplicate one that stands. */
  lemma CollidesExactly(g: Graph, id: Id, r: Request, at: int)
    requires Precheck(g, r).None?
    ensures Fold(g, id, r, at) == Refused(Collision) <==>
      exists e :: e in g.edges && WouldDuplicate(g, r, e) && (r.readable.None? || e in r.readable.value)
  {
    hide Taken;
    if AnyCollides(g.edges, r) {
      var e :| e in Chosen(g.edges, r.source) && FateOf(g.edges, r, e).Collides?;
      assert WouldDuplicate(g, r, e);
    }
    if e :| e in g.edges && WouldDuplicate(g, r, e) && (r.readable.None? || e in r.readable.value) {
      CollidesHere(g.edges, r, e);
    }
  }

  predicate WouldDuplicate(g: Graph, r: Request, e: Id)
    requires e in g.edges
  {
    var moved := Repointed(g.edges[e], r.source, r.target);
    !g.edges[e].deleted && Touches(g.edges[e], r.source) && moved.src != moved.dst && Taken(g.edges, e, moved)
  }

  /** What a merge asks before it touches a tie: a reason, two different entities of the case, neither merged
      away nor deleted, of one kind, and a survivor no less restricted. */
  predicate MayMerge(g: Graph, r: Request) {
    && r.hasReason && r.source != r.target && r.source in g.nodes && r.target in g.nodes
    && (var src, dst := g.nodes[r.source], g.nodes[r.target];
        && src.mergedInto.None? && dst.mergedInto.None? && !src.deleted && !dst.deleted
        && src.kind == dst.kind && src.labels.level <= dst.labels.level && src.labels.compartments <= dst.labels.compartments)
  }

  /** A merge goes ahead exactly when it may and no tie the caller may read would duplicate another. */
  lemma MergeGoesAheadExactly(g: Graph, id: Id, r: Request, at: int)
    ensures Fold(g, id, r, at).Done? <==>
      MayMerge(g, r) && !exists e :: e in g.edges && WouldDuplicate(g, r, e) && (r.readable.None? || e in r.readable.value)
  {
    hide WouldDuplicate, AnyCollides, EdgesAfter, EntriesOf;
    ChecksAre(g, r);
    if Precheck(g, r).None? {
      CollidesExactly(g, id, r, at);
    }
  }

  lemma ChecksAre(g: Graph, r: Request)
    ensures Precheck(g, r).None? <==> MayMerge(g, r)
  {
  }

  /** And what it writes beside the ties: the source redirects to the target, and one live row of the ledger
      holds each tie that was live on the source, its ends as they were and whether the merge set it aside. */
  lemma MergeIsRecorded(g: Graph, id: Id, r: Request, at: int)
    requires Fold(g, id, r, at).Done?
    ensures var after := Fold(g, id, r, at).graph;
      && r.source in g.nodes && after.nodes == g.nodes[r.source := g.nodes[r.source].(mergedInto := Some(r.target))]
      && id in after.merges && after.merges - {id} == g.merges - {id}
      && (var m := after.merges[id];
          && m.source == r.source && m.target == r.target && m.at == at && m.live
          && (forall e :: e in m.moved <==> e in g.edges && !g.edges[e].deleted && (g.edges[e].src == r.source || g.edges[e].dst == r.source))
          && (forall e :: e in m.moved ==>
                && m.moved[e].src == g.edges[e].src && m.moved[e].dst == g.edges[e].dst
                && e in after.edges && (m.moved[e].setAside <==> after.edges[e].deleted)))
  {
    CheckedApart(g, r);
  }

  /** The ends and the state a reversal gives a tie. */
  predicate GivenBack(was: Edge, entry: Entry, now: Edge) {
    now.src == entry.src && now.dst == entry.dst && now.tie == was.tie && (now.deleted <==> was.deleted && !entry.setAside)
  }

  /** No recorded tie would stand, once given back, where a live tie stands or another would. */
  ghost predicate Clear(g: Graph, moved: map<Id, Entry>) {
    forall e, f :: e in moved && e in g.edges && f in g.edges && f != e ==> ClearOf(g, moved, e, f)
  }

  ghost predicate ClearOf(g: Graph, moved: map<Id, Entry>, e: Id, f: Id)
    requires e in moved && e in g.edges && f in g.edges
  {
    var back := Restored(g.edges[e], moved[e]);
    !back.deleted ==>
      && (!g.edges[f].deleted ==> !SameTie(g.edges[f], back))
      && (f in moved && !Restored(g.edges[f], moved[f]).deleted ==> !SameTie(Restored(g.edges[f], moved[f]), back))
  }

  lemma {:induction false} ClearRows(g: Graph, moved: map<Id, Entry>, rows: seq<Id>)
    requires Clear(g, moved) && forall k :: 0 <= k < |rows| ==> rows[k] in moved
    requires forall i, j :: 0 <= i < j < |rows| ==> rows[i] != rows[j]
    ensures var edges := RestoreRows(g.edges, moved, rows);
      && edges.Some? && edges.value.Keys == g.edges.Keys
      && forall e :: e in g.edges ==> edges.value[e] == if e in rows then Restored(g.edges[e], moved[e]) else g.edges[e]
  {
    hide Restored, SameTie;
    if rows != [] {
      var n := |rows| - 1;
      ClearRows(g, moved, rows[..n]);
      var before := RestoreRows(g.edges, moved, rows[..n]).value;
      var id := rows[n];
      if id in g.edges {
        assert id !in rows[..n];
        var back := Restored(before[id], moved[id]);
        forall f | f in before && f != id && !before[f].deleted ensures back.deleted || !SameTie(before[f], back) {
          assert ClearOf(g, moved, id, f);
        }
      }
      assert forall e :: e in rows <==> e in rows[..n] || e == id;
    }
  }

  /** Another live merge, stamped later, that recorded one of its ties. */
  predicate LaterRecorder(g: Graph, id: Id, other: Id)
    requires id in g.merges
  {
    && other in g.merges && other != id && g.merges[other].live && g.merges[id].at < g.merges[other].at
    && exists e :: e in g.merges[id].moved && e in g.merges[other].moved
  }

  /** A reversal with a reason, of a live merge, is blocked exactly by another live merge stamped later that
      recorded one of its ties; and where nothing is in the way it goes ahead, in whatever order the rows
      come, and gives every tie back: its ends as recorded, and live again if the merge had set it aside. */
  lemma ReversalGoesAhead(g: Graph, id: Id, rows: seq<Id>)
    requires id in g.merges && g.merges[id].live && RowsOf(g.merges[id], rows)
    ensures Unfold(g, id, true, rows) == Refused(Blocked) <==>
      exists other :: LaterRecorder(g, id, other)
    ensures Unfold(g, id, true, rows) != Refused(Blocked) && Clear(g, g.merges[id].moved) ==> Unfold(g, id, true, rows).Done?
    ensures !Unfold(g, id, false, rows).Done? && !Unfold(g.(merges := g.merges[id := g.merges[id].(live := false)]), id, true, rows).Done?
  {
    hide RestoreRows;
    BlockedMeans(g, id);
    if Clear(g, g.merges[id].moved) {
      ClearRows(g, g.merges[id].moved, rows);
    }
  }

  lemma BlockedMeans(g: Graph, id: Id)
    requires id in g.merges
    ensures (exists other :: other in g.merges && Blocks(g, id, other)) <==>
      exists other :: LaterRecorder(g, id, other)
  {
    if other :| other in g.merges && Blocks(g, id, other) {
      var shared := g.merges[id].moved.Keys * g.merges[other].moved.Keys;
      var e := Member(shared);
      assert e in g.merges[id].moved && e in g.merges[other].moved;
      assert LaterRecorder(g, id, other);
    }
    if other :| LaterRecorder(g, id, other) {
      var e :| e in g.merges[id].moved && e in g.merges[other].moved;
      assert e in g.merges[id].moved.Keys * g.merges[other].moved.Keys;
      assert Blocks(g, id, other);
    }
  }

  class MergeService {
    var graph: Graph

    constructor (graph: Graph)
      ensures this.graph == graph
    {
      this.graph := graph;
    }

    /** The transaction of a merge: every selected tie recorded and then moved or set aside, in
        whatever order the rows come; a refusal puts everything back. */
    method FoldNodes(id: Id, r: Request, at: int, rows: seq<Id>) returns (why: Option<Refusal>)
      requires UniqueActive(graph.edges)
      requires forall i, j :: 0 <= i < j < |rows| ==> rows[i] != rows[j]
      requires AsSet(rows) == Chosen(graph.edges, r.source)
      modifies this
      ensures match Fold(old(graph), id, r, at)
        case Done(g) => why.None? && graph == g
        case Refused(w) => why == Some(w) && graph == old(graph)
    {
      hide FateOf, Taken, UniqueActive, Precheck, Chosen, EdgesAfter, EntriesOf, AnyCollides;
      ghost var was := graph;
      if Precheck(graph, r).Some? {
        return Precheck(graph, r);
      }
      var edges := graph.edges;
      var moved: map<Id, Entry> := map[];
      ghost var done: set<Id> := {};
      NothingDone(was.edges, r);
      CheckedApart(was, r);
      var k := 0;
      while k < |rows|
        invariant 0 <= k <= |rows| && done == AsSet(rows[..k])
        invariant graph == was && done <= was.edges.Keys && done <= Chosen(was.edges, r.source)
        invariant edges == EdgesAfter(was.edges, r, done) && moved == EntriesOf(was.edges, r, done)
        invariant forall f :: f in done ==> !FateOf(was.edges, r, f).Collides?
      {
        var e := rows[k];
        InRows(rows, k);
        StillAsItWas(was.edges, r, done, e);
        TakenEitherWay(was.edges, r, done, e);
        OneMoreDone(was.edges, r, done, e);
        FateCases(was.edges, r, e);
        var now := Repointed(edges[e], r.source, r.target);
        var original := Entry(edges[e].src, edges[e].dst, false);
        if now.src == now.dst {
          moved := moved[e := original.(setAside := true)];
          edges := edges[e := edges[e].(deleted := true)];
        } else if !Taken(edges, e, now) {
          moved := moved[e := original];
          edges := edges[e := now];
        } else if r.readable.Some? && e !in r.readable.value {
          moved := moved[e := original.(setAside := true)];
          edges := edges[e := edges[e].(deleted := true)];
        } else {
          CollidesHere(was.edges, r, e);
          return Some(Collision);
        }
        AsSetNext(rows, k);
        done := done + {e};
        k := k + 1;
      }
      assert rows[..k] == rows;
      NoneCollides(was.edges, r);
      graph := Graph(graph.nodes[r.source := graph.nodes[r.source].(mergedInto := Some(r.target))],
                     edges, graph.merges[id := Merge(r.source, r.target, at, true, moved)]);
      return None;
    }

    /** The transaction of a reversal. */
    method UnfoldNodes(id: Id, hasReason: bool, rows: seq<Id>) returns (why: Option<Refusal>)
      requires id in graph.merges ==> forall k :: 0 <= k < |rows| ==> rows[k] in graph.merges[id].moved
      modifies this
      ensures match Unfold(old(graph), id, hasReason, rows)
        case Done(g) => why.None? && graph == g
        case Refused(w) => why == Some(w) && graph == old(graph)
    {
      hide Taken, Blocks;
      if !hasReason {
        return Some(NoReason);
      }
      if id !in graph.merges {
        return Some(NoSuchMerge);
      }
      if !graph.merges[id].live {
        return Some(AlreadyReversed);
      }
      if exists other :: other in graph.merges && Blocks(graph, id, other) {
        return Some(Blocked);
      }
      var m := graph.merges[id];
      var edges := graph.edges;
      assert rows[..0] == [];
      var k := 0;
      while k < |rows|
        invariant 0 <= k <= |rows| && graph == old(graph)
        invariant RestoreRows(graph.edges, m.moved, rows[..k]) == Some(edges)
      {
        assert rows[..k + 1][..k] == rows[..k];
        var e := rows[k];
        if e in edges {
          var back := Restored(edges[e], m.moved[e]);
          if !back.deleted && Taken(edges, e, back) {
            StaysRefused(graph.edges, m.moved, rows, k + 1);
            return Some(RestoreCollision);
          }
          edges := edges[e := back];
        }
        k := k + 1;
      }
      assert rows[..k] == rows;
      var nodes := graph.nodes;
      if m.source in nodes {
        nodes := nodes[m.source := nodes[m.source].(mergedInto := None)];
      }
      graph := Graph(nodes, edges, graph.merges[id := m.(live := false)]);
      return None;
    }
  }

  lemma FateCases(edges: map<Id, Edge>, r: Request, id: Id)
    requires id in edges
    ensures var e := Repointed(edges[id], r.source, r.target);
      FateOf(edges, r, id) ==
        if e.src == e.dst then SetAside else if !Taken(edges, id, e) then Moves
        else if r.readable.Some? && id !in r.readable.value then SetAside else Collides
  {
  }

  lemma {:induction false} StaysRefused(edges: map<Id, Edge>, moved: map<Id, Entry>, rows: seq<Id>, k: nat)
    requires forall i :: 0 <= i < |rows| ==> rows[i] in moved
    requires k <= |rows| && RestoreRows(edges, moved, rows[..k]).None?
    ensures RestoreRows(edges, moved, rows).None?
  {
    if k < |rows| {
      assert rows[..|rows| - 1][..k] == rows[..k];
      StaysRefused(edges, moved, rows[..|rows| - 1], k);
    } else {
      assert rows[..k] == rows;
    }
  }

  // Reversing at once.

  function Midway(was: map<Id, Edge>, now: map<Id, Edge>, back: set<Id>): map<Id, Edge>
    requires was.Keys == now.Keys
  {
    map id | id in now :: if id in back then was[id] else now[id]
  }

  lemma OneBack(g: Graph, r: Request, back: set<Id>, id: Id)
    requires UniqueActive(g.edges) && Precheck(g, r).None? && !AnyCollides(g.edges, r)
    requires id in Chosen(g.edges, r.source) && back <= Chosen(g.edges, r.source)
    ensures var chosen := Chosen(g.edges, r.source);
      var now := EdgesAfter(g.edges, r, chosen);
      RestoreOne(Midway(g.edges, now, back), id, EntriesOf(g.edges, r, chosen)[id]) == Some(Midway(g.edges, now, back + {id}))
  {
    var chosen := Chosen(g.edges, r.source);
    var now := EdgesAfter(g.edges, r, chosen);
    var mid := Midway(g.edges, now, back);
    var e := Restored(mid[id], EntriesOf(g.edges, r, chosen)[id]);
    assert e == g.edges[id];
    forall f | f in mid && f != id && !mid[f].deleted ensures !SameTie(mid[f], e) {
      if f in chosen && f !in back {
        assert mid[f] == Repointed(g.edges[f], r.source, r.target);
      }
    }
    assert mid[id := e] == Midway(g.edges, now, back + {id});
  }

  lemma {:induction false} RowsBack(g: Graph, r: Request, rows: seq<Id>)
    requires UniqueActive(g.edges) && Precheck(g, r).None? && !AnyCollides(g.edges, r)
    requires forall k :: 0 <= k < |rows| ==> rows[k] in Chosen(g.edges, r.source)
    ensures var chosen := Chosen(g.edges, r.source);
      var now := EdgesAfter(g.edges, r, chosen);
      RestoreRows(now, EntriesOf(g.edges, r, chosen), rows) == Some(Midway(g.edges, now, AsSet(rows)))
  {
    hide UniqueActive, FateOf, RestoreOne, AnyCollides;
    var chosen := Chosen(g.edges, r.source);
    var now := EdgesAfter(g.edges, r, chosen);
    if rows == [] {
      assert AsSet(rows) == {} && Midway(g.edges, now, {}) == now;
    } else {
      var n := |rows| - 1;
      RowsBack(g, r, rows[..n]);
      OneBack(g, r, AsSet(rows[..n]), rows[n]);
      AsSetNext(rows, n);
      assert rows[..n + 1] == rows;
    }
  }

  /** A merge reversed before anything else happens leaves every entity and every tie exactly as it
      was, in whatever order the rows are restored; only the ledger remembers it. */
  lemma ReversalUndoesMerge(g: Graph, id: Id, r: Request, at: int, rows: seq<Id>)
    requires UniqueActive(g.edges) && id !in g.merges && Fold(g, id, r, at).Done?
    requires forall m :: m in g.merges && g.merges[m].live ==> g.merges[m].at <= at
    requires RowsOf(Fold(g, id, r, at).graph.merges[id], rows)
    ensures var after := Unfold(Fold(g, id, r, at).graph, id, true, rows);
      && after.Done? && after.graph.nodes == g.nodes && after.graph.edges == g.edges
      && after.graph.merges == g.merges[id := Fold(g, id, r, at).graph.merges[id].(live := false)]
  {
    hide UniqueActive, FateOf, RestoreRows, AnyCollides;
    var chosen := Chosen(g.edges, r.source);
    var now := EdgesAfter(g.edges, r, chosen);
    RowsBack(g, r, rows);
    var g1 := Fold(g, id, r, at).graph;
    assert AsSet(rows) == chosen by {
      assert g1.merges[id].moved.Keys == chosen;
    }
    assert Midway(g.edges, now, chosen) == g.edges;
    forall other | other in g1.merges ensures !Blocks(g1, id, other) {
    }
    assert g.nodes[r.source := g.nodes[r.source].(mergedInto := None)] == g.nodes;
  }
}
