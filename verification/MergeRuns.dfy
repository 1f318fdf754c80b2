/** Merges, reversals and other writes in any order: where every tie stands at every moment.

    Beside the tables the state carries where each tie was recorded, which ties somebody retired,
    and for each tie the live merges that recorded it, oldest first. */
module MergeRuns {
  import opened Basics
  import opened Options
  import opened Merges

  type Ends = (Id, Id)

  datatype State = State(g: Graph, base: map<Id, Ends>, retired: set<Id>, stacks: map<Id, seq<Id>>)

  datatype Op =
    | DoMerge(id: Id, r: Request, at: int)
    | DoUnmerge(id: Id, hasReason: bool, rows: seq<Id>)
    | AddEdge(id: Id, src: Id, dst: Id, tie: int)
    | Retie(id: Id, tie: int)
    | RetireEdges(ids: set<Id>)
    | AddNode(id: Id, kind: Kind, labels: Labels)
    | RetireNode(id: Id)

  const EMPTY := State(Graph(map[], map[], map[]), map[], {}, map[])

  function EndsOf(e: Edge): Ends {
    (e.src, e.dst)
  }

  /** Where a merge leaves a tie it recorded. */
  function After(m: Merge, entry: Entry): Ends {
    if entry.setAside then (entry.src, entry.dst)
    else (Swap(entry.src, m.source, m.target), Swap(entry.dst, m.source, m.target))
  }

  function Without(edges: map<Id, Edge>, ids: set<Id>): map<Id, Edge> {
    map id | id in edges :: if id in ids then edges[id].(deleted := true) else edges[id]
  }

  function LiveIn(edges: map<Id, Edge>, ids: set<Id>): set<Id> {
    set id | id in ids && id in edges && !edges[id].deleted
  }

  function Pushed(stacks: map<Id, seq<Id>>, ids: set<Id>, m: Id): map<Id, seq<Id>> {
    map e | e in stacks :: if e in ids then stacks[e] + [m] else stacks[e]
  }

  function Minus(stack: seq<Id>, m: Id): seq<Id> {
    if stack == [] then []
    else
      var n := |stack| - 1;
      Minus(stack[..n], m) + if stack[n] == m then [] else [stack[n]]
  }

  function Popped(stacks: map<Id, seq<Id>>, m: Id): map<Id, seq<Id>> {
    map e | e in stacks :: Minus(stacks[e], m)
  }

  function RetiredIn(s: State, ids: set<Id>): State {
    var gone := LiveIn(s.g.edges, ids);
    s.(g := s.g.(edges := Without(s.g.edges, gone)), retired := s.retired + gone)
  }

  /** What may be asked: new rows have new ids, and a reversal's rows are the merge's. A merge may carry
      any time: it is read before the transaction that may wait behind another. */
  ghost predicate Asked(s: State, op: Op) {
    match op
    case DoMerge(id, r, at) => id !in s.g.merges
    case DoUnmerge(id, _, rows) => id in s.g.merges ==> RowsOf(s.g.merges[id], rows)
    case AddEdge(id, src, dst, _) => id !in s.g.edges && src != dst && src in s.g.nodes && dst in s.g.nodes
    case AddNode(id, _, _) => id !in s.g.nodes
    case _ => true
  }

  function Touching(edges: map<Id, Edge>, n: Id): set<Id> {
    set id | id in edges && Touches(edges[id], n)
  }

  /** One write; one that is refused changes nothing. */
  ghost function Step(s: State, op: Op): State
    requires Asked(s, op)
  {
    match op
    case DoMerge(id, r, at) =>
      var o := Fold(s.g, id, r, at);
      if o.Refused? then s else s.(g := o.graph, stacks := Pushed(s.stacks, Chosen(s.g.edges, r.source), id))
    case DoUnmerge(id, hasReason, rows) =>
      var o := Unfold(s.g, id, hasReason, rows);
      if o.Refused? then s else s.(g := o.graph, stacks := Popped(s.stacks, id))
    case AddEdge(id, src, dst, tie) =>
      var e := Edge(src, dst, tie, false);
      if Taken(s.g.edges, id, e) then s
      else s.(g := s.g.(edges := s.g.edges[id := e]), base := s.base[id := (src, dst)], stacks := s.stacks[id := []])
    case Retie(id, tie) =>
      if id !in s.g.edges || Taken(s.g.edges, id, s.g.edges[id].(tie := tie)) then s
      else s.(g := s.g.(edges := s.g.edges[id := s.g.edges[id].(tie := tie)]))
    case RetireEdges(ids) => RetiredIn(s, ids)
    case AddNode(id, kind, labels) => s.(g := s.g.(nodes := s.g.nodes[id := Node(kind, labels, false, None)]))
    case RetireNode(id) =>
      if id !in s.g.nodes || s.g.nodes[id].deleted then s
      else RetiredIn(s.(g := s.g.(nodes := s.g.nodes[id := s.g.nodes[id].(deleted := true)])), Touching(s.g.edges, id))
  }

  // What holds of one tie.

  predicate Recorded(g: Graph, e: Id, m: Id) {
    m in g.merges && g.merges[m].live && e in g.merges[m].moved
  }

  predicate StackRecorded(g: Graph, e: Id, stack: seq<Id>) {
    forall k :: 0 <= k < |stack| ==> Recorded(g, e, stack[k])
  }

  /** What two merges of a stack have to do with each other: they are two, and the later did not aim at
      an entity the earlier had merged away. */
  predicate Apart(g: Graph, below: Id, above: Id) {
    below in g.merges && above in g.merges && below != above && g.merges[above].target != g.merges[below].source
  }

  ghost predicate PairsApart(g: Graph, stack: seq<Id>) {
    forall i, j :: 0 <= i < j < |stack| ==> Apart(g, stack[i], stack[j])
  }

  /** A tie's stack holds the live merges that recorded it, each once. */
  ghost predicate Stacked(g: Graph, e: Id, stack: seq<Id>) {
    && StackRecorded(g, e, stack)
    && (forall m :: Recorded(g, e, m) ==> m in stack)
    && PairsApart(g, stack)
  }

  /** The end points a tie has below the k-th merge of its stack. */
  function Place(s: State, e: Id, k: nat): Ends
    requires e in s.base && e in s.stacks && k <= |s.stacks[e]|
    requires StackRecorded(s.g, e, s.stacks[e])
  {
    if k == 0 then s.base[e]
    else
      var m := s.g.merges[s.stacks[e][k - 1]];
      After(m, m.moved[e])
  }

  /** A merge of the stack recorded the tie where the one below left it, and only the topmost can have
      set it aside. */
  predicate Link(s: State, e: Id, k: int)
    requires e in s.base && e in s.stacks && 0 <= k < |s.stacks[e]| && StackRecorded(s.g, e, s.stacks[e])
  {
    var entry := s.g.merges[s.stacks[e][k]].moved[e];
    (entry.src, entry.dst) == Place(s, e, k) && (entry.setAside ==> k == |s.stacks[e]| - 1)
  }

  ghost predicate Chained(s: State, e: Id)
    requires e in s.base && e in s.stacks && StackRecorded(s.g, e, s.stacks[e])
  {
    forall k :: 0 <= k < |s.stacks[e]| ==> Link(s, e, k)
  }

  predicate OnTopAside(s: State, e: Id)
    requires e in s.stacks && StackRecorded(s.g, e, s.stacks[e])
  {
    s.stacks[e] != [] && s.g.merges[s.stacks[e][|s.stacks[e]| - 1]].moved[e].setAside
  }

  /** The tie stands where its topmost live merge left it, and is out of the graph only if that merge set
      it aside or somebody retired it. */
  ghost predicate InPlace(s: State, e: Id) {
    && e in s.g.edges && e in s.base && e in s.stacks && StackRecorded(s.g, e, s.stacks[e])
    && Chained(s, e)
    && EndsOf(s.g.edges[e]) == Place(s, e, |s.stacks[e]|)
    && (s.g.edges[e].deleted <==> e in s.retired || OnTopAside(s, e))
    && !(e in s.retired && OnTopAside(s, e))
  }

  ghost predicate AllInPlace(s: State) {
    forall e :: e in s.g.edges ==> InPlace(s, e)
  }

  // What holds of the ledger, in every run.

  ghost predicate StacksOk(s: State) {
    && s.base.Keys == s.g.edges.Keys && s.stacks.Keys == s.g.edges.Keys && s.retired <= s.g.edges.Keys
    && forall e :: e in s.g.edges ==> Stacked(s.g, e, s.stacks[e])
  }

  predicate EntryTouches(entry: Entry, source: Id) {
    entry.src == source || entry.dst == source
  }

  ghost predicate MergeOk(s: State, m: Id)
    requires m in s.g.merges
  {
    var merge := s.g.merges[m];
    && merge.moved.Keys <= s.g.edges.Keys && merge.source != merge.target
    && (forall e :: e in merge.moved ==> EntryTouches(merge.moved[e], merge.source))
    && (merge.live ==> merge.source in s.g.nodes && s.g.nodes[merge.source].mergedInto == Some(merge.target))
  }

  ghost predicate Redirects(s: State, n: Id)
    requires n in s.g.nodes
  {
    s.g.nodes[n].mergedInto.Some? ==> exists m :: m in s.g.merges && s.g.merges[m].live && s.g.merges[m].source == n
  }

  ghost predicate OneLivePerSource(g: Graph) {
    forall a, b :: a in g.merges && b in g.merges && g.merges[a].live && g.merges[b].live && a != b
      ==> g.merges[a].source != g.merges[b].source
  }

  ghost predicate LedgerOk(s: State) {
    && (forall m :: m in s.g.merges ==> MergeOk(s, m))
    && (forall n :: n in s.g.nodes ==> Redirects(s, n))
    && OneLivePerSource(s.g)
  }

  ghost predicate Inv(s: State) {
    StacksOk(s) && LedgerOk(s) && UniqueActive(s.g.edges)
  }

  // Stacks under the writes.

  lemma FoldTie(g: Graph, id: Id, r: Request, at: int, e: Id)
    requires Fold(g, id, r, at).Done? && e in g.edges
    ensures var after := Fold(g, id, r, at).graph;
      && e in after.edges && id in after.merges
      && after.merges == g.merges[id := after.merges[id]] && after.merges[id].live && after.merges[id].at == at
      && (e in after.merges[id].moved <==> e in Chosen(g.edges, r.source))
      && (if e in Chosen(g.edges, r.source) then
            var entry := after.merges[id].moved[e];
            && !g.edges[e].deleted && (entry.src, entry.dst) == EndsOf(g.edges[e])
            && EndsOf(after.edges[e]) == After(after.merges[id], entry)
            && after.edges[e].deleted == entry.setAside
          else after.edges[e] == g.edges[e])
  {
    hide FateOf, Precheck;
  }

  lemma FoldLedger(g: Graph, id: Id, r: Request, at: int)
    requires Fold(g, id, r, at).Done?
    ensures Fold(g, id, r, at).graph.edges.Keys == g.edges.Keys
    ensures r.source in g.nodes && r.target in g.nodes && r.source != r.target
    ensures g.nodes[r.source].mergedInto.None? && g.nodes[r.target].mergedInto.None?
    ensures Fold(g, id, r, at).graph.nodes == g.nodes[r.source := g.nodes[r.source].(mergedInto := Some(r.target))]
    ensures var after := Fold(g, id, r, at).graph.merges;
      && id in after && after == g.merges[id := after[id]]
      && after[id].live && after[id].source == r.source && after[id].target == r.target && after[id].at == at
      && after[id].moved.Keys == Chosen(g.edges, r.source)
      && (forall e :: e in after[id].moved ==> EntryTouches(after[id].moved[e], r.source))
  {
    hide FateOf, AnyCollides;
  }

  lemma RecordedMore(g: Graph, h: Graph, id: Id, e: Id)
    requires id in h.merges && h.merges[id].live && id !in g.merges && h.merges == g.merges[id := h.merges[id]]
    ensures forall m :: Recorded(h, e, m) <==> Recorded(g, e, m) || (m == id && e in h.merges[id].moved)
  {
  }

  lemma RecordedLess(g: Graph, h: Graph, id: Id, e: Id)
    requires id in g.merges && h.merges == g.merges[id := g.merges[id].(live := false)]
    ensures forall m :: Recorded(h, e, m) <==> Recorded(g, e, m) && m != id
  {
  }

  /** A merge aims at an entity that no live merge has merged away. */
  lemma NewIsApart(s: State, h: Graph, id: Id, target: Id, below: Id, e: Id)
    requires LedgerOk(s) && id !in s.g.merges && id in h.merges && h.merges == s.g.merges[id := h.merges[id]]
    requires h.merges[id].target == target && target in s.g.nodes && s.g.nodes[target].mergedInto.None?
    requires Recorded(s.g, e, below)
    ensures Apart(h, below, id)
  {
    assert MergeOk(s, below);
  }

  lemma PushedStack(s: State, h: Graph, id: Id, e: Id, stack: seq<Id>)
    requires LedgerOk(s) && Stacked(s.g, e, stack)
    requires id !in s.g.merges && id in h.merges && h.merges[id].live && h.merges == s.g.merges[id := h.merges[id]]
    requires h.merges[id].target in s.g.nodes && s.g.nodes[h.merges[id].target].mergedInto.None?
    ensures Stacked(h, e, if e in h.merges[id].moved then stack + [id] else stack)
    ensures id !in stack
  {
    hide LedgerOk;
    RecordedMore(s.g, h, id, e);
    assert forall k :: 0 <= k < |stack| ==> Recorded(s.g, e, stack[k]);
    forall k | 0 <= k < |stack| ensures Apart(h, stack[k], id) {
      NewIsApart(s, h, id, h.merges[id].target, stack[k], e);
    }
    forall i, j | 0 <= i < j < |stack| ensures Apart(h, stack[i], stack[j]) {
      assert Apart(s.g, stack[i], stack[j]);
    }
    if e in h.merges[id].moved {
      assert (stack + [id])[|stack|] == id;
      forall m | Recorded(h, e, m) ensures m in stack + [id] {
        if m != id {
          assert m in stack;
        }
      }
    }
  }

  lemma {:induction false} MinusMembers(stack: seq<Id>, m: Id)
    ensures forall x :: x in Minus(stack, m) <==> x in stack && x != m
    ensures m !in stack ==> Minus(stack, m) == stack
  {
    if stack != [] {
      var n := |stack| - 1;
      MinusMembers(stack[..n], m);
      assert stack == stack[..n] + [stack[n]];
    }
  }

  lemma {:induction false} MinusPairs(g: Graph, stack: seq<Id>, m: Id)
    requires PairsApart(g, stack)
    ensures PairsApart(g, Minus(stack, m))
  {
    hide Apart;
    if stack != [] {
      var n := |stack| - 1;
      assert PairsApart(g, stack[..n]) by {
        assert forall i :: 0 <= i < n ==> stack[..n][i] == stack[i];
      }
      MinusPairs(g, stack[..n], m);
      MinusMembers(stack[..n], m);
      forall i | 0 <= i < |Minus(stack[..n], m)| ensures Apart(g, Minus(stack[..n], m)[i], stack[n]) {
        var x := Minus(stack[..n], m)[i];
        assert x in stack[..n];
        var k :| 0 <= k < n && stack[..n][k] == x;
        assert Apart(g, stack[k], stack[n]);
      }
    }
  }

  lemma PoppedStack(g: Graph, h: Graph, id: Id, e: Id, stack: seq<Id>)
    requires Stacked(g, e, stack) && id in g.merges && h.merges == g.merges[id := g.merges[id].(live := false)]
    ensures Stacked(h, e, Minus(stack, id))
  {
    RecordedLess(g, h, id, e);
    MinusMembers(stack, id);
    MinusPairs(g, stack, id);
    var rest := Minus(stack, id);
    forall k | 0 <= k < |rest| ensures Recorded(h, e, rest[k]) {
      assert rest[k] in rest;
      assert rest[k] in stack;
      var i :| 0 <= i < |stack| && stack[i] == rest[k];
      assert Recorded(g, e, stack[i]);
    }
    forall i, j | 0 <= i < j < |rest| ensures Apart(h, rest[i], rest[j]) {
      assert Apart(g, rest[i], rest[j]);
    }
  }

  lemma {:induction false} RestoredRows(edges: map<Id, Edge>, moved: map<Id, Entry>, rows: seq<Id>)
    requires forall k :: 0 <= k < |rows| ==> rows[k] in moved
    requires forall i, j :: 0 <= i < j < |rows| ==> rows[i] != rows[j]
    requires RestoreRows(edges, moved, rows).Some?
    ensures var now := RestoreRows(edges, moved, rows).value;
      && now.Keys == edges.Keys
      && forall e :: e in edges ==> now[e] == if e in rows then Restored(edges[e], moved[e]) else edges[e]
    ensures UniqueActive(edges) ==> UniqueActive(RestoreRows(edges, moved, rows).value)
  {
    hide Taken, UniqueActive, SameTie;
    if rows != [] {
      var n := |rows| - 1;
      RestoredRows(edges, moved, rows[..n]);
      assert rows == rows[..n] + [rows[n]];
      var before := RestoreRows(edges, moved, rows[..n]).value;
      assert rows[n] !in rows[..n];
      if rows[n] in before {
        FreeKeepsUnique(before, rows[n], Restored(before[rows[n]], moved[rows[n]]));
      }
    }
  }

  lemma FreeKeepsUnique(edges: map<Id, Edge>, id: Id, e: Edge)
    requires !e.deleted ==> !Taken(edges, id, e)
    ensures UniqueActive(edges) ==> UniqueActive(edges[id := e])
  {
  }

  /** What an accepted reversal leaves. */
  lemma UnfoldDone(g: Graph, id: Id, hasReason: bool, rows: seq<Id>)
    requires id in g.merges ==> RowsOf(g.merges[id], rows)
    requires Unfold(g, id, hasReason, rows).Done?
    ensures id in g.merges && g.merges[id].live
    ensures forall other :: other in g.merges ==> !Blocks(g, id, other)
    ensures var after := Unfold(g, id, hasReason, rows).graph;
      && after.merges == g.merges[id := g.merges[id].(live := false)]
      && after.edges.Keys == g.edges.Keys
      && (forall e :: e in g.edges ==>
            after.edges[e] == if e in g.merges[id].moved then Restored(g.edges[e], g.merges[id].moved[e]) else g.edges[e])
      && (UniqueActive(g.edges) ==> UniqueActive(after.edges))
  {
    hide UniqueActive, RestoreRows, Blocks;
    RestoredRows(g.edges, g.merges[id].moved, rows);
  }

  lemma UnfoldNodes(g: Graph, id: Id, hasReason: bool, rows: seq<Id>)
    requires id in g.merges ==> forall k :: 0 <= k < |rows| ==> rows[k] in g.merges[id].moved
    requires Unfold(g, id, hasReason, rows).Done? && id in g.merges && g.merges[id].source in g.nodes
    ensures Unfold(g, id, hasReason, rows).graph.nodes ==
      g.nodes[g.merges[id].source := g.nodes[g.merges[id].source].(mergedInto := None)]
  {
    hide RestoreRows, Blocks;
  }

  /** What an accepted reversal gives back: every recorded tie its ends and, if the merge set it aside, its
      life; no other tie changes; the source stands for itself again; and the ledger row is closed. */
  lemma ReversalGivesBack(g: Graph, id: Id, hasReason: bool, rows: seq<Id>)
    requires id in g.merges ==> RowsOf(g.merges[id], rows)
    requires Unfold(g, id, hasReason, rows).Done?
    ensures hasReason && id in g.merges && g.merges[id].live
    ensures var m, after := g.merges[id], Unfold(g, id, hasReason, rows).graph;
      && after.edges.Keys == g.edges.Keys
      && (forall e :: e in g.edges ==> if e in m.moved then GivenBack(g.edges[e], m.moved[e], after.edges[e]) else after.edges[e] == g.edges[e])
      && after.merges == g.merges[id := m.(live := false)]
      && after.nodes == (if m.source in g.nodes then g.nodes[m.source := g.nodes[m.source].(mergedInto := None)] else g.nodes)
  {
    hide RestoreRows, Blocks, UniqueActive;
    UnfoldDone(g, id, hasReason, rows);
  }

  // Every step keeps the ledger and the stacks.

  lemma SameMerges(s: State, t: State)
    requires StacksOk(s) && t.g.merges == s.g.merges && t.stacks == s.stacks && t.base == s.base
    requires t.g.edges.Keys == s.g.edges.Keys && t.retired <= t.g.edges.Keys
    ensures StacksOk(t)
  {
    forall e | e in t.g.edges ensures Stacked(t.g, e, t.stacks[e]) {
      SameStack(s.g, t.g, e, s.stacks[e]);
    }
  }

  lemma SameStack(g: Graph, h: Graph, e: Id, stack: seq<Id>)
    requires Stacked(g, e, stack) && h.merges == g.merges
    ensures Stacked(h, e, stack)
  {
    assert forall m :: Recorded(h, e, m) <==> Recorded(g, e, m);
    assert forall a, b :: Apart(h, a, b) <==> Apart(g, a, b);
  }

  lemma AddedEdgeStack(s: State, id: Id, src: Id, dst: Id, tie: int)
    requires StacksOk(s) && LedgerOk(s) && Asked(s, AddEdge(id, src, dst, tie))
    ensures StacksOk(Step(s, AddEdge(id, src, dst, tie)))
  {
    hide Taken, Redirects, OneLivePerSource;
    var t := Step(s, AddEdge(id, src, dst, tie));
    forall e | e in t.g.edges ensures Stacked(t.g, e, t.stacks[e]) {
      if e in s.g.edges {
        SameStack(s.g, t.g, e, s.stacks[e]);
      } else {
        NothingRecorded(s, e);
        EmptyStack(t.g, e);
      }
    }
  }

  lemma NothingRecorded(s: State, e: Id)
    requires LedgerOk(s) && e !in s.g.edges
    ensures forall m :: !Recorded(s.g, e, m)
  {
    forall m ensures !Recorded(s.g, e, m) {
      if m in s.g.merges {
        assert MergeOk(s, m);
      }
    }
  }

  lemma EmptyStack(g: Graph, e: Id)
    requires forall m :: !Recorded(g, e, m)
    ensures Stacked(g, e, [])
  {
  }

  lemma MergeKeepsStacks(s: State, id: Id, r: Request, at: int)
    requires StacksOk(s) && LedgerOk(s) && Asked(s, DoMerge(id, r, at))
    ensures StacksOk(Step(s, DoMerge(id, r, at)))
  {
    hide Fold, Stacked, LedgerOk, Chosen;
    var t := Step(s, DoMerge(id, r, at));
    if Fold(s.g, id, r, at).Done? {
      FoldLedger(s.g, id, r, at);
      forall e | e in t.g.edges ensures Stacked(t.g, e, t.stacks[e]) {
        PushedStack(s, t.g, id, e, s.stacks[e]);
      }
    }
  }

  lemma UnmergeKeepsStacks(s: State, id: Id, hasReason: bool, rows: seq<Id>)
    requires StacksOk(s) && Asked(s, DoUnmerge(id, hasReason, rows))
    ensures StacksOk(Step(s, DoUnmerge(id, hasReason, rows)))
  {
    hide Unfold, Stacked, Blocks, UniqueActive;
    var t := Step(s, DoUnmerge(id, hasReason, rows));
    if Unfold(s.g, id, hasReason, rows).Done? {
      UnfoldDone(s.g, id, hasReason, rows);
      forall e | e in t.g.edges ensures Stacked(t.g, e, t.stacks[e]) {
        PoppedStack(s.g, t.g, id, e, s.stacks[e]);
      }
    }
  }

  lemma StepKeepsStacks(s: State, op: Op)
    requires StacksOk(s) && LedgerOk(s) && Asked(s, op)
    ensures StacksOk(Step(s, op))
  {
    hide Fold, Unfold, LedgerOk, Stacked, Taken;
    var t := Step(s, op);
    match op {
      case DoMerge(id, r, at) => MergeKeepsStacks(s, id, r, at);
      case DoUnmerge(id, hasReason, rows) => UnmergeKeepsStacks(s, id, hasReason, rows);
      case AddEdge(id, src, dst, tie) => AddedEdgeStack(s, id, src, dst, tie);
      case _ => SameMerges(s, t);
    }
  }

  lemma MergeKeepsLedger(s: State, id: Id, r: Request, at: int)
    requires LedgerOk(s) && Asked(s, DoMerge(id, r, at)) && Fold(s.g, id, r, at).Done?
    ensures LedgerOk(Step(s, DoMerge(id, r, at)))
  {
    hide Fold, EntryTouches;
    FoldLedger(s.g, id, r, at);
    var t := Step(s, DoMerge(id, r, at));
    forall m | m in t.g.merges ensures MergeOk(t, m) {
      if m in s.g.merges {
        assert MergeOk(s, m);
      }
    }
    forall n | n in t.g.nodes ensures Redirects(t, n) {
      if n == r.source {
        assert t.g.merges[id].source == n;
      } else {
        assert Redirects(s, n);
        if t.g.nodes[n].mergedInto.Some? {
          var m :| m in s.g.merges && s.g.merges[m].live && s.g.merges[m].source == n;
          assert t.g.merges[m].source == n;
        }
      }
    }
    forall a | a in s.g.merges && s.g.merges[a].live ensures s.g.merges[a].source != r.source {
      assert MergeOk(s, a);
    }
  }

  lemma UnmergeKeepsLedger(s: State, id: Id, hasReason: bool, rows: seq<Id>)
    requires LedgerOk(s) && Asked(s, DoUnmerge(id, hasReason, rows)) && Unfold(s.g, id, hasReason, rows).Done?
    ensures LedgerOk(Step(s, DoUnmerge(id, hasReason, rows)))
  {
    hide Unfold, Blocks, UniqueActive, EntryTouches, Restored, Popped;
    UnfoldDone(s.g, id, hasReason, rows);
    assert MergeOk(s, id);
    assert forall k :: 0 <= k < |rows| ==> rows[k] in s.g.merges[id].moved by { RowsAreMoved(s.g.merges[id], rows); }
    UnfoldNodes(s.g, id, hasReason, rows);
    var t := Step(s, DoUnmerge(id, hasReason, rows));
    forall m | m in t.g.merges ensures MergeOk(t, m) {
      assert MergeOk(s, m);
    }
    forall n | n in t.g.nodes ensures Redirects(t, n) {
      assert Redirects(s, n);
      if t.g.nodes[n].mergedInto.Some? {
        var m :| m in s.g.merges && s.g.merges[m].live && s.g.merges[m].source == n;
        assert t.g.merges[m].live && t.g.merges[m].source == n;
      }
    }
  }

  lemma RowsAreMoved(m: Merge, rows: seq<Id>)
    requires RowsOf(m, rows)
    ensures forall k :: 0 <= k < |rows| ==> rows[k] in m.moved
  {
  }

  lemma SameLedger(s: State, t: State)
    requires LedgerOk(s) && t.g.merges == s.g.merges && s.g.edges.Keys <= t.g.edges.Keys
    requires forall n :: n in s.g.nodes ==> n in t.g.nodes && t.g.nodes[n].mergedInto == s.g.nodes[n].mergedInto
    requires forall n :: n in t.g.nodes && n !in s.g.nodes ==> t.g.nodes[n].mergedInto.None?
    ensures LedgerOk(t)
  {
    hide EntryTouches;
    forall m | m in t.g.merges ensures MergeOk(t, m) {
      assert MergeOk(s, m);
    }
    forall n | n in t.g.nodes ensures Redirects(t, n) {
      if n in s.g.nodes {
        assert Redirects(s, n);
      }
    }
  }

  lemma StepKeepsLedger(s: State, op: Op)
    requires LedgerOk(s) && Asked(s, op)
    ensures LedgerOk(Step(s, op))
  {
    hide LedgerOk, Fold, Unfold, Taken;
    var t := Step(s, op);
    match op {
      case DoMerge(id, r, at) =>
        if Fold(s.g, id, r, at).Done? {
          MergeKeepsLedger(s, id, r, at);
        }
      case DoUnmerge(id, hasReason, rows) =>
        if Unfold(s.g, id, hasReason, rows).Done? {
          UnmergeKeepsLedger(s, id, hasReason, rows);
        }
      case _ => SameLedger(s, t);
    }
  }

  lemma WithoutKeepsUnique(edges: map<Id, Edge>, ids: set<Id>)
    requires UniqueActive(edges)
    ensures UniqueActive(Without(edges, ids))
  {
  }

  lemma FreeOrTaken(edges: map<Id, Edge>, id: Id, e: Edge)
    ensures UniqueActive(edges) && !Taken(edges, id, e) ==> UniqueActive(edges[id := e])
  {
    hide Taken, UniqueActive;
    if !Taken(edges, id, e) {
      FreeKeepsUnique(edges, id, e);
    }
  }

  lemma StepKeepsUnique(s: State, op: Op)
    requires UniqueActive(s.g.edges) && Asked(s, op)
    ensures UniqueActive(Step(s, op).g.edges)
  {
    hide UniqueActive, Fold, Unfold, Taken, Blocks, Restored;
    match op {
      case DoMerge(id, r, at) =>
        if Fold(s.g, id, r, at).Done? {
          FoldKeepsUnique(s.g, id, r, at);
        }
      case DoUnmerge(id, hasReason, rows) =>
        if Unfold(s.g, id, hasReason, rows).Done? {
          UnfoldDone(s.g, id, hasReason, rows);
        }
      case AddEdge(id, src, dst, tie) => FreeOrTaken(s.g.edges, id, Edge(src, dst, tie, false));
      case Retie(id, tie) =>
        if id in s.g.edges {
          FreeOrTaken(s.g.edges, id, s.g.edges[id].(tie := tie));
        }
      case RetireEdges(ids) => WithoutKeepsUnique(s.g.edges, LiveIn(s.g.edges, ids));
      case RetireNode(id) => WithoutKeepsUnique(s.g.edges, LiveIn(s.g.edges, Touching(s.g.edges, id)));
      case AddNode(_, _, _) =>
    }
  }

  // Every step but an overtaken reversal keeps the ties in place.

  ghost predicate OneMore(s: State, t: State, id: Id) {
    && id !in s.g.merges && id in t.g.merges && t.g.merges[id].live
    && t.g.merges == s.g.merges[id := t.g.merges[id]]
    && t.base == s.base && t.retired == s.retired
  }

  lemma OlderLink(s: State, t: State, id: Id, e: Id, k: nat)
    requires OneMore(s, t, id) && InPlace(s, e) && e in t.stacks && StackRecorded(t.g, e, t.stacks[e])
    requires k < |s.stacks[e]| && s.stacks[e] <= t.stacks[e] && id !in s.stacks[e]
    requires |t.stacks[e]| == |s.stacks[e]| || !OnTopAside(s, e)
    ensures Link(t, e, k)
  {
    hide After;
    assert Link(s, e, k);
    assert s.stacks[e][k] != id;
    if k > 0 {
      assert s.stacks[e][k - 1] != id;
    }
  }

  /** A tie the new merge did not select. */
  lemma KeptInPlace(s: State, t: State, id: Id, e: Id)
    requires OneMore(s, t, id) && InPlace(s, e) && id !in s.stacks[e]
    requires e in t.stacks && t.stacks[e] == s.stacks[e] && StackRecorded(t.g, e, t.stacks[e])
    requires e in t.g.edges && t.g.edges[e] == s.g.edges[e]
    ensures InPlace(t, e)
  {
    hide After;
    forall k | 0 <= k < |t.stacks[e]| ensures Link(t, e, k) {
      OlderLink(s, t, id, e, k);
    }
    if s.stacks[e] != [] {
      assert s.stacks[e][|s.stacks[e]| - 1] in s.stacks[e];
    }
  }

  /** A tie it recorded: where it stood is the new entry, and where it went is the new place. */
  lemma PushedInPlace(s: State, t: State, id: Id, e: Id)
    requires OneMore(s, t, id) && InPlace(s, e) && id !in s.stacks[e] && e in t.g.merges[id].moved
    requires e in t.stacks && t.stacks[e] == s.stacks[e] + [id] && StackRecorded(t.g, e, t.stacks[e])
    requires e in t.g.edges && !s.g.edges[e].deleted
    requires var entry := t.g.merges[id].moved[e];
      && (entry.src, entry.dst) == EndsOf(s.g.edges[e])
      && EndsOf(t.g.edges[e]) == After(t.g.merges[id], entry)
      && t.g.edges[e].deleted == entry.setAside
    ensures InPlace(t, e)
  {
    hide After;
    var n := |s.stacks[e]|;
    forall k | 0 <= k < n ensures Link(t, e, k) {
      OlderLink(s, t, id, e, k);
    }
    assert t.stacks[e][n] == id;
    if n > 0 {
      assert s.stacks[e][n - 1] in s.stacks[e];
    }
    assert Link(t, e, n);
  }

  lemma MergePushes(s: State, id: Id, r: Request, at: int, e: Id)
    requires StacksOk(s) && LedgerOk(s) && Asked(s, DoMerge(id, r, at)) && Fold(s.g, id, r, at).Done? && InPlace(s, e)
    ensures InPlace(Step(s, DoMerge(id, r, at)), e)
  {
    hide Fold, Chosen, LedgerOk, UniqueActive, PairsApart, InPlace, After;
    Standing(s, e);
    FoldTie(s.g, id, r, at, e);
    FoldLedger(s.g, id, r, at);
    var t := Step(s, DoMerge(id, r, at));
    PushedStack(s, t.g, id, e, s.stacks[e]);
    if e in Chosen(s.g.edges, r.source) {
      PushedInPlace(s, t, id, e);
    } else {
      KeptInPlace(s, t, id, e);
    }
  }

  lemma RestoredTo(e: Edge, entry: Entry)
    ensures EndsOf(Restored(e, entry)) == (entry.src, entry.dst)
    ensures Restored(e, entry).deleted == (e.deleted && !entry.setAside)
  {
  }

  /** The merge is the topmost on each tie it recorded. */
  ghost predicate OnTop(s: State, id: Id) {
    forall e :: e in s.stacks && Recorded(s.g, e, id) ==> Tops(s.stacks[e], id)
  }

  predicate Tops(stack: seq<Id>, id: Id) {
    stack != [] && stack[|stack| - 1] == id
  }

  lemma TopOff(g: Graph, stack: seq<Id>, id: Id)
    requires PairsApart(g, stack) && Tops(stack, id)
    ensures Minus(stack, id) == stack[..|stack| - 1]
  {
    var n := |stack| - 1;
    MinusMembers(stack[..n], id);
    forall i | 0 <= i < n ensures stack[..n][i] != id {
      assert Apart(g, stack[i], stack[n]);
    }
  }

  ghost predicate OneFewer(s: State, t: State, id: Id) {
    && id in s.g.merges && s.g.merges[id].live
    && t.g.merges == s.g.merges[id := s.g.merges[id].(live := false)]
    && t.base == s.base && t.retired == s.retired
  }

  /** A tie the reversed merge did not record. */
  lemma UnshownOk(s: State, t: State, id: Id, e: Id)
    requires OneFewer(s, t, id) && InPlace(s, e) && e !in s.g.merges[id].moved
    requires e in t.g.edges && t.g.edges[e] == s.g.edges[e] && e in t.stacks && t.stacks[e] == s.stacks[e]
    ensures InPlace(t, e)
  {
    hide Restored;
    RecordedLess(s.g, t.g, id, e);
    var stack := s.stacks[e];
    forall k | 0 <= k < |stack| ensures Recorded(t.g, e, stack[k]) {
      assert Recorded(s.g, e, stack[k]);
    }
    forall k | 0 <= k < |stack| ensures Link(t, e, k) {
      assert Link(s, e, k);
    }
  }

  /** A tie it did record and was on top of: the merge below is where the tie goes back to. */
  lemma PoppedOk(s: State, t: State, id: Id, e: Id)
    requires OneFewer(s, t, id) && InPlace(s, e) && Recorded(s.g, e, id) && Tops(s.stacks[e], id)
    requires e in t.g.edges && t.g.edges[e] == Restored(s.g.edges[e], s.g.merges[id].moved[e])
    requires e in t.stacks && t.stacks[e] == s.stacks[e][..|s.stacks[e]| - 1] && StackRecorded(t.g, e, t.stacks[e])
    ensures InPlace(t, e)
  {
    hide Restored;
    var n := |s.stacks[e]| - 1;
    assert forall k :: 0 <= k < n ==> t.stacks[e][k] == s.stacks[e][k] && t.stacks[e][k] != id by {
      NotItself(t.g, e, t.stacks[e], id);
    }
    forall k | 0 <= k < n ensures Link(t, e, k) {
      assert Link(s, e, k);
    }
    assert Link(s, e, n);
    RestoredTo(s.g.edges[e], s.g.merges[id].moved[e]);
    if n > 0 {
      assert Link(s, e, n - 1);
    }
  }

  lemma NotItself(g: Graph, e: Id, stack: seq<Id>, id: Id)
    requires StackRecorded(g, e, stack) && id in g.merges && !g.merges[id].live
    ensures forall k :: 0 <= k < |stack| ==> stack[k] != id
  {
    forall k | 0 <= k < |stack| ensures stack[k] != id {
      assert Recorded(g, e, stack[k]);
    }
  }

  lemma UnmergePops(s: State, id: Id, hasReason: bool, rows: seq<Id>, e: Id)
    requires StacksOk(s) && Asked(s, DoUnmerge(id, hasReason, rows)) && Unfold(s.g, id, hasReason, rows).Done?
    requires InPlace(s, e) && (Recorded(s.g, e, id) ==> Tops(s.stacks[e], id))
    ensures InPlace(Step(s, DoUnmerge(id, hasReason, rows)), e)
  {
    hide UniqueActive, Unfold, Blocks, Restored, InPlace, StackRecorded, Minus;
    UnfoldDone(s.g, id, hasReason, rows);
    var t := Step(s, DoUnmerge(id, hasReason, rows));
    assert e in s.g.edges by { Standing(s, e); }
    PoppedStack(s.g, t.g, id, e, s.stacks[e]);
    if e in s.g.merges[id].moved {
      TopOff(s.g, s.stacks[e], id);
      PoppedOk(s, t, id, e);
    } else {
      assert id !in s.stacks[e] by { NotStacked(s.g, e, s.stacks[e], id); }
      MinusMembers(s.stacks[e], id);
      UnshownOk(s, t, id, e);
    }
  }

  lemma Standing(s: State, e: Id)
    requires InPlace(s, e)
    ensures e in s.g.edges && e in s.base && e in s.stacks
  {
  }

  lemma NotStacked(g: Graph, e: Id, stack: seq<Id>, id: Id)
    requires StackRecorded(g, e, stack) && !Recorded(g, e, id)
    ensures id !in stack
  {
  }

  /** The same ledger and the same place for a tie; it may have been retired. */
  lemma LeftAlone(s: State, t: State, e: Id)
    requires InPlace(s, e) && e in t.g.edges
    requires t.g.merges == s.g.merges && e in t.base && e in t.stacks
    requires t.base[e] == s.base[e] && t.stacks[e] == s.stacks[e] && EndsOf(t.g.edges[e]) == EndsOf(s.g.edges[e])
    requires (t.g.edges[e].deleted == s.g.edges[e].deleted && (e in t.retired <==> e in s.retired))
          || (!s.g.edges[e].deleted && t.g.edges[e].deleted && e in t.retired)
    ensures InPlace(t, e)
  {
    forall m ensures Recorded(t.g, e, m) <==> Recorded(s.g, e, m) {
    }
    forall k | 0 <= k < |s.stacks[e]| ensures Link(t, e, k) {
      assert Link(s, e, k);
    }
  }

  lemma AddedInPlace(s: State, id: Id, src: Id, dst: Id, tie: int)
    requires StacksOk(s) && Asked(s, AddEdge(id, src, dst, tie)) && !Taken(s.g.edges, id, Edge(src, dst, tie, false))
    ensures InPlace(Step(s, AddEdge(id, src, dst, tie)), id)
  {
  }

  lemma RetiringKeepsPlaces(s: State, ids: set<Id>)
    requires StacksOk(s) && AllInPlace(s)
    ensures AllInPlace(RetiredIn(s, ids))
  {
    hide InPlace, Stacked;
    var t := RetiredIn(s, ids);
    forall e | e in t.g.edges ensures InPlace(t, e) {
      LeftAlone(s, t, e);
    }
  }

  /** The reversal, if this is an accepted one, is of a merge on top of all its ties. */
  ghost predicate InOrder(s: State, op: Op)
    requires Asked(s, op)
  {
    op.DoUnmerge? && Unfold(s.g, op.id, op.hasReason, op.rows).Done? ==> OnTop(s, op.id)
  }

  lemma StepKeepsPlaces(s: State, op: Op)
    requires StacksOk(s) && LedgerOk(s) && AllInPlace(s) && Asked(s, op) && InOrder(s, op)
    ensures AllInPlace(Step(s, op))
  {
    hide InPlace, Fold, Unfold, LedgerOk, Taken, Stacked, Tops;
    var t := Step(s, op);
    match op {
      case DoMerge(id, r, at) =>
        if Fold(s.g, id, r, at).Done? {
          FoldLedger(s.g, id, r, at);
          forall e | e in t.g.edges ensures InPlace(t, e) {
            MergePushes(s, id, r, at, e);
          }
        }
      case DoUnmerge(id, hasReason, rows) =>
        if Unfold(s.g, id, hasReason, rows).Done? {
          UnfoldDone(s.g, id, hasReason, rows);
          forall e | e in t.g.edges ensures InPlace(t, e) {
            UnmergePops(s, id, hasReason, rows, e);
          }
        }
      case RetireEdges(ids) => RetiringKeepsPlaces(s, ids);
      case RetireNode(id) =>
        if id in s.g.nodes && !s.g.nodes[id].deleted {
          var mid := s.(g := s.g.(nodes := s.g.nodes[id := s.g.nodes[id].(deleted := true)]));
          forall e | e in mid.g.edges ensures InPlace(mid, e) {
            LeftAlone(s, mid, e);
          }
          SameMerges(s, mid);
          RetiringKeepsPlaces(mid, Touching(s.g.edges, id));
        }
      case AddEdge(id, src, dst, tie) =>
        forall e | e in t.g.edges ensures InPlace(t, e) {
          if e in s.g.edges {
            LeftAlone(s, t, e);
          } else {
            AddedInPlace(s, id, src, dst, tie);
          }
        }
      case Retie(id, tie) =>
        forall e | e in t.g.edges ensures InPlace(t, e) {
          LeftAlone(s, t, e);
        }
      case AddNode(id, kind, labels) =>
        forall e | e in t.g.edges ensures InPlace(t, e) {
          LeftAlone(s, t, e);
        }
    }
  }

  // An overtaken reversal misplaces a tie.

  predicate Meets(ends: Ends, n: Id) {
    ends.0 == n || ends.1 == n
  }

  /** Once a merge has moved a tie off its source, no merge above brings it back there. */
  lemma {:induction false} NeverBack(s: State, e: Id, k: nat, j: nat)
    requires LedgerOk(s) && InPlace(s, e) && PairsApart(s.g, s.stacks[e])
    requires k < j <= |s.stacks[e]| && k < |s.stacks[e]| - 1
    ensures !Meets(Place(s, e, j), s.g.merges[s.stacks[e][k]].source)
    decreases j
  {
    hide LedgerOk, EntryTouches, UniqueActive;
    var stack := s.stacks[e];
    assert Link(s, e, j - 1);
    assert MergeOk(s, stack[k]) by { OkOf(s, stack[k]); }
    if j > k + 1 {
      NeverBack(s, e, k, j - 1);
      assert Apart(s.g, stack[k], stack[j - 1]);
    }
  }

  lemma OkOf(s: State, m: Id)
    requires LedgerOk(s) && m in s.g.merges
    ensures MergeOk(s, m)
  {
  }

  lemma EntryMeets(s: State, m: Id, e: Id)
    requires LedgerOk(s) && Recorded(s.g, e, m)
    ensures var entry := s.g.merges[m].moved[e]; Meets((entry.src, entry.dst), s.g.merges[m].source)
  {
    OkOf(s, m);
    assert EntryTouches(s.g.merges[m].moved[e], s.g.merges[m].source);
  }

  /** Position of a merge in a stack. */
  lemma StandsAt(g: Graph, e: Id, stack: seq<Id>, m: Id) returns (k: nat)
    requires Stacked(g, e, stack) && Recorded(g, e, m)
    ensures k < |stack| && stack[k] == m
  {
    k :| 0 <= k < |stack| && stack[k] == m;
  }

  /** A tie put back below its topmost merge is not where that merge left it. */
  lemma PutBackBelow(s: State, t: State, id: Id, e: Id)
    requires StacksOk(s) && LedgerOk(s) && InPlace(s, e) && OneFewer(s, t, id)
    requires Recorded(s.g, e, id) && !Tops(s.stacks[e], id)
    requires e in t.stacks && t.stacks[e] == Minus(s.stacks[e], id)
    requires e in t.g.edges && EndsOf(t.g.edges[e]) == (s.g.merges[id].moved[e].src, s.g.merges[id].moved[e].dst)
    ensures !InPlace(t, e)
  {
    hide LedgerOk, Chained, After, Apart;
    var stack := s.stacks[e];
    assert Stacked(s.g, e, stack);
    var k := StandsAt(s.g, e, stack, id);
    var n := |stack| - 1;
    NeverBack(s, e, k, n + 1);
    EntryMeets(s, id, e);
    LastStays(stack, id);
    assert EndsOf(t.g.edges[e]) != After(s.g.merges[stack[n]], s.g.merges[stack[n]].moved[e]);
  }

  lemma OvertakenMisplaces(s: State, id: Id, hasReason: bool, rows: seq<Id>, e: Id)
    requires StacksOk(s) && LedgerOk(s) && AllInPlace(s)
    requires Asked(s, DoUnmerge(id, hasReason, rows)) && Unfold(s.g, id, hasReason, rows).Done?
    requires e in s.stacks && Recorded(s.g, e, id) && !Tops(s.stacks[e], id)
    ensures !InPlace(Step(s, DoUnmerge(id, hasReason, rows)), e)
  {
    hide UniqueActive, Unfold, Blocks, Restored, LedgerOk, InPlace, Stacked, Tops, Minus, RowsOf;
    UnfoldDone(s.g, id, hasReason, rows);
    assert InPlace(s, e);
    RestoredTo(s.g.edges[e], s.g.merges[id].moved[e]);
    PutBackBelow(s, Step(s, DoUnmerge(id, hasReason, rows)), id, e);
  }

  lemma LastStays(stack: seq<Id>, id: Id)
    requires stack != [] && stack[|stack| - 1] != id
    ensures Minus(stack, id) != [] && Minus(stack, id)[|Minus(stack, id)| - 1] == stack[|stack| - 1]
  {
  }

  /** A live merge that recorded a tie of this one after it did, stamped no later. */
  ghost predicate Overtaken(s: State, id: Id) {
    exists e, k: nat, j: nat :: e in s.stacks && k < j < |s.stacks[e]| && OvertakenAt(s, id, e, k, j)
  }

  predicate OvertakenAt(s: State, id: Id, e: Id, k: nat, j: nat)
    requires e in s.stacks && k < j < |s.stacks[e]|
  {
    && s.stacks[e][k] == id && id in s.g.merges && s.stacks[e][j] in s.g.merges
    && s.g.merges[s.stacks[e][j]].at <= s.g.merges[id].at
  }

  lemma SharedBlocks(g: Graph, id: Id, other: Id, e: Id)
    requires Recorded(g, e, id) && Recorded(g, e, other) && g.merges[id].at < g.merges[other].at
    ensures Blocks(g, id, other)
  {
    assert e in g.merges[id].moved.Keys * g.merges[other].moved.Keys;
  }

  lemma BelowIsNotTop(g: Graph, stack: seq<Id>, k: nat, j: nat)
    requires PairsApart(g, stack) && k < j < |stack|
    ensures !Tops(stack, stack[k])
  {
    assert Apart(g, stack[k], stack[|stack| - 1]);
  }

  /** Where no guard speaks up, a merge is off the top of some tie exactly when it was overtaken. */
  lemma OvertakenExactly(s: State, id: Id)
    requires StacksOk(s) && id in s.g.merges && s.g.merges[id].live
    requires forall other :: other in s.g.merges ==> !Blocks(s.g, id, other)
    ensures OnTop(s, id) <==> !Overtaken(s, id)
  {
    hide Blocks;
    if Overtaken(s, id) {
      var e, k: nat, j: nat :| e in s.stacks && k < j < |s.stacks[e]| && OvertakenAt(s, id, e, k, j);
      assert Recorded(s.g, e, s.stacks[e][k]);
      BelowIsNotTop(s.g, s.stacks[e], k, j);
    }
    if e :| e in s.stacks && Recorded(s.g, e, id) && !Tops(s.stacks[e], id) {
      var stack := s.stacks[e];
      var k := StandsAt(s.g, e, stack, id);
      var j := |stack| - 1;
      assert Recorded(s.g, e, stack[j]);
      if s.g.merges[id].at < s.g.merges[stack[j]].at {
        SharedBlocks(s.g, id, stack[j], e);
      }
      assert OvertakenAt(s, id, e, k, j);
    }
  }

  /** An accepted reversal leaves every tie where its topmost live merge left it if and only if no live
      merge that recorded one of its ties after it is stamped at or before it. */
  lemma ReversalInPlaceExactly(s: State, id: Id, hasReason: bool, rows: seq<Id>)
    requires Inv(s) && AllInPlace(s)
    requires Asked(s, DoUnmerge(id, hasReason, rows)) && Unfold(s.g, id, hasReason, rows).Done?
    ensures AllInPlace(Step(s, DoUnmerge(id, hasReason, rows))) <==> !Overtaken(s, id)
  {
    hide InPlace, Unfold, LedgerOk, Stacked, Overtaken, Tops, Blocks, UniqueActive;
    UnfoldDone(s.g, id, hasReason, rows);
    OvertakenExactly(s, id);
    if OnTop(s, id) {
      StepKeepsPlaces(s, DoUnmerge(id, hasReason, rows));
    } else {
      var e :| e in s.stacks && Recorded(s.g, e, id) && !Tops(s.stacks[e], id);
      OvertakenMisplaces(s, id, hasReason, rows, e);
    }
  }

  // Whole runs.

  ghost predicate Run(states: seq<State>, ops: seq<Op>) {
    && |states| == |ops| + 1 && states[0] == EMPTY
    && forall i :: 0 <= i < |ops| ==> Asked(states[i], ops[i]) && states[i + 1] == Step(states[i], ops[i])
  }

  lemma {:induction false} RunKeeps(states: seq<State>, ops: seq<Op>, k: nat)
    requires Run(states, ops) && k <= |ops|
    ensures Inv(states[k])
  {
    hide StacksOk, LedgerOk, UniqueActive, Step, Asked;
    if k == 0 {
      EmptyOk();
    } else {
      RunKeeps(states, ops, k - 1);
      StepKeepsStacks(states[k - 1], ops[k - 1]);
      StepKeepsLedger(states[k - 1], ops[k - 1]);
      StepKeepsUnique(states[k - 1], ops[k - 1]);
    }
  }

  lemma EmptyOk()
    ensures Inv(EMPTY) && AllInPlace(EMPTY)
  {
  }

  /** No reversal accepted in the run was of an overtaken merge. */
  ghost predicate Orderly(states: seq<State>, ops: seq<Op>)
    requires |states| == |ops| + 1
  {
    forall i :: 0 <= i < |ops| ==> StepOrderly(states[i], ops[i])
  }

  ghost predicate StepOrderly(s: State, op: Op) {
    Asked(s, op) && op.DoUnmerge? && Unfold(s.g, op.id, op.hasReason, op.rows).Done? ==> !Overtaken(s, op.id)
  }

  lemma OrderlyStep(s: State, op: Op)
    requires Inv(s) && AllInPlace(s) && Asked(s, op)
    ensures AllInPlace(Step(s, op)) <==> StepOrderly(s, op)
  {
    hide InPlace, Unfold, LedgerOk, StacksOk, Overtaken, Step, UniqueActive;
    if op.DoUnmerge? && Unfold(s.g, op.id, op.hasReason, op.rows).Done? {
      ReversalInPlaceExactly(s, op.id, op.hasReason, op.rows);
    } else {
      StepKeepsPlaces(s, op);
    }
  }

  /** Through a whole run every tie stands where its topmost live merge left it, at every moment, if and
      only if no overtaken merge was reversed. */
  lemma RunInPlaceExactly(states: seq<State>, ops: seq<Op>)
    requires Run(states, ops)
    ensures (forall k :: 0 <= k < |states| ==> AllInPlace(states[k])) <==> Orderly(states, ops)
  {
    hide AllInPlace, StepOrderly, Step, Asked, Inv;
    if Orderly(states, ops) {
      forall k | 0 <= k < |states| ensures AllInPlace(states[k]) {
        OrderlyUpTo(states, ops, k);
      }
    }
    if forall k :: 0 <= k < |states| ==> AllInPlace(states[k]) {
      forall i | 0 <= i < |ops| ensures StepOrderly(states[i], ops[i]) {
        RunKeeps(states, ops, i);
        OrderlyStep(states[i], ops[i]);
        assert AllInPlace(states[i + 1]);
      }
    }
  }

  lemma {:induction false} OrderlyUpTo(states: seq<State>, ops: seq<Op>, k: nat)
    requires Run(states, ops) && Orderly(states, ops) && k <= |ops|
    ensures AllInPlace(states[k])
  {
    hide AllInPlace, StepOrderly, Step, Asked, Inv;
    if k == 0 {
      EmptyOk();
    } else {
      OrderlyUpTo(states, ops, k - 1);
      RunKeeps(states, ops, k - 1);
      OrderlyStep(states[k - 1], ops[k - 1]);
    }
  }

  /** After any orderly run, a tie no live merge holds stands exactly where it was recorded, and is out
      of the graph only if somebody retired it: merges and reversals leave nothing behind. */
  lemma UnheldTieIsAtItsBase(states: seq<State>, ops: seq<Op>, e: Id)
    requires Run(states, ops) && Orderly(states, ops) && e in states[|ops|].g.edges
    requires forall m :: !Recorded(states[|ops|].g, e, m)
    ensures var s := states[|ops|];
      && e in s.base && EndsOf(s.g.edges[e]) == s.base[e]
      && (s.g.edges[e].deleted <==> e in s.retired)
  {
    hide Step, Asked, Orderly, Chained;
    var s := states[|ops|];
    OrderlyUpTo(states, ops, |ops|);
    assert InPlace(s, e);
    if s.stacks[e] != [] {
      SomeRecorded(s.g, e, s.stacks[e]);
    }
  }

  lemma SomeRecorded(g: Graph, e: Id, stack: seq<Id>)
    requires StackRecorded(g, e, stack) && stack != []
    ensures exists m :: Recorded(g, e, m)
  {
    assert Recorded(g, e, stack[0]);
  }

  /** And after any run at all a node redirects exactly while a live merge made it: to that merge's
      target. */
  lemma RedirectsExactly(states: seq<State>, ops: seq<Op>, n: Id)
    requires Run(states, ops) && n in states[|ops|].g.nodes
    ensures var g := states[|ops|].g;
      forall target :: g.nodes[n].mergedInto == Some(target) <==>
        exists m :: m in g.merges && g.merges[m].live && g.merges[m].source == n && g.merges[m].target == target
  {
    hide Step, Asked, UniqueActive, StacksOk, EntryTouches;
    var s := states[|ops|];
    RunKeeps(states, ops, |ops|);
    assert Redirects(s, n);
    forall m | m in s.g.merges ensures MergeOk(s, m) {
    }
  }

  /** Among the merges that share a tie with this one, those recorded after it are those stamped after it. */
  ghost predicate StampsAgree(s: State, id: Id) {
    forall e, k: nat, j: nat :: e in s.stacks && k < j < |s.stacks[e]| ==> StampedInOrder(s, id, s.stacks[e][k], s.stacks[e][j])
  }

  predicate StampedInOrder(s: State, id: Id, below: Id, above: Id) {
    (below == id || above == id) && below in s.g.merges && above in s.g.merges ==> s.g.merges[below].at < s.g.merges[above].at
  }

  /** A merge whose stamp agrees with the order of recording is never overtaken. */
  lemma AgreeingIsNotOvertaken(s: State, id: Id)
    requires StampsAgree(s, id)
    ensures !Overtaken(s, id)
  {
    forall e, k: nat, j: nat | e in s.stacks && k < j < |s.stacks[e]| ensures !OvertakenAt(s, id, e, k, j) {
      assert StampedInOrder(s, id, s.stacks[e][k], s.stacks[e][j]);
    }
  }

  /** Where its stamps agree with the order of recording, a merge is blocked exactly when it is not on top
      of some tie it recorded: the guard then refuses every wrong reversal and no right one. */
  lemma BlockedExactly(states: seq<State>, ops: seq<Op>, id: Id)
    requires Run(states, ops) && id in states[|ops|].g.merges && states[|ops|].g.merges[id].live
    requires StampsAgree(states[|ops|], id)
    ensures var s := states[|ops|];
      (exists other :: other in s.g.merges && Blocks(s.g, id, other)) <==> !OnTop(s, id)
  {
    hide Step, Asked, UniqueActive, LedgerOk;
    var s := states[|ops|];
    RunKeeps(states, ops, |ops|);
    assert MergeOk(s, id) by { OkOf(s, id); }
    if other :| other in s.g.merges && Blocks(s.g, id, other) {
      var e := Shared(s, id, other);
      BlockerIsAbove(s, id, other, e);
    }
    if e :| e in s.stacks && Recorded(s.g, e, id) && !Tops(s.stacks[e], id) {
      var stack := s.stacks[e];
      var k := StandsAt(s.g, e, stack, id);
      assert Recorded(s.g, e, stack[|stack| - 1]);
      assert StampedInOrder(s, id, stack[k], stack[|stack| - 1]);
      SharedBlocks(s.g, id, stack[|stack| - 1], e);
    }
  }

  lemma Shared(s: State, id: Id, other: Id) returns (e: Id)
    requires id in s.g.merges && s.g.merges[id].live && Blocks(s.g, id, other)
    ensures Recorded(s.g, e, id) && Recorded(s.g, e, other)
  {
    e := Member(s.g.merges[id].moved.Keys * s.g.merges[other].moved.Keys);
  }

  lemma BlockerIsAbove(s: State, id: Id, other: Id, e: Id)
    requires StacksOk(s) && StampsAgree(s, id) && Recorded(s.g, e, id) && Recorded(s.g, e, other)
    requires id != other && s.g.merges[id].at < s.g.merges[other].at && e in s.g.edges
    ensures e in s.stacks && !Tops(s.stacks[e], id)
  {
    var stack := s.stacks[e];
    var k := StandsAt(s.g, e, stack, id);
    var j := StandsAt(s.g, e, stack, other);
    assert j < k ==> StampedInOrder(s, id, stack[j], stack[k]);
    BelowIsNotTop(s.g, stack, k, j);
  }

  // Where the clock's order fails, the ledger cannot tell which merge came last.

  const PLAIN := Node(Person, Labels(0, {}), false, None)

  function People(first: Option<Id>, second: Option<Id>): map<Id, Node> {
    map[1 := PLAIN.(mergedInto := first), 2 := PLAIN.(mergedInto := second), 3 := PLAIN, 4 := PLAIN]
  }

  function OneTie(src: Id): map<Id, Edge> {
    map[9 := Edge(src, 4, 0, false)]
  }

  function First(at: int): Merge {
    Merge(1, 2, at, true, map[9 := Entry(1, 4, false)])
  }

  function Second(at: int): Merge {
    Merge(2, 3, at, true, map[9 := Entry(2, 4, false)])
  }

  const BEFORE := Graph(People(None, None), OneTie(1), map[])

  function Between(first: int): Graph {
    Graph(People(Some(2), None), OneTie(2), map[21 := First(first)])
  }

  function Both(first: int, second: int): Graph {
    Graph(People(Some(2), Some(3)), OneTie(3), map[21 := First(first), 22 := Second(second)])
  }

  /** A merge of an entity whose one tie runs to 4. */
  lemma OneTieFolds(g: Graph, id: Id, source: Id, target: Id, at: int)
    requires g.edges == OneTie(source) && source in g.nodes && target in g.nodes && source != target && target != 4 && source != 4
    requires g.nodes[source] == PLAIN && g.nodes[target] == PLAIN
    ensures Fold(g, id, Request(source, target, true, None), at) ==
      Done(Graph(g.nodes[source := PLAIN.(mergedInto := Some(target))], OneTie(target),
                 g.merges[id := Merge(source, target, at, true, map[9 := Entry(source, 4, false)])]))
  {
    var r := Request(source, target, true, None);
    assert Chosen(g.edges, source) == {9} && FateOf(g.edges, r, 9) == Moves;
    assert EdgesAfter(g.edges, r, {9}) == OneTie(target);
    assert EntriesOf(g.edges, r, {9}) == map[9 := Entry(source, 4, false)];
  }

  lemma BothFold(first: int, second: int)
    ensures Fold(BEFORE, 21, Request(1, 2, true, None), first) == Done(Between(first))
    ensures Fold(Between(first), 22, Request(2, 3, true, None), second) == Done(Both(first, second))
  {
    hide Fold;
    OneTieFolds(BEFORE, 21, 1, 2, first);
    assert BEFORE.nodes[1 := PLAIN.(mergedInto := Some(2))] == Between(first).nodes;
    OneTieFolds(Between(first), 22, 2, 3, second);
    assert Between(first).nodes[2 := PLAIN.(mergedInto := Some(3))] == Both(first, second).nodes;
  }

  function Reversed(g: Graph, id: Id): Outcome {
    if id in g.merges && 9 in g.merges[id].moved then Unfold(g, id, true, [9]) else Refused(NoSuchMerge)
  }

  lemma UnfoldOne(g: Graph, id: Id)
    requires id in g.merges && g.merges[id].live && g.merges[id].moved.Keys == {9} && g.edges.Keys == {9}
    requires forall m :: m in g.merges && g.merges[m].live ==> g.merges[m].at <= g.merges[id].at
    ensures Reversed(g, id).Done?
    ensures Reversed(g, id).graph.merges == g.merges[id := g.merges[id].(live := false)]
    ensures Reversed(g, id).graph.edges == g.edges[9 := Restored(g.edges[9], g.merges[id].moved[9])]
  {
    assert [9][..0] == [];
    assert RestoreRows(g.edges, g.merges[id].moved, [9][..0]) == Some(g.edges);
  }

  /** Two merges, the second moving the tie the first had moved and stamped no later, as it is when it
      read the clock first and then waited. The first can be reversed before the second, and once both
      are reversed no merge is live and the tie stands at an entity that never held it. If the stamps
      differ, the right reversal is the one refused. */
  lemma EarlierStampMisplaces(first: int, second: int)
    requires second <= first
    ensures Fold(BEFORE, 21, Request(1, 2, true, None), first) == Done(Between(first))
    ensures Fold(Between(first), 22, Request(2, 3, true, None), second) == Done(Both(first, second))
    ensures Reversed(Both(first, second), 21).Done? && Reversed(Reversed(Both(first, second), 21).graph, 22).Done?
    ensures var last := Reversed(Reversed(Both(first, second), 21).graph, 22).graph;
      && (forall m :: m in last.merges ==> !last.merges[m].live)
      && 9 in last.edges && EndsOf(last.edges[9]) == (2, 4) && EndsOf(BEFORE.edges[9]) == (1, 4)
    ensures second < first ==> Reversed(Both(first, second), 22) == Refused(Blocked)
  {
    hide Fold, Unfold, Reversed;
    BothFold(first, second);
    FirstReversed(first, second);
    UnfoldOne(FirstBack(first, second), 22);
    if second < first {
      BlockedByFirst(first, second);
    }
  }

  function FirstBack(first: int, second: int): Graph {
    Graph(People(None, Some(3)), OneTie(1), map[21 := First(first).(live := false), 22 := Second(second)])
  }

  lemma FirstReversed(first: int, second: int)
    requires second <= first
    ensures Reversed(Both(first, second), 21) == Done(FirstBack(first, second))
  {
    var g := Both(first, second);
    assert [9][..0] == [];
    assert RestoreRows(g.edges, g.merges[21].moved, [9][..0]) == Some(g.edges);
    assert g.edges[9 := Restored(g.edges[9], g.merges[21].moved[9])] == OneTie(1);
    assert g.nodes[1 := g.nodes[1].(mergedInto := None)] == FirstBack(first, second).nodes;
  }

  lemma BlockedByFirst(first: int, second: int)
    requires second < first
    ensures Reversed(Both(first, second), 22) == Refused(Blocked)
  {
    var g := Both(first, second);
    assert 9 in g.merges[22].moved.Keys * g.merges[21].moved.Keys;
    assert Blocks(g, 22, 21);
  }
}
