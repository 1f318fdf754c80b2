/** Which nodes a tie may join.

    The trigger skips a tie whose ends do not change, so what it keeps is a statement about
    history: each state carries, besides the tables, when a type was last narrowed, when a node
    last changed and when a tie was last checked.
 */
module EndpointRule {
  import opened Options

  type Id = int

  datatype NodeRow = NodeRow(caseId: Id, nodeType: string)
  datatype EdgeType = EdgeType(srcTypes: set<string>, dstTypes: set<string>)
  datatype EdgeRow = EdgeRow(caseId: Id, edgeType: string, src: Id, dst: Id, deleted: bool)

  /** narrowed: when a type last lost an allowed endpoint.  moved: when a node last changed
      type or case.  validated: when an edge was last checked. */
  datatype State = State(
    nodes: map<Id, NodeRow>, edgeTypes: map<string, EdgeType>, edges: map<Id, EdgeRow>,
    now: nat, narrowed: map<string, nat>, moved: map<Id, nat>, validated: map<Id, nat>)

  datatype Write =
    | PutEdgeType(key: string, allowed: EdgeType)
    | PutNode(node: Id, row: NodeRow)
    | DropNode(node: Id)
    | PutEdge(edge: Id, tie: EdgeRow)
    | DropEdge(edge: Id)

  const START := State(map[], map[], map[], 1, map[], map[], map[])

  /** What core.validate_edge_endpoints and the foreign keys ask of a row they look at. */
  predicate Permitted(s: State, e: EdgeRow) {
    && e.edgeType in s.edgeTypes && e.src in s.nodes && e.dst in s.nodes
    && s.nodes[e.src].nodeType in s.edgeTypes[e.edgeType].srcTypes
    && s.nodes[e.dst].nodeType in s.edgeTypes[e.edgeType].dstTypes
    && (e.edgeType == "SAME_AS" ==> s.nodes[e.src].nodeType == s.nodes[e.dst].nodeType)
    && s.nodes[e.src].caseId == e.caseId && s.nodes[e.dst].caseId == e.caseId
  }

  predicate SameEndpoints(was: EdgeRow, e: EdgeRow) {
    was.edgeType == e.edgeType && was.src == e.src && was.dst == e.dst && was.caseId == e.caseId
  }

  function Outcome(s: State, w: Write): Option<State> {
    match w
    case PutEdgeType(key, allowed) =>
      var narrower := key in s.edgeTypes &&
        !(s.edgeTypes[key].srcTypes <= allowed.srcTypes && s.edgeTypes[key].dstTypes <= allowed.dstTypes);
      Some(s.(edgeTypes := s.edgeTypes[key := allowed],
              narrowed := if narrower then s.narrowed[key := s.now] else s.narrowed))
    case PutNode(id, row) =>
      Some(s.(nodes := s.nodes[id := row],
              moved := if id in s.nodes && s.nodes[id] != row then s.moved[id := s.now] else s.moved))
    case DropNode(id) =>
      if exists e :: e in s.edges && (s.edges[e].src == id || s.edges[e].dst == id) then None
      else Some(s.(nodes := s.nodes - {id}))
    case PutEdge(id, tie) =>
      if id in s.edges && SameEndpoints(s.edges[id], tie) then Some(s.(edges := s.edges[id := tie]))
      else if !Permitted(s, tie) then None
      else Some(s.(edges := s.edges[id := tie], validated := s.validated[id := s.now]))
    case DropEdge(id) => Some(s.(edges := s.edges - {id}))
  }

  function Step(s: State, w: Write): State {
    var after := Outcome(s, w);
    (if after.Some? then after.value else s).(now := s.now + 1)
  }

  function Run(s: State, writes: seq<Write>): State
    decreases |writes|
  {
    if writes == [] then s else Run(Step(s, writes[0]), writes[1..])
  }

  /** Something an edge's check read has changed since time `at`. */
  predicate ChangedSince(s: State, e: EdgeRow, at: nat) {
    || (e.edgeType in s.narrowed && s.narrowed[e.edgeType] > at)
    || (e.src in s.moved && s.moved[e.src] > at)
    || (e.dst in s.moved && s.moved[e.dst] > at)
  }

  ghost predicate EdgeOk(s: State, id: Id)
    requires id in s.edges
  {
    && s.edges[id].src in s.nodes && s.edges[id].dst in s.nodes
    && id in s.validated && s.validated[id] < s.now
    && (Permitted(s, s.edges[id]) || ChangedSince(s, s.edges[id], s.validated[id]))
  }

  ghost predicate Inv(s: State) {
    forall id :: id in s.edges ==> EdgeOk(s, id)
  }

  lemma StepKeepsInv(s: State, w: Write)
    requires Inv(s)
    ensures Inv(Step(s, w))
  {
    var t := Step(s, w);
    forall id | id in t.edges ensures EdgeOk(t, id) {
      if id in s.edges {
        assert EdgeOk(s, id);
      }
      match w {
        case PutEdgeType(key, allowed) => PutEdgeTypeKeepsEdge(s, key, allowed, id);
        case PutNode(node, row) => PutNodeKeepsEdge(s, node, row, id);
        case DropNode(node) => DropNodeKeepsEdge(s, node, id);
        case PutEdge(edge, tie) => PutEdgeKeepsEdge(s, edge, tie, id);
        case DropEdge(_) =>
      }
    }
  }

  lemma PutEdgeTypeKeepsEdge(s: State, key: string, allowed: EdgeType, id: Id)
    requires id in s.edges && EdgeOk(s, id)
    ensures EdgeOk(Step(s, PutEdgeType(key, allowed)), id)
  {
  }

  lemma PutNodeKeepsEdge(s: State, node: Id, row: NodeRow, id: Id)
    requires id in s.edges && EdgeOk(s, id)
    ensures EdgeOk(Step(s, PutNode(node, row)), id)
  {
  }

  lemma DropNodeKeepsEdge(s: State, node: Id, id: Id)
    requires id in s.edges && EdgeOk(s, id)
    ensures EdgeOk(Step(s, DropNode(node)), id)
  {
  }

  lemma PutEdgeKeepsEdge(s: State, edge: Id, tie: EdgeRow, id: Id)
    requires id in s.edges ==> EdgeOk(s, id)
    requires id in Step(s, PutEdge(edge, tie)).edges
    ensures EdgeOk(Step(s, PutEdge(edge, tie)), id)
  {
    var t := Step(s, PutEdge(edge, tie));
    if id != edge || Outcome(s, PutEdge(edge, tie)).None? {
      hide Permitted, ChangedSince, EdgeOk;
      OtherEdgeOk(s, t, id);
    } else if id in s.edges && SameEndpoints(s.edges[id], tie) {
      hide Permitted;
      EndsPermitted(s, s.edges[id], tie);
      SamePermitted(s, t, tie);
    } else {
      hide ChangedSince, Permitted;
      PermittedEnds(s, tie);
      SamePermitted(s, t, tie);
    }
  }

  lemma OtherEdgeOk(s: State, t: State, id: Id)
    requires id in s.edges && EdgeOk(s, id)
    requires id in t.edges && t.edges[id] == s.edges[id] && t.nodes == s.nodes && t.edgeTypes == s.edgeTypes
    requires t.narrowed == s.narrowed && t.moved == s.moved && t.now >= s.now
    requires id in s.validated ==> id in t.validated && t.validated[id] == s.validated[id]
    ensures EdgeOk(t, id)
  {
    hide Permitted;
    SamePermitted(s, t, s.edges[id]);
  }

  lemma PermittedEnds(s: State, e: EdgeRow)
    requires Permitted(s, e)
    ensures e.src in s.nodes && e.dst in s.nodes
  {
  }

  lemma SamePermitted(s: State, t: State, e: EdgeRow)
    requires t.nodes == s.nodes && t.edgeTypes == s.edgeTypes
    ensures Permitted(t, e) <==> Permitted(s, e)
  {
  }

  lemma EndsPermitted(s: State, e: EdgeRow, f: EdgeRow)
    requires SameEndpoints(e, f)
    ensures Permitted(s, f) <==> Permitted(s, e)
  {
  }

  lemma {:induction false} RunKeepsInv(s: State, writes: seq<Write>)
    requires Inv(s)
    ensures Inv(Run(s, writes))
    decreases |writes|
  {
    if writes != [] {
      StepKeepsInv(s, writes[0]);
      RunKeepsInv(Step(s, writes[0]), writes[1..]);
    }
  }

  /** Over any run, an edge that is not as the ontology permits was last checked before its
      type lost an endpoint or one of its nodes changed type or case. */
  lemma IllFormedOnlyByALaterChange(writes: seq<Write>, id: Id)
    ensures var s := Run(START, writes);
            id in s.edges && !Permitted(s, s.edges[id]) ==>
            id in s.validated && ChangedSince(s, s.edges[id], s.validated[id])
  {
    RunKeepsInv(START, writes);
    assert id in Run(START, writes).edges ==> EdgeOk(Run(START, writes), id);
  }

  /** Where no type was ever narrowed and no node ever changed, every edge joins two nodes of
      its own case with permitted types, and SAME_AS never joins different types. */
  lemma StableOntologyKeepsEdges(writes: seq<Write>, id: Id)
    ensures var s := Run(START, writes);
            s.narrowed == map[] && s.moved == map[] && id in s.edges ==>
            var e := s.edges[id];
            && e.src in s.nodes && e.dst in s.nodes && e.edgeType in s.edgeTypes
            && s.nodes[e.src].caseId == e.caseId == s.nodes[e.dst].caseId
            && s.nodes[e.src].nodeType in s.edgeTypes[e.edgeType].srcTypes
            && s.nodes[e.dst].nodeType in s.edgeTypes[e.edgeType].dstTypes
            && (e.edgeType == "SAME_AS" ==> s.nodes[e.src].nodeType == s.nodes[e.dst].nodeType)
  {
    IllFormedOnlyByALaterChange(writes, id);
  }

  /** An edge is let in exactly when its ends, case and type are those it had, or its type and both nodes are
      there, each node's type is allowed at its end, SAME_AS joins one type, and both are of the edge's case. */
  lemma EdgeAcceptedExactly(s: State, id: Id, tie: EdgeRow)
    ensures Outcome(s, PutEdge(id, tie)).Some? <==>
      || (id in s.edges && s.edges[id] == tie.(deleted := s.edges[id].deleted))
      || (&& tie.edgeType in s.edgeTypes && tie.src in s.nodes && tie.dst in s.nodes
          && (var src, dst, et := s.nodes[tie.src], s.nodes[tie.dst], s.edgeTypes[tie.edgeType];
              && src.nodeType in et.srcTypes && dst.nodeType in et.dstTypes
              && (tie.edgeType != "SAME_AS" || src.nodeType == dst.nodeType)
              && src.caseId == tie.caseId && dst.caseId == tie.caseId))
    ensures Outcome(s, PutEdge(id, tie)).Some? ==>
      var t := Outcome(s, PutEdge(id, tie)).value;
      t.edges == s.edges[id := tie] && t.nodes == s.nodes && t.edgeTypes == s.edgeTypes
  {
  }

  /** A node may go exactly when no edge ends at it, and takes nothing else along. */
  lemma NodeDroppedExactly(s: State, id: Id)
    ensures Outcome(s, DropNode(id)).Some? <==> forall e :: e in s.edges ==> s.edges[e].src != id && s.edges[e].dst != id
    ensures Outcome(s, DropNode(id)).Some? ==> Outcome(s, DropNode(id)).value == s.(nodes := s.nodes - {id})
  {
  }

  /** A soft delete, or any update that leaves the endpoints alone, is never refused, even
      after the edge's type has been narrowed. */
  lemma SoftDeleteNeverFails(s: State, id: Id, deleted: bool)
    requires id in s.edges
    ensures var t := Outcome(s, PutEdge(id, s.edges[id].(deleted := deleted)));
            t.Some? && t.value.edges == s.edges[id := s.edges[id].(deleted := deleted)]
  {
  }

  // ---- The tables, changed in place ----

  class Tables {
    var nodes: map<Id, NodeRow>
    var edgeTypes: map<string, EdgeType>
    var edges: map<Id, EdgeRow>
    ghost var now: nat
    ghost var narrowed: map<string, nat>
    ghost var moved: map<Id, nat>
    ghost var validated: map<Id, nat>

    constructor ()
      ensures Now() == START
    {
      nodes, edgeTypes, edges := map[], map[], map[];
      now, narrowed, moved, validated := 1, map[], map[], map[];
    }

    ghost function Now(): State
      reads this
    {
      State(nodes, edgeTypes, edges, now, narrowed, moved, validated)
    }

    /** The trigger's questions in its order, the foreign keys first. */
    method Permits(tie: EdgeRow) returns (ok: bool)
      ensures ok == Permitted(Now(), tie)
    {
      if tie.edgeType !in edgeTypes || tie.src !in nodes || tie.dst !in nodes {
        return false;
      }
      var et := edgeTypes[tie.edgeType];
      var srcType, dstType := nodes[tie.src].nodeType, nodes[tie.dst].nodeType;
      if srcType !in et.srcTypes || dstType !in et.dstTypes {
        return false;
      }
      if tie.edgeType == "SAME_AS" && srcType != dstType {
        return false;
      }
      ok := nodes[tie.src].caseId == tie.caseId && nodes[tie.dst].caseId == tie.caseId;
    }

    /** An insert or update of one edge. */
    method WriteEdge(id: Id, tie: EdgeRow) returns (ok: bool)
      modifies this
      ensures Now() == Step(old(Now()), PutEdge(id, tie))
      ensures ok <==> Outcome(old(Now()), PutEdge(id, tie)).Some?
    {
      hide Permitted;
      if id in edges && edges[id].edgeType == tie.edgeType && edges[id].src == tie.src
         && edges[id].dst == tie.dst && edges[id].caseId == tie.caseId {
        edges := edges[id := tie];
        now := now + 1;
        return true;
      }
      ok := Permits(tie);
      if ok {
        edges := edges[id := tie];
        validated := validated[id := now];
      }
      now := now + 1;
    }

    /** UPDATE core.edge_type: edges already drawn are not looked at again. */
    method Redefine(key: string, allowed: EdgeType)
      modifies this
      ensures Now() == Step(old(Now()), PutEdgeType(key, allowed))
    {
      if key in edgeTypes && !(edgeTypes[key].srcTypes <= allowed.srcTypes && edgeTypes[key].dstTypes <= allowed.dstTypes) {
        narrowed := narrowed[key := now];
      }
      edgeTypes := edgeTypes[key := allowed];
      now := now + 1;
    }
  }
}
