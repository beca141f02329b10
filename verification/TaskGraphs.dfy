/** Task graphs and their compilation. */
module TaskGraphs {
  import opened Prelude

  // Nodes with constraint operations, transitions between them, and the compilation of an authored case into
  // an indexed graph. Compilation refuses a case with the first error it meets. Identifiers and values are
  // opaque, `0` stands for a blank text.

  datatype Operation = Add(id: nat, value: nat) | Replace(target: nat, id: nat, value: nat) | Remove(target: nat)

  datatype Node = Node(id: nat, operations: seq<Operation>, terminal: bool)

  datatype Transition = Transition(id: nat, from: nat, to: nat)

  datatype Case = Case(id: nat, start: nat, nodes: seq<Node>, transitions: seq<Transition>)

  datatype Graph = Graph(start: nat, nodes: map<nat, Node>, transitions: map<nat, Transition>)

  datatype GraphError =
    | BlankCase
    | NoNodes
    | BlankNode
    | DuplicateNode
    | UnknownStart
    | BlankTransition
    | UnknownEndpoint(transition: nat)
    | DuplicateTransition
    | DuplicateConstraint(id: nat)
    | UnknownTarget(id: nat)

  /** The id an operation declares. */
  function Declares(op: Operation): Option<nat> {
    match op
    case Add(id, _) => Some(id)
    case Replace(_, id, _) => Some(id)
    case Remove(_) => None
  }

  // --- What a compiled graph promises ------------------------------------------------------------------

  /** The graph is closed and each node and transition is filed under its own id. */
  ghost predicate Closed(g: Graph) {
    && g.start in g.nodes
    && (forall n :: n in g.nodes ==> g.nodes[n].id == n && n != 0)
    && (forall t :: t in g.transitions ==> g.transitions[t].id == t && t != 0
                                           && g.transitions[t].from in g.nodes && g.transitions[t].to in g.nodes)
  }

  /** All operations of a graph, node by node. */
  function OperationsOf(g: Graph): seq<Operation> {
    AllOperations(g.nodes, Ascending(g.nodes.Keys))
  }

  /** No constraint id is declared twice, and what is replaced is declared somewhere. */
  ghost predicate SoundOperations(ops: seq<Operation>) {
    && DeclaredOnce(ops)
    && (forall i :: 0 <= i < |ops| && ops[i].Replace? ==> Declared(ops, ops[i].target))
  }

  ghost predicate WellFormed(g: Graph) {
    Closed(g) && SoundOperations(OperationsOf(g))
  }

  /** An operation of the graph belongs to one of its nodes, and conversely. */
  lemma {:induction false} OperationHasNode(nodes: map<nat, Node>, order: seq<nat>, op: Operation)
    requires forall n :: n in order ==> n in nodes
    ensures op in AllOperations(nodes, order) <==> exists n :: n in order && op in nodes[n].operations
    decreases |order|
  {
    if order != [] {
      var k := |order| - 1;
      OperationHasNode(nodes, order[..k], op);
      assert order == order[..k] + [order[k]];
    }
  }

  // --- Validating constraint ids -----------------------------------------------------------------------

  /** All operations of some nodes, in order. */
  function AllOperations(nodes: map<nat, Node>, order: seq<nat>): seq<Operation>
    requires forall n :: n in order ==> n in nodes
  {
    if order == [] then [] else AllOperations(nodes, order[..|order| - 1]) + nodes[order[|order| - 1]].operations
  }

  ghost predicate DeclaredOnce(ops: seq<Operation>) {
    forall i, j :: 0 <= i < j < |ops| && Declares(ops[i]).Some? ==> Declares(ops[i]) != Declares(ops[j])
  }

  ghost predicate Declared(ops: seq<Operation>, id: nat) {
    exists j :: 0 <= j < |ops| && Declares(ops[j]) == Some(id)
  }

  /** The first operation that declares an id again, or else the first that replaces an id never declared. */
  ghost predicate OperationFault(ops: seq<Operation>, i: int, e: GraphError) {
    && 0 <= i < |ops|
    && if e.DuplicateConstraint? then DeclaredOnce(ops[..i]) && Declares(ops[i]) == Some(e.id) && Declared(ops[..i], e.id)
       else
         && DeclaredOnce(ops) && ops[i].Replace? && e == UnknownTarget(ops[i].target) && !Declared(ops, ops[i].target)
         && forall j :: 0 <= j < i && ops[j].Replace? ==> Declared(ops, ops[j].target)
  }

  /** The positions of the replacing operations, in order. */
  ghost predicate Collects(ops: seq<Operation>, n: nat, targets: seq<nat>, places: seq<int>) {
    && |places| == |targets|
    && (forall k :: 0 <= k < |places| ==> 0 <= places[k] < n <= |ops| && ops[places[k]].Replace? && ops[places[k]].target == targets[k])
    && (forall j, k :: 0 <= j < k < |places| ==> places[j] < places[k])
    && (forall i :: 0 <= i < n <= |ops| && ops[i].Replace? ==> i in places)
  }

  /** `validate_constraint_ids` over the operations in node order. */
  method ValidateConstraintIds(ops: seq<Operation>) returns (error: Option<GraphError>)
    ensures error.None? <==> SoundOperations(ops)
    ensures error.Some? ==> exists i :: OperationFault(ops, i, error.value)
  {
    var declared: set<nat> := {};
    var targets: seq<nat> := [];
    ghost var places: seq<int> := [];
    for i := 0 to |ops|
      invariant forall id :: id in declared <==> Declared(ops[..i], id)
      invariant DeclaredOnce(ops[..i])
      invariant Collects(ops, i, targets, places)
    {
      var d := Declares(ops[i]);
      assert ops[..i + 1] == ops[..i] + [ops[i]];
      if d.Some? {
        if d.value in declared {
          assert OperationFault(ops, i, DuplicateConstraint(d.value));
          return Some(DuplicateConstraint(d.value));
        }
        declared := declared + {d.value};
      }
      if ops[i].Replace? { targets, places := targets + [ops[i].target], places + [i]; }
    }
    assert ops[..|ops|] == ops;
    for i := 0 to |targets|
      invariant forall j :: 0 <= j < i ==> targets[j] in declared
    {
      if targets[i] !in declared {
        FirstUndeclared(ops, targets, places, i);
        return Some(UnknownTarget(targets[i]));
      }
    }
    error := None;
    forall i | 0 <= i < |ops| && ops[i].Replace?
      ensures ops[i].target in declared
    {
      assert i in places;
    }
  }

  lemma FirstUndeclared(ops: seq<Operation>, targets: seq<nat>, places: seq<int>, k: nat)
    requires DeclaredOnce(ops) && Collects(ops, |ops|, targets, places) && k < |targets| && !Declared(ops, targets[k])
    requires forall j :: 0 <= j < k ==> Declared(ops, targets[j])
    ensures OperationFault(ops, places[k], UnknownTarget(targets[k]))
  {
    forall i | 0 <= i < places[k] && ops[i].Replace?
      ensures Declared(ops, ops[i].target)
    {
      assert i in places;
      var j :| 0 <= j < |places| && places[j] == i;
      assert j < k;
    }
  }

  // --- Compilation ------------------------------------------------------------------------------------------

  ghost predicate DistinctNodes(ns: seq<Node>) {
    forall i, j :: 0 <= i < j < |ns| ==> ns[i].id != ns[j].id
  }

  ghost predicate Files(nodes: map<nat, Node>, ns: seq<Node>) {
    && (forall n :: n in nodes ==> nodes[n].id == n && nodes[n] in ns)
    && (forall i :: 0 <= i < |ns| ==> ns[i].id in nodes && nodes[ns[i].id] == ns[i])
  }

  /** The first node without an id or with one used before. */
  ghost predicate NodeFault(ns: seq<Node>, i: int, e: GraphError) {
    && 0 <= i < |ns| && DistinctNodes(ns[..i]) && (forall j :: 0 <= j < i ==> ns[j].id != 0)
    && if ns[i].id == 0 then e == BlankNode else e == DuplicateNode && exists j :: 0 <= j < i && ns[j].id == ns[i].id
  }

  method IndexNodes(ns: seq<Node>) returns (r: Result<map<nat, Node>, GraphError>)
    ensures r.Ok? <==> DistinctNodes(ns) && forall i :: 0 <= i < |ns| ==> ns[i].id != 0
    ensures r.Ok? ==> Files(r.value, ns)
    ensures r.Err? ==> exists i :: NodeFault(ns, i, r.error)
  {
    var nodes: map<nat, Node> := map[];
    for i := 0 to |ns|
      invariant DistinctNodes(ns[..i]) && forall j :: 0 <= j < i ==> ns[j].id != 0
      invariant Files(nodes, ns[..i])
    {
      if ns[i].id == 0 {
        assert NodeFault(ns, i, BlankNode);
        return Err(BlankNode);
      }
      if ns[i].id in nodes {
        assert nodes[ns[i].id] in ns[..i];
        assert NodeFault(ns, i, DuplicateNode);
        return Err(DuplicateNode);
      }
      nodes := nodes[ns[i].id := ns[i]];
      assert ns[..i + 1] == ns[..i] + [ns[i]];
    }
    assert ns[..|ns|] == ns;
    r := Ok(nodes);
  }

  ghost predicate DistinctTransitions(ts: seq<Transition>) {
    forall i, j :: 0 <= i < j < |ts| ==> ts[i].id != ts[j].id
  }

  ghost predicate Connects(t: Transition, nodes: map<nat, Node>) {
    t.id != 0 && t.from in nodes && t.to in nodes
  }

  ghost predicate FilesTransitions(transitions: map<nat, Transition>, ts: seq<Transition>) {
    && (forall t :: t in transitions ==> transitions[t].id == t && transitions[t] in ts)
    && (forall i :: 0 <= i < |ts| ==> ts[i].id in transitions && transitions[ts[i].id] == ts[i])
  }

  /** The first transition without an id, between unknown nodes, or with an id used before. */
  ghost predicate TransitionFault(ts: seq<Transition>, nodes: map<nat, Node>, i: int, e: GraphError) {
    && 0 <= i < |ts| && DistinctTransitions(ts[..i]) && (forall j :: 0 <= j < i ==> Connects(ts[j], nodes))
    && if ts[i].id == 0 then e == BlankTransition
       else if ts[i].from !in nodes || ts[i].to !in nodes then e == UnknownEndpoint(ts[i].id)
       else e == DuplicateTransition && exists j :: 0 <= j < i && ts[j].id == ts[i].id
  }

  method IndexTransitions(ts: seq<Transition>, nodes: map<nat, Node>) returns (r: Result<map<nat, Transition>, GraphError>)
    ensures r.Ok? <==> DistinctTransitions(ts) && forall i :: 0 <= i < |ts| ==> Connects(ts[i], nodes)
    ensures r.Ok? ==> FilesTransitions(r.value, ts)
    ensures r.Err? ==> exists i :: TransitionFault(ts, nodes, i, r.error)
  {
    var transitions: map<nat, Transition> := map[];
    for i := 0 to |ts|
      invariant DistinctTransitions(ts[..i]) && forall j :: 0 <= j < i ==> Connects(ts[j], nodes)
      invariant FilesTransitions(transitions, ts[..i])
    {
      if ts[i].id == 0 {
        assert TransitionFault(ts, nodes, i, BlankTransition);
        return Err(BlankTransition);
      }
      if ts[i].from !in nodes || ts[i].to !in nodes {
        assert TransitionFault(ts, nodes, i, UnknownEndpoint(ts[i].id));
        return Err(UnknownEndpoint(ts[i].id));
      }
      if ts[i].id in transitions {
        assert transitions[ts[i].id] in ts[..i];
        assert TransitionFault(ts, nodes, i, DuplicateTransition);
        return Err(DuplicateTransition);
      }
      transitions := transitions[ts[i].id := ts[i]];
      assert ts[..i + 1] == ts[..i] + [ts[i]];
    }
    assert ts[..|ts|] == ts;
    r := Ok(transitions);
  }

  /** What `compile` demands of a case, said of its lists. */
  ghost predicate ValidCase(c: Case, nodes: map<nat, Node>) {
    && c.id != 0 && c.nodes != []
    && DistinctNodes(c.nodes) && (forall i :: 0 <= i < |c.nodes| ==> c.nodes[i].id != 0)
    && c.start in nodes
    && DistinctTransitions(c.transitions) && (forall i :: 0 <= i < |c.transitions| ==> Connects(c.transitions[i], nodes))
    && SoundOperations(AllOperations(nodes, Ascending(nodes.Keys)))
  }

  /** Why a case is refused, in the order of the checks. */
  ghost predicate Refused(c: Case, e: GraphError) {
    if c.id == 0 then e == BlankCase
    else if c.nodes == [] then e == NoNodes
    else if !DistinctNodes(c.nodes) || exists i :: 0 <= i < |c.nodes| && c.nodes[i].id == 0 then exists i :: NodeFault(c.nodes, i, e)
    else exists nodes: map<nat, Node> :: Files(nodes, c.nodes) && RefusedOver(c, nodes, e)
  }

  ghost predicate RefusedOver(c: Case, nodes: map<nat, Node>, e: GraphError) {
    if c.start !in nodes then e == UnknownStart
    else if !DistinctTransitions(c.transitions) || exists i :: 0 <= i < |c.transitions| && !Connects(c.transitions[i], nodes) then
      exists i :: TransitionFault(c.transitions, nodes, i, e)
    else exists i :: OperationFault(AllOperations(nodes, Ascending(nodes.Keys)), i, e)
  }

  /** `compile`: accepts exactly the valid cases, and files what they list. */
  method Compile(c: Case) returns (r: Result<Graph, GraphError>)
    ensures r.Ok? ==> WellFormed(r.value) && r.value.start == c.start && Files(r.value.nodes, c.nodes)
                      && FilesTransitions(r.value.transitions, c.transitions)
    ensures r.Ok? <==> exists nodes: map<nat, Node> :: Files(nodes, c.nodes) && ValidCase(c, nodes)
    ensures r.Err? ==> Refused(c, r.error)
  {
    if c.id == 0 { return Err(BlankCase); }
    if c.nodes == [] { return Err(NoNodes); }
    var nodes := IndexNodes(c.nodes);
    if nodes.Err? { return Err(nodes.error); }
    forall other: map<nat, Node> | Files(other, c.nodes)
      ensures other == nodes.value
    {
      FiledOnce(other, nodes.value, c.nodes);
    }
    if c.start !in nodes.value {
      assert RefusedOver(c, nodes.value, UnknownStart);
      return Err(UnknownStart);
    }
    var transitions := IndexTransitions(c.transitions, nodes.value);
    if transitions.Err? {
      assert RefusedOver(c, nodes.value, transitions.error);
      return Err(transitions.error);
    }
    var error := ValidateConstraintIds(AllOperations(nodes.value, Ascending(nodes.value.Keys)));
    if error.Some? {
      assert RefusedOver(c, nodes.value, error.value);
      return Err(error.value);
    }
    r := Ok(Graph(c.start, nodes.value, transitions.value));
    assert ValidCase(c, nodes.value);
  }

  lemma FiledOnce(a: map<nat, Node>, b: map<nat, Node>, ns: seq<Node>)
    requires Files(a, ns) && Files(b, ns)
    ensures a == b
  {
    forall n | n in a ensures n in b && b[n] == a[n] {
      var i :| 0 <= i < |ns| && ns[i] == a[n];
    }
    forall n | n in b ensures n in a {
      var i :| 0 <= i < |ns| && ns[i] == b[n];
    }
  }
}
