/** What holds of every world that came about by lawful events, and so after every run. */
module EnvironmentFacts {
  import opened Prelude
  import opened TaskGraphs
  import opened EnvironmentRun

  lemma InitialIs(g: Graph)
    requires Initial(g).Ok?
    ensures var s := Initial(g).value;
            s.status.NotStarted? && s.current == g.start && s.exposed == map[] && s.termination.None? && s.step == 0
  {
    StatusKept(g, BLANK.(current := g.start), g.start);
  }

  /** The world before the last event. */
  lemma Before(g: Graph, w: World)
    requires Genuine(g, w) && w.events != []
    ensures var n := |w.events| - 1;
            var before := World(ReplayAll(g, Initial(g).value, w.events[..n]), w.events[..n]);
            && Genuine(g, before) && Lawful(g, before.state, w.events[n].kind)
            && w.state == Replay(g, before.state, w.events[n].kind) && w.events[n].sequence == SatAdd(before.state.step, 1)
  {
  }

  ghost function Past(g: Graph, w: World): World
    requires Genuine(g, w) && w.events != []
  {
    World(ReplayAll(g, Initial(g).value, w.events[..|w.events| - 1]), w.events[..|w.events| - 1])
  }

  // --- Numbers and phases -------------------------------------------------------------------------------

  /** Events are numbered from one; the counter sticks at the largest integer. */
  lemma {:induction false} EventsAreNumbered(g: Graph, w: World)
    requires Genuine(g, w)
    ensures w.state.step == Min(|w.events|, MAX_U64)
    ensures forall i :: 0 <= i < |w.events| ==> w.events[i].sequence == Min(i + 1, MAX_U64)
    decreases |w.events|
  {
    InitialIs(g);
    if w.events != [] {
      Before(g, w);
      EventsAreNumbered(g, Past(g, w));
      StepCounts(g, Past(g, w).state, w.events[|w.events| - 1].kind);
    }
  }

  lemma StepCounts(g: Graph, s: State, kind: Kind)
    ensures Replay(g, s, kind).step == SatAdd(s.step, 1)
  {
  }

  /** The start comes first, the end last, and each at most once. */
  lemma {:induction false} StartsAndEndsOnce(g: Graph, w: World)
    requires Genuine(g, w)
    ensures w.state.status.NotStarted? <==> w.events == []
    ensures w.state.status.Terminated? <==> w.events != [] && w.events[|w.events| - 1].kind.Ended?
    ensures w.state.termination == if w.state.status.Terminated? then Some(w.events[|w.events| - 1].kind.reason) else None
    ensures forall i :: 0 <= i < |w.events| ==> (w.events[i].kind.Started? <==> i == 0)
    ensures forall i :: 0 <= i < |w.events| && w.events[i].kind.Ended? ==> i == |w.events| - 1
    decreases |w.events|
  {
    InitialIs(g);
    if w.events != [] {
      Before(g, w);
      StartsAndEndsOnce(g, Past(g, w));
      PhaseAfter(g, Past(g, w).state, w.events[|w.events| - 1].kind);
    }
  }

  lemma PhaseAfter(g: Graph, s: State, kind: Kind)
    requires Lawful(g, s, kind) && !s.status.Terminated? && s.termination.None?
    ensures var t := Replay(g, s, kind);
            t.status == (if kind.Ended? then Terminated else Running)
            && t.termination == if kind.Ended? then Some(kind.reason) else None
  {
    if kind.Moved? { StatusKept(g, s, kind.to); }
  }

  // --- The path ---------------------------------------------------------------------------------------------

  /** The transitions applied so far. */
  function Moves(events: seq<Event>): seq<Kind> {
    if events == [] then []
    else
      var n := |events| - 1;
      if events[n].kind.Moved? then Moves(events[..n]) + [events[n].kind] else Moves(events[..n])
  }

  /** Where a list of moves leads. */
  function Target(start: nat, moves: seq<Kind>): nat
    requires forall m :: m in moves ==> m.Moved?
  {
    if moves == [] then start else moves[|moves| - 1].to
  }

  predicate TakesTransition(g: Graph, m: Kind) {
    m.Moved? && m.transition in g.transitions
    && g.transitions[m.transition].from == m.from && g.transitions[m.transition].to == m.to
  }

  /** Each move takes a transition of the graph from where the one before led. */
  ghost predicate IsPath(g: Graph, moves: seq<Kind>) {
    && (forall m :: m in moves ==> m.Moved?)
    && (forall m :: m in moves ==> TakesTransition(g, m))
    && (forall i :: 0 <= i < |moves| ==> moves[i].from == Target(g.start, moves[..i]))
  }

  lemma PathGrows(g: Graph, moves: seq<Kind>, m: Kind)
    requires IsPath(g, moves) && TakesTransition(g, m) && m.from == Target(g.start, moves)
    ensures IsPath(g, moves + [m])
  {
    assert forall k :: k in moves + [m] ==> k in moves || k == m;
    forall i | 0 <= i < |moves + [m]|
      ensures (moves + [m])[i].from == Target(g.start, (moves + [m])[..i])
    {
      if i < |moves| {
        assert (moves + [m])[..i] == moves[..i];
      } else {
        assert (moves + [m])[..i] == moves;
      }
    }
  }

  /** The applied transitions form a path from the start node to the current one. */
  lemma {:induction false} MovesFormPath(g: Graph, w: World)
    requires Genuine(g, w)
    ensures IsPath(g, Moves(w.events)) && w.state.current == Target(g.start, Moves(w.events))
    decreases |w.events|
  {
    InitialIs(g);
    if w.events != [] {
      Before(g, w);
      var past, kind := Past(g, w), w.events[|w.events| - 1].kind;
      MovesFormPath(g, past);
      if kind.Moved? {
        StatusKept(g, past.state, kind.to);
        PathGrows(g, Moves(past.events), kind);
      }
    }
  }

  // --- Exposures ---------------------------------------------------------------------------------------------

  /** All exposures recorded, in order. */
  function Exposures(events: seq<Event>): seq<Record> {
    if events == [] then []
    else
      var n := |events| - 1;
      if events[n].kind.Observed? then Exposures(events[..n]) + events[n].kind.records else Exposures(events[..n])
  }

  /** The record rests on something disclosed or provided, or on records before it. */
  ghost predicate Supported(records: seq<Record>, i: nat)
    requires i < |records|
  {
    records[i].origin.Derived? ==>
      records[i].origin.inputs != [] && records[i].origin.rule != 0
      && forall input :: input in records[i].origin.inputs ==> input in Constraints(records[..i])
  }

  ghost predicate Sound(records: seq<Record>) {
    && (forall i, j :: 0 <= i < j < |records| ==> records[i].constraint != records[j].constraint)
    && (forall i :: 0 <= i < |records| ==> Supported(records, i))
  }

  /** A derivation of depth at most `n` from disclosed or provided constraints. */
  ghost predicate Derivable(records: seq<Record>, id: nat, n: nat)
    decreases n
  {
    n > 0 && exists r :: (r in records && r.constraint == id
                          && (r.origin.Derived? ==> (r.origin.inputs != []
                                                     && forall input :: input in r.origin.inputs ==> Derivable(records, input, n - 1))))
  }

  lemma {:induction false} DerivableMore(records: seq<Record>, more: seq<Record>, id: nat, n: nat, m: nat)
    requires Derivable(records, id, n) && n <= m && forall r :: r in records ==> r in more
    ensures Derivable(more, id, m)
    decreases n
  {
    var r :| r in records && r.constraint == id
      && (r.origin.Derived? ==> r.origin.inputs != [] && forall input :: input in r.origin.inputs ==> Derivable(records, input, n - 1));
    if r.origin.Derived? {
      forall input | input in r.origin.inputs
        ensures Derivable(more, input, m - 1)
      {
        DerivableMore(records, more, input, n - 1, m - 1);
      }
    }
  }

  /** In a sound list every record has a derivation, no deeper than the list is long. */
  lemma {:induction false} SoundMeansDerivable(records: seq<Record>, i: nat)
    requires Sound(records) && i < |records|
    ensures Derivable(records, records[i].constraint, i + 1)
    decreases i
  {
    assert Supported(records, i);
    if records[i].origin.Derived? {
      forall input | input in records[i].origin.inputs
        ensures Derivable(records, input, i)
      {
        var r :| r in records[..i] && r.constraint == input;
        var j :| 0 <= j < i && records[j] == r;
        SoundMeansDerivable(records, j);
        DerivableMore(records, records, input, j + 1, i);
      }
    }
    assert records[i] in records;
  }

  /** The ledger holds exactly the records. */
  ghost predicate Holds(exposed: map<nat, Record>, records: seq<Record>) {
    && exposed.Keys == Constraints(records)
    && (forall r :: r in records ==> r.constraint in exposed && exposed[r.constraint] == r)
  }

  lemma OneMore(exposed: map<nat, Record>, records: seq<Record>, r: Record)
    requires Holds(exposed, records) && Sound(records) && r.constraint !in Constraints(records)
    requires r.origin.Derived? ==> r.origin.inputs != [] && r.origin.rule != 0
    requires r.origin.Derived? ==> forall input :: input in r.origin.inputs ==> input in Constraints(records)
    ensures Holds(exposed[r.constraint := r], records + [r]) && Sound(records + [r])
  {
    var more := records + [r];
    forall i | 0 <= i < |more|
      ensures Supported(more, i)
    {
      if i < |records| {
        assert Supported(records, i) && more[..i] == records[..i];
      } else {
        assert more[..i] == records;
      }
    }
    forall i, j | 0 <= i < j < |more|
      ensures more[i].constraint != more[j].constraint
    {
      assert records[i] in records;
    }
    assert Constraints(more) == Constraints(records) + {r.constraint};
  }

  lemma ConstraintsConcat(a: seq<Record>, b: seq<Record>)
    ensures Constraints(a + b) == Constraints(a) + Constraints(b)
  {
  }

  /** A batch of prepared exposures is supported by what was exposed before and by itself. */
  lemma {:induction false} BatchIsSound(s: State, records: seq<Record>, es: seq<Exposure>, sequence: nat)
    requires Holds(s.exposed, records) && Sound(records) && Prepare(s, es, sequence).Ok?
    ensures var batch := Prepare(s, es, sequence).value;
            Holds(Expose(s.exposed, batch), records + batch) && Sound(records + batch)
    decreases |es|
  {
    var batch := Prepare(s, es, sequence).value;
    if es == [] {
      assert records + batch == records;
    } else {
      var n := |es| - 1;
      var before := Prepare(s, es[..n], sequence).value;
      BatchIsSound(s, records, es[..n], sequence);
      ConstraintsConcat(records, before);
      var r := Record(es[n].constraint, es[n].origin, sequence);
      assert batch[..|batch| - 1] == before && batch[|batch| - 1] == r;
      OneMore(Expose(s.exposed, before), records + before, r);
      assert records + before + [r] == records + batch;
    }
  }

  /** The exposure ledger holds the recorded exposures, each once and each supported by earlier ones. */
  lemma {:induction false} ExposuresAreSound(g: Graph, w: World)
    requires Genuine(g, w)
    ensures Holds(w.state.exposed, Exposures(w.events)) && Sound(Exposures(w.events))
    decreases |w.events|
  {
    InitialIs(g);
    if w.events != [] {
      Before(g, w);
      var past, kind := Past(g, w), w.events[|w.events| - 1].kind;
      ExposuresAreSound(g, past);
      match kind
      case Observed(_, records) =>
        var es :| Prepare(past.state, es, SatAdd(past.state.step, 1)) == Ok(records);
        BatchIsSound(past.state, Exposures(past.events), es, SatAdd(past.state.step, 1));
      case Moved(_, _, to, _) => StatusKept(g, past.state, to);
      case _ =>
    }
  }

  /** Whatever is exposed has a well-founded derivation from disclosed or provided constraints. */
  lemma ExposedIsDerivable(g: Graph, w: World, id: nat)
    requires Genuine(g, w) && id in w.state.exposed
    ensures Derivable(Exposures(w.events), id, |Exposures(w.events)|)
  {
    ExposuresAreSound(g, w);
    var records := Exposures(w.events);
    var r :| r in records && r.constraint == id;
    var i :| 0 <= i < |records| && records[i] == r;
    SoundMeansDerivable(records, i);
    DerivableMore(records, records, id, i + 1, |records|);
  }

  /** Nothing that was exposed is ever forgotten or changed. */
  lemma LedgerOnlyGrows(g: Graph, w: World, kind: Kind)
    requires Genuine(g, w) && Lawful(g, w.state, kind)
    ensures forall id :: id in w.state.exposed ==>
              id in Replay(g, w.state, kind).exposed && Replay(g, w.state, kind).exposed[id] == w.state.exposed[id]
  {
    match kind
    case Observed(_, records) =>
      var es :| Prepare(w.state, es, SatAdd(w.state.step, 1)) == Ok(records);
      ExposuresAreSound(g, w);
      BatchIsSound(w.state, Exposures(w.events), es, SatAdd(w.state.step, 1));
      forall id | id in w.state.exposed
        ensures id in Expose(w.state.exposed, records) && Expose(w.state.exposed, records)[id] == w.state.exposed[id]
      {
        var r :| r in Exposures(w.events) && r.constraint == id;
        assert r in Exposures(w.events) + records;
      }
    case Moved(_, _, to, _) => StatusKept(g, w.state, to);
    case _ =>
  }

  // --- Active constraints ------------------------------------------------------------------------------------

  function ValueOf(op: Operation): nat
    requires Declares(op).Some?
  {
    match op case Add(_, value) => value case Replace(_, _, value) => value
  }

  /** Some operation of the graph declares the id with this value. */
  ghost predicate DeclaredAs(g: Graph, id: nat, value: nat) {
    exists op :: op in OperationsOf(g) && Declares(op) == Some(id) && ValueOf(op) == value
  }

  ghost predicate AsDeclared(g: Graph, s: State) {
    forall id :: id in s.active ==> DeclaredAs(g, id, s.active[id])
  }

  lemma {:induction false} OperationsAsDeclared(g: Graph, s: State, node: nat, ops: seq<Operation>)
    requires AsDeclared(g, s) && (forall op :: op in ops ==> op in OperationsOf(g)) && ApplyOperations(s, node, ops).Ok?
    ensures AsDeclared(g, ApplyOperations(s, node, ops).value)
    decreases |ops|
  {
    if ops != [] {
      var n := |ops| - 1;
      OperationsAsDeclared(g, s, node, ops[..n]);
      var before, after := ApplyOperations(s, node, ops[..n]).value, ApplyOperations(s, node, ops).value;
      assert ops[n] in OperationsOf(g);
      forall id | id in after.active
        ensures DeclaredAs(g, id, after.active[id])
      {
        assert (id in before.active && before.active[id] == after.active[id]) || Declares(ops[n]) == Some(id);
      }
    }
  }

  lemma NodeAsDeclared(g: Graph, s: State, node: nat)
    requires AsDeclared(g, s) && ApplyNode(g, s, node).Ok?
    ensures AsDeclared(g, ApplyNode(g, s, node).value)
  {
    forall op | op in g.nodes[node].operations
      ensures op in OperationsOf(g)
    {
      OperationHasNode(g.nodes, Ascending(g.nodes.Keys), op);
    }
    OperationsAsDeclared(g, s, node, g.nodes[node].operations);
  }

  lemma {:induction false} ActiveAsDeclared(g: Graph, w: World)
    requires Genuine(g, w)
    ensures AsDeclared(g, w.state)
    decreases |w.events|
  {
    if w.events == [] {
      NodeAsDeclared(g, BLANK.(current := g.start), g.start);
    } else {
      Before(g, w);
      var past, kind := Past(g, w), w.events[|w.events| - 1].kind;
      ActiveAsDeclared(g, past);
      if kind.Moved? { NodeAsDeclared(g, past.state, kind.to); }
    }
  }

  /** In a compiled graph each constraint has one value, so what is active always has it, on any path. */
  lemma ValuesAreFixed(g: Graph, a: World, b: World, id: nat)
    requires WellFormed(g) && Genuine(g, a) && Genuine(g, b)
    requires id in a.state.active && id in b.state.active
    ensures a.state.active[id] == b.state.active[id]
  {
    ActiveAsDeclared(g, a);
    ActiveAsDeclared(g, b);
    var ops := OperationsOf(g);
    var p :| p in ops && Declares(p) == Some(id) && ValueOf(p) == a.state.active[id];
    var q :| q in ops && Declares(q) == Some(id) && ValueOf(q) == b.state.active[id];
    var i :| 0 <= i < |ops| && ops[i] == p;
    var j :| 0 <= j < |ops| && ops[j] == q;
    assert i == j;
  }
}
