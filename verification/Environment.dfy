/**
 * The graph environment as it runs: a state that its methods change in place, saving and restoring it
 * when something fails, and a growing list of events. What the controller decides and what the realizer
 * puts into an observation, or their errors, are arguments. Each method does to the state and the events
 * what the event-sourced description says, and returns what it says.
 */
module Environment {
  import opened Prelude
  import opened TaskGraphs
  import opened EnvironmentRun

  /** The operation makes its id active with its value, and its target inactive, and changes nothing else. */
  ghost predicate Turns(before: map<nat, nat>, op: Operation, after: map<nat, nat>) {
    match op
    case Add(id, value) => id in after && after[id] == value && SameBut(before, after, {id})
    case Replace(target, id, value) => id in after && after[id] == value && (target != id ==> target !in after) && SameBut(before, after, {target, id})
    case Remove(target) => target !in after && SameBut(before, after, {target})
  }

  ghost predicate SameBut(before: map<nat, nat>, after: map<nat, nat>, ids: set<nat>) {
    forall id :: id !in ids ==> (id in after <==> id in before) && (id in before ==> after[id] == before[id])
  }

  class GraphEnvironment {
    const graph: Graph
    var state: State
    var events: seq<Event>

    function Now(): World
      reads this
    {
      World(state, events)
    }

    /** A new environment stands on its start node, or cannot be had. */
    constructor (graph: Graph)
      requires Initial(graph).Ok?
      ensures this.graph == graph && Now() == World(Initial(graph).value, [])
    {
      this.graph := graph;
      state, events := BLANK.(current := graph.start), [];
      new;
      var failure := ApplyNodeInPlace(graph.start);
    }

    method RecordEvent(kind: Kind)
      modifies this
      ensures state == old(state).(step := SatAdd(old(state.step), 1))
      ensures events == old(events) + [Event(SatAdd(old(state.step), 1), kind)]
    {
      state := state.(step := SatAdd(state.step, 1));
      events := events + [Event(state.step, kind)];
    }

    /** The map is changed before the check, as an insertion reports what it replaced. */
    method ApplyConstraint(node: nat, op: Operation) returns (failure: Option<EnvError>)
      modifies this`state
      ensures failure.None? ==> ApplyOperation(old(state), node, op) == Ok(state)
      ensures failure.Some? ==> ApplyOperation(old(state), node, op) == Err(failure.value)
      ensures failure.None? ==>
                Turns(old(state.active), op, state.active)
                && state == old(state).(active := state.active, applied := old(state.applied) + [Application(node, op)])
      ensures failure == match op
                         case Add(id, _) => if id in old(state.active) then Some(AlreadyActive(id)) else None
                         case Replace(target, _, _) => if target in old(state.active) then None else Some(NotActive(target))
                         case Remove(target) => if target in old(state.active) then None else Some(NotActive(target))
    {
      match op {
      case Add(id, value) =>
        var replaced := id in state.active;
        state := state.(active := state.active[id := value]);
        if replaced { return Some(AlreadyActive(id)); }
      case Replace(target, id, value) =>
        var removed := target in state.active;
        state := state.(active := state.active - {target});
        if !removed { return Some(NotActive(target)); }
        state := state.(active := state.active[id := value]);
      case Remove(target) =>
        var removed := target in state.active;
        state := state.(active := state.active - {target});
        if !removed { return Some(NotActive(target)); }
      }
      state := state.(applied := state.applied + [Application(node, op)]);
      failure := None;
    }

    /** All operations of a node, or none. */
    method ApplyNodeInPlace(node: nat) returns (failure: Option<EnvError>)
      modifies this`state
      ensures if failure.None? then ApplyNode(graph, old(state), node) == Ok(state)
              else state == old(state) && ApplyNode(graph, state, node) == Err(failure.value)
    {
      if node !in graph.nodes { return Some(UnknownNode(node)); }
      var operations := graph.nodes[node].operations;
      var previous := state;
      for i := 0 to |operations|
        invariant ApplyOperations(previous, node, operations[..i]) == Ok(state)
      {
        assert operations[..i + 1][..i] == operations[..i];
        failure := ApplyConstraint(node, operations[i]);
        if failure.Some? {
          ErrorStays(previous, node, operations, i + 1);
          state := previous;
          return;
        }
      }
      assert operations[..|operations|] == operations;
      failure := None;
    }

    method Finish(reason: Reason)
      modifies this
      ensures Now() == Happens(graph, old(Now()), Ended(reason))
    {
      state := state.(status := Terminated, termination := Some(reason));
      RecordEvent(Ended(reason));
    }

    method ApplyTransition(t: nat, evidence: nat) returns (failure: Option<EnvError>)
      modifies this
      ensures AfterTransition(graph, old(Now()), t, evidence)
           == Outcome(Now(), if failure.None? then Ok(()) else Err(failure.value))
    {
      if t !in graph.transitions { return Some(UnknownTransition(t)); }
      var spec := graph.transitions[t];
      if spec.from != state.current { return Some(WrongStart(t)); }
      var previous := state;
      failure := ApplyNodeInPlace(spec.to);
      if failure.Some? {
        state := previous;
        return;
      }
      StatusAfter(graph, previous, spec.to);
      var from := state.current;
      state := state.(current := spec.to);
      RecordEvent(Moved(t, from, spec.to, evidence));
      assert Now() == Happens(graph, old(Now()), Moved(t, from, spec.to, evidence));
      if spec.to in graph.nodes && graph.nodes[spec.to].terminal {
        Finish(TerminalNode(spec.to));
      }
    }

    method ApplyDecision(d: Decision) returns (failure: Option<EnvError>)
      modifies this
      ensures AfterDecision(graph, old(Now()), d) == Outcome(Now(), if failure.None? then Ok(()) else Err(failure.value))
    {
      failure := None;
      match d {
      case Move(t, evidence) => failure := ApplyTransition(t, evidence);
      case Retry(_) =>
      case Terminate(reason) => Finish(Controller(reason));
      }
    }

    /** The exposures one after the other, each available to the next. */
    method PrepareExposureRecords(exposures: seq<Exposure>, sequence: nat) returns (r: Result<seq<Record>, EnvError>)
      ensures r == Prepare(state, exposures, sequence)
    {
      var available := state.exposed.Keys;
      var records: seq<Record> := [];
      for i := 0 to |exposures|
        invariant Prepare(state, exposures[..i], sequence) == Ok(records)
        invariant available == state.exposed.Keys + Constraints(records)
      {
        assert exposures[..i + 1][..i] == exposures[..i];
        var e := exposures[i];
        var refusal := Refusal(state, available, e);
        if refusal.Some? {
          RefusalStays(state, exposures, sequence, i + 1);
          return Err(refusal.value);
        }
        available := available + {e.constraint};
        records := records + [Record(e.constraint, e.origin, sequence)];
      }
      assert exposures[..|exposures|] == exposures;
      r := Ok(records);
    }

    /** What is exposed and still active, at its current value. */
    method VisibleState() returns (visible: map<nat, nat>)
      ensures visible == Visible(state)
    {
      visible := map[];
      var ids := Ascending(state.exposed.Keys);
      for i := 0 to |ids|
        invariant forall j :: 0 <= j < i && ids[j] in state.active ==> ids[j] in visible
        invariant forall id :: id in visible ==> id in state.exposed && id in state.active && visible[id] == state.active[id]
      {
        assert ids[i] in ids;
        if ids[i] in state.active {
          visible := visible[ids[i] := state.active[ids[i]]];
        }
      }
      forall id | id in state.exposed && id in state.active
        ensures id in visible
      {
        assert id in ids;
      }
    }

    method ExposeAll(records: seq<Record>)
      modifies this`state
      ensures state == old(state).(exposed := Expose(old(state).exposed, records))
    {
      for i := 0 to |records|
        invariant state == old(state).(exposed := Expose(old(state).exposed, records[..i]))
      {
        assert records[..i + 1][..i] == records[..i];
        state := state.(exposed := state.exposed[records[i].constraint := records[i]]);
      }
      assert records[..|records|] == records;
    }

    ghost predicate Shows(visible: map<nat, nat>)
      reads this
    {
      && (forall id :: id in visible <==> id in state.active && id in state.exposed)
      && (forall id :: id in visible ==> visible[id] == state.active[id])
    }

    /**
     * All exposures and the event, or no change at all. An observation shows the constraints that are both
     * active and exposed, no others, at their current values.
     */
    method EmitObservation(content: Result<Content, nat>) returns (r: Result<Observation, EnvError>)
      modifies this
      ensures AfterObservation(graph, old(Now()), content) == Outcome(Now(), r)
      ensures r.Err? ==> Now() == old(Now())
      ensures r.Ok? ==> Shows(r.value.visible) && state.active == old(state.active)
    {
      if content.Err? { return Err(Foreign(content.error)); }
      if content.value.text == 0 { return Err(EmptyText); }
      var records := PrepareExposureRecords(content.value.exposures, SatAdd(state.step, 1));
      if records.Err? { return Err(records.error); }
      ExposeAll(records.value);
      var visible := VisibleState();
      var observation := Observation(content.value.text, visible);
      RecordEvent(Observed(observation, records.value));
      r := Ok(observation);
    }

    method ResetEnvironment(content: Result<Content, nat>) returns (r: Result<Output, EnvError>)
      modifies this
      ensures AfterReset(graph, old(Now()), content) == Outcome(Now(), r)
    {
      if !state.status.NotStarted? { return Err(AlreadyReset); }
      state := state.(status := Running);
      RecordEvent(Started(state.current));
      if state.current !in graph.nodes { return Err(UnknownNode(state.current)); }
      if graph.nodes[state.current].terminal {
        Finish(TerminalNode(state.current));
        return Ok(Output(None, Terminated));
      }
      var observation := EmitObservation(content);
      r := match observation case Err(error) => Err(error) case Ok(seen) => Ok(Output(Some(seen), state.status));
    }

    method StepEnvironment(action: nat, decision: Result<Decision, nat>, content: Result<Content, nat>) returns (r: Result<Output, EnvError>)
      modifies this
      ensures AfterStep(graph, old(Now()), action, decision, content) == Outcome(Now(), r)
    {
      if !state.status.Running? { return Err(NotRunning); }
      RecordEvent(Acted(action));
      if decision.Err? { return Err(Foreign(decision.error)); }
      RecordEvent(Decided(decision.value));
      var failure := ApplyDecision(decision.value);
      if failure.Some? { return Err(failure.value); }
      if state.status.Terminated? { return Ok(Output(None, Terminated)); }
      var observation := EmitObservation(content);
      r := match observation case Err(error) => Err(error) case Ok(seen) => Ok(Output(Some(seen), state.status));
    }
  }

  lemma {:induction false} ErrorStays(s: State, node: nat, ops: seq<Operation>, i: nat)
    requires i <= |ops| && ApplyOperations(s, node, ops[..i]).Err?
    ensures ApplyOperations(s, node, ops) == ApplyOperations(s, node, ops[..i])
    decreases |ops|
  {
    if i < |ops| {
      var n := |ops| - 1;
      assert ops[..n][..i] == ops[..i];
      ErrorStays(s, node, ops[..n], i);
    } else {
      assert ops[..i] == ops;
    }
  }

  lemma {:induction false} RefusalStays(s: State, es: seq<Exposure>, sequence: nat, i: nat)
    requires i <= |es| && Prepare(s, es[..i], sequence).Err?
    ensures Prepare(s, es, sequence) == Prepare(s, es[..i], sequence)
    decreases |es|
  {
    if i < |es| {
      var n := |es| - 1;
      assert es[..n][..i] == es[..i];
      RefusalStays(s, es[..n], sequence, i);
    } else {
      assert es[..i] == es;
    }
  }

  lemma StatusAfter(g: Graph, s: State, node: nat)
    requires ApplyNode(g, s, node).Ok?
    ensures ApplyNode(g, s, node).value.step == s.step && ApplyNode(g, s, node).value.current == s.current
  {
    StatusKept(g, s, node);
  }
}
