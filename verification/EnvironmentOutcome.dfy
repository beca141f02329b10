/** What operations, exposures, resets and steps come to. */
module EnvironmentOutcomes {
  import opened Prelude
  import opened TaskGraphs
  import opened EnvironmentRun
  import opened EnvironmentFacts

  // Said of the constraints and of the recorded events, independently of how they are computed.

  // --- What is active ------------------------------------------------------------------------------------

  /** The operation says something about the constraint. */
  predicate Names(op: Operation, id: nat) {
    match op
    case Add(declared, _) => declared == id
    case Replace(target, declared, _) => declared == id || target == id
    case Remove(target) => target == id
  }

  /** The last entry that names the constraint is this one. */
  ghost predicate IsLast(applied: seq<Application>, id: nat, i: int) {
    0 <= i < |applied| && Names(applied[i].operation, id) && forall j :: i < j < |applied| ==> !Names(applied[j].operation, id)
  }

  ghost predicate LastDeclares(applied: seq<Application>, id: nat) {
    exists i :: IsLast(applied, id, i) && Declares(applied[i].operation) == Some(id)
  }

  /** An active constraint was declared by the last entry that names it, with its value. */
  ghost predicate ByLastEntry(s: State, id: nat) {
    && (id in s.active <==> LastDeclares(s.applied, id))
    && (id in s.active ==> forall i :: IsLast(s.applied, id, i) ==> Declares(s.applied[i].operation).Some?
                                                                      && ValueOf(s.applied[i].operation) == s.active[id])
  }

  ghost predicate AllByLastEntry(s: State) {
    forall id :: ByLastEntry(s, id)
  }

  lemma LastEntryMore(applied: seq<Application>, a: Application, id: nat)
    ensures Names(a.operation, id) ==> forall i :: IsLast(applied + [a], id, i) <==> i == |applied|
    ensures !Names(a.operation, id) ==> forall i :: IsLast(applied + [a], id, i) <==> IsLast(applied, id, i)
  {
    var more := applied + [a];
    forall i
      ensures Names(a.operation, id) ==> (IsLast(more, id, i) <==> i == |applied|)
      ensures !Names(a.operation, id) ==> (IsLast(more, id, i) <==> IsLast(applied, id, i))
    {
      assert more[|applied|] == a;
      if 0 <= i < |applied| { assert more[i] == applied[i]; }
      assert forall j :: 0 <= j < |applied| ==> more[j] == applied[j];
    }
  }

  lemma OperationByLastEntry(s: State, node: nat, op: Operation)
    requires AllByLastEntry(s) && ApplyOperation(s, node, op).Ok?
    ensures AllByLastEntry(ApplyOperation(s, node, op).value)
  {
    var t := ApplyOperation(s, node, op).value;
    forall id
      ensures ByLastEntry(t, id)
    {
      assert ByLastEntry(s, id);
      EntryDecides(s, t, Application(node, op), id);
    }
  }

  lemma EntryDecides(s: State, t: State, a: Application, id: nat)
    requires ByLastEntry(s, id) && t.applied == s.applied + [a]
    requires Names(a.operation, id) ==> (id in t.active <==> Declares(a.operation) == Some(id))
    requires Names(a.operation, id) && id in t.active ==> t.active[id] == ValueOf(a.operation)
    requires !Names(a.operation, id) ==> (id in t.active <==> id in s.active) && (id in s.active ==> t.active[id] == s.active[id])
    ensures ByLastEntry(t, id)
  {
    var n := |s.applied|;
    LastEntryMore(s.applied, a, id);
    assert t.applied[n] == a && forall i :: 0 <= i < n ==> t.applied[i] == s.applied[i];
    if Names(a.operation, id) {
      assert IsLast(t.applied, id, n);
    } else {
      if i :| IsLast(s.applied, id, i) && Declares(s.applied[i].operation) == Some(id) { assert IsLast(t.applied, id, i); }
      if i :| IsLast(t.applied, id, i) && Declares(t.applied[i].operation) == Some(id) { assert IsLast(s.applied, id, i); }
    }
  }

  lemma {:induction false} OperationsByLastEntry(s: State, node: nat, ops: seq<Operation>)
    requires AllByLastEntry(s) && ApplyOperations(s, node, ops).Ok?
    ensures AllByLastEntry(ApplyOperations(s, node, ops).value)
    decreases |ops|
  {
    if ops != [] {
      OperationsByLastEntry(s, node, ops[..|ops| - 1]);
      OperationByLastEntry(ApplyOperations(s, node, ops[..|ops| - 1]).value, node, ops[|ops| - 1]);
    }
  }

  lemma NothingApplied(s: State)
    requires s.active == map[] && s.applied == []
    ensures AllByLastEntry(s)
  {
    forall id ensures ByLastEntry(s, id) {
      assert forall i :: !IsLast(s.applied, id, i);
    }
  }

  lemma SameEntries(s: State, t: State)
    requires AllByLastEntry(s) && t.active == s.active && t.applied == s.applied
    ensures AllByLastEntry(t)
  {
    forall id ensures ByLastEntry(t, id) { assert ByLastEntry(s, id); }
  }

  /**
   * In every world that came about by lawful events a constraint is active exactly if the last applied
   * operation that names it declares it, and then with the value it was declared with.
   */
  lemma {:induction false} ActiveByLastEntry(g: Graph, w: World)
    requires Genuine(g, w)
    ensures AllByLastEntry(w.state)
    decreases |w.events|
  {
    if w.events == [] {
      NothingApplied(BLANK.(current := g.start));
      OperationsByLastEntry(BLANK.(current := g.start), g.start, g.nodes[g.start].operations);
    } else {
      Before(g, w);
      var past, kind := Past(g, w), w.events[|w.events| - 1].kind;
      ActiveByLastEntry(g, past);
      if kind.Moved? {
        OperationsByLastEntry(past.state, kind.to, g.nodes[kind.to].operations);
        SameEntries(ApplyNode(g, past.state, kind.to).value, w.state);
      } else {
        SameEntries(past.state, w.state);
      }
    }
  }

  // --- What was applied ------------------------------------------------------------------------------------

  /** The operations of a node, as entries. */
  function Entries(g: Graph, node: nat): seq<Application>
    requires node in g.nodes
  {
    seq(|g.nodes[node].operations|, i requires 0 <= i < |g.nodes[node].operations| => Application(node, g.nodes[node].operations[i]))
  }

  /** The operations of the nodes that were entered, in order. */
  function EntriesAlong(g: Graph, nodes: seq<nat>): seq<Application>
    requires forall n :: n in nodes ==> n in g.nodes
  {
    if nodes == [] then [] else EntriesAlong(g, nodes[..|nodes| - 1]) + Entries(g, nodes[|nodes| - 1])
  }

  /** The nodes that moves lead to, behind the start. */
  function Entered(start: nat, events: seq<Event>): seq<nat> {
    if events == [] then [start]
    else
      var n := |events| - 1;
      Entered(start, events[..n]) + if events[n].kind.Moved? then [events[n].kind.to] else []
  }

  lemma {:induction false} OperationsAreEntries(s: State, node: nat, ops: seq<Operation>)
    requires ApplyOperations(s, node, ops).Ok?
    ensures ApplyOperations(s, node, ops).value.applied == s.applied + seq(|ops|, i requires 0 <= i < |ops| => Application(node, ops[i]))
    decreases |ops|
  {
    if ops != [] {
      var n := |ops| - 1;
      OperationsAreEntries(s, node, ops[..n]);
      assert seq(|ops|, i requires 0 <= i < |ops| => Application(node, ops[i]))
          == seq(n, i requires 0 <= i < n => Application(node, ops[..n][i])) + [Application(node, ops[n])];
    }
  }

  /** Exactly the operations of the nodes along the path were applied, each node's all and in order. */
  lemma {:induction false} AppliedAlongPath(g: Graph, w: World)
    requires Genuine(g, w)
    ensures forall n :: n in Entered(g.start, w.events) ==> n in g.nodes
    ensures w.state.applied == EntriesAlong(g, Entered(g.start, w.events))
    decreases |w.events|
  {
    if w.events == [] {
      NodeAddsEntries(g, BLANK.(current := g.start), g.start);
      OneMoreNode(g, [], g.start);
      assert [] + [g.start] == [g.start];
    } else {
      Before(g, w);
      AppliedAlongPath(g, Past(g, w));
      EventAddsEntries(g, Past(g, w), w.events[|w.events| - 1].kind);
    }
  }

  lemma EventAddsEntries(g: Graph, past: World, kind: Kind)
    requires Lawful(g, past.state, kind) && forall n :: n in Entered(g.start, past.events) ==> n in g.nodes
    requires past.state.applied == EntriesAlong(g, Entered(g.start, past.events))
    ensures var nodes := Entered(g.start, past.events) + if kind.Moved? then [kind.to] else [];
            (forall n :: n in nodes ==> n in g.nodes) && Replay(g, past.state, kind).applied == EntriesAlong(g, nodes)
  {
    var nodes := Entered(g.start, past.events);
    if kind.Moved? {
      NodeAddsEntries(g, past.state, kind.to);
      OneMoreNode(g, nodes, kind.to);
    } else {
      assert nodes + [] == nodes;
    }
  }

  lemma NodeAddsEntries(g: Graph, s: State, node: nat)
    requires ApplyNode(g, s, node).Ok?
    ensures node in g.nodes && ApplyNode(g, s, node).value.applied == s.applied + Entries(g, node)
  {
    OperationsAreEntries(s, node, g.nodes[node].operations);
  }

  lemma OneMoreNode(g: Graph, nodes: seq<nat>, node: nat)
    requires (forall n :: n in nodes ==> n in g.nodes) && node in g.nodes
    ensures EntriesAlong(g, nodes + [node]) == EntriesAlong(g, nodes) + Entries(g, node)
  {
    assert (nodes + [node])[..|nodes|] == nodes;
  }

  // --- Which exposures are accepted --------------------------------------------------------------------------

  /** The constraint is exposed already or by an earlier exposure of the batch. */
  ghost predicate Available(s: State, es: seq<Exposure>, i: nat, id: nat)
    requires i <= |es|
  {
    id in s.exposed || exists j :: 0 <= j < i && es[j].constraint == id
  }

  ghost predicate Acceptable(s: State, es: seq<Exposure>, i: nat)
    requires i < |es|
  {
    && es[i].constraint in s.active && !Available(s, es, i, es[i].constraint)
    && match es[i].origin
       case Disclosed => true
       case Derived(inputs, rule) =>
         inputs != [] && rule != 0 && forall input :: input in inputs ==> input in s.active && Available(s, es, i, input)
       case ContextProvided(source) => source != 0
  }

  /** The records say what was exposed, from where and when. */
  predicate RecordsOf(es: seq<Exposure>, sequence: nat, records: seq<Record>) {
    |records| == |es| && forall i :: 0 <= i < |es| ==> records[i] == Record(es[i].constraint, es[i].origin, sequence)
  }

  lemma AcceptableIs(s: State, es: seq<Exposure>, i: nat, records: seq<Record>, sequence: nat)
    requires i < |es| && RecordsOf(es[..i], sequence, records)
    ensures Acceptable(s, es, i) <==> Refusal(s, s.exposed.Keys + Constraints(records), es[i]).None?
  {
    forall id
      ensures Available(s, es, i, id) <==> id in s.exposed.Keys + Constraints(records)
    {
      if j :| 0 <= j < i && es[j].constraint == id { assert es[..i][j] == es[j] && records[j] in records; }
      if id in Constraints(records) {
        var r :| r in records && r.constraint == id;
        var j :| 0 <= j < |records| && records[j] == r;
        assert es[..i][j] == es[j];
      }
    }
  }

  lemma AcceptableStays(s: State, es: seq<Exposure>, n: nat, i: nat)
    requires i < n <= |es|
    ensures Acceptable(s, es[..n], i) <==> Acceptable(s, es, i)
  {
    assert es[..n][i] == es[i];
    forall id
      ensures Available(s, es[..n], i, id) <==> Available(s, es, i, id)
    {
      if j :| 0 <= j < i && es[j].constraint == id { assert es[..n][j] == es[j]; }
      if j :| 0 <= j < i && es[..n][j].constraint == id { assert es[..n][j] == es[j]; }
    }
  }

  /** A batch is accepted exactly if each exposure is acceptable behind those before it, and recorded as it is. */
  lemma {:induction false} PreparedIffAcceptable(s: State, es: seq<Exposure>, sequence: nat)
    ensures Prepare(s, es, sequence).Ok? <==> forall i :: 0 <= i < |es| ==> Acceptable(s, es, i)
    ensures Prepare(s, es, sequence).Ok? ==> RecordsOf(es, sequence, Prepare(s, es, sequence).value)
    decreases |es|
  {
    if es != [] {
      var n := |es| - 1;
      PreparedIffAcceptable(s, es[..n], sequence);
      forall i | 0 <= i < n
        ensures Acceptable(s, es[..n], i) <==> Acceptable(s, es, i)
      {
        AcceptableStays(s, es, n, i);
      }
      if Prepare(s, es[..n], sequence).Ok? { AcceptableIs(s, es, n, Prepare(s, es[..n], sequence).value, sequence); }
    }
  }

  /** Why a single exposure is refused, in the order of the checks. */
  lemma RefusalReasons(s: State, available: set<nat>, e: Exposure)
    ensures e.constraint !in s.active ==> Refusal(s, available, e) == Some(InactiveExposure(e.constraint))
    ensures e.constraint in s.active && e.constraint in available ==> Refusal(s, available, e) == Some(AlreadyExposed(e.constraint))
    ensures e.constraint in s.active && e.constraint !in available ==>
              match e.origin
              case Disclosed => Refusal(s, available, e).None?
              case ContextProvided(source) => Refusal(s, available, e) == if source == 0 then Some(EmptySource(e.constraint)) else None
              case Derived(inputs, rule) =>
                && (inputs == [] ==> Refusal(s, available, e) == Some(NoInputs(e.constraint)))
                && (inputs != [] && rule == 0 ==> Refusal(s, available, e) == Some(EmptyRule(e.constraint)))
                && (inputs != [] && rule != 0 && inputs[0] !in s.active ==> Refusal(s, available, e) == Some(InactiveInput(e.constraint, inputs[0])))
                && (inputs != [] && rule != 0 && inputs[0] in s.active && inputs[0] !in available ==>
                      Refusal(s, available, e) == Some(UnexposedInput(e.constraint, inputs[0])))
  {
  }

  // --- What a call records -----------------------------------------------------------------------------------

  /** The kinds of the events behind those of the first world. */
  ghost predicate Adds(w: World, w': World, kinds: seq<Kind>) {
    |w'.events| == |w.events| + |kinds| && w'.events[..|w.events|] == w.events
    && forall i :: 0 <= i < |kinds| ==> w'.events[|w.events| + i].kind == kinds[i]
  }

  lemma AddsNothing(w: World)
    ensures Adds(w, w, [])
  {
  }

  lemma AddsOne(g: Graph, w: World, v: World, kinds: seq<Kind>, kind: Kind)
    requires Adds(w, v, kinds)
    ensures Adds(w, Happens(g, v, kind), kinds + [kind])
  {
    var events := Happens(g, v, kind).events;
    assert events[..|w.events|] == v.events[..|w.events|];
    forall i | 0 <= i < |kinds + [kind]|
      ensures events[|w.events| + i].kind == (kinds + [kind])[i]
    {
      if i < |kinds| { assert events[|w.events| + i] == v.events[|w.events| + i]; }
    }
  }

  /** How an observation ends: with the event of what is active and exposed, or refused without a trace. */
  ghost predicate Observes(w: World, v: World, kinds: seq<Kind>, content: Result<Content, nat>, w': World, result: Result<Output, EnvError>) {
    if content.Err? then Adds(w, w', kinds) && w'.state == v.state && result == Err(Foreign(content.error))
    else if content.value.text == 0 then Adds(w, w', kinds) && w'.state == v.state && result == Err(EmptyText)
    else if forall i :: 0 <= i < |content.value.exposures| ==> Acceptable(v.state, content.value.exposures, i) then
      exists records, seen :: RecordsOf(content.value.exposures, SatAdd(v.state.step, 1), records)
        && Shown(w'.state, seen) && Adds(w, w', kinds + [Observed(Observation(content.value.text, seen), records)])
        && result == Ok(Output(Some(Observation(content.value.text, seen)), v.state.status))
    else Adds(w, w', kinds) && w'.state == v.state && result.Err?
  }

  ghost predicate Shown(s: State, seen: map<nat, nat>) {
    forall id :: (id in seen <==> id in s.active && id in s.exposed) && (id in seen ==> seen[id] == s.active[id])
  }

  lemma ObservationOutcome(g: Graph, w: World, v: World, kinds: seq<Kind>, content: Result<Content, nat>)
    requires Adds(w, v, kinds)
    ensures Observes(w, v, kinds, content, Observe(g, v, content).world, Observe(g, v, content).result)
  {
    if content.Ok? && content.value.text != 0 {
      var es, sequence := content.value.exposures, SatAdd(v.state.step, 1);
      PreparedIffAcceptable(v.state, es, sequence);
      if Prepare(v.state, es, sequence).Ok? {
        var records := Prepare(v.state, es, sequence).value;
        var seen := Visible(v.state.(exposed := Expose(v.state.exposed, records)));
        var w' := Observe(g, v, content).world;
        AddsOne(g, w, v, kinds, Observed(Observation(content.value.text, seen), records));
        assert Shown(w'.state, seen);
      }
    }
  }

  /** A reset records the start, and ends at once on a terminal node; otherwise it observes. */
  lemma ResetOutcome(g: Graph, w: World, content: Result<Content, nat>)
    ensures var o := AfterReset(g, w, content);
            if !w.state.status.NotStarted? then o == Outcome(w, Err(AlreadyReset))
            else
              var start := w.state.current;
              if start !in g.nodes then Adds(w, o.world, [Started(start)]) && o.result == Err(UnknownNode(start))
              else if g.nodes[start].terminal then
                Adds(w, o.world, [Started(start), Ended(TerminalNode(start))]) && o.result == Ok(Output(None, Terminated))
              else exists v :: Adds(w, v, [Started(start)]) && v.state.status.Running? && Observes(w, v, [Started(start)], content, o.world, o.result)
  {
    if w.state.status.NotStarted? {
      var start := w.state.current;
      var started := Happens(g, w, Started(start));
      AddsNothing(w);
      AddsOne(g, w, w, [], Started(start));
      assert [] + [Started(start)] == [Started(start)];
      AddsOne(g, w, started, [Started(start)], Ended(TerminalNode(start)));
      assert [Started(start)] + [Ended(TerminalNode(start))] == [Started(start), Ended(TerminalNode(start))];
      ObservationOutcome(g, w, started, [Started(start)], content);
    }
  }

  /** Where a step stands once its decision was carried out. */
  ghost predicate Decides(g: Graph, w: World, action: nat, d: Decision, v: World, kinds: seq<Kind>) {
    var before := [Acted(action), Decided(d)];
    match d
    case Retry(_) => kinds == before && v.state.current == w.state.current && v.state.active == w.state.active
    case Terminate(reason) => kinds == before + [Ended(Controller(reason))]
    case Move(t, evidence) =>
      t in g.transitions
      && var to := g.transitions[t].to;
         v.state.current == to
         && kinds == before + [Moved(t, w.state.current, to, evidence)]
                     + if to in g.nodes && g.nodes[to].terminal then [Ended(TerminalNode(to))] else []
  }

  /** The events say so, and whether that was the end. */
  ghost predicate CarriesOut(g: Graph, w: World, action: nat, d: Decision, v: World, kinds: seq<Kind>) {
    && Decides(g, w, action, d, v, kinds) && Adds(w, v, kinds) && kinds != []
    && if kinds[|kinds| - 1].Ended? then v.state.status.Terminated? else v.state.status.Running?
  }

  /** A move that cannot be made leaves the constraints and the node as they were. */
  ghost predicate CannotMove(g: Graph, w: World, action: nat, d: Decision, w': World, error: EnvError) {
    && d.Move? && Adds(w, w', [Acted(action), Decided(d)])
    && w'.state.current == w.state.current && w'.state.active == w.state.active && w'.state.applied == w.state.applied
    && if d.transition !in g.transitions then error == UnknownTransition(d.transition)
       else if g.transitions[d.transition].from != w.state.current then error == WrongStart(d.transition)
       else ApplyNode(g, w.state, g.transitions[d.transition].to) == Err(error)
  }

  lemma DecidedAdds(g: Graph, w: World, action: nat, d: Decision)
    ensures Adds(w, Happens(g, Happens(g, w, Acted(action)), Decided(d)), [Acted(action), Decided(d)])
  {
    AddsNothing(w);
    AddsOne(g, w, w, [], Acted(action));
    AddsOne(g, w, Happens(g, w, Acted(action)), [] + [Acted(action)], Decided(d));
    assert [] + [Acted(action)] + [Decided(d)] == [Acted(action), Decided(d)];
  }

  lemma DecisionOutcome(g: Graph, w: World, action: nat, d: Decision)
    requires w.state.status.Running?
    ensures var v := Happens(g, Happens(g, w, Acted(action)), Decided(d));
            var o := AfterDecision(g, v, d);
            if o.result.Err? then CannotMove(g, w, action, d, o.world, o.result.error)
            else exists kinds :: CarriesOut(g, w, action, d, o.world, kinds)
  {
    var v := Happens(g, Happens(g, w, Acted(action)), Decided(d));
    var before := [Acted(action), Decided(d)];
    DecidedAdds(g, w, action, d);
    match d
    case Retry(_) => assert CarriesOut(g, w, action, d, v, before);
    case Terminate(reason) =>
      AddsOne(g, w, v, before, Ended(Controller(reason)));
      assert CarriesOut(g, w, action, d, AfterDecision(g, v, d).world, before + [Ended(Controller(reason))]);
    case Move(t, evidence) => MoveOutcome(g, w, v, action, d);
  }

  lemma SameLedgerSameNode(g: Graph, s: State, t: State, node: nat)
    requires t == s.(step := t.step)
    ensures ApplyNode(g, t, node) == match ApplyNode(g, s, node) case Ok(u) => Ok(u.(step := t.step)) case Err(e) => Err(e)
  {
    if node in g.nodes { SameLedgerSameOperations(s, t, node, g.nodes[node].operations); }
  }

  lemma {:induction false} SameLedgerSameOperations(s: State, t: State, node: nat, ops: seq<Operation>)
    requires t == s.(step := t.step)
    ensures ApplyOperations(t, node, ops) == match ApplyOperations(s, node, ops) case Ok(u) => Ok(u.(step := t.step)) case Err(e) => Err(e)
    decreases |ops|
  {
    if ops != [] { SameLedgerSameOperations(s, t, node, ops[..|ops| - 1]); }
  }

  lemma MoveOutcome(g: Graph, w: World, v: World, action: nat, d: Decision)
    requires w.state.status.Running? && d.Move? && v.state == w.state.(step := v.state.step) && Adds(w, v, [Acted(action), Decided(d)])
    ensures var o := AfterTransition(g, v, d.transition, d.evidence);
            if o.result.Err? then CannotMove(g, w, action, d, o.world, o.result.error)
            else exists kinds :: CarriesOut(g, w, action, d, o.world, kinds)
  {
    var before, t := [Acted(action), Decided(d)], d.transition;
    if t in g.transitions {
      var to := g.transitions[t].to;
      SameLedgerSameNode(g, w.state, v.state, to);
      if g.transitions[t].from == w.state.current && ApplyNode(g, v.state, to).Ok? {
        StatusKept(g, v.state, to);
        var move := Moved(t, w.state.current, to, d.evidence);
        var moved := Happens(g, v, move);
        AddsOne(g, w, v, before, move);
        AddsOne(g, w, moved, before + [move], Ended(TerminalNode(to)));
        var ends := if to in g.nodes && g.nodes[to].terminal then [Ended(TerminalNode(to))] else [];
        assert before + [move] + [] == before + [move];
        assert CarriesOut(g, w, action, d, AfterTransition(g, v, t, d.evidence).world, before + [move] + ends);
      }
    }
  }

  /**
   * A step records the action and the decision, then what the decision came to, and ends with a termination or
   * an observation. A decision that cannot be had or carried out ends it before, with the constraints as they were.
   */
  lemma StepOutcome(g: Graph, w: World, action: nat, decision: Result<Decision, nat>, content: Result<Content, nat>)
    ensures var o := AfterStep(g, w, action, decision, content);
            if !w.state.status.Running? then o == Outcome(w, Err(NotRunning))
            else if decision.Err? then Adds(w, o.world, [Acted(action)]) && o.result == Err(Foreign(decision.error)) && o.world.state.active == w.state.active
            else (o.result.Err? && CannotMove(g, w, action, decision.value, o.world, o.result.error))
                 || exists v, kinds :: StepEnds(g, w, action, decision.value, content, v, kinds, o)
  {
    if w.state.status.Running? {
      AddsNothing(w);
      AddsOne(g, w, w, [], Acted(action));
      assert [] + [Acted(action)] == [Acted(action)];
      if decision.Ok? {
        DecisionOutcome(g, w, action, decision.value);
        var decided := AfterDecision(g, Happens(g, Happens(g, w, Acted(action)), Decided(decision.value)), decision.value);
        if decided.result.Ok? {
          var kinds :| CarriesOut(g, w, action, decision.value, decided.world, kinds);
          ObservationOutcome(g, w, decided.world, kinds, content);
          assert StepEnds(g, w, action, decision.value, content, decided.world, kinds, AfterStep(g, w, action, decision, content));
        }
      }
    }
  }

  ghost predicate StepEnds(g: Graph, w: World, action: nat, d: Decision, content: Result<Content, nat>, v: World, kinds: seq<Kind>, o: Outcome<Output>) {
    && CarriesOut(g, w, action, d, v, kinds)
    && if kinds[|kinds| - 1].Ended? then o == Outcome(v, Ok(Output(None, Terminated)))
       else v.state.status.Running? && Observes(w, v, kinds, content, o.world, o.result)
  }
}
