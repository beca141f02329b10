/**
 * What an evaluation environment is: a state rebuilt from its events. Every event has a condition under
 * which it may happen and an effect on the state; the invariants of all runs follow from these.
 */
module EnvironmentRun {
  import opened Prelude
  import opened TaskGraphs

  datatype Status = NotStarted | Running | Terminated

  datatype Reason = TerminalNode(node: nat) | Controller(reason: nat)

  datatype Application = Application(node: nat, operation: Operation)

  datatype Origin = Disclosed | Derived(inputs: seq<nat>, rule: nat) | ContextProvided(source: nat)

  datatype Record = Record(constraint: nat, origin: Origin, sequence: nat)

  datatype State = State(status: Status, current: nat, active: map<nat, nat>, applied: seq<Application>,
                         exposed: map<nat, Record>, termination: Option<Reason>, step: nat)

  datatype Observation = Observation(text: nat, visible: map<nat, nat>)

  datatype Decision = Move(transition: nat, evidence: nat) | Retry(reason: nat) | Terminate(reason: nat)

  datatype Kind =
    | Started(node: nat)
    | Observed(observation: Observation, records: seq<Record>)
    | Acted(action: nat)
    | Decided(decision: Decision)
    | Moved(transition: nat, from: nat, to: nat, evidence: nat)
    | Ended(reason: Reason)

  datatype Event = Event(sequence: nat, kind: Kind)

  datatype Exposure = Exposure(constraint: nat, origin: Origin)

  datatype EnvError =
    | AlreadyReset
    | NotRunning
    | UnknownNode(node: nat)
    | UnknownTransition(transition: nat)
    | WrongStart(transition: nat)
    | AlreadyActive(id: nat)
    | NotActive(id: nat)
    | EmptyText
    | InactiveExposure(id: nat)
    | AlreadyExposed(id: nat)
    | NoInputs(id: nat)
    | EmptyRule(id: nat)
    | InactiveInput(id: nat, input: nat)
    | UnexposedInput(id: nat, input: nat)
    | EmptySource(id: nat)
    | Foreign(error: nat)

  // --- Constraints -------------------------------------------------------------------------------------

  function ApplyOperation(s: State, node: nat, op: Operation): Result<State, EnvError> {
    match op
    case Add(id, value) =>
      if id in s.active then Err(AlreadyActive(id))
      else Ok(s.(active := s.active[id := value], applied := s.applied + [Application(node, op)]))
    case Replace(target, id, value) =>
      if target !in s.active then Err(NotActive(target))
      else Ok(s.(active := (s.active - {target})[id := value], applied := s.applied + [Application(node, op)]))
    case Remove(target) =>
      if target !in s.active then Err(NotActive(target))
      else Ok(s.(active := s.active - {target}, applied := s.applied + [Application(node, op)]))
  }

  /** All operations in order, or the error of the first that fails. */
  function ApplyOperations(s: State, node: nat, ops: seq<Operation>): Result<State, EnvError> {
    if ops == [] then Ok(s)
    else
      var before := ApplyOperations(s, node, ops[..|ops| - 1]);
      if before.Err? then before else ApplyOperation(before.value, node, ops[|ops| - 1])
  }

  function ApplyNode(g: Graph, s: State, node: nat): Result<State, EnvError> {
    if node !in g.nodes then Err(UnknownNode(node)) else ApplyOperations(s, node, g.nodes[node].operations)
  }

  const BLANK: State := State(NotStarted, 0, map[], [], map[], None, 0)

  /** The state of a new environment, if the start node can be applied. */
  function Initial(g: Graph): Result<State, EnvError> {
    ApplyNode(g, BLANK.(current := g.start), g.start)
  }

  /** What is active and exposed, at its current value. */
  function Visible(s: State): map<nat, nat> {
    map id | id in s.active && id in s.exposed :: s.active[id]
  }

  // --- Exposures -----------------------------------------------------------------------------------------

  /** Why an exposure is refused, given what is exposed already. */
  function Refusal(s: State, available: set<nat>, e: Exposure): Option<EnvError> {
    if e.constraint !in s.active then Some(InactiveExposure(e.constraint))
    else if e.constraint in available then Some(AlreadyExposed(e.constraint))
    else
      match e.origin
      case Disclosed => None
      case Derived(inputs, rule) =>
        if inputs == [] then Some(NoInputs(e.constraint))
        else if rule == 0 then Some(EmptyRule(e.constraint))
        else InputRefusal(s, available, e.constraint, inputs)
      case ContextProvided(source) => if source == 0 then Some(EmptySource(e.constraint)) else None
  }

  /** The first input that is inactive or not exposed. */
  function InputRefusal(s: State, available: set<nat>, id: nat, inputs: seq<nat>): (r: Option<EnvError>)
    ensures r.None? <==> forall i :: i in inputs ==> i in s.active && i in available
    decreases |inputs|
  {
    if inputs == [] then None
    else if inputs[0] !in s.active then Some(InactiveInput(id, inputs[0]))
    else if inputs[0] !in available then Some(UnexposedInput(id, inputs[0]))
    else InputRefusal(s, available, id, inputs[1..])
  }

  function Constraints(records: seq<Record>): set<nat> {
    set r | r in records :: r.constraint
  }

  /** The records of some exposures, each of which may use the ones before it. */
  function Prepare(s: State, es: seq<Exposure>, sequence: nat): Result<seq<Record>, EnvError> {
    if es == [] then Ok([])
    else
      var n := |es| - 1;
      var before := Prepare(s, es[..n], sequence);
      if before.Err? then before
      else
        var refusal := Refusal(s, s.exposed.Keys + Constraints(before.value), es[n]);
        if refusal.Some? then Err(refusal.value) else Ok(before.value + [Record(es[n].constraint, es[n].origin, sequence)])
  }

  function Expose(exposed: map<nat, Record>, records: seq<Record>): map<nat, Record> {
    if records == [] then exposed
    else Expose(exposed, records[..|records| - 1])[records[|records| - 1].constraint := records[|records| - 1]]
  }

  // --- Events ------------------------------------------------------------------------------------------------

  /** The state after an event, as anyone can compute who knows the graph. */
  function Replay(g: Graph, s: State, kind: Kind): State {
    var t :=
      match kind
      case Started(_) => s.(status := Running)
      case Observed(_, records) => s.(exposed := Expose(s.exposed, records))
      case Acted(_) => s
      case Decided(_) => s
      case Moved(_, _, to, _) => (match ApplyNode(g, s, to) case Ok(applied) => applied.(current := to) case Err(_) => s)
      case Ended(reason) => s.(status := Terminated, termination := Some(reason));
    t.(step := SatAdd(s.step, 1))
  }

  function ReplayAll(g: Graph, s: State, events: seq<Event>): State {
    if events == [] then s else Replay(g, ReplayAll(g, s, events[..|events| - 1]), events[|events| - 1].kind)
  }

  /** When an event may happen. */
  ghost predicate Lawful(g: Graph, s: State, kind: Kind) {
    match kind
    case Started(node) => s.status.NotStarted? && node == s.current
    case Observed(observation, records) =>
      s.status.Running? && (exists es :: Prepare(s, es, SatAdd(s.step, 1)) == Ok(records))
      && observation.visible == Visible(Replay(g, s, kind)) && observation.text != 0
    case Acted(_) => s.status.Running?
    case Decided(_) => s.status.Running?
    case Moved(t, from, to, _) =>
      s.status.Running? && t in g.transitions && g.transitions[t].from == from && g.transitions[t].to == to
      && from == s.current && ApplyNode(g, s, to).Ok?
    case Ended(_) => s.status.Running?
  }

  /** Every event was lawful when it happened, and carries its number. */
  ghost predicate AllLawful(g: Graph, s: State, events: seq<Event>) {
    events == [] ||
    (var n := |events| - 1;
     AllLawful(g, s, events[..n])
     && Lawful(g, ReplayAll(g, s, events[..n]), events[n].kind)
     && events[n].sequence == SatAdd(ReplayAll(g, s, events[..n]).step, 1))
  }

  datatype World = World(state: State, events: seq<Event>)

  /** The event happens: the state takes its effect and it is appended. */
  function Happens(g: Graph, w: World, kind: Kind): World {
    World(Replay(g, w.state, kind), w.events + [Event(SatAdd(w.state.step, 1), kind)])
  }

  /** A world that came about by lawful events. */
  ghost predicate Genuine(g: Graph, w: World) {
    Initial(g).Ok? && AllLawful(g, Initial(g).value, w.events) && w.state == ReplayAll(g, Initial(g).value, w.events)
  }

  lemma HappensIsGenuine(g: Graph, w: World, kind: Kind)
    requires Genuine(g, w) && Lawful(g, w.state, kind)
    ensures Genuine(g, Happens(g, w, kind))
  {
    var events := w.events + [Event(SatAdd(w.state.step, 1), kind)];
    assert events[..|events| - 1] == w.events;
  }

  // --- The operations ----------------------------------------------------------------------------------------

  datatype Content = Content(text: nat, exposures: seq<Exposure>)

  /** A world and how the call ended. */
  datatype Outcome<T> = Outcome(world: World, result: Result<T, EnvError>)

  function AfterTransition(g: Graph, w: World, t: nat, evidence: nat): Outcome<()> {
    if t !in g.transitions then Outcome(w, Err(UnknownTransition(t)))
    else if g.transitions[t].from != w.state.current then Outcome(w, Err(WrongStart(t)))
    else
      var to := g.transitions[t].to;
      var applied := ApplyNode(g, w.state, to);
      if applied.Err? then Outcome(w, Err(applied.error))
      else
        var moved := Happens(g, w, Moved(t, w.state.current, to, evidence));
        Outcome(if to in g.nodes && g.nodes[to].terminal then Happens(g, moved, Ended(TerminalNode(to))) else moved, Ok(()))
  }

  function AfterDecision(g: Graph, w: World, d: Decision): Outcome<()> {
    match d
    case Move(t, evidence) => AfterTransition(g, w, t, evidence)
    case Retry(_) => Outcome(w, Ok(()))
    case Terminate(reason) => Outcome(Happens(g, w, Ended(Controller(reason))), Ok(()))
  }

  /** An observation, or no change at all. */
  function AfterObservation(g: Graph, w: World, content: Result<Content, nat>): Outcome<Observation> {
    if content.Err? then Outcome(w, Err(Foreign(content.error)))
    else if content.value.text == 0 then Outcome(w, Err(EmptyText))
    else
      var records := Prepare(w.state, content.value.exposures, SatAdd(w.state.step, 1));
      if records.Err? then Outcome(w, Err(records.error))
      else
        var seen := Visible(w.state.(exposed := Expose(w.state.exposed, records.value)));
        var observation := Observation(content.value.text, seen);
        Outcome(Happens(g, w, Observed(observation, records.value)), Ok(observation))
  }

  datatype Output = Output(observation: Option<Observation>, status: Status)

  function Observe(g: Graph, w: World, content: Result<Content, nat>): Outcome<Output> {
    var o := AfterObservation(g, w, content);
    Outcome(o.world, if o.result.Err? then Err(o.result.error) else Ok(Output(Some(o.result.value), o.world.state.status)))
  }

  function AfterReset(g: Graph, w: World, content: Result<Content, nat>): Outcome<Output> {
    if !w.state.status.NotStarted? then Outcome(w, Err(AlreadyReset))
    else
      var started := Happens(g, w, Started(w.state.current));
      if w.state.current !in g.nodes then Outcome(started, Err(UnknownNode(w.state.current)))
      else if g.nodes[w.state.current].terminal then
        Outcome(Happens(g, started, Ended(TerminalNode(w.state.current))), Ok(Output(None, Terminated)))
      else Observe(g, started, content)
  }

  function AfterStep(g: Graph, w: World, action: nat, decision: Result<Decision, nat>, content: Result<Content, nat>): Outcome<Output> {
    if !w.state.status.Running? then Outcome(w, Err(NotRunning))
    else
      var acted := Happens(g, w, Acted(action));
      if decision.Err? then Outcome(acted, Err(Foreign(decision.error)))
      else
        var decided := AfterDecision(g, Happens(g, acted, Decided(decision.value)), decision.value);
        if decided.result.Err? then Outcome(decided.world, Err(decided.result.error))
        else if decided.world.state.status.Terminated? then Outcome(decided.world, Ok(Output(None, Terminated)))
        else Observe(g, decided.world, content)
  }

  datatype Call =
    | Reset(content: Result<Content, nat>)
    | Step(action: nat, decision: Result<Decision, nat>, content: Result<Content, nat>)

  function AfterCall(g: Graph, w: World, c: Call): World {
    match c
    case Reset(content) => AfterReset(g, w, content).world
    case Step(action, decision, content) => AfterStep(g, w, action, decision, content).world
  }

  function AfterCalls(g: Graph, calls: seq<Call>): World
    requires Initial(g).Ok?
  {
    if calls == [] then World(Initial(g).value, [])
    else AfterCall(g, AfterCalls(g, calls[..|calls| - 1]), calls[|calls| - 1])
  }

  lemma ObservationIsGenuine(g: Graph, w: World, content: Result<Content, nat>)
    requires Genuine(g, w) && w.state.status.Running?
    ensures Genuine(g, AfterObservation(g, w, content).world)
  {
    if content.Ok? && content.value.text != 0 {
      var records := Prepare(w.state, content.value.exposures, SatAdd(w.state.step, 1));
      if records.Ok? {
        var seen := Visible(w.state.(exposed := Expose(w.state.exposed, records.value)));
        HappensIsGenuine(g, w, Observed(Observation(content.value.text, seen), records.value));
      }
    }
  }

  lemma DecisionIsGenuine(g: Graph, w: World, d: Decision)
    requires Genuine(g, w) && w.state.status.Running?
    ensures Genuine(g, AfterDecision(g, w, d).world)
    ensures !AfterDecision(g, w, d).world.state.status.NotStarted?
  {
    match d
    case Move(t, evidence) =>
      if t in g.transitions && g.transitions[t].from == w.state.current && ApplyNode(g, w.state, g.transitions[t].to).Ok? {
        var moved := Moved(t, w.state.current, g.transitions[t].to, evidence);
        StatusKept(g, w.state, g.transitions[t].to);
        HappensIsGenuine(g, w, moved);
        if g.transitions[t].to in g.nodes && g.nodes[g.transitions[t].to].terminal {
          HappensIsGenuine(g, Happens(g, w, moved), Ended(TerminalNode(g.transitions[t].to)));
        }
      }
    case Retry(_) =>
    case Terminate(reason) => HappensIsGenuine(g, w, Ended(Controller(reason)));
  }

  /** Applying a node touches the constraint ledger only. */
  lemma {:induction false} OperationsTouchLedger(s: State, node: nat, ops: seq<Operation>)
    ensures var r := ApplyOperations(s, node, ops);
            r.Ok? ==> r.value == s.(active := r.value.active, applied := r.value.applied)
    decreases |ops|
  {
    if ops != [] { OperationsTouchLedger(s, node, ops[..|ops| - 1]); }
  }

  lemma StatusKept(g: Graph, s: State, node: nat)
    requires ApplyNode(g, s, node).Ok?
    ensures var t := ApplyNode(g, s, node).value;
            t == s.(active := t.active, applied := t.applied)
  {
    OperationsTouchLedger(s, node, g.nodes[node].operations);
  }

  lemma CallIsGenuine(g: Graph, w: World, c: Call)
    requires Genuine(g, w)
    ensures Genuine(g, AfterCall(g, w, c))
  {
    match c
    case Reset(content) =>
      if w.state.status.NotStarted? {
        HappensIsGenuine(g, w, Started(w.state.current));
        var started := Happens(g, w, Started(w.state.current));
        if w.state.current in g.nodes && g.nodes[w.state.current].terminal {
          HappensIsGenuine(g, started, Ended(TerminalNode(w.state.current)));
        } else {
          ObservationIsGenuine(g, started, content);
        }
      }
    case Step(action, decision, content) =>
      if w.state.status.Running? {
        HappensIsGenuine(g, w, Acted(action));
        if decision.Ok? {
          var acted := Happens(g, w, Acted(action));
          HappensIsGenuine(g, acted, Decided(decision.value));
          var announced := Happens(g, acted, Decided(decision.value));
          DecisionIsGenuine(g, announced, decision.value);
          var decided := AfterDecision(g, announced, decision.value).world;
          if decided.state.status.Running? { ObservationIsGenuine(g, decided, content); }
        }
      }
  }

  /**
   * Event sourcing: in every run, whatever calls failed or were rolled back, the state is what its events
   * replay to from the initial state, and every event was lawful when it happened.
   */
  lemma {:induction false} EventsRebuildState(g: Graph, calls: seq<Call>)
    requires Initial(g).Ok?
    ensures Genuine(g, AfterCalls(g, calls))
    decreases |calls|
  {
    if calls != [] {
      EventsRebuildState(g, calls[..|calls| - 1]);
      CallIsGenuine(g, AfterCalls(g, calls[..|calls| - 1]), calls[|calls| - 1]);
    }
  }
}
