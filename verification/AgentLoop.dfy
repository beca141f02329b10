/**
 * The agent loop as it runs: it loads the stored thread, works on a copy and commits the copy. What the
 * model, the functions, the hooks and the caller do is arbitrary but given, so that each step of the loop
 * is determined. Every commit and every start of a function is one action of the turn machine, so all that
 * holds of the machine's runs holds here, also when the process dies between two of these points.
 */
module AgentLoops {
  import opened Prelude
  import opened TurnItems
  import opened TurnMachine
  import opened TurnSafety
  import opened TurnTheorems

  datatype Outcome = AssistantMessage(text: Text) | CompletedWithoutMessage | SuspendedOutcome(suspension: Suspension) | FailedOutcome | AbortedOutcome

  datatype LoopError = SuspendedTurn(id: nat) | TurnNotFound | UnknownFunction(name: nat) | CannotResume

  datatype Resolution = Approve | Deny(reason: nat) | Input(text: Text)

  /** The turn ended as the outcome says: with the reply, with a failure, open to an answer, or aborted. */
  predicate Told(o: Outcome, turn: Turn) {
    match o
    case AssistantMessage(text) => turn.status == Completed && EndsWith(turn.items, ModelResponse(Some(text), []))
    case CompletedWithoutMessage =>
      turn.status == Completed && (EndsWith(turn.items, ModelResponse(None, [])) || EndsWith(turn.items, ModelResponse(Some(0), [])))
    case SuspendedOutcome(_) => turn.status == Suspended
    case FailedOutcome => turn.status == Failed && EndsWith(turn.items, TurnFailed)
    case AbortedOutcome => turn.status == TurnWasAborted
  }

  predicate EndsWith(items: seq<Item>, item: Item) {
    items != [] && items[|items| - 1] == item
  }

  function Push(thread: Thread, turn: nat, items: seq<Item>): Thread
    requires turn < |thread|
  {
    thread[turn := thread[turn].(items := thread[turn].items + items)]
  }

  function SetStatus(thread: Thread, turn: nat, status: Status): Thread
    requires turn < |thread|
  {
    thread[turn := thread[turn].(status := status)]
  }

  /** These items were added to this turn, and nothing else changed but its status. */
  ghost predicate Grew(copy: Thread, thread: Thread, turn: nat, more: seq<Item>) {
    turn < |copy| && turn < |thread| && thread == Added(copy, turn, more, thread[turn].status)
  }

  lemma GrewMore(a: Thread, b: Thread, c: Thread, turn: nat, more: seq<Item>, evenMore: seq<Item>)
    requires Grew(a, b, turn, more) && Grew(b, c, turn, evenMore)
    ensures Grew(a, c, turn, more + evenMore)
  {
    Regroup(a[turn].items, more, evenMore);
  }

  lemma GrewExtends(copy: Thread, thread: Thread, turn: nat, more: seq<Item>)
    requires Grew(copy, thread, turn, more)
    ensures Extends(copy, thread, turn)
  {
  }

  /** The thread with these items added to a turn and its status set. */
  function Added(thread: Thread, turn: nat, more: seq<Item>, status: Status): Thread
    requires turn < |thread|
  {
    thread[turn := Turn(status, thread[turn].items + more)]
  }

  // --- What becomes of a call ---------------------------------------------------------------------

  /** How a call ended: before it was started, in an execution, or by an abort before or during one. */
  datatype CallEnd = HookFailed(error: nat) | Executed(execution: Execution) | CallAborted(invoked: bool)

  function ErrorOutput(call: Call, error: nat): Item {
    ToolOutput(call.id, Error(FunctionError(error)))
  }

  /** What is stored for an execution of the first of these calls. */
  function ExecutionItems(calls: seq<Call>, e: Execution): seq<Item>
    requires calls != []
  {
    match e
    case Returned(output) => [ToolOutput(calls[0].id, Success(output))]
    case Broke(error) => [ErrorOutput(calls[0], error)]
    case SuspendedBefore(x) => [SuspensionCreated(x)] + Outputs(calls[1..], Error(Skipped))
    case SuspendedAfter(x, output) =>
      [ToolOutput(calls[0].id, Success(output)), SuspensionCreated(x)] + Outputs(calls[1..], Error(Skipped))
  }

  /** The same in recovery, which drops the output of a call that suspends after executing. */
  function RecoveredItems(calls: seq<Call>, e: Execution): seq<Item>
    requires calls != []
  {
    match e
    case SuspendedAfter(x, _) => [SuspensionCreated(x)] + Outputs(calls[1..], Error(Skipped))
    case _ => ExecutionItems(calls, e)
  }

  function AbortItems(calls: seq<Call>): seq<Item> {
    [TurnAborted] + Outputs(calls, Aborted)
  }

  /** All that is stored for the first of these calls. */
  function CallItems(calls: seq<Call>, end: CallEnd): seq<Item>
    requires calls != []
  {
    match end
    case HookFailed(error) => [ErrorOutput(calls[0], error)]
    case Executed(e) => [CallStarted(calls[0].id, 1)] + ExecutionItems(calls, e)
    case CallAborted(_) => [CallStarted(calls[0].id, 1)] + AbortItems(calls)
  }

  /** The executions that an observer sees. */
  function CallEvents(turn: nat, call: Call, end: CallEnd): seq<Event> {
    if end.HookFailed? || end == CallAborted(false) then [] else [Invoked(turn, call, false)]
  }

  /** What recovery stores after the start of a call, and what an observer sees of it. */
  function PendingItems(calls: seq<Call>, end: CallEnd): seq<Item>
    requires calls != []
  {
    match end
    case HookFailed(error) => [ErrorOutput(calls[0], error)]
    case Executed(e) => RecoveredItems(calls, e)
    case CallAborted(_) => AbortItems(calls)
  }

  function PendingEvents(turn: nat, calls: seq<Call>, end: CallEnd): seq<Event>
    requires calls != []
  {
    CallEvents(turn, calls[0], end) + if end.Executed? then LateEvents(turn, calls, end.execution) else []
  }

  function LateEvents(turn: nat, calls: seq<Call>, e: Execution): seq<Event>
    requires calls != []
  {
    if e.SuspendedAfter? then [LateSuspension(turn, calls[0].id, |calls| - 1)] else []
  }

  /** The call was restarted with the next attempt and left this trace. */
  ghost predicate Restarted(copy: Thread, thread: Thread, turn: nat, calls: seq<Call>, attempt: nat, end: CallEnd, past: seq<Event>, log: seq<Event>)
    requires calls != []
  {
    && Grew(copy, thread, turn, [CallStarted(calls[0].id, attempt)] + PendingItems(calls, end))
    && log == past + PendingEvents(turn, calls, end)
  }

  /** How the turn ends, if the call ends it. */
  function OutcomeOf(end: CallEnd): Option<Outcome> {
    match end
    case HookFailed(_) => None
    case CallAborted(_) => Some(AbortedOutcome)
    case Executed(e) => ExecutionOutcome(e)
  }

  function ExecutionOutcome(e: Execution): Option<Outcome> {
    if e.SuspendedBefore? || e.SuspendedAfter? then Some(SuspendedOutcome(e.suspension)) else None
  }

  /** One call after the other. */
  function RoundItems(calls: seq<Call>, ends: seq<CallEnd>): seq<Item>
    requires |ends| <= |calls|
  {
    if ends == [] then [] else RoundItems(calls, ends[..|ends| - 1]) + CallItems(calls[|ends| - 1..], ends[|ends| - 1])
  }

  function RoundEvents(turn: nat, calls: seq<Call>, ends: seq<CallEnd>): seq<Event>
    requires |ends| <= |calls|
  {
    if ends == [] then [] else RoundEvents(turn, calls, ends[..|ends| - 1]) + CallEvents(turn, calls[|ends| - 1], ends[|ends| - 1])
  }

  /** One call left this trace in the turn and in the log. */
  ghost predicate OneCall(copy: Thread, thread: Thread, turn: nat, calls: seq<Call>, end: CallEnd, past: seq<Event>, log: seq<Event>)
    requires calls != []
  {
    && Grew(copy, thread, turn, CallItems(calls, end))
    && log == past + CallEvents(turn, calls[0], end)
  }

  /** These calls, one after the other, left this trace. */
  ghost predicate CallByCall(copy: Thread, thread: Thread, turn: nat, calls: seq<Call>, ends: seq<CallEnd>, past: seq<Event>, log: seq<Event>) {
    && |ends| <= |calls| && Grew(copy, thread, turn, RoundItems(calls, ends))
    && log == past + RoundEvents(turn, calls, ends)
  }

  lemma NoCallYet(copy: Thread, turn: nat, calls: seq<Call>, log: seq<Event>)
    requires turn < |copy|
    ensures CallByCall(copy, copy, turn, calls, [], log, log)
  {
    assert copy[turn].items + [] == copy[turn].items && log + [] == log;
    assert copy == Added(copy, turn, [], copy[turn].status);
  }

  lemma OneMoreCall(copy: Thread, before: Thread, thread: Thread, turn: nat, calls: seq<Call>, ends: seq<CallEnd>, end: CallEnd,
                    past: seq<Event>, between: seq<Event>, log: seq<Event>)
    requires CallByCall(copy, before, turn, calls, ends, past, between) && |ends| < |calls|
    requires OneCall(before, thread, turn, calls[|ends|..], end, between, log)
    ensures CallByCall(copy, thread, turn, calls, ends + [end], past, log)
  {
    RoundGrows(turn, calls, ends, end);
    GrewMore(copy, before, thread, turn, RoundItems(calls, ends), CallItems(calls[|ends|..], end));
    Regroup(past, RoundEvents(turn, calls, ends), CallEvents(turn, calls[|ends|], end));
  }

  lemma RoundGrows(turn: nat, calls: seq<Call>, ends: seq<CallEnd>, end: CallEnd)
    requires |ends| < |calls|
    ensures RoundItems(calls, ends + [end]) == RoundItems(calls, ends) + CallItems(calls[|ends|..], end)
    ensures RoundEvents(turn, calls, ends + [end]) == RoundEvents(turn, calls, ends) + CallEvents(turn, calls[|ends|], end)
  {
    assert (ends + [end])[..|ends|] == ends;
  }

  lemma Regroup<T>(a: seq<T>, b: seq<T>, c: seq<T>)
    ensures a + b + c == a + (b + c)
  {
  }

  lemma StartsWith(calls: seq<Call>, end: CallEnd)
    requires calls != [] && !end.HookFailed?
    ensures CallItems(calls, end) == [CallStarted(calls[0].id, 1)] + CallItems(calls, end)[1..]
  {
  }

  /** The admitted calls ended one after the other, up to one that ended the turn. */
  ghost predicate RoundOf(ends: seq<CallEnd>, admitted: nat, outcome: Option<Outcome>) {
    && |ends| <= admitted && (outcome.None? ==> |ends| == admitted) && (outcome.Some? ==> ends != [])
    && (forall j :: 0 <= j < |ends| ==> OutcomeOf(ends[j]) == if j == |ends| - 1 then outcome else None)
  }

  function OverLimitItems(calls: seq<Call>, admitted: nat): seq<Item>
    requires admitted <= |calls|
  {
    Outputs(calls[admitted..], Error(OverLimit)) + [TurnFailed]
  }

  lemma RoundOfMore(ends: seq<CallEnd>, admitted: nat, end: CallEnd)
    requires RoundOf(ends, |ends|, None) && |ends| < admitted
    ensures RoundOf(ends + [end], if OutcomeOf(end).None? then |ends| + 1 else admitted, OutcomeOf(end))
  {
  }

  /** The calls of a reply that are still within the limit. */
  function Admitted(cfg: Config, count: nat, calls: seq<Call>): nat {
    Min(|calls|, if cfg.maxCalls > count then cfg.maxCalls - count else 0)
  }

  /**
   * The trace of a response: of its admitted calls, and of the limit if all of them left the turn open
   * and there are more.
   */
  ghost predicate TookCalls(copy: Thread, thread: Thread, turn: nat, calls: seq<Call>, admitted: nat, outcome: Option<Outcome>,
                            ends: seq<CallEnd>, past: seq<Event>, log: seq<Event>)
    requires admitted <= |calls|
  {
    if admitted < |calls| && RoundOf(ends, admitted, None) then
      && outcome == Some(FailedOutcome) && Grew(copy, thread, turn, RoundItems(calls, ends) + OverLimitItems(calls, admitted))
      && log == past + RoundEvents(turn, calls, ends)
    else RoundOf(ends, admitted, outcome) && CallByCall(copy, thread, turn, calls, ends, past, log)
  }

  lemma ReplyExtends(copy: Thread, thread: Thread, turn: nat, reply: Option<Text>, calls: seq<Call>, admitted: nat,
                     outcome: Option<Outcome>, ends: seq<CallEnd>, past: seq<Event>, log: seq<Event>)
    requires turn < |copy| && admitted <= |calls|
    requires TookCalls(Added(copy, turn, [ModelResponse(reply, calls)], Running), thread, turn, calls, admitted, outcome, ends, past, log)
    ensures Extends(copy, thread, turn)
  {
    var stored := Added(copy, turn, [ModelResponse(reply, calls)], Running);
    var more := thread[turn].items[|stored[turn].items|..];
    GrewMore(copy, stored, thread, turn, [ModelResponse(reply, calls)], more);
    GrewExtends(copy, thread, turn, [ModelResponse(reply, calls)] + more);
  }

  lemma ReplyStored(copy: Thread, thread: Thread, turn: nat, reply: Option<Text>, calls: seq<Call>, admitted: nat,
                    outcome: Option<Outcome>, ends: seq<CallEnd>, past: seq<Event>, log: seq<Event>)
    requires turn < |copy| && admitted <= |calls|
    requires TookCalls(Added(copy, turn, [ModelResponse(reply, calls)], Running), thread, turn, calls, admitted, outcome, ends, past, log)
    ensures turn < |thread| && copy[turn].items + [ModelResponse(reply, calls)] <= thread[turn].items
  {
  }

  lemma RoundTaken(copy: Thread, run: Thread, thread: Thread, turn: nat, calls: seq<Call>, admitted: nat,
                   stop: Option<Outcome>, ends: seq<CallEnd>, past: seq<Event>, log: seq<Event>)
    requires admitted <= |calls| && CallByCall(copy, run, turn, calls, ends, past, log) && RoundOf(ends, admitted, stop)
    requires thread == if stop.None? && admitted < |calls| then Added(run, turn, OverLimitItems(calls, admitted), Failed) else run
    ensures TookCalls(copy, thread, turn, calls, admitted, if stop.None? && admitted < |calls| then Some(FailedOutcome) else stop, ends, past, log)
  {
    if stop.None? && admitted < |calls| {
      GrewMore(copy, run, thread, turn, RoundItems(calls, ends), OverLimitItems(calls, admitted));
    }
    assert stop.Some? ==> OutcomeOf(ends[|ends| - 1]) == stop;
  }

  /** Only this turn changed, and its items only got longer. */
  ghost predicate Extends(before: Thread, after: Thread, turn: nat)
    requires turn < |before|
  {
    |after| == |before| && after == before[turn := after[turn]] && before[turn].items <= after[turn].items
  }

  lemma ExtendsMore(a: Thread, b: Thread, c: Thread, turn: nat)
    requires turn < |a| && Extends(a, b, turn) && Extends(b, c, turn)
    ensures Extends(a, c, turn)
  {
  }

  lemma {:induction false} ReplayBounds(turns: Thread)
    ensures ReplayTurns(turns).Some? ==> ReplayTurns(turns).value.turn < |turns|
  {
    if turns != [] {
      var n := |turns| - 1;
      ReplayBounds(turns[..n]);
      ReplayItemsBounds(ReplayTurns(turns[..n]), n, turns[n].items);
    }
  }

  lemma {:induction false} ReplayItemsBounds(p: Option<Pending>, k: nat, items: seq<Item>)
    requires p.Some? ==> p.value.turn <= k
    ensures ReplayItems(p, k, items).Some? ==> ReplayItems(p, k, items).value.turn <= k
    decreases |items|
  {
    if items != [] { ReplayItemsBounds(p, k, items[..|items| - 1]); }
  }

  // --- The surroundings ---------------------------------------------------------------------------

  datatype ModelAnswer = NoAnswer | Replies(reply: Option<Text>, calls: seq<Call>)

  /** What happens around the loop at its `n`-th step: any model, hooks, caller and functions. */
  datatype Surroundings = Surroundings(model: nat -> ModelAnswer, hook: nat -> Option<nat>, aborts: nat -> bool,
                                       run: nat -> Execution, newId: nat -> nat)

  /** A reply that reuses a call id is outside the model and counts as none. */
  function AnswerAt(env: Surroundings, n: nat, items: seq<Item>): ModelAnswer {
    match env.model(n)
    case NoAnswer => NoAnswer
    case Replies(reply, calls) =>
      if DistinctIds(calls) && Ids(calls) !! ViewOf(items).requested then Replies(reply, calls) else NoAnswer
  }

  /** So is a suspension that does not name its own call; it counts as a failure of the function. */
  function ExecutionAt(env: Surroundings, n: nat, call: Call): Execution {
    if HonestSuspension(env.run(n), call) then env.run(n) else Broke(0)
  }

  /** A suspension made by a function before or after its execution, in the way that the loop relies on. */
  predicate NamesItself(run: Execution, call: Call) {
    match run
    case SuspendedBefore(x) => x.deferred && x.callId == Some(call.id)
    case SuspendedAfter(x, _) => !x.deferred && (x.callId.None? || x.callId == Some(call.id))
    case _ => false
  }

  /** The items tell of a run of the first call what the function did. */
  predicate Tells(more: seq<Item>, calls: seq<Call>, run: Execution, recovered: bool)
    requires calls != []
  {
    match run
    case Returned(output) => more == [ToolOutput(calls[0].id, Success(output))]
    case Broke(error) => more == [ToolOutput(calls[0].id, Error(FunctionError(error)))]
    case SuspendedBefore(x) => NamesItself(run, calls[0]) ==> more == [SuspensionCreated(x)] + Outputs(calls[1..], Error(Skipped))
    case SuspendedAfter(x, output) =>
      NamesItself(run, calls[0]) ==>
        more == (if recovered then [] else [ToolOutput(calls[0].id, Success(output))]) + [SuspensionCreated(x)] + Outputs(calls[1..], Error(Skipped))
  }

  /** The turn goes on after a result and is suspended by a suspension. */
  predicate Leads(outcome: Option<Outcome>, call: Call, run: Execution) {
    match run
    case Returned(_) => outcome.None?
    case Broke(_) => outcome.None?
    case SuspendedBefore(x) => NamesItself(run, call) ==> outcome == Some(SuspendedOutcome(x))
    case SuspendedAfter(x, _) => NamesItself(run, call) ==> outcome == Some(SuspendedOutcome(x))
  }

  /** What is stored of an execution is what the function did, in the loop and in recovery. */
  lemma ExecutionTells(env: Surroundings, n: nat, calls: seq<Call>)
    requires calls != []
    ensures var e := ExecutionAt(env, n, calls[0]);
            && Tells(ExecutionItems(calls, e), calls, env.run(n), false) && Tells(RecoveredItems(calls, e), calls, env.run(n), true)
            && Leads(ExecutionOutcome(e), calls[0], env.run(n))
  {
    if env.run(n).SuspendedAfter? {
      var x, output := env.run(n).suspension, env.run(n).output;
      assert [] + [SuspensionCreated(x)] == [SuspensionCreated(x)];
      assert [ToolOutput(calls[0].id, Success(output))] + [SuspensionCreated(x)] == [ToolOutput(calls[0].id, Success(output)), SuspensionCreated(x)];
    }
  }

  /** The one action that a loop in progress takes at step `n`. */
  ghost function Dictated(cfg: Config, env: Surroundings, s: State, n: nat): Action
    requires Active(s)
  {
    match s.pc
    case Idle => Crash
    case AskModel(iteration, _) =>
      if iteration >= cfg.maxIterations then OutOfIterations
      else if env.aborts(n) then Abort
      else (match AnswerAt(env, n, s.disk[s.turn].items)
            case NoAnswer => ModelFails
            case Replies(reply, calls) => ModelReplies(reply, calls))
    case AtCall(r, i) =>
      if i == r.admitted then RoundEnds
      else if env.hook(n).Some? then HookFails(env.hook(n).value)
      else StartCall(env.newId(n))
    case AtPending(p, i) => if i == |p| then PendingEnds else StartCall(env.newId(n))
    case Closing(_) => FinalCommit
    case _ =>
      if env.aborts(n) then Abort
      else if RunningCall(s.pc).Some? then Finish(ExecutionAt(env, n, RunningCall(s.pc).value))
      else Invoke
  }

  ghost predicate ObeysAt(cfg: Config, env: Surroundings, actions: seq<Action>, states: seq<State>, i: nat)
    requires i < |actions| && |states| == |actions| + 1
  {
    states[i].pc.Idle? || (Active(states[i]) && actions[i] == Dictated(cfg, env, states[i], i))
  }

  /** A run in which the loop, once started, does what the surroundings dictate. */
  ghost predicate Follows(cfg: Config, env: Surroundings, actions: seq<Action>, s: State) {
    exists states :: IsRun(cfg, actions, states) && states[|actions|] == s
                     && forall i :: 0 <= i < |actions| ==> ObeysAt(cfg, env, actions, states, i)
  }

  lemma FollowsReaches(cfg: Config, env: Surroundings, actions: seq<Action>, s: State)
    requires Follows(cfg, env, actions, s)
    ensures Reaches(cfg, actions, s)
  {
  }

  lemma StartFollowing(cfg: Config, env: Surroundings)
    ensures Follows(cfg, env, [], INITIAL)
  {
    assert IsRun(cfg, [], [INITIAL]);
  }

  lemma FollowStep(cfg: Config, env: Surroundings, actions: seq<Action>, s: State, a: Action)
    requires Follows(cfg, env, actions, s) && Enabled(cfg, s, a)
    requires s.pc.Idle? || (Active(s) && a == Dictated(cfg, env, s, |actions|))
    ensures Follows(cfg, env, actions + [a], Next(cfg, s, a))
  {
    var states :| IsRun(cfg, actions, states) && states[|actions|] == s
                  && forall i :: 0 <= i < |actions| ==> ObeysAt(cfg, env, actions, states, i);
    OnceMore(cfg, actions, states, a);
    var more, after := actions + [a], states + [Next(cfg, s, a)];
    forall i | 0 <= i < |more|
      ensures ObeysAt(cfg, env, more, after, i)
    {
      if i < |actions| {
        assert ObeysAt(cfg, env, actions, states, i);
        assert more[i] == actions[i] && after[i] == states[i];
      } else {
        assert more[i] == a && after[i] == states[i];
      }
    }
    assert after[|more|] == Next(cfg, s, a);
  }

  lemma {:induction false} SameActionsSameStates(cfg: Config, a: seq<Action>, b: seq<Action>, states: seq<State>, others: seq<State>, k: nat)
    requires IsRun(cfg, a, states) && IsRun(cfg, b, others) && k <= |a| && k <= |b| && a[..k] == b[..k]
    ensures states[k] == others[k]
  {
    if k > 0 {
      assert a[k - 1] == a[..k][k - 1] && b[k - 1] == b[..k][k - 1];
      assert a[..k - 1] == a[..k][..k - 1] && b[..k - 1] == b[..k][..k - 1];
      SameActionsSameStates(cfg, a, b, states, others, k - 1);
      assert StepAt(cfg, a, states, k - 1) && StepAt(cfg, b, others, k - 1);
    }
  }

  /** In the same surroundings two runs part only where the host chooses, in an idle state. */
  lemma OnlyTheHostChooses(cfg: Config, env: Surroundings, a: seq<Action>, b: seq<Action>, s: State, t: State, k: nat) returns (parting: State)
    requires Follows(cfg, env, a, s) && Follows(cfg, env, b, t)
    requires k < |a| && k < |b| && a[..k] == b[..k] && a[k] != b[k]
    ensures Reaches(cfg, a[..k], parting) && parting.pc.Idle?
  {
    var states :| IsRun(cfg, a, states) && states[|a|] == s && forall i :: 0 <= i < |a| ==> ObeysAt(cfg, env, a, states, i);
    var others :| IsRun(cfg, b, others) && others[|b|] == t && forall i :: 0 <= i < |b| ==> ObeysAt(cfg, env, b, others, i);
    SameActionsSameStates(cfg, a, b, states, others, k);
    assert ObeysAt(cfg, env, a, states, k) && ObeysAt(cfg, env, b, others, k);
    parting := states[k];
    var front, past := a[..k], states[..k + 1];
    forall i | 0 <= i < k
      ensures StepAt(cfg, front, past, i)
    {
      assert StepAt(cfg, a, states, i);
    }
    assert IsRun(cfg, front, past) && past[k] == parting;
  }

  /** The action carries what the surroundings do at that step. */
  predicate Carries(env: Surroundings, n: nat, pc: Pc, requested: set<nat>, a: Action) {
    match a
    case Finish(e) =>
      RunningCall(pc).Some?
      && (if env.run(n).Returned? || env.run(n).Broke? || NamesItself(env.run(n), RunningCall(pc).value) then e == env.run(n) else e.Broke?)
    case ModelReplies(reply, calls) => env.model(n) == Replies(reply, calls)
    case ModelFails =>
      env.model(n).Replies? ==> !DistinctIds(env.model(n).calls) || exists c :: c in env.model(n).calls && c.id in requested
    case HookFails(error) => env.hook(n) == Some(error)
    case StartCall(newId) => newId == env.newId(n) && (pc.AtCall? ==> env.hook(n).None?)
    case Abort => env.aborts(n)
    case Invoke => !env.aborts(n)
    case Crash => false
    case _ => true
  }

  /** In every run that follows the surroundings, each step of a loop in progress carries what they do. */
  lemma StepsCarry(cfg: Config, env: Surroundings, actions: seq<Action>, s: State, n: nat) returns (before: State)
    requires Follows(cfg, env, actions, s) && n < |actions|
    ensures Reaches(cfg, actions[..n], before)
    ensures !before.pc.Idle? ==> before.turn < |before.disk| && Carries(env, n, before.pc, V(before).requested, actions[n])
  {
    var states :| IsRun(cfg, actions, states) && states[|actions|] == s
                  && forall i :: 0 <= i < |actions| ==> ObeysAt(cfg, env, actions, states, i);
    before := states[n];
    var front, past := actions[..n], states[..n + 1];
    forall i | 0 <= i < n
      ensures StepAt(cfg, front, past, i)
    {
      assert StepAt(cfg, actions, states, i);
    }
    assert IsRun(cfg, front, past) && past[n] == before;
    assert ObeysAt(cfg, env, actions, states, n);
    if Active(before) { DictatedCarries(cfg, env, before, n); }
  }

  lemma DictatedCarries(cfg: Config, env: Surroundings, s: State, n: nat)
    requires Active(s)
    ensures Carries(env, n, s.pc, V(s).requested, Dictated(cfg, env, s, n))
  {
    if env.model(n).Replies? && !(Ids(env.model(n).calls) !! V(s).requested) {
      var id :| id in Ids(env.model(n).calls) && id in V(s).requested;
    }
  }

  class AgentLoop {
    const cfg: Config
    const env: Surroundings
    var store: Thread
    /** How many steps were taken; the surroundings answer by it. */
    var clock: nat
    ghost var state: State
    ghost var actions: seq<Action>

    /** The stored thread is that of a run of the turn machine that does what the surroundings dictate. */
    ghost predicate Traced()
      reads this
    {
      Follows(cfg, env, actions, state) && state.disk == store && clock == |actions|
    }

    /** The action is the one to take now. */
    ghost predicate Due(a: Action)
      reads this
    {
      Enabled(cfg, state, a) && (state.pc.Idle? || (Active(state) && a == Dictated(cfg, env, state, clock)))
    }

    constructor (cfg: Config, env: Surroundings)
      ensures Traced() && state.pc.Idle? && store == [] && this.cfg == cfg && this.env == env
    {
      this.cfg, this.env := cfg, env;
      store, clock, state, actions := [], 0, INITIAL, [];
      StartFollowing(cfg, env);
    }

    /** An action that stores nothing. */
    method Note(ghost a: Action)
      requires Traced() && Due(a) && Next(cfg, state, a).disk == store
      modifies this`state, this`actions, this`clock
      ensures Traced() && state == Next(cfg, old(state), a) && clock == old(clock) + 1
    {
      FollowStep(cfg, env, actions, state, a);
      state, actions, clock := Next(cfg, state, a), actions + [a], clock + 1;
    }

    /** Compare-and-commit under the lease: stores the working copy. */
    method Commit(thread: Thread, ghost a: Action)
      requires Traced() && Due(a) && Next(cfg, state, a).disk == thread
      modifies this
      ensures Traced() && state == Next(cfg, old(state), a) && store == thread && clock == old(clock) + 1
    {
      FollowStep(cfg, env, actions, state, a);
      state, actions, clock := Next(cfg, state, a), actions + [a], clock + 1;
      store := thread;
    }

    /** The loop goes on with a working copy equal to the stored thread. */
    ghost predicate Working(thread: Thread, turn: nat, pc: Pc)
      reads this
    {
      Traced() && state.turn == turn < |store| && thread == store && state.pc == pc
    }

    /** The turn is closed in the working copy; the last commit is still to come. */
    ghost predicate Ended(thread: Thread, turn: nat, outcome: Outcome)
      reads this
    {
      Traced() && state.turn == turn < |store| == |thread| && state.pc == Closing(thread[turn])
      && thread == store[turn := thread[turn]] && Told(outcome, thread[turn])
    }

    /** The loop is at `pc`, or the turn ended with this outcome. */
    ghost predicate Continues(thread: Thread, turn: nat, pc: Pc, outcome: Option<Outcome>)
      reads this
    {
      if outcome.None? then Working(thread, turn, pc) else Ended(thread, turn, outcome.value)
    }

    /** The calls of one response, up to the admitted ones, each executed at most once and in order. */
    method RunCalls(copy: Thread, turn: nat, calls: seq<Call>, admitted: nat, ghost round: Round)
        returns (thread: Thread, outcome: Option<Outcome>, ghost ends: seq<CallEnd>)
      requires round.calls == calls && round.admitted == admitted <= |calls| && Working(copy, turn, AtCall(round, 0))
      modifies this
      ensures Continues(thread, turn, AtCall(round, admitted), outcome) && RoundOf(ends, admitted, outcome)
      ensures CallByCall(copy, thread, turn, calls, ends, old(state.log), state.log)
    {
      thread, outcome, ends := copy, None, [];
      NoCallYet(copy, turn, calls, state.log);
      for i := 0 to admitted
        invariant Working(thread, turn, AtCall(round, i)) && outcome.None? && |ends| == i && RoundOf(ends, i, None)
        invariant CallByCall(copy, thread, turn, calls, ends, old(state.log), state.log)
      {
        ghost var before, between := thread, state.log;
        ghost var end;
        thread, outcome, end := BeginCall(thread, turn, calls, i, round);
        OneMoreCall(copy, before, thread, turn, calls, ends, end, old(state.log), between, state.log);
        RoundOfMore(ends, admitted, end);
        ends := ends + [end];
        if outcome.Some? { return; }
      }
    }

    /** A failing hook answers the call; otherwise its start is stored before it runs. */
    method BeginCall(copy: Thread, turn: nat, calls: seq<Call>, i: nat, ghost round: Round)
        returns (thread: Thread, outcome: Option<Outcome>, ghost end: CallEnd)
      requires round.calls == calls && i < round.admitted <= |calls| && Working(copy, turn, AtCall(round, i))
      modifies this
      ensures Continues(thread, turn, AtCall(round, i + 1), outcome) && outcome == OutcomeOf(end)
      ensures if env.hook(old(clock)).Some? then end == HookFailed(env.hook(old(clock)).value) else end == EndAt(old(clock) + 1, calls[i])
      ensures OneCall(copy, thread, turn, calls[i..], end, old(state.log), state.log)
      ensures env.hook(old(clock)).None? ==>
                var started := Added(copy, turn, [CallStarted(calls[i].id, 1)], Running);
                if Undisturbed(old(clock) + 1) then SettledAs(started, thread, turn, calls[i..], env.run(old(clock) + 2), false, outcome)
                else AbortedAs(started, thread, turn, calls[i..]) && outcome == Some(AbortedOutcome)
      ensures env.hook(old(clock)).Some? ==>
                thread == Added(copy, turn, [ToolOutput(calls[i].id, Error(FunctionError(env.hook(old(clock)).value)))], Running)
      ensures state.log == old(state.log) + (if env.hook(old(clock)).Some? || env.aborts(old(clock) + 1) then [] else [Invoked(turn, calls[i], false)])
    {
      var hook := env.hook(clock);
      if hook.Some? {
        end := HookFailed(hook.value);
        outcome := None;
        thread := SetStatus(Push(copy, turn, [ErrorOutput(calls[i], hook.value)]), turn, Running);
        Commit(thread, HookFails(hook.value));
      } else {
        thread := SetStatus(Push(copy, turn, [CallStarted(calls[i].id, 1)]), turn, Running);
        ghost var started := thread;
        Commit(thread, StartCall(env.newId(clock)));
        thread, outcome, end := RunCall(thread, turn, calls, i, round);
        StartsWith(calls[i..], end);
        GrewMore(copy, started, thread, turn, [CallStarted(calls[i].id, 1)], CallItems(calls[i..], end)[1..]);
      }
    }

    /** Executes call `i`, whose start is stored. */
    method RunCall(copy: Thread, turn: nat, calls: seq<Call>, i: nat, ghost round: Round)
        returns (thread: Thread, outcome: Option<Outcome>, ghost end: CallEnd)
      requires round.calls == calls && i < |calls| && Working(copy, turn, CallBegun(round, i))
      modifies this
      ensures Continues(thread, turn, AtCall(round, i + 1), outcome)
      ensures outcome == OutcomeOf(end) && end == EndAt(old(clock), calls[i])
      ensures Grew(copy, thread, turn, CallItems(calls[i..], end)[1..])
      ensures state.log == old(state.log) + CallEvents(turn, calls[i], end)
      ensures if Undisturbed(old(clock)) then SettledAs(copy, thread, turn, calls[i..], env.run(old(clock) + 1), false, outcome)
              else AbortedAs(copy, thread, turn, calls[i..]) && outcome == Some(AbortedOutcome)
      ensures state.log == old(state.log) + (if env.aborts(old(clock)) then [] else [Invoked(turn, calls[i], false)])
    {
      var aborted := env.aborts(clock);
      end := EndAt(clock, calls[i]);
      if !aborted {
        InvokeCall(copy, turn, calls, i, round);
        aborted := env.aborts(clock);
      }
      if aborted {
        thread := AbortCalls(copy, turn, calls, i, round);
        outcome := Some(AbortedOutcome);
      } else {
        thread, outcome := SettleCall(copy, turn, calls, i, round);
      }
    }

    /** The function is called. */
    method InvokeCall(copy: Thread, turn: nat, calls: seq<Call>, i: nat, ghost round: Round)
      requires round.calls == calls && i < |calls| && Working(copy, turn, CallBegun(round, i)) && !env.aborts(clock)
      modifies this`state, this`actions, this`clock
      ensures Working(copy, turn, CallRunning(round, i)) && clock == old(clock) + 1
      ensures state.log == old(state.log) + [Invoked(turn, calls[i], false)]
    {
      Note(Invoke);
    }

    /** No abort comes before or during an execution that starts at step `n`. */
    ghost predicate Undisturbed(n: nat) {
      !env.aborts(n) && !env.aborts(n + 1)
    }

    /** How a call ends that is about to be executed at step `n`. */
    ghost function EndAt(n: nat, call: Call): CallEnd {
      if env.aborts(n) then CallAborted(false)
      else if env.aborts(n + 1) then CallAborted(true)
      else Executed(ExecutionAt(env, n + 1, call))
    }

    /** The caller aborts while call `i` runs: it and the later calls are answered as aborted. */
    method AbortCalls(copy: Thread, turn: nat, calls: seq<Call>, i: nat, ghost round: Round) returns (thread: Thread)
      requires round.calls == calls && i < |calls|
      requires Working(copy, turn, CallBegun(round, i)) || Working(copy, turn, CallRunning(round, i))
      requires env.aborts(clock)
      modifies this`state, this`actions, this`clock
      ensures Ended(thread, turn, AbortedOutcome) && state.log == old(state.log)
      ensures thread == Added(copy, turn, AbortItems(calls[i..]), TurnWasAborted)
      ensures AbortedAs(copy, thread, turn, calls[i..])
    {
      thread := SetStatus(Push(copy, turn, [TurnAborted]), turn, TurnWasAborted);
      thread := Push(thread, turn, Outputs(calls[i..], Aborted));
      PushTwice(copy, turn, [TurnAborted], Outputs(calls[i..], Aborted), TurnWasAborted);
      Note(Abort);
    }

    /** The turn got just the abort mark and an aborted output for each call. */
    ghost predicate AbortedAs(copy: Thread, thread: Thread, turn: nat, calls: seq<Call>) {
      turn < |copy| && thread == Added(copy, turn, [TurnAborted] + Outputs(calls, Aborted), TurnWasAborted)
    }

    /** The turn got just the items that tell what the function did. */
    ghost predicate SettledAs(copy: Thread, thread: Thread, turn: nat, calls: seq<Call>, run: Execution, recovered: bool, outcome: Option<Outcome>)
      requires calls != []
    {
      turn < |copy| && Leads(outcome, calls[0], run)
      && exists more :: Tells(more, calls, run, recovered) && thread == Added(copy, turn, more, if outcome.None? then Running else Suspended)
    }

    /** What call `i` came to. */
    method SettleCall(copy: Thread, turn: nat, calls: seq<Call>, i: nat, ghost round: Round)
        returns (thread: Thread, outcome: Option<Outcome>)
      requires round.calls == calls && i < |calls| && Working(copy, turn, CallRunning(round, i)) && !env.aborts(clock)
      modifies this
      ensures Continues(thread, turn, AtCall(round, i + 1), outcome)
      ensures store == thread && state.log == old(state.log)
      ensures var e := ExecutionAt(env, old(clock), calls[i]);
              && outcome == ExecutionOutcome(e)
              && thread == Added(copy, turn, ExecutionItems(calls[i..], e), if outcome.None? then Running else Suspended)
      ensures SettledAs(copy, thread, turn, calls[i..], env.run(old(clock)), false, outcome)
    {
      ExecutionTells(env, clock, calls[i..]);
      var e := ExecutionAt(env, clock, calls[i]);
      var later := Outputs(calls[i + 1..], Error(Skipped));
      match e {
      case Returned(output) =>
        thread := SetStatus(Push(copy, turn, [ToolOutput(calls[i].id, Success(output))]), turn, Running);
        outcome := None;
      case Broke(error) =>
        thread := SetStatus(Push(copy, turn, [ErrorOutput(calls[i], error)]), turn, Running);
        outcome := None;
      case SuspendedBefore(x) =>
        thread := SetStatus(Push(copy, turn, [SuspensionCreated(x)] + later), turn, Suspended);
        outcome := Some(SuspendedOutcome(x));
      case SuspendedAfter(x, output) =>
        thread := SetStatus(Push(copy, turn, [ToolOutput(calls[i].id, Success(output)), SuspensionCreated(x)] + later), turn, Suspended);
        outcome := Some(SuspendedOutcome(x));
      }
      Commit(thread, Finish(e));
    }

    /** The bounded loop over model requests. */
    method RunModelLoop(copy: Thread, turn: nat) returns (thread: Thread, outcome: Outcome)
      requires Working(copy, turn, AskModel(0, 0))
      modifies this
      ensures Ended(thread, turn, outcome) && Extends(copy, thread, turn)
    {
      thread := copy;
      var count := 0;
      for iteration := 0 to cfg.maxIterations
        invariant Working(thread, turn, AskModel(iteration, count)) && Extends(copy, thread, turn)
      {
        ghost var before := thread;
        var stop: Option<Outcome>;
        thread, stop, count := RunIteration(thread, turn, iteration, count);
        ExtendsMore(copy, before, thread, turn);
        if stop.Some? { return thread, stop.value; }
      }
      ghost var before := thread;
      thread := SetStatus(Push(thread, turn, [TurnFailed]), turn, Failed);
      Note(OutOfIterations);
      ExtendsMore(copy, before, thread, turn);
      outcome := FailedOutcome;
    }

    /** One request to the model. */
    method RunIteration(copy: Thread, turn: nat, iteration: nat, count: nat)
        returns (thread: Thread, outcome: Option<Outcome>, newCount: nat)
      requires iteration < cfg.maxIterations && Working(copy, turn, AskModel(iteration, count))
      modifies this
      ensures Continues(thread, turn, AskModel(iteration + 1, newCount), outcome) && Extends(copy, thread, turn)
      ensures env.aborts(old(clock)) ==>
                outcome == Some(AbortedOutcome) && thread == Added(copy, turn, [TurnAborted], TurnWasAborted)
      ensures !env.aborts(old(clock)) ==>
                match AnswerAt(env, old(clock), copy[turn].items)
                case NoAnswer => outcome == Some(FailedOutcome) && thread == Added(copy, turn, [TurnFailed], Failed)
                case Replies(_, calls) => newCount == count + Admitted(cfg, count, calls)
      ensures !env.aborts(old(clock)) && env.model(old(clock)).NoAnswer? ==>
                outcome == Some(FailedOutcome) && thread == Added(copy, turn, [TurnFailed], Failed)
      ensures !env.aborts(old(clock)) && env.model(old(clock)).Replies? ==>
                var Replies(reply, calls) := env.model(old(clock));
                && (calls == [] && (reply.None? || reply.value == 0) && !cfg.allowEmpty ==>
                      outcome == Some(FailedOutcome) && thread == Added(copy, turn, [TurnFailed], Failed))
                && (calls == [] && ((reply.Some? && reply.value != 0) || cfg.allowEmpty) ==>
                      thread == Added(copy, turn, [ModelResponse(reply, [])], Completed)
                      && outcome == Some(if reply.Some? && reply.value != 0 then AssistantMessage(reply.value) else CompletedWithoutMessage))
                && (calls != [] && DistinctIds(calls) && (forall c :: c in calls ==> c.id !in ViewOf(copy[turn].items).requested) ==>
                      copy[turn].items + [ModelResponse(reply, calls)] <= thread[turn].items)
    {
      newCount := count;
      if env.aborts(clock) {
        thread := SetStatus(Push(copy, turn, [TurnAborted]), turn, TurnWasAborted);
        Note(Abort);
        return thread, Some(AbortedOutcome), count;
      }
      match AnswerAt(env, clock, copy[turn].items) {
      case NoAnswer =>
        thread := SetStatus(Push(copy, turn, [TurnFailed]), turn, Failed);
        Note(ModelFails);
        outcome := Some(FailedOutcome);
      case Replies(reply, calls) =>
        ghost var ends;
        thread, outcome, newCount, ends := TakeReply(copy, turn, iteration, count, reply, calls);
        if calls != [] { ReplyStored(copy, thread, turn, reply, calls, Admitted(cfg, count, calls), outcome, ends, old(state.log), state.log); }
      }
    }

    /**
     * One answer of the model. An empty one fails the turn unless it is allowed, one without calls
     * completes it. Of the calls those within the limit are admitted; the others fail the turn.
     */
    method TakeReply(copy: Thread, turn: nat, iteration: nat, count: nat, reply: Option<Text>, calls: seq<Call>)
        returns (thread: Thread, outcome: Option<Outcome>, newCount: nat, ghost ends: seq<CallEnd>)
      requires iteration < cfg.maxIterations && Working(copy, turn, AskModel(iteration, count)) && Due(ModelReplies(reply, calls))
      modifies this
      ensures Continues(thread, turn, AskModel(iteration + 1, newCount), outcome) && Extends(copy, thread, turn)
      ensures calls == [] && (reply.None? || reply.value == 0) && !cfg.allowEmpty ==>
                outcome == Some(FailedOutcome) && thread == Added(copy, turn, [TurnFailed], Failed) && newCount == count
      ensures calls == [] && ((reply.Some? && reply.value != 0) || cfg.allowEmpty) ==>
                && outcome == Some(if reply.Some? && reply.value != 0 then AssistantMessage(reply.value) else CompletedWithoutMessage)
                && store == thread == Added(copy, turn, [ModelResponse(reply, [])], Completed) && newCount == count
      ensures calls != [] && count <= cfg.maxCalls ==>
                newCount == if count + |calls| <= cfg.maxCalls then count + |calls| else cfg.maxCalls
      ensures calls != [] ==>
                newCount == count + Admitted(cfg, count, calls)
                && TookCalls(Added(copy, turn, [ModelResponse(reply, calls)], Running), thread, turn, calls, Admitted(cfg, count, calls),
                             outcome, ends, old(state.log), state.log)
    {
      newCount, ends := count, [];
      if IsEmpty(reply, calls) && !cfg.allowEmpty {
        thread := SetStatus(Push(copy, turn, [TurnFailed]), turn, Failed);
        Note(ModelReplies(reply, calls));
        outcome := Some(FailedOutcome);
      } else if calls == [] {
        thread := SetStatus(Push(copy, turn, [ModelResponse(reply, calls)]), turn, Completed);
        Commit(thread, ModelReplies(reply, calls));
        outcome := Some(if IsEmpty(reply, calls) then CompletedWithoutMessage else AssistantMessage(reply.value));
      } else {
        thread, outcome, newCount, ends := TakeCalls(copy, turn, iteration, count, reply, calls);
        ReplyExtends(copy, thread, turn, reply, calls, Admitted(cfg, count, calls), outcome, ends, old(state.log), state.log);
      }
    }

    method TakeCalls(copy: Thread, turn: nat, iteration: nat, count: nat, reply: Option<Text>, calls: seq<Call>)
        returns (thread: Thread, outcome: Option<Outcome>, newCount: nat, ghost ends: seq<CallEnd>)
      requires iteration < cfg.maxIterations && Working(copy, turn, AskModel(iteration, count)) && calls != []
      requires Due(ModelReplies(reply, calls))
      modifies this
      ensures Continues(thread, turn, AskModel(iteration + 1, newCount), outcome)
      ensures newCount == count + Admitted(cfg, count, calls)
      ensures TookCalls(Added(copy, turn, [ModelResponse(reply, calls)], Running), thread, turn, calls, Admitted(cfg, count, calls),
                        outcome, ends, old(state.log), state.log)
    {
      var admitted;
      thread, admitted := StoreCalls(copy, turn, iteration, count, reply, calls);
      newCount := count + admitted;
      thread, outcome, ends := RunRound(thread, turn, calls, admitted, Round(calls, admitted, iteration, newCount));
    }

    /** Stores the response and admits as many of its calls as the limit leaves. */
    method StoreCalls(copy: Thread, turn: nat, iteration: nat, count: nat, reply: Option<Text>, calls: seq<Call>)
        returns (thread: Thread, admitted: nat)
      requires iteration < cfg.maxIterations && Working(copy, turn, AskModel(iteration, count)) && calls != []
      requires Due(ModelReplies(reply, calls))
      modifies this
      ensures admitted == Admitted(cfg, count, calls) && Working(thread, turn, AtCall(Round(calls, admitted, iteration, count + admitted), 0))
      ensures thread == Added(copy, turn, [ModelResponse(reply, calls)], Running) && state.log == old(state.log)
    {
      thread := SetStatus(Push(copy, turn, [ModelResponse(reply, calls)]), turn, Running);
      Commit(thread, ModelReplies(reply, calls));
      var remaining := if cfg.maxCalls > count then cfg.maxCalls - count else 0;
      admitted := if |calls| < remaining then |calls| else remaining;
    }

    method RunRound(copy: Thread, turn: nat, calls: seq<Call>, admitted: nat, ghost round: Round)
        returns (thread: Thread, outcome: Option<Outcome>, ghost ends: seq<CallEnd>)
      requires round.calls == calls && round.admitted == admitted <= |calls| && Working(copy, turn, AtCall(round, 0))
      modifies this
      ensures Continues(thread, turn, AskModel(round.iteration + 1, round.count), outcome)
      ensures TookCalls(copy, thread, turn, calls, admitted, outcome, ends, old(state.log), state.log)
    {
      thread, outcome, ends := RunCalls(copy, turn, calls, admitted, round);
      ghost var run, stop := thread, outcome;
      if outcome.None? {
        if admitted < |calls| {
          thread := OverLimitCalls(thread, turn, calls, admitted, round);
          outcome := Some(FailedOutcome);
        } else {
          EndRound(thread, turn, round);
        }
      }
      RoundTaken(copy, run, thread, turn, calls, admitted, stop, ends, old(state.log), state.log);
    }

    /** All calls of the response were admitted and have ended. */
    method EndRound(copy: Thread, turn: nat, ghost round: Round)
      requires round.admitted == |round.calls| && Working(copy, turn, AtCall(round, round.admitted))
      modifies this`state, this`actions, this`clock
      ensures Working(copy, turn, AskModel(round.iteration + 1, round.count)) && state.log == old(state.log)
    {
      Note(RoundEnds);
    }

    /** The calls beyond the limit are answered with an error and the turn fails. */
    method OverLimitCalls(copy: Thread, turn: nat, calls: seq<Call>, admitted: nat, ghost round: Round) returns (thread: Thread)
      requires round.calls == calls && round.admitted == admitted < |calls| && Working(copy, turn, AtCall(round, admitted))
      modifies this
      ensures Ended(thread, turn, FailedOutcome) && state.log == old(state.log)
      ensures store == thread == Added(copy, turn, OverLimitItems(calls, admitted), Failed)
      ensures thread == Added(copy, turn, Outputs(calls[admitted..], Error(OverLimit)) + [TurnFailed], Failed)
    {
      thread := Push(copy, turn, Outputs(calls[admitted..], Error(OverLimit)));
      thread := SetStatus(Push(thread, turn, [TurnFailed]), turn, Failed);
      PushTwice(copy, turn, Outputs(calls[admitted..], Error(OverLimit)), [TurnFailed], Failed);
      Commit(thread, RoundEnds);
    }

    // --- Recovery -----------------------------------------------------------------------------------

    /** A function that is no longer registered stops recovery; the turn stays as it is. */
    ghost predicate GaveUp(thread: Thread, error: LoopError)
      reads this
    {
      Traced() && state.pc.Idle? && thread == store && error.UnknownFunction? && error.name !in cfg.policy
    }

    /** Brings the unanswered calls of an interrupted turn to an end. */
    method RecoverPendingFunctionCalls(copy: Thread, turn: nat) returns (thread: Thread, r: Result<Option<Outcome>, LoopError>)
      requires turn < |copy| && Working(copy, turn, AtPending(PendingOf(ViewOf(copy[turn].items)), 0))
      modifies this
      ensures match r
              case Err(error) => GaveUp(thread, error)
              case Ok(None) => Working(thread, turn, AskModel(0, 0))
              case Ok(Some(outcome)) => Ended(thread, turn, outcome)
      ensures Extends(copy, thread, turn)
    {
      thread := copy;
      var pending := PendingFunctionCalls(thread[turn].items);
      for i := 0 to |pending|
        invariant Working(thread, turn, AtPending(pending, i)) && Extends(copy, thread, turn)
      {
        ghost var before := thread;
        thread, r := RecoverCall(thread, turn, pending, i);
        ExtendsMore(copy, before, thread, turn);
        if r.Err? || r.value.Some? { return; }
      }
      Note(PendingEnds);
      r := Ok(None);
    }

    /**
     * A call of an unknown function stops recovery, and one that was started and may not be repeated
     * suspends the turn. Any other call is started again with the next attempt.
     */
    method RecoverCall(copy: Thread, turn: nat, pending: seq<PendingCall>, i: nat)
        returns (thread: Thread, r: Result<Option<Outcome>, LoopError>)
      requires i < |pending| && Working(copy, turn, AtPending(pending, i))
      modifies this
      ensures match r
              case Err(error) => GaveUp(thread, error)
              case Ok(outcome) => Continues(thread, turn, AtPending(pending, i + 1), outcome)
      ensures Extends(copy, thread, turn)
      ensures var PendingCall(call, started) := pending[i];
              if call.name !in cfg.policy then
                r == Err(UnknownFunction(call.name)) && thread == copy && state.log == old(state.log)
              else if started.Some? && cfg.policy[call.name].NonIdempotent? then
                var suspension := Suspension(env.newId(old(clock)), Some(call.id), true, Some(NextAttempt(started)));
                && r == Ok(Some(SuspendedOutcome(suspension))) && state.log == old(state.log)
                && store == thread == Added(copy, turn, [SuspensionCreated(suspension)], Suspended)
              else
                var end := EndAt(old(clock) + 1, call);
                && r == Ok(OutcomeOf(end))
                && Restarted(copy, thread, turn, CallsOf(pending)[i..], NextAttempt(started), end, old(state.log), state.log)
                && var restarted := Added(copy, turn, [CallStarted(call.id, NextAttempt(started))], Running);
                   if Undisturbed(old(clock) + 1) then
                     SettledAs(restarted, thread, turn, CallsOf(pending)[i..], env.run(old(clock) + 2), true, r.value)
                   else AbortedAs(restarted, thread, turn, CallsOf(pending)[i..]) && r.value == Some(AbortedOutcome)
    {
      var PendingCall(call, started) := pending[i];
      var attempt, newId := NextAttempt(started), env.newId(clock);
      if call.name !in cfg.policy {
        thread := copy;
        Note(StartCall(newId));
        r := Err(UnknownFunction(call.name));
      } else if started.Some? && cfg.policy[call.name].NonIdempotent? {
        var suspension := Suspension(newId, Some(call.id), true, Some(attempt));
        thread := SetStatus(Push(copy, turn, [SuspensionCreated(suspension)]), turn, Suspended);
        Commit(thread, StartCall(newId));
        r := Ok(Some(SuspendedOutcome(suspension)));
      } else {
        var outcome;
        thread, outcome := RestartCall(copy, turn, pending, i);
        r := Ok(outcome);
      }
    }

    /** Starts a call again and executes it. */
    method RestartCall(copy: Thread, turn: nat, pending: seq<PendingCall>, i: nat)
        returns (thread: Thread, outcome: Option<Outcome>)
      requires i < |pending| && Working(copy, turn, AtPending(pending, i))
      requires pending[i].call.name in cfg.policy && (pending[i].attempt.Some? ==> cfg.policy[pending[i].call.name].Idempotent?)
      modifies this
      ensures Continues(thread, turn, AtPending(pending, i + 1), outcome) && Extends(copy, thread, turn)
      ensures var end := EndAt(old(clock) + 1, pending[i].call);
              && outcome == OutcomeOf(end)
              && Restarted(copy, thread, turn, CallsOf(pending)[i..], NextAttempt(pending[i].attempt), end, old(state.log), state.log)
      ensures var restarted := Added(copy, turn, [CallStarted(pending[i].call.id, NextAttempt(pending[i].attempt))], Running);
              if Undisturbed(old(clock) + 1) then
                SettledAs(restarted, thread, turn, CallsOf(pending)[i..], env.run(old(clock) + 2), true, outcome)
              else AbortedAs(restarted, thread, turn, CallsOf(pending)[i..]) && outcome == Some(AbortedOutcome)
    {
      var PendingCall(call, started) := pending[i];
      var start, newId := CallStarted(call.id, NextAttempt(started)), env.newId(clock);
      thread := SetStatus(Push(copy, turn, [start]), turn, Running);
      ghost var stored := thread;
      Commit(thread, StartCall(newId));
      ghost var end := EndAt(clock, call);
      thread, outcome := RerunCall(thread, turn, pending, i);
      GrewMore(copy, stored, thread, turn, [start], PendingItems(CallsOf(pending)[i..], end));
      GrewExtends(copy, thread, turn, [start] + PendingItems(CallsOf(pending)[i..], end));
    }

    method RerunCall(copy: Thread, turn: nat, pending: seq<PendingCall>, i: nat)
        returns (thread: Thread, outcome: Option<Outcome>)
      requires i < |pending| && Working(copy, turn, PendingBegun(pending, i))
      modifies this
      ensures Continues(thread, turn, AtPending(pending, i + 1), outcome)
      ensures var end := EndAt(old(clock), pending[i].call);
              && outcome == OutcomeOf(end)
              && Grew(copy, thread, turn, PendingItems(CallsOf(pending)[i..], end))
              && state.log == old(state.log) + PendingEvents(turn, CallsOf(pending)[i..], end)
      ensures if Undisturbed(old(clock)) then SettledAs(copy, thread, turn, CallsOf(pending)[i..], env.run(old(clock) + 1), true, outcome)
              else AbortedAs(copy, thread, turn, CallsOf(pending)[i..]) && outcome == Some(AbortedOutcome)
    {
      var aborted := env.aborts(clock);
      if !aborted {
        InvokePending(copy, turn, pending, i);
        aborted := env.aborts(clock);
      }
      if aborted {
        thread := AbortPending(copy, turn, pending, i);
        outcome := Some(AbortedOutcome);
      } else {
        thread, outcome := SettlePending(copy, turn, pending, i);
      }
    }

    method InvokePending(copy: Thread, turn: nat, pending: seq<PendingCall>, i: nat)
      requires i < |pending| && Working(copy, turn, PendingBegun(pending, i)) && !env.aborts(clock)
      modifies this`state, this`actions, this`clock
      ensures Working(copy, turn, PendingRunning(pending, i)) && clock == old(clock) + 1
      ensures state.log == old(state.log) + [Invoked(turn, CallsOf(pending)[i..][0], false)]
    {
      Note(Invoke);
    }

    method AbortPending(copy: Thread, turn: nat, pending: seq<PendingCall>, i: nat) returns (thread: Thread)
      requires i < |pending|
      requires Working(copy, turn, PendingBegun(pending, i)) || Working(copy, turn, PendingRunning(pending, i))
      requires env.aborts(clock)
      modifies this
      ensures Ended(thread, turn, AbortedOutcome) && state.log == old(state.log)
      ensures store == thread == Added(copy, turn, AbortItems(CallsOf(pending)[i..]), TurnWasAborted)
      ensures AbortedAs(copy, thread, turn, CallsOf(pending)[i..])
    {
      thread := SetStatus(Push(copy, turn, [TurnAborted]), turn, TurnWasAborted);
      thread := Push(thread, turn, Outputs(CallsOf(pending)[i..], Aborted));
      PushTwice(copy, turn, [TurnAborted], Outputs(CallsOf(pending)[i..], Aborted), TurnWasAborted);
      Commit(thread, Abort);
    }

    /** A suspension during recovery stores no output, whether or not the call was executed. */
    method SettlePending(copy: Thread, turn: nat, pending: seq<PendingCall>, i: nat)
        returns (thread: Thread, outcome: Option<Outcome>)
      requires i < |pending| && Working(copy, turn, PendingRunning(pending, i)) && !env.aborts(clock)
      modifies this
      ensures Continues(thread, turn, AtPending(pending, i + 1), outcome)
      ensures var e := ExecutionAt(env, old(clock), pending[i].call);
              && outcome == ExecutionOutcome(e)
              && store == thread == Added(copy, turn, RecoveredItems(CallsOf(pending)[i..], e), if outcome.None? then Running else Suspended)
              && state.log == old(state.log) + LateEvents(turn, CallsOf(pending)[i..], e)
      ensures SettledAs(copy, thread, turn, CallsOf(pending)[i..], env.run(old(clock)), true, outcome)
    {
      ExecutionTells(env, clock, CallsOf(pending)[i..]);
      var call := pending[i].call;
      var e := ExecutionAt(env, clock, call);
      match e {
      case Returned(output) =>
        thread := SetStatus(Push(copy, turn, [ToolOutput(call.id, Success(output))]), turn, Running);
        outcome := None;
      case Broke(error) =>
        thread := SetStatus(Push(copy, turn, [ErrorOutput(call, error)]), turn, Running);
        outcome := None;
      case _ =>
        var skipped := Outputs(CallsOf(pending)[i + 1..], Error(Skipped));
        thread := SetStatus(Push(copy, turn, [SuspensionCreated(e.suspension)] + skipped), turn, Suspended);
        outcome := Some(SuspendedOutcome(e.suspension));
      }
      assert CallsOf(pending)[i..][1..] == CallsOf(pending)[i + 1..];
      Commit(thread, Finish(e));
    }

    // --- The entry points -----------------------------------------------------------------------------

    /** The last commit, after a turn was closed. */
    method FinishTurn(thread: Thread, turn: nat, ghost outcome: Outcome)
      requires Ended(thread, turn, outcome)
      modifies this
      ensures Traced() && state.pc.Idle? && state.turn == turn && store == thread
    {
      Commit(thread, FinalCommit);
    }

    /** A new turn with the user's text. A host that starts one has recovered the last turn before. */
    method StartTurn(text: Text) returns (r: Result<Outcome, LoopError>)
      requires Traced() && state.pc.Idle?
      requires forall k :: 0 <= k < |store| ==> !store[k].status.Running?
      modifies this
      ensures Traced() && state.pc.Idle?
      ensures r.Err? ==> store == old(store) && old(ReplayTurns(store)).Some?
                         && r.error == SuspendedTurn(old(ReplayTurns(store)).value.suspension.id)
      ensures r.Ok? ==> old(ReplayTurns(store)).None? && |store| == |old(store)| + 1 && store[..|old(store)|] == old(store)
                        && [UserInput(text, None)] <= store[|old(store)|].items
                        && Told(r.value, store[|old(store)|]) && EndsAnswered(store[|old(store)|])
    {
      var projection := FromThread(store);
      if projection.pending.Some? {
        return Err(SuspendedTurn(projection.pending.value.suspension.id));
      }
      var turn := |store|;
      var thread := store + [Turn(Running, [UserInput(text, None)])];
      Commit(thread, NewTurn(text));
      var outcome: Outcome;
      thread, outcome := RunModelLoop(thread, turn);
      FinishTurn(thread, turn, outcome);
      FollowsReaches(cfg, env, actions, state);
      EndedIsAnswered(cfg, actions, state, turn);
      r := Ok(outcome);
    }

    /** Recovers the running turn and lets it go on. */
    method ContinueTurn() returns (r: Result<Outcome, LoopError>)
      requires Traced() && state.pc.Idle?
      modifies this
      ensures Traced() && state.pc.Idle?
      ensures old(ReplayTurns(store)).Some? ==>
                store == old(store) && r == Err(SuspendedTurn(old(ReplayTurns(store)).value.suspension.id))
      ensures old(ReplayTurns(store)).None? && old(ActiveTurn(store)).None? ==> store == old(store) && r == Err(TurnNotFound)
      ensures old(ReplayTurns(store)).None? && old(ActiveTurn(store)).Some? ==>
                var turn := old(ActiveTurn(store)).value;
                turn < |old(store)| && Extends(old(store), store, turn)
                && Reported(turn, r)
    {
      var projection := FromThread(store);
      if projection.pending.Some? {
        return Err(SuspendedTurn(projection.pending.value.suspension.id));
      }
      if projection.active.None? {
        return Err(TurnNotFound);
      }
      var turn := projection.active.value;
      ActiveBounds(store);
      Note(Recover);
      var thread, recovered := RecoverPendingFunctionCalls(store, turn);
      if recovered.Err? {
        return Err(recovered.error);
      }
      var outcome: Outcome;
      if recovered.value.Some? {
        outcome := recovered.value.value;
      } else {
        thread, outcome := RunModelLoop(thread, turn);
      }
      FinishTurn(thread, turn, outcome);
      FollowsReaches(cfg, env, actions, state);
      EndedIsAnswered(cfg, actions, state, turn);
      r := Ok(outcome);
    }

    /** The resolution fits the suspension that is open. */
    ghost predicate Fits(id: nat, resolution: Resolution)
      reads this
    {
      var p := ReplayTurns(store);
      p.Some? && p.value.turn < |store| && p.value.suspension.id == id
      && if resolution.Input? then !p.value.suspension.deferred else Resumable(store, id)
    }

    /**
     * Resolves the open suspension and lets the turn go on. A resolution that does not fit is refused
     * and changes nothing; one that fits is recorded in the suspended turn, the last one, before all else.
     */
    method ResumeSuspendedTurn(id: nat, resolution: Resolution) returns (r: Result<Outcome, LoopError>)
      requires Traced() && state.pc.Idle?
      modifies this
      ensures Traced() && state.pc.Idle?
      ensures !old(Fits(id, resolution)) ==> store == old(store) && r.Err? && (r.error.TurnNotFound? || r.error.CannotResume?)
      ensures old(Fits(id, resolution)) ==>
                var n := |old(store)| - 1;
                |store| == n + 1 > 0 && store[..n] == old(store)[..n]
                && old(ReplayTurns(store)).value.turn == n
                && old(store[n].items) + [Resolved(old(ReplayTurns(store)).value.suspension, resolution)] <= store[n].items
                && ResolvedAs(old(ReplayTurns(store)).value.suspension, resolution, store[n].items[old(|store[n].items|)])
                && Reported(n, r)
    {
      ReplayBounds(store);
      FollowsReaches(cfg, env, actions, state);
      SuspendedTurnIsLast(cfg, actions, state);
      var projection := FromThread(store);
      if projection.pending.None? || projection.pending.value.suspension.id != id {
        return Err(TurnNotFound);
      }
      var Pending(suspension, turn) := projection.pending.value;
      if resolution.Input? {
        if suspension.deferred {
          return Err(CannotResume);
        }
        Commit(SetStatus(Push(store, turn, [UserInput(resolution.text, Some(id))]), turn, Running), ResumeInput(id, resolution.text));
        r := ContinueLast();
        return;
      }
      if suspension.callId.None? || FindCall(store[turn].items, suspension.callId.value).None? || !suspension.deferred {
        return Err(CannotResume);
      }
      var call := FindCall(store[turn].items, suspension.callId.value).value;
      FoundId(store[turn].items, suspension.callId.value);
      if resolution.Deny? {
        Commit(SetStatus(Push(store, turn, [ToolOutput(suspension.callId.value, Error(Denied(resolution.reason)))]), turn, Running),
               ResumeDeny(id, resolution.reason));
        r := ContinueLast();
      } else {
        Commit(Push(store, turn, [CallStarted(call.id, ApprovedAttempt(suspension.attempt))]), ResumeApprove(id));
        r := RunApproved(turn, call);
      }
    }

    /** The result tells how the stored turn ended, or which function is unknown. */
    ghost predicate Reported(turn: nat, r: Result<Outcome, LoopError>)
      requires turn < |store|
      reads this
    {
      if r.Ok? then Told(r.value, store[turn]) && EndsAnswered(store[turn])
      else r.error.UnknownFunction? && r.error.name !in cfg.policy
    }

    /**
     * Executes an approved call, whose start is stored. Its output is stored and the turn goes on; an
     * abort is stored and ends the turn; a further suspension stores nothing, so the turn stays suspended.
     */
    method RunApproved(turn: nat, call: Call) returns (r: Result<Outcome, LoopError>)
      requires Working(store, turn, ResumeBegun(call)) && turn == |store| - 1 && store[turn].status.Suspended?
      modifies this
      ensures Traced() && state.pc.Idle? && Extends(old(store), store, turn) && Reported(turn, r)
      ensures match EndAt(old(clock), call)
              case CallAborted(_) =>
                r == Ok(AbortedOutcome) && store == Added(old(store), turn, AbortItems([call]), TurnWasAborted)
              case HookFailed(_) => false
              case Executed(e) =>
                if ExecutionOutcome(e).Some? then r == Ok(ExecutionOutcome(e).value) && store == old(store)
                else old(store[turn].items) + ExecutionItems([call], e) <= store[turn].items
      ensures if Undisturbed(old(clock)) then AnsweredAs(old(store), turn, call, env.run(old(clock) + 1), r)
              else store == Added(old(store), turn, [TurnAborted, ToolOutput(call.id, Aborted)], TurnWasAborted) && r == Ok(AbortedOutcome)
    {
      var aborted := env.aborts(clock);
      if !aborted {
        Note(Invoke);
        aborted := env.aborts(clock);
      }
      if aborted {
        AbortApproved(turn, call);
        r := Ok(AbortedOutcome);
      } else {
        r := SettleApproved(turn, call);
      }
    }

    method AbortApproved(turn: nat, call: Call)
      requires turn == |store| - 1 && env.aborts(clock)
      requires Working(store, turn, ResumeBegun(call)) || Working(store, turn, ResumeRunning(call))
      modifies this
      ensures Traced() && state.pc.Idle? && store == Added(old(store), turn, AbortItems([call]), TurnWasAborted)
      ensures store == Added(old(store), turn, [TurnAborted, ToolOutput(call.id, Aborted)], TurnWasAborted)
    {
      var thread := SetStatus(Push(store, turn, [TurnAborted]), turn, TurnWasAborted);
      thread := Push(thread, turn, [ToolOutput(call.id, Aborted)]);
      PushTwice(store, turn, [TurnAborted], [ToolOutput(call.id, Aborted)], TurnWasAborted);
      assert [TurnAborted] + [ToolOutput(call.id, Aborted)] == [TurnAborted, ToolOutput(call.id, Aborted)];
      assert Outputs([call], Aborted) == [ToolOutput(call.id, Aborted)];
      Commit(thread, Abort);
    }

    /** The stored turn goes on from what the function did; a suspension naming its own call leaves it as it was. */
    ghost predicate AnsweredAs(before: Thread, turn: nat, call: Call, run: Execution, r: Result<Outcome, LoopError>)
      requires turn < |before| == |store|
      reads this
    {
      match run
      case Returned(output) => before[turn].items + [ToolOutput(call.id, Success(output))] <= store[turn].items
      case Broke(error) => before[turn].items + [ToolOutput(call.id, Error(FunctionError(error)))] <= store[turn].items
      case SuspendedBefore(x) => NamesItself(run, call) ==> store == before && r == Ok(SuspendedOutcome(x))
      case SuspendedAfter(x, _) => NamesItself(run, call) ==> store == before && r == Ok(SuspendedOutcome(x))
    }

    method SettleApproved(turn: nat, call: Call) returns (r: Result<Outcome, LoopError>)
      requires Working(store, turn, ResumeRunning(call)) && turn == |store| - 1 && store[turn].status.Suspended? && !env.aborts(clock)
      modifies this
      ensures Traced() && state.pc.Idle? && Extends(old(store), store, turn) && Reported(turn, r)
      ensures var e := ExecutionAt(env, old(clock), call);
              if ExecutionOutcome(e).Some? then r == Ok(ExecutionOutcome(e).value) && store == old(store)
              else old(store[turn].items) + ExecutionItems([call], e) <= store[turn].items
      ensures AnsweredAs(old(store), turn, call, env.run(old(clock)), r)
    {
      ExecutionTells(env, clock, [call]);
      var e := ExecutionAt(env, clock, call);
      if e.SuspendedBefore? || e.SuspendedAfter? {
        Note(Finish(e));
        return Ok(SuspendedOutcome(e.suspension));
      }
      var result := if e.Returned? then Success(e.output) else Error(FunctionError(e.error));
      Commit(SetStatus(Push(store, turn, [ToolOutput(call.id, result)]), turn, Running), Finish(e));
      ghost var answered := store;
      r := ContinueLast();
      ExtendsMore(old(store), answered, store, turn);
    }

    /** The resumed turn is the last one and goes on as if recovered. */
    method ContinueLast() returns (r: Result<Outcome, LoopError>)
      requires Traced() && state.pc.Idle? && store != [] && store[|store| - 1].status.Running?
      modifies this
      ensures Traced() && state.pc.Idle? && Extends(old(store), store, |old(store)| - 1) && Reported(|store| - 1, r)
    {
      FollowsReaches(cfg, env, actions, state);
      LastRunningContinues(cfg, actions, state);
      r := ContinueTurn();
    }
  }

  /** The item records the host's text for the suspension, the denied call, or the start of the approved one. */
  predicate ResolvedAs(s: Suspension, resolution: Resolution, item: Item) {
    match resolution
    case Input(text) => item == UserInput(text, Some(s.id))
    case Deny(reason) => s.callId.Some? && item == ToolOutput(s.callId.value, Error(Denied(reason)))
    case Approve => s.callId.Some? && item == CallStarted(s.callId.value, ApprovedAttempt(s.attempt))
  }

  /** What a resolution adds to the suspended turn. */
  function Resolved(s: Suspension, resolution: Resolution): Item
    requires !resolution.Input? ==> s.callId.Some?
  {
    match resolution
    case Input(text) => UserInput(text, Some(s.id))
    case Deny(reason) => ToolOutput(s.callId.value, Error(Denied(reason)))
    case Approve => CallStarted(s.callId.value, ApprovedAttempt(s.attempt))
  }

  /** A turn that was completed or failed has an output for every call. */
  ghost predicate EndsAnswered(turn: Turn) {
    turn.status.Completed? || turn.status.Failed? ==> AllAnswered(turn.items)
  }

  lemma EndedIsAnswered(cfg: Config, actions: seq<Action>, s: State, k: nat)
    requires Reaches(cfg, actions, s) && k < |s.disk|
    ensures EndsAnswered(s.disk[k])
  {
    if s.disk[k].status.Completed? || s.disk[k].status.Failed? {
      EndedTurnsAreAnswered(cfg, actions, s, k);
    }
  }

  lemma SuspendedTurnIsLast(cfg: Config, actions: seq<Action>, s: State)
    requires Reaches(cfg, actions, s)
    ensures ReplayTurns(s.disk).Some? ==> ReplayTurns(s.disk).value.turn == |s.disk| - 1 && s.disk[|s.disk| - 1].status.Suspended?
  {
    EveryRunIsOk(cfg, actions, s);
    PendingIsLast(s);
  }

  lemma LastRunningContinues(cfg: Config, actions: seq<Action>, s: State)
    requires Reaches(cfg, actions, s) && s.disk != [] && s.disk[|s.disk| - 1].status.Running?
    ensures ReplayTurns(s.disk).None? && ActiveTurn(s.disk) == Some(|s.disk| - 1)
  {
    EveryRunIsOk(cfg, actions, s);
    PendingIsLast(s);
  }

  /** The call found has the id looked for. */
  lemma {:induction false} FoundId(items: seq<Item>, id: nat)
    ensures FindCall(items, id).Some? ==> FindCall(items, id).value.id == id
    decreases |items|
  {
    if items != [] {
      var item := items[|items| - 1];
      if item.ModelResponse? { FirstHasId(item.calls, id); }
      FoundId(items[..|items| - 1], id);
    }
  }

  lemma {:induction false} FirstHasId(calls: seq<Call>, id: nat)
    ensures FirstWithId(calls, id).Some? ==> FirstWithId(calls, id).value.id == id
  {
    if calls != [] { FirstHasId(calls[1..], id); }
  }

  lemma PushTwice(thread: Thread, turn: nat, a: seq<Item>, b: seq<Item>, status: Status)
    requires turn < |thread|
    ensures Push(SetStatus(Push(thread, turn, a), turn, status), turn, b)
         == thread[turn := Turn(status, thread[turn].items + (a + b))]
    ensures SetStatus(Push(Push(thread, turn, a), turn, b), turn, status)
         == thread[turn := Turn(status, thread[turn].items + (a + b))]
  {
    assert thread[turn].items + a + b == thread[turn].items + (a + b);
  }
}
