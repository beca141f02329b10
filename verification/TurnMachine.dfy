/**
 * The durable turn protocol as a state machine. Each action is what happens between two points at
 * which the process may die: an append-and-commit of items to the stored thread, the start of a
 * function, or a decision of the host. What the model, the functions, the hooks and the caller do
 * is the choice of the action.
 *
 * The working copy of the thread equals the stored one except in `Closing`, where a finished turn
 * still waits for its final commit; so a crash is nothing but a return to `Idle`.
 */
module TurnMachine {
  import opened Prelude
  import opened TurnItems

  datatype Policy = Idempotent | NonIdempotent

  datatype Config = Config(allowEmpty: bool, maxIterations: nat, maxCalls: nat, policy: map<nat, Policy>)

  datatype Execution =
    | Returned(output: nat)
    | SuspendedBefore(suspension: Suspension)
    | SuspendedAfter(suspension: Suspension, output: nat)
    | Broke(error: nat)

  /** One model response with calls: how many are admitted, and the loop counters. */
  datatype Round = Round(calls: seq<Call>, admitted: nat, iteration: nat, count: nat)

  datatype Pc =
    | Idle
    | AskModel(iteration: nat, count: nat)
    | AtCall(round: Round, i: nat)
    | CallBegun(round: Round, i: nat)
    | CallRunning(round: Round, i: nat)
    | AtPending(pending: seq<PendingCall>, i: nat)
    | PendingBegun(pending: seq<PendingCall>, i: nat)
    | PendingRunning(pending: seq<PendingCall>, i: nat)
    | ResumeBegun(call: Call)
    | ResumeRunning(call: Call)
    | Closing(mem: Turn)

  /**
   * What an observer outside the store sees. `Recovered` says how many calls a recovery found pending,
   * `LateSuspension` which call it ran again that suspended after executing, and how many calls after it were
   * still unanswered.
   */
  datatype Event =
    | Invoked(turn: nat, call: Call, approved: bool)
    | Approval(turn: nat, id: nat)
    | ResumeAborted(turn: nat)
    | Recovered(turn: nat, pending: nat)
    | LateSuspension(turn: nat, id: nat, skipped: nat)

  datatype State = State(disk: Thread, turn: nat, pc: Pc, log: seq<Event>)

  datatype Action =
    | NewTurn(text: Text)
    | Recover
    | ResumeInput(id: nat, text: Text)
    | ResumeDeny(id: nat, reason: nat)
    | ResumeApprove(id: nat)
    | OutOfIterations
    | ModelFails
    | ModelReplies(reply: Option<Text>, calls: seq<Call>)
    | HookFails(error: nat)
    | StartCall(newId: nat)
    | Invoke
    | Finish(execution: Execution)
    | Abort
    | RoundEnds
    | PendingEnds
    | FinalCommit
    | Crash

  const MAX_U32: nat := 0xFFFF_FFFF

  /** Recovery counts attempts with a saturating 32-bit addition. */
  function NextAttempt(attempt: Option<nat>): nat {
    var a := if attempt.Some? then attempt.value else 0;
    if a < MAX_U32 then a + 1 else MAX_U32
  }

  /** Approval truncates the recorded attempt to 32 bits and adds one, wrapping. */
  function ApprovedAttempt(attempt: Option<nat>): nat {
    ((if attempt.Some? then attempt.value else 1) % (MAX_U32 + 1) + 1) % (MAX_U32 + 1)
  }

  /** The call with this id in the latest response that has one. */
  function FindCall(items: seq<Item>, id: nat): Option<Call> {
    if items == [] then None
    else
      var item := items[|items| - 1];
      if item.ModelResponse? && FirstWithId(item.calls, id).Some? then FirstWithId(item.calls, id)
      else FindCall(items[..|items| - 1], id)
  }

  function FirstWithId(calls: seq<Call>, id: nat): Option<Call> {
    if calls == [] then None
    else if calls[0].id == id then Some(calls[0])
    else FirstWithId(calls[1..], id)
  }

  ghost function V(s: State): View
    requires s.turn < |s.disk|
  {
    ViewOf(s.disk[s.turn].items)
  }

  /** Appends items to the current turn, sets its status and commits. */
  function Commit(s: State, more: seq<Item>, status: Status, pc: Pc): State
    requires s.turn < |s.disk|
  {
    s.(disk := s.disk[s.turn := Turn(status, s.disk[s.turn].items + more)], pc := pc)
  }

  /** Finishes the turn in memory only; `FinalCommit` stores it. */
  function Close(s: State, more: seq<Item>, status: Status): State
    requires s.turn < |s.disk|
  {
    s.(pc := Closing(Turn(status, s.disk[s.turn].items + more)))
  }

  /** Commits a finished turn; the loop's last commit stores the same turn once more. */
  function CommitAndClose(s: State, more: seq<Item>, status: Status): State
    requires s.turn < |s.disk|
  {
    Commit(s, more, status, Closing(Turn(status, s.disk[s.turn].items + more)))
  }

  /** The open suspension may be resumed by approval or denial. */
  ghost predicate Resumable(disk: Thread, id: nat) {
    var p := ReplayTurns(disk);
    p.Some? && p.value.suspension.id == id && p.value.suspension.deferred && p.value.suspension.callId.Some?
    && p.value.turn < |disk| && FindCall(disk[p.value.turn].items, p.value.suspension.callId.value).Some?
  }

  ghost predicate Active(s: State) {
    !s.pc.Idle? && s.turn < |s.disk|
  }

  /** A reply with no calls and no text. */
  predicate IsEmpty(reply: Option<Text>, calls: seq<Call>) {
    (reply.None? || reply.value == 0) && calls == []
  }

  function RunningCall(pc: Pc): Option<Call> {
    match pc
    case CallRunning(r, i) => if i < |r.calls| then Some(r.calls[i]) else None
    case PendingRunning(p, i) => if i < |p| then Some(p[i].call) else None
    case ResumeRunning(c) => Some(c)
    case _ => None
  }

  /** A suspension made by a function names its own call, and is deferred exactly before execution. */
  predicate HonestSuspension(e: Execution, call: Call) {
    match e
    case SuspendedBefore(s) => s.deferred && s.callId == Some(call.id)
    case SuspendedAfter(s, _) => !s.deferred && (s.callId.None? || s.callId == Some(call.id))
    case _ => true
  }

  ghost predicate Enabled(cfg: Config, s: State, a: Action) {
    match a
    case NewTurn(_) =>
      s.pc.Idle? && ReplayTurns(s.disk).None? && forall k :: 0 <= k < |s.disk| ==> !s.disk[k].status.Running?
    case Recover =>
      s.pc.Idle? && ReplayTurns(s.disk).None? && ActiveTurn(s.disk).Some?
    case ResumeInput(id, _) =>
      s.pc.Idle? && ReplayTurns(s.disk).Some? && ReplayTurns(s.disk).value.suspension.id == id
      && !ReplayTurns(s.disk).value.suspension.deferred && ReplayTurns(s.disk).value.turn < |s.disk|
    case ResumeDeny(id, _) => s.pc.Idle? && Resumable(s.disk, id)
    case ResumeApprove(id) => s.pc.Idle? && Resumable(s.disk, id)
    case OutOfIterations => Active(s) && s.pc.AskModel? && s.pc.iteration >= cfg.maxIterations
    case ModelFails => Active(s) && s.pc.AskModel? && s.pc.iteration < cfg.maxIterations
    case ModelReplies(_, calls) =>
      Active(s) && s.pc.AskModel? && s.pc.iteration < cfg.maxIterations
      && DistinctIds(calls) && Ids(calls) !! V(s).requested
    case HookFails(_) => Active(s) && s.pc.AtCall? && s.pc.i < s.pc.round.admitted <= |s.pc.round.calls|
    case StartCall(_) =>
      Active(s) && ((s.pc.AtCall? && s.pc.i < s.pc.round.admitted <= |s.pc.round.calls|)
                    || (s.pc.AtPending? && s.pc.i < |s.pc.pending|))
    case Invoke =>
      Active(s) && ((s.pc.CallBegun? && s.pc.i < |s.pc.round.calls|) || (s.pc.PendingBegun? && s.pc.i < |s.pc.pending|) || s.pc.ResumeBegun?)
    case Finish(e) =>
      Active(s) && RunningCall(s.pc).Some? && HonestSuspension(e, RunningCall(s.pc).value)
    case Abort =>
      Active(s) &&
      (match s.pc
      case AskModel(iteration, _) => iteration < cfg.maxIterations
      case CallBegun(r, i) => i < |r.calls|
      case CallRunning(r, i) => i < |r.calls|
      case PendingBegun(p, i) => i < |p|
      case PendingRunning(p, i) => i < |p|
      case ResumeBegun(_) => true
      case ResumeRunning(_) => true
      case _ => false)
    case RoundEnds => Active(s) && s.pc.AtCall? && s.pc.i == s.pc.round.admitted <= |s.pc.round.calls|
    case PendingEnds => Active(s) && s.pc.AtPending? && s.pc.i == |s.pc.pending|
    case FinalCommit => Active(s) && s.pc.Closing?
    case Crash => true
  }

  /** What one action does. */
  ghost function Next(cfg: Config, s: State, a: Action): State
    requires Enabled(cfg, s, a)
  {
    match a
    case NewTurn(text) =>
      State(s.disk + [Turn(Running, [UserInput(text, None)])], |s.disk|, AskModel(0, 0), s.log)
    case Recover =>
      ActiveBounds(s.disk);
      var t := ActiveTurn(s.disk).value;
      var pending := PendingOf(ViewOf(s.disk[t].items));
      s.(turn := t, pc := AtPending(pending, 0), log := s.log + [Recovered(t, |pending|)])
    case ResumeInput(id, text) =>
      Commit(s.(turn := ReplayTurns(s.disk).value.turn), [UserInput(text, Some(id))], Running, Idle)
    case ResumeDeny(id, reason) =>
      var p := ReplayTurns(s.disk).value;
      Commit(s.(turn := p.turn), [ToolOutput(p.suspension.callId.value, Error(Denied(reason)))], Running, Idle)
    case ResumeApprove(id) =>
      var p := ReplayTurns(s.disk).value;
      var call := FindCall(s.disk[p.turn].items, p.suspension.callId.value).value;
      Commit(s.(turn := p.turn, log := s.log + [Approval(p.turn, call.id)]),
             [CallStarted(call.id, ApprovedAttempt(p.suspension.attempt))], s.disk[p.turn].status, ResumeBegun(call))
    case OutOfIterations => Close(s, [TurnFailed], Failed)
    case ModelFails => Close(s, [TurnFailed], Failed)
    case ModelReplies(reply, calls) => AfterReply(cfg, s, reply, calls)
    case HookFails(error) =>
      Commit(s, [ToolOutput(s.pc.round.calls[s.pc.i].id, Error(FunctionError(error)))], Running, AtCall(s.pc.round, s.pc.i + 1))
    case StartCall(newId) =>
      if s.pc.AtCall? then
        Commit(s, [CallStarted(s.pc.round.calls[s.pc.i].id, 1)], Running, CallBegun(s.pc.round, s.pc.i))
      else AfterPendingStart(cfg, s, newId)
    case Invoke => AfterInvoke(s)
    case Finish(e) =>
      if s.pc.CallRunning? then AfterCall(s, e)
      else if s.pc.PendingRunning? then AfterPending(s, e)
      else AfterResume(s, e)
    case Abort => AfterAbort(s)
    case RoundEnds =>
      if s.pc.i == |s.pc.round.calls| then s.(pc := AskModel(s.pc.round.iteration + 1, s.pc.round.count))
      else CommitAndClose(s, Outputs(s.pc.round.calls[s.pc.i..], Error(OverLimit)) + [TurnFailed], Failed)
    case PendingEnds => s.(pc := AskModel(0, 0))
    case FinalCommit => s.(disk := s.disk[s.turn := s.pc.mem], pc := Idle)
    case Crash => s.(pc := Idle)
  }

  ghost function AfterReply(cfg: Config, s: State, reply: Option<Text>, calls: seq<Call>): State
    requires Active(s) && s.pc.AskModel?
  {
    if IsEmpty(reply, calls) && !cfg.allowEmpty then Close(s, [TurnFailed], Failed)
    else if calls == [] then CommitAndClose(s, [ModelResponse(reply, [])], Completed)
    else
      var left := if s.pc.count < cfg.maxCalls then cfg.maxCalls - s.pc.count else 0;
      var admitted := if |calls| < left then |calls| else left;
      Commit(s, [ModelResponse(reply, calls)], Running, AtCall(Round(calls, admitted, s.pc.iteration, s.pc.count + admitted), 0))
  }

  /** Recovery of one pending call: suspended, restarted, or given up when the function is unknown. */
  ghost function AfterPendingStart(cfg: Config, s: State, newId: nat): State
    requires Active(s) && s.pc.AtPending? && s.pc.i < |s.pc.pending|
  {
    var PendingCall(call, attempt) := s.pc.pending[s.pc.i];
    if call.name !in cfg.policy then s.(pc := Idle)
    else if attempt.Some? && cfg.policy[call.name].NonIdempotent? then
      CommitAndClose(s, [SuspensionCreated(Suspension(newId, Some(call.id), true, Some(NextAttempt(attempt))))], Suspended)
    else Commit(s, [CallStarted(call.id, NextAttempt(attempt))], Running, PendingBegun(s.pc.pending, s.pc.i))
  }

  ghost function AfterInvoke(s: State): State
    requires s.pc.CallBegun? ==> s.pc.i < |s.pc.round.calls|
    requires s.pc.PendingBegun? ==> s.pc.i < |s.pc.pending|
    requires s.pc.CallBegun? || s.pc.PendingBegun? || s.pc.ResumeBegun?
  {
    match s.pc
    case CallBegun(r, i) => s.(pc := CallRunning(r, i), log := s.log + [Invoked(s.turn, r.calls[i], false)])
    case PendingBegun(p, i) => s.(pc := PendingRunning(p, i), log := s.log + [Invoked(s.turn, p[i].call, false)])
    case ResumeBegun(c) => s.(pc := ResumeRunning(c), log := s.log + [Invoked(s.turn, c, true)])
  }

  ghost function AfterCall(s: State, e: Execution): State
    requires Active(s) && s.pc.CallRunning? && s.pc.i < |s.pc.round.calls|
  {
    var r, i := s.pc.round, s.pc.i;
    var id, later := r.calls[i].id, Outputs(r.calls[i + 1..], Error(Skipped));
    match e
    case Returned(output) => Commit(s, [ToolOutput(id, Success(output))], Running, AtCall(r, i + 1))
    case Broke(error) => Commit(s, [ToolOutput(id, Error(FunctionError(error)))], Running, AtCall(r, i + 1))
    case SuspendedBefore(x) => CommitAndClose(s, [SuspensionCreated(x)] + later, Suspended)
    case SuspendedAfter(x, output) =>
      CommitAndClose(s, [ToolOutput(id, Success(output)), SuspensionCreated(x)] + later, Suspended)
  }

  /** During recovery a suspension drops the output of a call that suspended after executing. */
  ghost function AfterPending(s: State, e: Execution): State
    requires Active(s) && s.pc.PendingRunning? && s.pc.i < |s.pc.pending|
  {
    var p, i := s.pc.pending, s.pc.i;
    var id, later := p[i].call.id, Outputs(CallsOf(p)[i + 1..], Error(Skipped));
    match e
    case Returned(output) => Commit(s, [ToolOutput(id, Success(output))], Running, AtPending(p, i + 1))
    case Broke(error) => Commit(s, [ToolOutput(id, Error(FunctionError(error)))], Running, AtPending(p, i + 1))
    case SuspendedBefore(x) => CommitAndClose(s, [SuspensionCreated(x)] + later, Suspended)
    case SuspendedAfter(x, _) =>
      CommitAndClose(s.(log := s.log + [LateSuspension(s.turn, id, |later|)]), [SuspensionCreated(x)] + later, Suspended)
  }

  /** A resumed call that suspends again leaves the stored turn as it is. */
  ghost function AfterResume(s: State, e: Execution): State
    requires Active(s) && s.pc.ResumeRunning?
  {
    match e
    case Returned(output) => Commit(s, [ToolOutput(s.pc.call.id, Success(output))], Running, Idle)
    case Broke(error) => Commit(s, [ToolOutput(s.pc.call.id, Error(FunctionError(error)))], Running, Idle)
    case _ => s.(pc := Idle)
  }

  ghost function AfterAbort(s: State): State
    requires Active(s)
  {
    match s.pc
    case CallBegun(r, i) => if i < |r.calls| then Close(s, [TurnAborted] + Outputs(r.calls[i..], Aborted), TurnWasAborted) else s
    case CallRunning(r, i) => if i < |r.calls| then Close(s, [TurnAborted] + Outputs(r.calls[i..], Aborted), TurnWasAborted) else s
    case PendingBegun(p, i) => if i < |p| then CommitAndClose(s, [TurnAborted] + Outputs(CallsOf(p)[i..], Aborted), TurnWasAborted) else s
    case PendingRunning(p, i) => if i < |p| then CommitAndClose(s, [TurnAborted] + Outputs(CallsOf(p)[i..], Aborted), TurnWasAborted) else s
    case ResumeBegun(c) =>
      Commit(s.(log := s.log + [ResumeAborted(s.turn)]), [TurnAborted, ToolOutput(c.id, Aborted)], TurnWasAborted, Idle)
    case ResumeRunning(c) =>
      Commit(s.(log := s.log + [ResumeAborted(s.turn)]), [TurnAborted, ToolOutput(c.id, Aborted)], TurnWasAborted, Idle)
    case _ => Close(s, [TurnAborted], TurnWasAborted)
  }

  lemma {:induction false} ActiveBounds(turns: Thread)
    ensures ActiveTurn(turns).Some? ==> ActiveTurn(turns).value < |turns| && turns[ActiveTurn(turns).value].status.Running?
  {
    if turns != [] && !turns[|turns| - 1].status.Running? { ActiveBounds(turns[..|turns| - 1]); }
  }

  // --- Runs ---------------------------------------------------------------------------------

  const INITIAL := State([], 0, Idle, [])

  /** Step `i` of a run. */
  ghost predicate StepAt(cfg: Config, actions: seq<Action>, states: seq<State>, i: nat)
    requires i < |actions| && |states| == |actions| + 1
  {
    Enabled(cfg, states[i], actions[i]) && states[i + 1] == Next(cfg, states[i], actions[i])
  }

  /** The states that a list of actions goes through, each action enabled when it happens. */
  ghost predicate IsRun(cfg: Config, actions: seq<Action>, states: seq<State>) {
    |states| == |actions| + 1 && states[0] == INITIAL && forall i :: 0 <= i < |actions| ==> StepAt(cfg, actions, states, i)
  }

  ghost predicate Reaches(cfg: Config, actions: seq<Action>, s: State) {
    exists states :: IsRun(cfg, actions, states) && states[|actions|] == s
  }

  lemma StartOfRun(cfg: Config)
    ensures Reaches(cfg, [], INITIAL)
  {
    assert IsRun(cfg, [], [INITIAL]);
  }

  lemma LastOfRun(cfg: Config, actions: seq<Action>, states: seq<State>)
    requires IsRun(cfg, actions, states) && actions != []
    ensures var n := |actions| - 1;
            IsRun(cfg, actions[..n], states[..n + 1]) && StepAt(cfg, actions, states, n)
  {
    var n := |actions| - 1;
    var front, past := actions[..n], states[..n + 1];
    forall i | 0 <= i < n
      ensures StepAt(cfg, front, past, i)
    {
      assert StepAt(cfg, actions, states, i);
    }
  }

  /** The state before the last action. */
  lemma LastStep(cfg: Config, actions: seq<Action>, s: State) returns (before: State)
    requires Reaches(cfg, actions, s) && actions != []
    ensures var n := |actions| - 1;
            Reaches(cfg, actions[..n], before) && Enabled(cfg, before, actions[n]) && s == Next(cfg, before, actions[n])
  {
    var n := |actions| - 1;
    var states :| IsRun(cfg, actions, states) && states[|actions|] == s;
    LastOfRun(cfg, actions, states);
    before := states[n];
    assert states[..n + 1][n] == before;
  }

  lemma OnceMore(cfg: Config, actions: seq<Action>, states: seq<State>, a: Action)
    requires IsRun(cfg, actions, states) && Enabled(cfg, states[|actions|], a)
    ensures IsRun(cfg, actions + [a], states + [Next(cfg, states[|actions|], a)])
  {
    var more, after := actions + [a], states + [Next(cfg, states[|actions|], a)];
    forall i | 0 <= i < |more|
      ensures StepAt(cfg, more, after, i)
    {
      if i < |actions| {
        assert StepAt(cfg, actions, states, i);
        assert more[i] == actions[i] && after[i] == states[i] && after[i + 1] == states[i + 1];
      } else {
        assert more[i] == a && after[i] == states[i];
      }
    }
  }

  lemma ReachStep(cfg: Config, actions: seq<Action>, s: State, a: Action)
    requires Reaches(cfg, actions, s) && Enabled(cfg, s, a)
    ensures Reaches(cfg, actions + [a], Next(cfg, s, a))
  {
    var states :| IsRun(cfg, actions, states) && states[|actions|] == s;
    OnceMore(cfg, actions, states, a);
    assert (states + [Next(cfg, s, a)])[|actions + [a]|] == Next(cfg, s, a);
  }
}
