/** What the status of a turn tells: its items say how it ended. */
module TurnEnds {
  import opened Prelude
  import opened TurnItems
  import opened TurnMachine
  import opened TurnSafety
  import opened TurnTheorems

  // --- The status in the items -----------------------------------------------------------------------

  predicate EndsWithReply(items: seq<Item>) {
    items != [] && items[|items| - 1].ModelResponse? && items[|items| - 1].calls == []
  }

  predicate EndsWithFailure(items: seq<Item>) {
    items != [] && items[|items| - 1] == TurnFailed
  }

  /** An abort mark stands there, and only aborted outputs behind it. */
  predicate AbortedFrom(items: seq<Item>, k: int) {
    0 <= k < |items| && items[k] == TurnAborted
    && forall j :: k < j < |items| ==> items[j].ToolOutput? && items[j].result == Aborted
  }

  /** A suspension stands there, and behind it only outputs of skipped calls and starts of approved ones. */
  predicate SuspendedFrom(items: seq<Item>, k: int) {
    0 <= k < |items| && items[k].SuspensionCreated?
    && forall j :: k < j < |items| ==> items[j].CallStarted? || (items[j].ToolOutput? && items[j].result == Error(Skipped))
  }

  /** The same read item by item. */
  datatype Verdict = Undecided | Held | Done | Lost | Stopped

  function After(v: Verdict, item: Item): Verdict {
    match item
    case UserInput(_, _) => Undecided
    case ModelResponse(_, calls) => if calls == [] then Done else Undecided
    case ToolOutput(_, result) => if (v == Held && result == Error(Skipped)) || (v == Stopped && result == Aborted) then v else Undecided
    case CallStarted(_, _) => if v == Held then Held else Undecided
    case SuspensionCreated(_) => Held
    case TurnFailed => Lost
    case TurnAborted => Stopped
  }

  function AfterAll(v: Verdict, items: seq<Item>): Verdict {
    if items == [] then v else After(AfterAll(v, items[..|items| - 1]), items[|items| - 1])
  }

  function VerdictOf(items: seq<Item>): Verdict {
    AfterAll(Undecided, items)
  }

  lemma {:induction false} AfterAppend(v: Verdict, a: seq<Item>, b: seq<Item>)
    ensures AfterAll(v, a + b) == AfterAll(AfterAll(v, a), b)
    decreases |b|
  {
    if b == [] {
      assert a + b == a;
    } else {
      assert (a + b)[..|a + b| - 1] == a + b[..|b| - 1];
      AfterAppend(v, a, b[..|b| - 1]);
    }
  }

  lemma AfterOne(v: Verdict, a: Item)
    ensures AfterAll(v, [a]) == After(v, a)
  {
    assert [a][..0] == [];
  }

  lemma {:induction false} AfterOutputs(v: Verdict, calls: seq<Call>, result: ToolResult)
    ensures (v == Held && result == Error(Skipped)) || (v == Stopped && result == Aborted) ==> AfterAll(v, Outputs(calls, result)) == v
    decreases |calls|
  {
    if calls != [] {
      var n := |calls| - 1;
      assert Outputs(calls, result)[..n] == Outputs(calls[..n], result);
      AfterOutputs(v, calls[..n], result);
    }
  }

  lemma {:induction false} StoppedIs(items: seq<Item>)
    ensures VerdictOf(items) == Stopped <==> exists k :: AbortedFrom(items, k)
    decreases |items|
  {
    if items != [] {
      var n := |items| - 1;
      var front := items[..n];
      StoppedIs(front);
      if k :| AbortedFrom(front, k) {
        if items[n].ToolOutput? && items[n].result == Aborted { assert AbortedFrom(items, k); }
      }
      if k :| AbortedFrom(items, k) {
        if k < n { assert AbortedFrom(front, k); }
      }
      if items[n] == TurnAborted { assert AbortedFrom(items, n); }
    }
  }

  lemma {:induction false} HeldIs(items: seq<Item>)
    ensures VerdictOf(items) == Held <==> exists k :: SuspendedFrom(items, k)
    decreases |items|
  {
    if items != [] {
      var n := |items| - 1;
      var front := items[..n];
      HeldIs(front);
      if k :| SuspendedFrom(front, k) {
        if items[n].CallStarted? || (items[n].ToolOutput? && items[n].result == Error(Skipped)) { assert SuspendedFrom(items, k); }
      }
      if k :| SuspendedFrom(items, k) {
        if k < n { assert SuspendedFrom(front, k); }
      }
      if items[n].SuspensionCreated? { assert SuspendedFrom(items, n); }
    }
  }

  function StatusFor(v: Verdict): Status {
    match v
    case Undecided => Running
    case Held => Suspended
    case Done => Completed
    case Lost => Failed
    case Stopped => TurnWasAborted
  }

  /** A completed turn ends with a reply that is not empty, unless empty ones are allowed. */
  predicate ReplyFits(cfg: Config, items: seq<Item>) {
    EndsWithReply(items) ==> cfg.allowEmpty || (items[|items| - 1].reply.Some? && items[|items| - 1].reply.value != 0)
  }

  ghost predicate Fits(cfg: Config, turn: Turn) {
    turn.status == StatusFor(VerdictOf(turn.items)) && ReplyFits(cfg, turn.items)
  }

  ghost predicate EndsOk(cfg: Config, s: State) {
    (forall k :: 0 <= k < |s.disk| ==> Fits(cfg, s.disk[k])) && (s.pc.Closing? ==> Fits(cfg, s.pc.mem))
  }

  // --- Every action ------------------------------------------------------------------------------------

  /** Items behind which a turn that stood at `v` has this status. */
  ghost predicate Bring(cfg: Config, v: Verdict, more: seq<Item>, status: Status) {
    more != [] && status == StatusFor(AfterAll(v, more)) && ReplyFits(cfg, more)
  }

  lemma BringFits(cfg: Config, items: seq<Item>, more: seq<Item>, status: Status)
    requires Bring(cfg, VerdictOf(items), more, status)
    ensures Fits(cfg, Turn(status, items + more))
  {
    AfterAppend(Undecided, items, more);
    assert (items + more)[|items + more| - 1] == more[|more| - 1];
  }

  lemma CommitFits(cfg: Config, s: State, more: seq<Item>, status: Status, pc: Pc)
    requires EndsOk(cfg, s) && s.turn < |s.disk| && Bring(cfg, VerdictOf(s.disk[s.turn].items), more, status)
    requires pc.Closing? ==> pc.mem == Turn(status, s.disk[s.turn].items + more)
    ensures EndsOk(cfg, Commit(s, more, status, pc))
  {
    BringFits(cfg, s.disk[s.turn].items, more, status);
  }

  lemma CloseFits(cfg: Config, s: State, more: seq<Item>, status: Status)
    requires EndsOk(cfg, s) && s.turn < |s.disk| && Bring(cfg, VerdictOf(s.disk[s.turn].items), more, status)
    ensures EndsOk(cfg, Close(s, more, status))
  {
    BringFits(cfg, s.disk[s.turn].items, more, status);
  }

  /** An output other than of a skipped or aborted call lets a turn run. */
  lemma OutputBrings(cfg: Config, v: Verdict, id: nat, result: ToolResult)
    requires result != Error(Skipped) && result != Aborted
    ensures Bring(cfg, v, [ToolOutput(id, result)], Running)
  {
    AfterOne(v, ToolOutput(id, result));
  }

  lemma StartBrings(cfg: Config, v: Verdict, id: nat, attempt: nat)
    requires v == Undecided || v == Held
    ensures Bring(cfg, v, [CallStarted(id, attempt)], StatusFor(v))
  {
    AfterOne(v, CallStarted(id, attempt));
  }

  lemma FailureBrings(cfg: Config, v: Verdict, before: seq<Item>)
    ensures Bring(cfg, v, before + [TurnFailed], Failed)
  {
    AfterAppend(v, before, [TurnFailed]);
    AfterOne(AfterAll(v, before), TurnFailed);
  }

  lemma AbortBrings(cfg: Config, v: Verdict, calls: seq<Call>)
    ensures Bring(cfg, v, [TurnAborted] + Outputs(calls, Aborted), TurnWasAborted)
  {
    AfterAppend(v, [TurnAborted], Outputs(calls, Aborted));
    AfterOne(v, TurnAborted);
    AfterOutputs(Stopped, calls, Aborted);
    var more := [TurnAborted] + Outputs(calls, Aborted);
    assert !more[|more| - 1].ModelResponse?;
  }

  lemma SuspensionBrings(cfg: Config, v: Verdict, before: seq<Item>, x: Suspension, calls: seq<Call>)
    ensures Bring(cfg, v, before + [SuspensionCreated(x)] + Outputs(calls, Error(Skipped)), Suspended)
  {
    AfterAppend(v, before, [SuspensionCreated(x)]);
    AfterOne(AfterAll(v, before), SuspensionCreated(x));
    AfterAppend(v, before + [SuspensionCreated(x)], Outputs(calls, Error(Skipped)));
    AfterOutputs(Held, calls, Error(Skipped));
    var more := before + [SuspensionCreated(x)] + Outputs(calls, Error(Skipped));
    assert !more[|more| - 1].ModelResponse?;
  }

  lemma ReplyBrings(cfg: Config, v: Verdict, reply: Option<Text>, calls: seq<Call>)
    requires calls == [] ==> !IsEmpty(reply, calls) || cfg.allowEmpty
    ensures Bring(cfg, v, [ModelResponse(reply, calls)], if calls == [] then Completed else Running)
  {
    AfterOne(v, ModelResponse(reply, calls));
  }

  lemma InputBrings(cfg: Config, v: Verdict, text: Text, responseTo: Option<nat>)
    ensures Bring(cfg, v, [UserInput(text, responseTo)], Running)
  {
    AfterOne(v, UserInput(text, responseTo));
  }

  /** A running turn is undecided and a suspended one held. */
  lemma VerdictFits(cfg: Config, turn: Turn)
    requires Fits(cfg, turn)
    ensures turn.status == Running <==> VerdictOf(turn.items) == Undecided
    ensures turn.status == Suspended <==> VerdictOf(turn.items) == Held
  {
  }

  lemma ReplyEnds(cfg: Config, s: State, a: Action)
    requires EndsOk(cfg, s) && Enabled(cfg, s, a) && a.ModelReplies?
    ensures EndsOk(cfg, Next(cfg, s, a))
  {
    var v := VerdictOf(s.disk[s.turn].items);
    if IsEmpty(a.reply, a.calls) && !cfg.allowEmpty {
      FailureBrings(cfg, v, []);
      assert [] + [TurnFailed] == [TurnFailed];
      CloseFits(cfg, s, [TurnFailed], Failed);
    } else {
      ReplyBrings(cfg, v, a.reply, a.calls);
      CommitFits(cfg, s, [ModelResponse(a.reply, a.calls)], if a.calls == [] then Completed else Running, Next(cfg, s, a).pc);
    }
  }

  lemma StartEnds(cfg: Config, s: State, a: Action)
    requires EndsOk(cfg, s) && StateOk(s) && Enabled(cfg, s, a) && a.StartCall?
    ensures EndsOk(cfg, Next(cfg, s, a))
  {
    VerdictFits(cfg, s.disk[s.turn]);
    var v, pc := VerdictOf(s.disk[s.turn].items), Next(cfg, s, a).pc;
    if s.pc.AtCall? {
      var id := s.pc.round.calls[s.pc.i].id;
      StartBrings(cfg, v, id, 1);
      CommitFits(cfg, s, [CallStarted(id, 1)], Running, pc);
    } else {
      var PendingCall(call, attempt) := s.pc.pending[s.pc.i];
      if call.name in cfg.policy {
        if attempt.Some? && cfg.policy[call.name].NonIdempotent? {
          var x := Suspension(a.newId, Some(call.id), true, Some(NextAttempt(attempt)));
          SuspensionBrings(cfg, v, [], x, []);
          assert [] + [SuspensionCreated(x)] + Outputs([], Error(Skipped)) == [SuspensionCreated(x)];
          CommitFits(cfg, s, [SuspensionCreated(x)], Suspended, pc);
        } else {
          StartBrings(cfg, v, call.id, NextAttempt(attempt));
          CommitFits(cfg, s, [CallStarted(call.id, NextAttempt(attempt))], Running, pc);
        }
      }
    }
  }

  lemma SettleEnds(cfg: Config, s: State, id: nat, e: Execution, pc: Pc)
    requires EndsOk(cfg, s) && s.turn < |s.disk| && !pc.Closing? && (e.Returned? || e.Broke?)
    ensures EndsOk(cfg, Commit(s, [ToolOutput(id, if e.Returned? then Success(e.output) else Error(FunctionError(e.error)))], Running, pc))
  {
    var result := if e.Returned? then Success(e.output) else Error(FunctionError(e.error));
    OutputBrings(cfg, VerdictOf(s.disk[s.turn].items), id, result);
    CommitFits(cfg, s, [ToolOutput(id, result)], Running, pc);
  }

  lemma HoldEnds(cfg: Config, s: State, before: seq<Item>, x: Suspension, calls: seq<Call>)
    requires EndsOk(cfg, s) && s.turn < |s.disk|
    ensures EndsOk(cfg, CommitAndClose(s, before + [SuspensionCreated(x)] + Outputs(calls, Error(Skipped)), Suspended))
  {
    var more := before + [SuspensionCreated(x)] + Outputs(calls, Error(Skipped));
    SuspensionBrings(cfg, VerdictOf(s.disk[s.turn].items), before, x, calls);
    CommitFits(cfg, s, more, Suspended, Closing(Turn(Suspended, s.disk[s.turn].items + more)));
  }

  lemma CallEnds(cfg: Config, s: State, e: Execution)
    requires EndsOk(cfg, s) && Active(s) && s.pc.CallRunning? && s.pc.i < |s.pc.round.calls|
    ensures EndsOk(cfg, AfterCall(s, e))
  {
    var r, i := s.pc.round, s.pc.i;
    match e
    case Returned(_) => SettleEnds(cfg, s, r.calls[i].id, e, AtCall(r, i + 1));
    case Broke(_) => SettleEnds(cfg, s, r.calls[i].id, e, AtCall(r, i + 1));
    case SuspendedBefore(x) =>
      HoldEnds(cfg, s, [], x, r.calls[i + 1..]);
      assert [] + [SuspensionCreated(x)] == [SuspensionCreated(x)];
    case SuspendedAfter(x, output) =>
      HoldEnds(cfg, s, [ToolOutput(r.calls[i].id, Success(output))], x, r.calls[i + 1..]);
      assert [ToolOutput(r.calls[i].id, Success(output))] + [SuspensionCreated(x)] == [ToolOutput(r.calls[i].id, Success(output)), SuspensionCreated(x)];
  }

  lemma PendingCallEnds(cfg: Config, s: State, e: Execution)
    requires EndsOk(cfg, s) && Active(s) && s.pc.PendingRunning? && s.pc.i < |s.pc.pending|
    ensures EndsOk(cfg, AfterPending(s, e))
  {
    var p, i := s.pc.pending, s.pc.i;
    match e
    case Returned(_) => SettleEnds(cfg, s, p[i].call.id, e, AtPending(p, i + 1));
    case Broke(_) => SettleEnds(cfg, s, p[i].call.id, e, AtPending(p, i + 1));
    case SuspendedBefore(x) =>
      HoldEnds(cfg, s, [], x, CallsOf(p)[i + 1..]);
      assert [] + [SuspensionCreated(x)] == [SuspensionCreated(x)];
    case SuspendedAfter(x, _) =>
      var noted := s.(log := AfterPending(s, e).log);
      HoldEnds(cfg, noted, [], x, CallsOf(p)[i + 1..]);
      assert [] + [SuspensionCreated(x)] == [SuspensionCreated(x)];
  }

  lemma ResumedEnds(cfg: Config, s: State, e: Execution)
    requires EndsOk(cfg, s) && Active(s) && s.pc.ResumeRunning?
    ensures EndsOk(cfg, AfterResume(s, e))
  {
    if e.Returned? || e.Broke? { SettleEnds(cfg, s, s.pc.call.id, e, Idle); }
  }

  /** Aborting closes the turn in memory or commits it. */
  lemma AbortEnds(cfg: Config, s: State, calls: seq<Call>)
    requires EndsOk(cfg, s) && s.turn < |s.disk|
    ensures var more := [TurnAborted] + Outputs(calls, Aborted);
            && EndsOk(cfg, Close(s, more, TurnWasAborted)) && EndsOk(cfg, CommitAndClose(s, more, TurnWasAborted))
            && EndsOk(cfg, Commit(s, more, TurnWasAborted, Idle))
  {
    var more := [TurnAborted] + Outputs(calls, Aborted);
    AbortBrings(cfg, VerdictOf(s.disk[s.turn].items), calls);
    CloseFits(cfg, s, more, TurnWasAborted);
    CommitFits(cfg, s, more, TurnWasAborted, Idle);
    CommitFits(cfg, s, more, TurnWasAborted, Closing(Turn(TurnWasAborted, s.disk[s.turn].items + more)));
  }

  lemma AbortActionEnds(cfg: Config, s: State)
    requires EndsOk(cfg, s) && Enabled(cfg, s, Abort)
    ensures EndsOk(cfg, AfterAbort(s))
  {
    match s.pc
    case CallBegun(r, i) => AbortEnds(cfg, s, r.calls[i..]);
    case CallRunning(r, i) => AbortEnds(cfg, s, r.calls[i..]);
    case PendingBegun(p, i) => AbortEnds(cfg, s, CallsOf(p)[i..]);
    case PendingRunning(p, i) => AbortEnds(cfg, s, CallsOf(p)[i..]);
    case ResumeBegun(c) => AbortOneEnds(cfg, s, c);
    case ResumeRunning(c) => AbortOneEnds(cfg, s, c);
    case AskModel(_, _) =>
      AbortEnds(cfg, s, []);
      assert [TurnAborted] + Outputs([], Aborted) == [TurnAborted];
    case _ =>
  }

  lemma AbortOneEnds(cfg: Config, s: State, c: Call)
    requires EndsOk(cfg, s) && s.turn < |s.disk|
    ensures EndsOk(cfg, Commit(s.(log := s.log + [ResumeAborted(s.turn)]), [TurnAborted, ToolOutput(c.id, Aborted)], TurnWasAborted, Idle))
  {
    AbortEnds(cfg, s.(log := s.log + [ResumeAborted(s.turn)]), [c]);
    assert [TurnAborted] + Outputs([c], Aborted) == [TurnAborted, ToolOutput(c.id, Aborted)];
  }

  lemma FailureEnds(cfg: Config, s: State, before: seq<Item>)
    requires EndsOk(cfg, s) && s.turn < |s.disk|
    ensures EndsOk(cfg, Close(s, before + [TurnFailed], Failed)) && EndsOk(cfg, CommitAndClose(s, before + [TurnFailed], Failed))
  {
    FailureBrings(cfg, VerdictOf(s.disk[s.turn].items), before);
    CloseFits(cfg, s, before + [TurnFailed], Failed);
    CommitFits(cfg, s, before + [TurnFailed], Failed, Closing(Turn(Failed, s.disk[s.turn].items + (before + [TurnFailed]))));
  }

  lemma BareFailureEnds(cfg: Config, s: State)
    requires EndsOk(cfg, s) && s.turn < |s.disk|
    ensures EndsOk(cfg, Close(s, [TurnFailed], Failed))
  {
    FailureEnds(cfg, s, []);
    assert [] + [TurnFailed] == [TurnFailed];
  }

  lemma ResolveEnds(cfg: Config, s: State, a: Action)
    requires EndsOk(cfg, s) && StateOk(s) && Enabled(cfg, s, a) && (a.ResumeInput? || a.ResumeDeny? || a.ResumeApprove?)
    requires ReplayTurns(s.disk).value.turn < |s.disk| && s.disk[ReplayTurns(s.disk).value.turn].status.Suspended?
    ensures EndsOk(cfg, Next(cfg, s, a))
  {
    var p := ReplayTurns(s.disk).value;
    var v, there := VerdictOf(s.disk[p.turn].items), s.(turn := p.turn);
    match a {
    case ResumeInput(id, text) =>
      InputBrings(cfg, v, text, Some(id));
      CommitFits(cfg, there, [UserInput(text, Some(id))], Running, Idle);
    case ResumeDeny(id, reason) =>
      OutputBrings(cfg, v, p.suspension.callId.value, Error(Denied(reason)));
      CommitFits(cfg, there, [ToolOutput(p.suspension.callId.value, Error(Denied(reason)))], Running, Idle);
    case ResumeApprove(id) =>
      var call := FindCall(s.disk[p.turn].items, p.suspension.callId.value).value;
      VerdictFits(cfg, s.disk[p.turn]);
      StartBrings(cfg, v, call.id, ApprovedAttempt(p.suspension.attempt));
      CommitFits(cfg, there.(log := s.log + [Approval(p.turn, call.id)]), [CallStarted(call.id, ApprovedAttempt(p.suspension.attempt))],
                 Suspended, ResumeBegun(call));
    }
  }

  lemma NewTurnEnds(cfg: Config, s: State, text: Text)
    requires EndsOk(cfg, s)
    ensures EndsOk(cfg, State(s.disk + [Turn(Running, [UserInput(text, None)])], |s.disk|, AskModel(0, 0), s.log))
  {
    AfterOne(Undecided, UserInput(text, None));
  }

  lemma ActionKeepsEnds(cfg: Config, s: State, a: Action)
    requires EndsOk(cfg, s) && StateOk(s) && Enabled(cfg, s, a)
    requires ReplayTurns(s.disk).Some? ==>
               ReplayTurns(s.disk).value.turn < |s.disk| && s.disk[ReplayTurns(s.disk).value.turn].status.Suspended?
    ensures EndsOk(cfg, Next(cfg, s, a))
  {
    match a
    case NewTurn(text) => NewTurnEnds(cfg, s, text);
    case Recover =>
    case ResumeInput(_, _) => ResolveEnds(cfg, s, a);
    case ResumeDeny(_, _) => ResolveEnds(cfg, s, a);
    case ResumeApprove(_) => ResolveEnds(cfg, s, a);
    case OutOfIterations => BareFailureEnds(cfg, s);
    case ModelFails => BareFailureEnds(cfg, s);
    case ModelReplies(_, _) => ReplyEnds(cfg, s, a);
    case HookFails(error) => HookEnds(cfg, s, error);
    case StartCall(_) => StartEnds(cfg, s, a);
    case Invoke =>
    case Finish(e) => FinishEnds(cfg, s, e);
    case Abort => AbortActionEnds(cfg, s);
    case RoundEnds => RoundEndsEnds(cfg, s);
    case PendingEnds =>
    case FinalCommit =>
    case Crash =>
  }

  lemma HookEnds(cfg: Config, s: State, error: nat)
    requires EndsOk(cfg, s) && Enabled(cfg, s, HookFails(error))
    ensures EndsOk(cfg, Next(cfg, s, HookFails(error)))
  {
    SettleEnds(cfg, s, s.pc.round.calls[s.pc.i].id, Broke(error), AtCall(s.pc.round, s.pc.i + 1));
  }

  lemma RoundEndsEnds(cfg: Config, s: State)
    requires EndsOk(cfg, s) && Enabled(cfg, s, RoundEnds)
    ensures EndsOk(cfg, Next(cfg, s, RoundEnds))
  {
    if s.pc.i < |s.pc.round.calls| { FailureEnds(cfg, s, Outputs(s.pc.round.calls[s.pc.i..], Error(OverLimit))); }
  }

  lemma FinishEnds(cfg: Config, s: State, e: Execution)
    requires EndsOk(cfg, s) && Enabled(cfg, s, Finish(e))
    ensures EndsOk(cfg, Next(cfg, s, Finish(e)))
  {
    if s.pc.CallRunning? { CallEnds(cfg, s, e); } else if s.pc.PendingRunning? { PendingCallEnds(cfg, s, e); } else { ResumedEnds(cfg, s, e); }
  }

  lemma {:induction false} RunKeepsEnds(cfg: Config, actions: seq<Action>, s: State)
    requires Reaches(cfg, actions, s)
    ensures EndsOk(cfg, s)
    decreases |actions|
  {
    if actions != [] {
      var n := |actions| - 1;
      var before := LastStep(cfg, actions, s);
      RunKeepsEnds(cfg, actions[..n], before);
      EveryRunIsOk(cfg, actions[..n], before);
      ProjectionNamesSuspendedTurn(cfg, actions[..n], before);
      ActionKeepsEnds(cfg, before, actions[n]);
    }
  }

  /**
   * In every run the status of a stored turn is what its items end with: a reply without calls completes it, a
   * failure mark fails it, an abort mark aborts it, and a suspension that nothing has answered suspends it.
   */
  lemma StatusIsTold(cfg: Config, actions: seq<Action>, s: State, k: nat)
    requires Reaches(cfg, actions, s) && k < |s.disk|
    ensures var Turn(status, items) := s.disk[k];
            && (status == Completed <==> EndsWithReply(items))
            && (status == Failed <==> EndsWithFailure(items))
            && (status == TurnWasAborted <==> exists j :: AbortedFrom(items, j))
            && (status == Suspended <==> exists j :: SuspendedFrom(items, j))
            && (status == Completed && !cfg.allowEmpty ==> items[|items| - 1].reply.Some? && items[|items| - 1].reply.value != 0)
  {
    RunKeepsEnds(cfg, actions, s);
    assert Fits(cfg, s.disk[k]);
    StoppedIs(s.disk[k].items);
    HeldIs(s.disk[k].items);
  }
}
