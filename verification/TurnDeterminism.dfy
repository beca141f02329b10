/** Crashes leave no trace. */
module TurnDeterminism {
  import opened Prelude
  import opened TurnItems
  import opened TurnMachine
  import opened TurnSafety
  import opened TurnOrder

  // When every function behaves alike each time and the host approves what recovery holds back, the outputs of
  // a finished turn depend on the model's responses only.

  /** What a call comes to: a result, or a question to the host before it is executed, and then a result. */
  datatype Behaviour = Gives(result: ToolResult) | Asks(result: ToolResult)

  type Functions = Call -> Behaviour

  /** The tool outputs of a turn, in order. */
  ghost function OutputsIn(items: seq<Item>): seq<Item> {
    if items == [] then []
    else
      var n := |items| - 1;
      if items[n].ToolOutput? then OutputsIn(items[..n]) + [items[n]] else OutputsIn(items[..n])
  }

  /** The answers to some calls, up to one that asks: it is answered last, after the others were skipped. */
  ghost function Answers(f: Functions, calls: seq<Call>): seq<Item> {
    if calls == [] then []
    else
      var out := ToolOutput(calls[0].id, f(calls[0]).result);
      if f(calls[0]).Asks? then Outputs(calls[1..], Error(Skipped)) + [out] else [out] + Answers(f, calls[1..])
  }

  /** The calls of the responses that had any, in order. */
  ghost function Responses(items: seq<Item>): seq<seq<Call>> {
    if items == [] then []
    else
      var n := |items| - 1;
      if items[n].ModelResponse? && items[n].calls != [] then Responses(items[..n]) + [items[n].calls] else Responses(items[..n])
  }

  /** What a run without crashes puts out: the answers to each response, in order. */
  ghost function AnswersTo(f: Functions, responses: seq<seq<Call>>): seq<Item> {
    if responses == [] then [] else AnswersTo(f, responses[..|responses| - 1]) + Answers(f, responses[|responses| - 1])
  }

  /** Exactly the answers to the unanswered calls are missing, at the end. */
  ghost predicate Faithful(f: Functions, items: seq<Item>) {
    OutputsIn(items) + Answers(f, Rest(ViewOf(items))) == AnswersTo(f, Responses(items))
  }

  lemma QuietItem(f: Functions, items: seq<Item>, item: Item)
    requires Faithful(f, items) && !item.ToolOutput? && (item.ModelResponse? ==> item.calls == [])
    ensures Faithful(f, items + [item]) && Rest(ViewOf(items + [item])) == Rest(ViewOf(items))
  {
    ViewPush(items, item);
    assert (items + [item])[..|items|] == items;
  }

  lemma ResponseItem(f: Functions, items: seq<Item>, reply: Option<Text>, calls: seq<Call>)
    requires Faithful(f, items) && Rest(ViewOf(items)) == [] && calls != []
    ensures Faithful(f, items + [ModelResponse(reply, calls)])
  {
    var item := ModelResponse(reply, calls);
    ViewPush(items, item);
    assert (items + [item])[..|items|] == items;
    AllUnanswered(calls, {});
    assert Answers(f, []) == [];
    assert Responses(items + [item]) == Responses(items) + [calls];
    assert Responses(items + [item])[..|Responses(items)|] == Responses(items);
    assert Rest(ViewOf(items + [item])) == calls;
  }

  /** The first call is to be answered next: it does not ask, or nothing else is left. */
  ghost predicate Ready(f: Functions, rest: seq<Call>) {
    rest != [] && (f(rest[0]).Asks? ==> |rest| == 1)
  }

  lemma OutputItem(f: Functions, items: seq<Item>)
    requires Faithful(f, items) && Sane(ViewOf(items)) && Ready(f, Rest(ViewOf(items)))
    ensures var c := Rest(ViewOf(items))[0];
            Faithful(f, items + [ToolOutput(c.id, f(c).result)])
  {
    var v := ViewOf(items);
    var u := Rest(v);
    var item := ToolOutput(u[0].id, f(u[0]).result);
    ViewPush(items, item);
    assert (items + [item])[..|items|] == items;
    AnswerFirst(v.last, v.settled);
    assert f(u[0]).Asks? ==> Answers(f, u) == Outputs([], Error(Skipped)) + [item] && Answers(f, u[1..]) == [];
    assert Answers(f, u) == [item] + Answers(f, u[1..]);
    assert OutputsIn(items + [item]) == OutputsIn(items) + [item];
    assert OutputsIn(items) + [item] + Answers(f, u[1..]) == OutputsIn(items) + Answers(f, u);
  }

  // A call that asks.

  lemma {:induction false} AllButFirst(calls: seq<Call>, settled: set<nat>)
    requires DistinctIds(calls) && Unanswered(calls, settled) != []
    ensures var u := Unanswered(calls, settled);
            Unanswered(calls, settled + Ids(u[1..])) == [u[0]]
  {
    var u := Unanswered(calls, settled);
    if calls[0].id in settled {
      assert u == Unanswered(calls[1..], settled);
      AllButFirst(calls[1..], settled);
      assert [] + [u[0]] == [u[0]];
    } else {
      var rest := Unanswered(calls[1..], settled);
      assert u[0] == calls[0] && u[1..] == rest;
      NoneLeft(calls[1..], settled);
      UnansweredIn(calls[1..], settled);
    }
  }

  lemma {:induction false} UnansweredIn(calls: seq<Call>, settled: set<nat>)
    ensures forall c :: c in Unanswered(calls, settled) ==> c in calls
    ensures forall c :: c in calls && c.id !in settled ==> c in Unanswered(calls, settled)
  {
    if calls != [] { UnansweredIn(calls[1..], settled); }
  }

  lemma NoneLeft(calls: seq<Call>, settled: set<nat>)
    ensures Unanswered(calls, settled + Ids(Unanswered(calls, settled))) == []
  {
    UnansweredIn(calls, settled);
    AllSettled(calls, settled + Ids(Unanswered(calls, settled)));
  }

  lemma {:induction false} ReadMore(items: seq<Item>, more: seq<Item>)
    requires forall i :: 0 <= i < |more| ==> more[i].ToolOutput?
    ensures OutputsIn(items + more) == OutputsIn(items) + more && Responses(items + more) == Responses(items)
    decreases |more|
  {
    if more == [] {
      assert items + more == items;
    } else {
      var n := |more| - 1;
      assert (items + more)[..|items + more| - 1] == items + more[..n];
      ReadMore(items, more[..n]);
    }
  }

  /** The first call asks, and those behind it are answered as skipped. */
  lemma AskItems(f: Functions, items: seq<Item>, x: Suspension)
    requires Faithful(f, items) && Sane(ViewOf(items)) && Rest(ViewOf(items)) != [] && f(Rest(ViewOf(items))[0]).Asks?
    ensures var u := Rest(ViewOf(items));
            var after := items + ([SuspensionCreated(x)] + Outputs(u[1..], Error(Skipped)));
            Faithful(f, after) && Rest(ViewOf(after)) == [u[0]]
  {
    var v, u := ViewOf(items), Rest(ViewOf(items));
    var outs := Outputs(u[1..], Error(Skipped));
    SuspendedView(items, x, u[1..]);
    AllButFirst(v.last, v.settled);
    AskReads(items, x, outs);
    AskAnswers(f, u);
    assert OutputsIn(items) + (outs + Answers(f, [u[0]])) == OutputsIn(items) + outs + Answers(f, [u[0]]);
  }

  lemma AskReads(items: seq<Item>, x: Suspension, outs: seq<Item>)
    requires forall i :: 0 <= i < |outs| ==> outs[i].ToolOutput?
    ensures OutputsIn(items + ([SuspensionCreated(x)] + outs)) == OutputsIn(items) + outs
    ensures Responses(items + ([SuspensionCreated(x)] + outs)) == Responses(items)
  {
    ReadMore(items + [SuspensionCreated(x)], outs);
    assert items + ([SuspensionCreated(x)] + outs) == items + [SuspensionCreated(x)] + outs;
    assert (items + [SuspensionCreated(x)])[..|items|] == items;
  }

  lemma AskAnswers(f: Functions, u: seq<Call>)
    requires u != [] && f(u[0]).Asks?
    ensures Answers(f, u) == Outputs(u[1..], Error(Skipped)) + Answers(f, [u[0]])
  {
    assert Outputs([u[0]][1..], Error(Skipped)) == [];
  }

  // --- Undisturbed runs ------------------------------------------------------------------------------

  /** A call that asks may be repeated: asking once more does no harm. */
  ghost predicate AskersRepeat(cfg: Config, f: Functions) {
    forall c :: f(c).Asks? && c.name in cfg.policy ==> cfg.policy[c.name].Idempotent?
  }

  predicate IsResult(e: Execution, result: ToolResult) {
    match e
    case Returned(output) => result == Success(output)
    case Broke(error) => result == Error(FunctionError(error))
    case _ => false
  }

  /** The function behaves as `f` says; once approved, it gives the result. */
  predicate Obeys(f: Functions, call: Call, approved: bool, e: Execution) {
    if f(call).Gives? || approved then IsResult(e, f(call).result) else e.SuspendedBefore?
  }

  /** The host denies only calls that ask and for which it is so told. */
  ghost predicate MayDeny(f: Functions, s: State, reason: nat) {
    s.disk != [] && Rest(ViewOf(s.disk[|s.disk| - 1].items)) != []
    && var c := Rest(ViewOf(s.disk[|s.disk| - 1].items))[0];
       f(c) == Asks(Error(Denied(reason)))
  }

  /**
   * Functions behave as `f` says, the host decides likewise, hooks pass, no call is aborted and responses fit
   * the call limit.
   */
  ghost predicate Undisturbed(f: Functions, s: State, a: Action) {
    match a
    case HookFails(_) => false
    case ResumeDeny(_, reason) => MayDeny(f, s, reason)
    case Finish(e) => RunningCall(s.pc).Some? && Obeys(f, RunningCall(s.pc).value, s.pc.ResumeRunning?, e)
    case Abort => s.pc.AskModel?
    case RoundEnds => s.pc.AtCall? && s.pc.i == |s.pc.round.calls|
    case _ => true
  }

  ghost predicate UndisturbedAt(f: Functions, actions: seq<Action>, states: seq<State>, i: nat)
    requires i < |actions| && |states| == |actions| + 1
  {
    Undisturbed(f, states[i], actions[i])
  }

  /** An undisturbed run; it may crash and recover anywhere. */
  ghost predicate Runs(cfg: Config, f: Functions, actions: seq<Action>, s: State) {
    exists states :: IsRun(cfg, actions, states) && states[|actions|] == s
                     && forall i :: 0 <= i < |actions| ==> UndisturbedAt(f, actions, states, i)
  }

  lemma RunsReach(cfg: Config, f: Functions, actions: seq<Action>, s: State)
    requires Runs(cfg, f, actions, s)
    ensures Reaches(cfg, actions, s)
  {
  }

  lemma LastUndisturbed(cfg: Config, f: Functions, actions: seq<Action>, s: State) returns (before: State)
    requires Runs(cfg, f, actions, s) && actions != []
    ensures var n := |actions| - 1;
            Runs(cfg, f, actions[..n], before) && Enabled(cfg, before, actions[n])
            && Undisturbed(f, before, actions[n]) && s == Next(cfg, before, actions[n])
  {
    var n := |actions| - 1;
    var states :| IsRun(cfg, actions, states) && states[|actions|] == s
                  && forall i :: 0 <= i < |actions| ==> UndisturbedAt(f, actions, states, i);
    LastOfRun(cfg, actions, states);
    before := states[n];
    assert UndisturbedAt(f, actions, states, n);
    var front, past := actions[..n], states[..n + 1];
    forall i | 0 <= i < n
      ensures UndisturbedAt(f, front, past, i)
    {
      assert UndisturbedAt(f, actions, states, i);
    }
    assert past[n] == before;
  }

  /** The open suspension holds the call to be answered next. */
  ghost predicate HoldsNext(f: Functions, v: View) {
    Ready(f, Rest(v)) && v.open.Some? && v.open.value.deferred && v.open.value.callId == Some(Rest(v)[0].id)
  }

  ghost predicate FaithfulTurn(f: Functions, turn: Turn) {
    Faithful(f, turn.items) && (turn.status.Suspended? ==> HoldsNext(f, ViewOf(turn.items)))
  }

  ghost predicate FaithfulAt(f: Functions, disk: Thread, k: nat)
    requires k < |disk|
  {
    FaithfulTurn(f, disk[k])
  }

  ghost predicate FaithfulOk(f: Functions, s: State) {
    && (forall k :: 0 <= k < |s.disk| ==> FaithfulAt(f, s.disk, k))
    && (forall k :: ResumeAborted(k) !in s.log)
    && (s.pc.Closing? ==> FaithfulTurn(f, s.pc.mem))
  }

  /** Committing to the current turn, or closing it in memory. */
  lemma CommitFaithful(f: Functions, s: State, more: seq<Item>, status: Status, pc: Pc)
    requires FaithfulOk(f, s) && s.turn < |s.disk| && FaithfulTurn(f, Turn(status, s.disk[s.turn].items + more))
    requires !pc.Closing? || pc == Closing(Turn(status, s.disk[s.turn].items + more))
    ensures FaithfulOk(f, Commit(s, more, status, pc))
    ensures FaithfulOk(f, Close(s, more, status))
  {
    var s' := Commit(s, more, status, pc);
    forall k | 0 <= k < |s.disk|
      ensures FaithfulAt(f, s'.disk, k)
    {
      assert FaithfulAt(f, s.disk, k);
    }
  }

  lemma NewTurnFaithful(cfg: Config, f: Functions, s: State, text: Text)
    requires FaithfulOk(f, s) && Enabled(cfg, s, NewTurn(text))
    ensures FaithfulOk(f, Next(cfg, s, NewTurn(text)))
  {
    assert Faithful(f, []);
    QuietItem(f, [], UserInput(text, None));
    assert [] + [UserInput(text, None)] == [UserInput(text, None)];
    var disk := s.disk + [Turn(Running, [UserInput(text, None)])];
    forall k | 0 <= k < |disk|
      ensures FaithfulAt(f, disk, k)
    {
      if k < |s.disk| { assert FaithfulAt(f, s.disk, k); }
    }
  }

  lemma ModelStepFaithful(cfg: Config, f: Functions, s: State, a: Action)
    requires StateOk(s) && FaithfulOk(f, s) && Enabled(cfg, s, a)
    requires a.OutOfIterations? || a.ModelFails? || a.ModelReplies? || (a.Abort? && s.pc.AskModel?)
    ensures FaithfulOk(f, Next(cfg, s, a))
  {
    ClosedRest(V(s));
    EndFaithful(f, s, TurnFailed, Failed);
    if a.Abort? {
      EndFaithful(f, s, TurnAborted, TurnWasAborted);
    } else if a.ModelReplies? && a.calls == [] {
      EndFaithful(f, s, ModelResponse(a.reply, []), Completed);
    } else if a.ModelReplies? {
      ReplyFaithful(cfg, f, s, a.reply, a.calls);
    }
  }

  /** The turn ends with an item that says nothing about calls. */
  lemma EndFaithful(f: Functions, s: State, item: Item, status: Status)
    requires FaithfulOk(f, s) && s.turn < |s.disk| && !status.Suspended?
    requires !item.ToolOutput? && (item.ModelResponse? ==> item.calls == [])
    ensures FaithfulOk(f, Close(s, [item], status)) && FaithfulOk(f, CommitAndClose(s, [item], status))
  {
    assert FaithfulAt(f, s.disk, s.turn);
    QuietItem(f, s.disk[s.turn].items, item);
    CommitFaithful(f, s, [item], status, Closing(Turn(status, s.disk[s.turn].items + [item])));
  }

  lemma ReplyFaithful(cfg: Config, f: Functions, s: State, reply: Option<Text>, calls: seq<Call>)
    requires FaithfulOk(f, s) && Active(s) && s.pc.AskModel? && Rest(V(s)) == [] && calls != []
    ensures FaithfulOk(f, AfterReply(cfg, s, reply, calls))
  {
    assert FaithfulAt(f, s.disk, s.turn);
    ResponseItem(f, s.disk[s.turn].items, reply, calls);
    CommitFaithful(f, s, [ModelResponse(reply, calls)], Running, AfterReply(cfg, s, reply, calls).pc);
  }

  /** The call that is about to start or running is the first unanswered one. */
  lemma CallIsNext(s: State)
    requires StateOk(s) && OrderOk(s) && Active(s)
    ensures s.pc.AtPending? && s.pc.i < |s.pc.pending| ==> Rest(V(s)) != [] && Rest(V(s))[0] == s.pc.pending[s.pc.i].call
    ensures s.pc.CallRunning? ==> Sane(V(s)) && V(s).open.None? && Rest(V(s)) == s.pc.round.calls[s.pc.i..] && s.pc.i < |s.pc.round.calls|
    ensures s.pc.PendingRunning? ==>
              Sane(V(s)) && V(s).open.None? && s.pc.i < |s.pc.pending| && Rest(V(s)) == CallsOf(s.pc.pending)[s.pc.i..]
  {
    if s.pc.CallRunning? {
      RoundRest(V(s), s.pc.round.calls, s.pc.i);
    } else if s.pc.AtPending? && s.pc.i < |s.pc.pending| {
      assert CallsOf(s.pc.pending)[s.pc.i..][0] == s.pc.pending[s.pc.i].call;
    }
  }

  lemma StartFaithful(cfg: Config, f: Functions, s: State, newId: nat)
    requires AskersRepeat(cfg, f) && StateOk(s) && OrderOk(s) && FaithfulOk(f, s) && Enabled(cfg, s, StartCall(newId))
    ensures FaithfulOk(f, Next(cfg, s, StartCall(newId)))
  {
    if s.pc.AtCall? {
      MarkFaithful(f, s, CallStarted(s.pc.round.calls[s.pc.i].id, 1), CallBegun(s.pc.round, s.pc.i));
    } else {
      CallIsNext(s);
      PendingStartFaithful(cfg, f, s, newId);
    }
  }

  lemma MarkFaithful(f: Functions, s: State, item: Item, pc: Pc)
    requires FaithfulOk(f, s) && s.turn < |s.disk| && item.CallStarted? && !pc.Closing?
    ensures FaithfulOk(f, Commit(s, [item], Running, pc))
  {
    assert FaithfulAt(f, s.disk, s.turn);
    QuietItem(f, s.disk[s.turn].items, item);
    CommitFaithful(f, s, [item], Running, pc);
  }

  /** Recovery starts the call again, or holds it back until the host approves. */
  lemma PendingStartFaithful(cfg: Config, f: Functions, s: State, newId: nat)
    requires AskersRepeat(cfg, f) && FaithfulOk(f, s) && Active(s) && s.pc.AtPending? && s.pc.i < |s.pc.pending|
    requires Rest(V(s)) != [] && Rest(V(s))[0] == s.pc.pending[s.pc.i].call
    ensures FaithfulOk(f, AfterPendingStart(cfg, s, newId))
  {
    var PendingCall(call, attempt) := s.pc.pending[s.pc.i];
    MarkFaithful(f, s, CallStarted(call.id, NextAttempt(attempt)), PendingBegun(s.pc.pending, s.pc.i));
    if call.name in cfg.policy && cfg.policy[call.name].NonIdempotent? {
      var items, x := s.disk[s.turn].items, Suspension(newId, Some(call.id), true, Some(NextAttempt(attempt)));
      assert FaithfulAt(f, s.disk, s.turn) && f(call).Gives?;
      QuietItem(f, items, SuspensionCreated(x));
      View1(items, SuspensionCreated(x));
      CommitFaithful(f, s, [SuspensionCreated(x)], Suspended, Closing(Turn(Suspended, items + [SuspensionCreated(x)])));
    }
  }

  /** The running call is answered as expected. */
  lemma AnswerFaithful(f: Functions, s: State, pc: Pc)
    requires FaithfulOk(f, s) && s.turn < |s.disk| && Sane(V(s)) && Ready(f, Rest(V(s))) && !pc.Closing?
    ensures FaithfulOk(f, Commit(s, [ToolOutput(Rest(V(s))[0].id, f(Rest(V(s))[0]).result)], Running, pc))
  {
    assert FaithfulAt(f, s.disk, s.turn);
    OutputItem(f, s.disk[s.turn].items);
    CommitFaithful(f, s, [ToolOutput(Rest(V(s))[0].id, f(Rest(V(s))[0]).result)], Running, pc);
  }

  /** The running call asks. */
  lemma AskFaithful(f: Functions, s: State, x: Suspension)
    requires FaithfulOk(f, s) && s.turn < |s.disk| && Sane(V(s)) && Rest(V(s)) != [] && DistinctIds(Rest(V(s)))
    requires f(Rest(V(s))[0]).Asks? && HonestSuspension(SuspendedBefore(x), Rest(V(s))[0])
    ensures FaithfulOk(f, CommitAndClose(s, [SuspensionCreated(x)] + Outputs(Rest(V(s))[1..], Error(Skipped)), Suspended))
  {
    var items, u := s.disk[s.turn].items, Rest(V(s));
    var more := [SuspensionCreated(x)] + Outputs(u[1..], Error(Skipped));
    assert FaithfulAt(f, s.disk, s.turn);
    AskItems(f, items, x);
    SuspendedView(items, x, u[1..]);
    assert u[0].id !in Ids(u[1..]);
    CommitFaithful(f, s, more, Suspended, Closing(Turn(Suspended, items + more)));
  }

  lemma CallFinishFaithful(f: Functions, s: State, e: Execution)
    requires StateOk(s) && OrderOk(s) && FaithfulOk(f, s) && Active(s) && s.pc.CallRunning? && s.pc.i < |s.pc.round.calls|
    requires Obeys(f, s.pc.round.calls[s.pc.i], false, e) && HonestSuspension(e, s.pc.round.calls[s.pc.i])
    ensures FaithfulOk(f, AfterCall(s, e))
  {
    var r, i := s.pc.round, s.pc.i;
    CallIsNext(s);
    assert r.calls[i..][0] == r.calls[i] && r.calls[i..][1..] == r.calls[i + 1..];
    if e.SuspendedBefore? {
      SuffixDistinct(r.calls, i);
      AskFaithful(f, s, e.suspension);
    } else {
      AnswerFaithful(f, s, AtCall(r, i + 1));
    }
  }

  lemma PendingFinishFaithful(f: Functions, s: State, e: Execution)
    requires StateOk(s) && OrderOk(s) && FaithfulOk(f, s) && Active(s) && s.pc.PendingRunning? && s.pc.i < |s.pc.pending|
    requires Obeys(f, s.pc.pending[s.pc.i].call, false, e) && HonestSuspension(e, s.pc.pending[s.pc.i].call)
    ensures FaithfulOk(f, AfterPending(s, e))
  {
    var p, i := s.pc.pending, s.pc.i;
    CallIsNext(s);
    assert CallsOf(p)[i..][0] == p[i].call && CallsOf(p)[i..][1..] == CallsOf(p)[i + 1..];
    if e.SuspendedBefore? {
      SuffixDistinct(CallsOf(p), i);
      AskFaithful(f, s, e.suspension);
    } else {
      AnswerFaithful(f, s, AtPending(p, i + 1));
    }
  }

  // What the host decides.

  lemma HeldIsNext(f: Functions, s: State)
    requires StateOk(s) && FaithfulOk(f, s) && ReplayTurns(s.disk).Some?
    ensures s.disk != [] && s.disk[|s.disk| - 1].status.Suspended?
    ensures var v := ViewOf(s.disk[|s.disk| - 1].items);
            Sane(v) && HoldsNext(f, v) && ReplayTurns(s.disk) == Some(Pending(v.open.value, |s.disk| - 1))
  {
    PendingIsLast(s);
    var n := |s.disk| - 1;
    assert FaithfulAt(f, s.disk, n) && TurnOk(s.disk[n], n, s.log);
  }

  lemma DenyFaithful(cfg: Config, f: Functions, s: State, id: nat, reason: nat)
    requires StateOk(s) && FaithfulOk(f, s) && Enabled(cfg, s, ResumeDeny(id, reason)) && MayDeny(f, s, reason)
    ensures FaithfulOk(f, Next(cfg, s, ResumeDeny(id, reason)))
  {
    HeldIsNext(f, s);
    AnswerFaithful(f, s.(turn := |s.disk| - 1), Idle);
  }

  lemma ApproveFaithful(cfg: Config, f: Functions, s: State, id: nat)
    requires StateOk(s) && FaithfulOk(f, s) && Enabled(cfg, s, ResumeApprove(id))
    ensures FaithfulOk(f, Next(cfg, s, ResumeApprove(id)))
  {
    HeldIsNext(f, s);
    var n := |s.disk| - 1;
    var items, x := s.disk[n].items, ViewOf(s.disk[n].items).open.value;
    var call := FindCall(items, x.callId.value).value;
    var started := CallStarted(call.id, ApprovedAttempt(x.attempt));
    assert FaithfulAt(f, s.disk, n);
    QuietItem(f, items, started);
    View1(items, started);
    CommitFaithful(f, s.(turn := n), [started], Suspended, ResumeBegun(call));
    LogFaithful(f, Commit(s.(turn := n), [started], Suspended, ResumeBegun(call)), Approval(n, call.id));
  }

  lemma LogFaithful(f: Functions, s: State, e: Event)
    requires FaithfulOk(f, s) && !e.ResumeAborted?
    ensures FaithfulOk(f, s.(log := s.log + [e]))
  {
    var s' := s.(log := s.log + [e]);
    forall k | 0 <= k < |s'.disk| ensures FaithfulAt(f, s'.disk, k) { assert FaithfulAt(f, s.disk, k); }
  }

  /** The call that the host approved is one of the last response. */
  ghost predicate ResumesLast(s: State) {
    s.pc.ResumeBegun? || s.pc.ResumeRunning? ==> s.turn < |s.disk| && s.pc.call in V(s).last
  }

  lemma ActionResumesLast(cfg: Config, s: State, a: Action)
    requires StateOk(s) && ResumesLast(s) && Enabled(cfg, s, a)
    ensures ResumesLast(Next(cfg, s, a))
  {
    if a.ResumeApprove? {
      ApprovesLast(cfg, s, a.id);
    }
  }

  lemma ApprovesLast(cfg: Config, s: State, id: nat)
    requires StateOk(s) && Enabled(cfg, s, ResumeApprove(id))
    ensures ResumesLast(Next(cfg, s, ResumeApprove(id)))
  {
    PendingIsLast(s);
    var n := |s.disk| - 1;
    assert TurnOk(s.disk[n], n, s.log);
    var v := ViewOf(s.disk[n].items);
    FoundCall(s.disk[n].items, v.open.value.callId.value);
    View1(s.disk[n].items, Next(cfg, s, ResumeApprove(id)).disk[n].items[|s.disk[n].items|]);
  }

  /** It is the one held, and so the one to be answered next. */
  lemma ResumedIsNext(f: Functions, s: State)
    requires StateOk(s) && FaithfulOk(f, s) && Active(s) && s.pc.ResumeRunning? && ResumesLast(s)
    ensures Sane(V(s)) && Ready(f, Rest(V(s))) && Rest(V(s))[0] == s.pc.call
  {
    assert FaithfulAt(f, s.disk, s.turn);
    UnansweredIn(V(s).last, V(s).settled);
    SameIdSameCall(V(s).last, Rest(V(s))[0], s.pc.call);
  }

  lemma SameIdSameCall(calls: seq<Call>, a: Call, b: Call)
    requires DistinctIds(calls) && a in calls && b in calls && a.id == b.id
    ensures a == b
  {
    var i :| 0 <= i < |calls| && calls[i] == a;
    var j :| 0 <= j < |calls| && calls[j] == b;
  }

  lemma ResumeFinishFaithful(f: Functions, s: State, e: Execution)
    requires StateOk(s) && FaithfulOk(f, s) && ResumesLast(s) && Active(s) && s.pc.ResumeRunning? && Obeys(f, s.pc.call, true, e)
    ensures FaithfulOk(f, AfterResume(s, e))
  {
    ResumedIsNext(f, s);
    AnswerFaithful(f, s, Idle);
  }

  // --- Every action -------------------------------------------------------------------------------------

  lemma ActionKeepsFaithful(cfg: Config, f: Functions, s: State, a: Action)
    requires AskersRepeat(cfg, f) && StateOk(s) && OrderOk(s) && FaithfulOk(f, s) && ResumesLast(s)
    requires Enabled(cfg, s, a) && Undisturbed(f, s, a)
    ensures FaithfulOk(f, Next(cfg, s, a))
  {
    match a
    case NewTurn(text) => NewTurnFaithful(cfg, f, s, text);
    case OutOfIterations => ModelStepFaithful(cfg, f, s, a);
    case ModelFails => ModelStepFaithful(cfg, f, s, a);
    case ModelReplies(_, _) => ModelStepFaithful(cfg, f, s, a);
    case Abort => ModelStepFaithful(cfg, f, s, a);
    case StartCall(newId) => StartFaithful(cfg, f, s, newId);
    case Finish(e) =>
      if s.pc.CallRunning? { CallFinishFaithful(f, s, e); }
      else if s.pc.PendingRunning? { PendingFinishFaithful(f, s, e); }
      else { ResumeFinishFaithful(f, s, e); }
    case ResumeInput(_, _) => HeldIsNext(f, s);
    case ResumeDeny(id, reason) => DenyFaithful(cfg, f, s, id, reason);
    case ResumeApprove(id) => ApproveFaithful(cfg, f, s, id);
    case _ => QuietActionFaithful(cfg, f, s, a);
  }

  lemma QuietActionFaithful(cfg: Config, f: Functions, s: State, a: Action)
    requires FaithfulOk(f, s) && Enabled(cfg, s, a) && Undisturbed(f, s, a)
    requires a.FinalCommit? || a.RoundEnds? || a.PendingEnds? || a.Recover? || a.Invoke? || a.Crash?
    ensures FaithfulOk(f, Next(cfg, s, a))
  {
    if a.FinalCommit? {
      var disk := s.disk[s.turn := s.pc.mem];
      forall k | 0 <= k < |disk|
        ensures FaithfulAt(f, disk, k)
      {
        assert FaithfulAt(f, s.disk, k);
      }
    }
  }

  lemma {:induction false} EveryRunIsFaithful(cfg: Config, f: Functions, actions: seq<Action>, s: State)
    requires AskersRepeat(cfg, f) && Runs(cfg, f, actions, s)
    ensures FaithfulOk(f, s) && ResumesLast(s)
    decreases |actions|
  {
    if actions != [] {
      var n := |actions| - 1;
      var before := LastUndisturbed(cfg, f, actions, s);
      EveryRunIsFaithful(cfg, f, actions[..n], before);
      RunsReach(cfg, f, actions[..n], before);
      EveryRunIsOk(cfg, actions[..n], before);
      EveryRunIsInOrder(cfg, actions[..n], before);
      ActionKeepsFaithful(cfg, f, before, actions[n]);
      ActionResumesLast(cfg, before, actions[n]);
    }
  }

  /** At every moment the outputs are the first of those expected, and all of them once a turn has ended. */
  lemma OutputsAreDetermined(cfg: Config, f: Functions, actions: seq<Action>, s: State, k: nat)
    requires AskersRepeat(cfg, f) && Runs(cfg, f, actions, s) && k < |s.disk|
    ensures var items := s.disk[k].items;
            && OutputsIn(items) <= AnswersTo(f, Responses(items))
            && (Terminal(s.disk[k].status) ==> OutputsIn(items) == AnswersTo(f, Responses(items)))
            && (s.pc.AskModel? && s.turn == k ==> OutputsIn(items) == AnswersTo(f, Responses(items)))
  {
    EveryRunIsFaithful(cfg, f, actions, s);
    RunsReach(cfg, f, actions, s);
    EveryRunIsOk(cfg, actions, s);
    var items := s.disk[k].items;
    assert FaithfulAt(f, s.disk, k) && TurnOk(s.disk[k], k, s.log);
    if Closed(ViewOf(items)) {
      ClosedRest(ViewOf(items));
      assert Answers(f, []) == [];
    }
  }

  /**
   * Two finished turns with the same responses have the same outputs in the same order, wherever
   * either run crashed and however often it recovered.
   */
  lemma CrashesLeaveNoTrace(cfg: Config, f: Functions, run: seq<Action>, s: State, k: nat, other: seq<Action>, t: State, m: nat)
    requires AskersRepeat(cfg, f) && Runs(cfg, f, run, s) && Runs(cfg, f, other, t)
    requires k < |s.disk| && m < |t.disk| && Terminal(s.disk[k].status) && Terminal(t.disk[m].status)
    requires Responses(s.disk[k].items) == Responses(t.disk[m].items)
    ensures OutputsIn(s.disk[k].items) == OutputsIn(t.disk[m].items)
  {
    OutputsAreDetermined(cfg, f, run, s, k);
    OutputsAreDetermined(cfg, f, other, t, m);
  }
}