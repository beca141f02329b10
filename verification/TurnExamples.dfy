/**
 * Runs that show where properties stop holding, built action by action from the empty thread: a call that
 * is lost, pending calls that are no tail, a hook that a crash skips, and the executions that recovery adds
 * to the call limit start from here.
 */
module TurnExamples {
  import opened Prelude
  import opened TurnItems
  import opened TurnMachine
  import opened TurnSafety
  import opened TurnTheorems
  import opened TurnOrder
  import opened TurnDeterminism
  import opened TurnConversation
  import Context = ContextBlocks
  import Builder = ContextBuilder

  // --- A request, a crash, a recovery ------------------------------------------------------------------

  function Asked(calls: seq<Call>): seq<Item> {
    [UserInput(5, None), ModelResponse(None, calls)]
  }

  /** Every call pending and none started. */
  function Untouched(calls: seq<Call>): seq<PendingCall> {
    seq(|calls|, i requires 0 <= i < |calls| => PendingCall(calls[i], None))
  }

  lemma {:induction false} AllPending(calls: seq<Call>)
    ensures Unsettled(calls, {}, map[]) == Untouched(calls)
  {
    if calls != [] {
      AllPending(calls[1..]);
      assert Untouched(calls) == [PendingCall(calls[0], None)] + Untouched(calls[1..]);
    }
  }

  lemma AskedView(calls: seq<Call>)
    requires calls != []
    ensures ViewOf(Asked(calls)) == View(Ids(calls), calls, multiset{}, {}, map[], None, true)
  {
    var one := [UserInput(5, None)];
    assert Asked(calls)[..1] == one && one[..0] == [];
    assert ObserveAll(BLANK, []) == BLANK;
    assert ViewOf(one) == BLANK;
    assert {} + Ids(calls) == Ids(calls);
  }

  function Left(cfg: Config, calls: seq<Call>): nat {
    Min(|calls|, cfg.maxCalls)
  }

  /** The user asks and the model requests some calls. */
  lemma RunToRequest(cfg: Config, calls: seq<Call>) returns (actions: seq<Action>)
    requires cfg.maxIterations > 0 && calls != [] && DistinctIds(calls)
    ensures Reaches(cfg, actions, State([Turn(Running, Asked(calls))], 0,
                                        AtCall(Round(calls, Left(cfg, calls), 0, Left(cfg, calls)), 0), []))
    ensures Crash !in actions
  {
    var ask, reply := NewTurn(5), ModelReplies(None, calls);
    var s := State([Turn(Running, [UserInput(5, None)])], 0, AskModel(0, 0), []);
    StartOfRun(cfg);
    assert Enabled(cfg, INITIAL, ask) && Next(cfg, INITIAL, ask) == s;
    ReachStep(cfg, [], INITIAL, ask);
    assert [UserInput(5, None)][..0] == [] && ViewOf([UserInput(5, None)]).requested == {};
    assert Enabled(cfg, s, reply);
    assert [UserInput(5, None)] + [ModelResponse(None, calls)] == Asked(calls);
    assert Next(cfg, s, reply) == AfterReply(cfg, s, None, calls);
    ReachStep(cfg, [] + [ask], s, reply);
    actions := [] + [ask] + [reply];
  }

  /** The process dies before the first call starts, and the next one recovers the turn. */
  lemma RunToRecovery(cfg: Config, calls: seq<Call>) returns (actions: seq<Action>)
    requires cfg.maxIterations > 0 && calls != [] && DistinctIds(calls)
    ensures Reaches(cfg, actions, State([Turn(Running, Asked(calls))], 0, AtPending(Untouched(calls), 0), [Recovered(0, |calls|)]))
    ensures Crash in actions
  {
    actions := RunToRequest(cfg, calls);
    var round := Round(calls, Left(cfg, calls), 0, Left(cfg, calls));
    var s := State([Turn(Running, Asked(calls))], 0, AtCall(round, 0), []);
    ReachStep(cfg, actions, s, Crash);
    actions := actions + [Crash];
    var idle := s.(pc := Idle);
    WhenRecoveryIsDue(cfg, actions, idle);
    AskedView(calls);
    AllPending(calls);
    RecoverFrom(cfg, idle, Untouched(calls));
    ReachStep(cfg, actions, idle, Recover);
    actions := actions + [Recover];
  }

  lemma RecoverFrom(cfg: Config, s: State, pending: seq<PendingCall>)
    requires Enabled(cfg, s, Recover) && |s.disk| == 1 && s.turn == 0 && s.log == [] && s.disk[0].status.Running?
    requires PendingOf(ViewOf(s.disk[0].items)) == pending
    ensures Next(cfg, s, Recover) == State(s.disk, 0, AtPending(pending, 0), [Recovered(0, |pending|)])
  {
    assert [] + [Recovered(0, |pending|)] == [Recovered(0, |pending|)];
  }

  // --- A late suspension -----------------------------------------------------------------------------------

  const REPEATABLE := Config(false, 1, 2, map[0 := Idempotent])
  const PAIR: seq<Call> := [Call(1, 0, 0), Call(2, 0, 0)]
  const LATE: Suspension := Suspension(9, Some(1), false, None)

  /** Recovery starts a pending call that it may repeat. */
  lemma StartAndInvoke(cfg: Config, before: seq<Action>, items: seq<Item>, p: seq<PendingCall>, i: nat, log: seq<Event>) returns (actions: seq<Action>)
    requires Reaches(cfg, before, State([Turn(Running, items)], 0, AtPending(p, i), log))
    requires i < |p| && p[i].call.name in cfg.policy && (p[i].attempt.None? || cfg.policy[p[i].call.name].Idempotent?)
    ensures Reaches(cfg, actions, State([Turn(Running, items + [CallStarted(p[i].call.id, NextAttempt(p[i].attempt))])], 0,
                                        PendingRunning(p, i), log + [Invoked(0, p[i].call, false)]))
    ensures before <= actions
  {
    var s := State([Turn(Running, items)], 0, AtPending(p, i), log);
    var begun := State([Turn(Running, items + [CallStarted(p[i].call.id, NextAttempt(p[i].attempt))])], 0, PendingBegun(p, i), log);
    assert Next(cfg, s, StartCall(0)) == begun;
    ReachStep(cfg, before, s, StartCall(0));
    ReachStep(cfg, before + [StartCall(0)], begun, Invoke);
    actions := before + [StartCall(0)] + [Invoke];
  }

  /** The running call suspends after executing, and the turn is stored. */
  lemma SuspendLate(cfg: Config, before: seq<Action>, items: seq<Item>, p: seq<PendingCall>, x: Suspension, log: seq<Event>) returns (actions: seq<Action>)
    requires Reaches(cfg, before, State([Turn(Running, items)], 0, PendingRunning(p, 0), log))
    requires p != [] && !x.deferred && x.callId == Some(p[0].call.id)
    ensures Reaches(cfg, actions, State([Turn(Suspended, items + ([SuspensionCreated(x)] + Outputs(CallsOf(p)[1..], Error(Skipped))))], 0,
                                        Idle, log + [LateSuspension(0, p[0].call.id, |p| - 1)]))
    ensures before <= actions
  {
    var s := State([Turn(Running, items)], 0, PendingRunning(p, 0), log);
    var e := SuspendedAfter(x, 3);
    var later := Outputs(CallsOf(p)[1..], Error(Skipped));
    assert |later| == |p| - 1;
    var closed := Next(cfg, s, Finish(e));
    assert closed.disk == [Turn(Suspended, items + ([SuspensionCreated(x)] + later))];
    ReachStep(cfg, before, s, Finish(e));
    ReachStep(cfg, before + [Finish(e)], closed, FinalCommit);
    actions := before + [Finish(e)] + [FinalCommit];
  }

  const RESTARTED: seq<Item> := Asked(PAIR) + [CallStarted(1, 1)]
  const GAPPED: seq<Item> := RESTARTED + ([SuspensionCreated(LATE)] + Outputs([PAIR[1]], Error(Skipped)))

  /** In the suspended turn the first call is open and the second one answered. */
  lemma GappedView()
    ensures var v := ViewOf(GAPPED);
            v.open == Some(LATE) && v.answered[1] == 0
  {
    AskedView(PAIR);
    View1(Asked(PAIR), CallStarted(1, 1));
    SuspendedView(RESTARTED, LATE, [PAIR[1]]);
    IdBagCounts([PAIR[1]], 1);
    assert Ids([PAIR[1]]) == {2};
  }

  lemma RunToGap() returns (actions: seq<Action>, log: seq<Event>)
    ensures LateSuspension(0, 1, 1) in log && Reaches(REPEATABLE, actions, State([Turn(Suspended, GAPPED)], 0, Idle, log))
  {
    var p := Untouched(PAIR);
    actions := RunToRecovery(REPEATABLE, PAIR);
    log := [Recovered(0, |PAIR|)];
    actions := StartAndInvoke(REPEATABLE, actions, Asked(PAIR), p, 0, log);
    log := log + [Invoked(0, PAIR[0], false)];
    actions := SuspendLate(REPEATABLE, actions, RESTARTED, p, LATE, log);
    log := log + [LateSuspension(0, 1, 1)];
    assert CallsOf(p)[1..] == [PAIR[1]];
    assert log[|log| - 1] == LateSuspension(0, 1, 1);
  }

  /**
   * The pending calls need not be a tail: two calls are requested, the process dies, recovery runs the
   * first one again, it suspends after executing, the host answers, and recovery is due once more.
   */
  lemma PendingNeedNotBeTail() returns (actions: seq<Action>, s: State)
    ensures Reaches(REPEATABLE, actions, s) && Enabled(REPEATABLE, s, Recover) && |s.disk| == 1 && !PendingIsTail(ViewOf(s.disk[0].items))
  {
    var log;
    actions, log := RunToGap();
    s := State([Turn(Suspended, GAPPED)], 0, Idle, log);
    EveryRunIsOk(REPEATABLE, actions, s);
    PendingIsLast(s);
    GappedView();
    ReachStep(REPEATABLE, actions, s, ResumeInput(9, 6));
    s, actions := Next(REPEATABLE, s, ResumeInput(9, 6)), actions + [ResumeInput(9, 6)];
    View1(GAPPED, UserInput(6, Some(9)));
    WhenRecoveryIsDue(REPEATABLE, actions, s);
    RecoveryReadsTail(REPEATABLE, actions, s);
  }

  // --- A dropped output ------------------------------------------------------------------------------------

  const KEPT: seq<Item> := RERUN + ([ToolOutput(1, Success(3)), SuspensionCreated(LATE)] + Outputs([], Error(Skipped)))

  /** Without a crash, a call that suspends after executing keeps its output. */
  lemma RunToKept() returns (actions: seq<Action>, s: State)
    ensures Reaches(REPEATABLE, actions, s) && s.disk == [Turn(Suspended, KEPT)] && s.pc.Idle? && Crash !in actions
  {
    var round, e := Round(ONE, 1, 0, 1), SuspendedAfter(LATE, 3);
    actions := RunToRequest(REPEATABLE, ONE);
    s := State([Turn(Running, Asked(ONE))], 0, AtCall(round, 0), []);
    assert Left(REPEATABLE, ONE) == 1;
    ReachStep(REPEATABLE, actions, s, StartCall(0));
    s, actions := Next(REPEATABLE, s, StartCall(0)), actions + [StartCall(0)];
    ReachStep(REPEATABLE, actions, s, Invoke);
    s, actions := Next(REPEATABLE, s, Invoke), actions + [Invoke];
    assert ONE[1..] == [];
    ReachStep(REPEATABLE, actions, s, Finish(e));
    s, actions := Next(REPEATABLE, s, Finish(e)), actions + [Finish(e)];
    ReachStep(REPEATABLE, actions, s, FinalCommit);
    s, actions := Next(REPEATABLE, s, FinalCommit), actions + [FinalCommit];
  }

  /**
   * A crash can leave a trace when a call suspends after executing: from the same response one turn is
   * suspended with the call's output and the other without, so such calls are not among the undisturbed ones.
   */
  lemma CrashDropsOutput() returns (run: seq<Action>, s: State, other: seq<Action>, t: State)
    ensures Reaches(REPEATABLE, run, s) && Reaches(REPEATABLE, other, t) && Crash !in run && Crash in other
    ensures |s.disk| == 1 && |t.disk| == 1 && s.disk[0].status.Suspended? && t.disk[0].status.Suspended?
    ensures Responses(s.disk[0].items) == Responses(t.disk[0].items)
    ensures OutputsIn(s.disk[0].items) == OutputsIn(t.disk[0].items) + [ToolOutput(1, Success(3))]
  {
    run, s := RunToKept();
    other := RunToHeld();
    t := State([Turn(Suspended, HELD)], 0, Idle, LATE_LOG);
    assert KEPT == RERUN + [ToolOutput(1, Success(3))] + [SuspensionCreated(LATE)] && HELD == RERUN + [SuspensionCreated(LATE)];
    ReadPush(RERUN, ToolOutput(1, Success(3)));
    ReadPush(RERUN + [ToolOutput(1, Success(3))], SuspensionCreated(LATE));
    ReadPush(RERUN, SuspensionCreated(LATE));
  }

  // --- An output without its call ----------------------------------------------------------------------------

  const ONE: seq<Call> := [Call(1, 0, 0)]
  const RERUN: seq<Item> := Asked(ONE) + [CallStarted(1, 1)]
  const HELD: seq<Item> := RERUN + ([SuspensionCreated(LATE)] + Outputs([], Error(Skipped)))
  const INFORMED: seq<Item> := HELD + [UserInput(6, Some(9))]
  const AGAIN: seq<Item> := INFORMED + [CallStarted(1, 2)]
  const LATE_LOG: seq<Event> := [Recovered(0, |ONE|)] + [Invoked(0, ONE[0], false)] + [LateSuspension(0, 1, 0)]

  lemma HeldView()
    ensures ViewOf(HELD).open == Some(LATE) && ViewOf(INFORMED).open.None?
    ensures PendingOf(ViewOf(INFORMED)) == [PendingCall(ONE[0], Some(1))]
  {
    AskedView(ONE);
    View1(Asked(ONE), CallStarted(1, 1));
    SuspendedView(RERUN, LATE, []);
    View1(HELD, UserInput(6, Some(9)));
    assert Ids([]) == {};
    var v := ViewOf(INFORMED);
    assert v.last == ONE && v.settled == {} && v.started == map[1 := 1];
    assert ONE[1..] == [] && Unsettled(ONE[1..], {}, v.started) == [];
  }

  /** The process dies, recovery runs the only call again, and it suspends after executing. */
  lemma RunToHeld() returns (actions: seq<Action>)
    ensures Reaches(REPEATABLE, actions, State([Turn(Suspended, HELD)], 0, Idle, LATE_LOG)) && Crash in actions
  {
    var p := Untouched(ONE);
    var before := RunToRecovery(REPEATABLE, ONE);
    var more := StartAndInvoke(REPEATABLE, before, Asked(ONE), p, 0, [Recovered(0, |ONE|)]);
    assert Crash in more[..|before|];
    actions := SuspendLate(REPEATABLE, more, RERUN, p, LATE, [Recovered(0, |ONE|)] + [Invoked(0, ONE[0], false)]);
    assert CallsOf(p)[1..] == [];
    assert Crash in actions[..|more|];
  }

  /** The host answers, and recovery is about to run the call once more. */
  lemma RunToAgain() returns (actions: seq<Action>)
    ensures Reaches(REPEATABLE, actions, State([Turn(Running, INFORMED)], 0, AtPending([PendingCall(ONE[0], Some(1))], 0),
                                               LATE_LOG + [Recovered(0, 1)]))
  {
    var before := RunToHeld();
    var s := State([Turn(Suspended, HELD)], 0, Idle, LATE_LOG);
    EveryRunIsOk(REPEATABLE, before, s);
    PendingIsLast(s);
    HeldView();
    ReachStep(REPEATABLE, before, s, ResumeInput(9, 6));
    var t := State([Turn(Running, INFORMED)], 0, Idle, LATE_LOG);
    assert Next(REPEATABLE, s, ResumeInput(9, 6)) == t;
    actions := before + [ResumeInput(9, 6)];
    WhenRecoveryIsDue(REPEATABLE, actions, t);
    ReachStep(REPEATABLE, actions, t, Recover);
    assert Next(REPEATABLE, t, Recover) == State(t.disk, 0, AtPending([PendingCall(ONE[0], Some(1))], 0), LATE_LOG + [Recovered(0, 1)]);
    actions := actions + [Recover];
  }

  /** The call returns, and the model is asked. */
  lemma RunToAnswered() returns (actions: seq<Action>, s: State)
    ensures Reaches(REPEATABLE, actions, s) && s.pc.AskModel? && s.turn == 0
    ensures s.disk == [Turn(Running, AGAIN + [ToolOutput(1, Success(3))])]
  {
    var p := [PendingCall(ONE[0], Some(1))];
    actions := RunToAgain();
    var log := LATE_LOG + [Recovered(0, 1)];
    actions := StartAndInvoke(REPEATABLE, actions, INFORMED, p, 0, log);
    s := State([Turn(Running, AGAIN)], 0, PendingRunning(p, 0), log + [Invoked(0, ONE[0], false)]);
    assert NextAttempt(Some(1)) == 2;
    ReachStep(REPEATABLE, actions, s, Finish(Returned(3)));
    s, actions := Next(REPEATABLE, s, Finish(Returned(3))), actions + [Finish(Returned(3))];
    ReachStep(REPEATABLE, actions, s, PendingEnds);
    s, actions := Next(REPEATABLE, s, PendingEnds), actions + [PendingEnds];
  }

  lemma Says(w: Wording, items: seq<Item>, item: Item)
    ensures Conversation(w, items + [item]) == Conversation(w, items) + MessagesOf(w, item)
  {
    assert (items + [item])[..|items|] == items;
  }

  /** The output comes after the user's second message, not after its call. */
  lemma AnsweredSays(w: Wording)
    ensures Conversation(w, AGAIN + [ToolOutput(1, Success(3))])
         == [Context.User(5), Context.Assistant(None, [1]), Context.User(6), Context.Tool(1, w(1, Success(3)).0, w(1, Success(3)).1)]
  {
    Says(w, AGAIN, ToolOutput(1, Success(3)));
    Says(w, INFORMED, CallStarted(1, 2));
    Says(w, HELD, UserInput(6, Some(9)));
    assert HELD == RERUN + [SuspensionCreated(LATE)];
    Says(w, RERUN, SuspensionCreated(LATE));
    Says(w, Asked(ONE), CallStarted(1, 1));
    assert Asked(ONE) == [] + [UserInput(5, None)] + [ModelResponse(None, ONE)];
    Says(w, [] + [UserInput(5, None)], ModelResponse(None, ONE));
    Says(w, [], UserInput(5, None));
    assert CallIds(ONE) == [1];
  }

  /**
   * A reachable turn, and a build for it that sends the output of a call without the call: after a crash a
   * call suspends late, the host answers, the call is run again and returns, and the model is asked.
   */
  lemma OutputLosesCall(w: Wording) returns (actions: seq<Action>, s: State)
    ensures Reaches(REPEATABLE, actions, s) && s.pc.AskModel?
    ensures var r := Builder.Build(Builder.Counting(3), Builder.Input(0, ThreadConversation(w, s.disk), 0, None), Err(0));
            && r == Ok(Builder.Output([Context.System(0), Context.User(6), Context.Tool(1, w(1, Success(3)).0, w(1, Success(3)).1)], None))
            && !Context.Called(r.value.messages)
  {
    actions, s := RunToAnswered();
    AnsweredSays(w);
    var ms := Conversation(w, s.disk[0].items);
    assert s.disk[..0] == [] && ThreadConversation(w, s.disk) == [] + ms;
    assert [] + ms == ms;
    LastTwoSent(ms);
  }

  lemma LastTwoSent(ms: seq<Context.Message>)
    requires |ms| == 4 && ms[0].User? && ms[1].Assistant? && ms[2].User? && ms[3].Tool?
    ensures var r := Builder.Build(Builder.Counting(3), Builder.Input(0, ms, 0, None), Err(0));
            r == Ok(Builder.Output([Context.System(0), ms[2], ms[3]], None)) && !Context.Called(r.value.messages)
  {
    FourBlocks(ms);
    Builder.CutsThere(Builder.Counting(3), ms, 2);
    var sent := [Context.System(0), ms[2], ms[3]];
    assert [Context.System(0)] + Context.From(ms, 2) == sent;
    assert sent[2].Tool? && !Context.CalledBefore(sent, 2, sent[2].callId);
  }

  lemma FourBlocks(ms: seq<Context.Message>)
    requires |ms| == 4 && ms[0].User? && ms[1].Assistant? && ms[2].User? && ms[3].Tool?
    ensures |Context.Blocks(ms)| == 4 && Context.From(ms, 2) == ms[2..]
  {
    var a, b, c := ms[1..], ms[2..], ms[3..];
    assert a[1..] == b && b[1..] == c && c[1..] == [];
    assert Context.Blocks(c) == [c[..1]] && Context.Blocks(b) == [b[..1]] + Context.Blocks(c);
    assert Context.ToolRun(b) == 0 && Context.BlockLength(a) == 1;
    assert Context.Blocks(a) == [a[..1]] + Context.Blocks(b);
    assert Context.Blocks(ms) == [ms[..1]] + Context.Blocks(a);
    assert Context.Blocks(ms)[2..] == Context.Blocks(b);
    Context.BlocksConcat(b);
  }

  // --- A failing hook ------------------------------------------------------------------------------------

  /** Without a crash, a call whose hook fails is answered with the error and never executed. */
  lemma RunWithHook() returns (actions: seq<Action>, s: State)
    ensures Reaches(REPEATABLE, actions, s) && s.pc.AskModel? && s.log == []
    ensures s.disk == [Turn(Running, Asked(ONE) + [ToolOutput(1, Error(FunctionError(4)))])] && s.turn == 0
    ensures Crash !in actions
  {
    actions := RunToRequest(REPEATABLE, ONE);
    s := State([Turn(Running, Asked(ONE))], 0, AtCall(Round(ONE, 1, 0, 1), 0), []);
    assert Left(REPEATABLE, ONE) == 1;
    ReachStep(REPEATABLE, actions, s, HookFails(4));
    s, actions := Next(REPEATABLE, s, HookFails(4)), actions + [HookFails(4)];
    ReachStep(REPEATABLE, actions, s, RoundEnds);
    s, actions := Next(REPEATABLE, s, RoundEnds), actions + [RoundEnds];
  }

  /** With a crash before the hook, recovery runs no hooks and executes the same call. */
  lemma RunPastHook() returns (actions: seq<Action>, s: State)
    ensures Reaches(REPEATABLE, actions, s) && s.pc.AskModel? && Invoked(0, ONE[0], false) in s.log
    ensures s.disk == [Turn(Running, Asked(ONE) + [CallStarted(1, 1)] + [ToolOutput(1, Success(3))])] && s.turn == 0
    ensures Crash in actions
  {
    var p, log := Untouched(ONE), [Recovered(0, |ONE|)];
    var before := RunToRecovery(REPEATABLE, ONE);
    actions := StartAndInvoke(REPEATABLE, before, Asked(ONE), p, 0, log);
    assert Crash in actions[..|before|];
    s := State([Turn(Running, Asked(ONE) + [CallStarted(1, 1)])], 0, PendingRunning(p, 0), log + [Invoked(0, ONE[0], false)]);
    assert s.log[1] == Invoked(0, ONE[0], false);
    ReachStep(REPEATABLE, actions, s, Finish(Returned(3)));
    s, actions := Next(REPEATABLE, s, Finish(Returned(3))), actions + [Finish(Returned(3))];
    ReachStep(REPEATABLE, actions, s, PendingEnds);
    s, actions := Next(REPEATABLE, s, PendingEnds), actions + [PendingEnds];
  }

  /**
   * A crash can leave a trace when a hook fails: the same response ends up with different outputs, so the
   * condition on hooks in undisturbed runs cannot be dropped.
   */
  lemma CrashSkipsHook() returns (run: seq<Action>, s: State, other: seq<Action>, t: State)
    ensures Reaches(REPEATABLE, run, s) && Reaches(REPEATABLE, other, t) && Crash !in run && Crash in other
    ensures s.pc.AskModel? && t.pc.AskModel? && |s.disk| == 1 && |t.disk| == 1
    ensures Responses(s.disk[0].items) == Responses(t.disk[0].items) && OutputsIn(s.disk[0].items) != OutputsIn(t.disk[0].items)
  {
    run, s := RunWithHook();
    other, t := RunPastHook();
    ReadPush(Asked(ONE), ToolOutput(1, Error(FunctionError(4))));
    ReadPush(Asked(ONE), CallStarted(1, 1));
    ReadPush(Asked(ONE) + [CallStarted(1, 1)], ToolOutput(1, Success(3)));
    var outputs := OutputsIn(Asked(ONE));
    assert OutputsIn(s.disk[0].items)[|outputs|] != OutputsIn(t.disk[0].items)[|outputs|];
  }

  lemma ReadPush(items: seq<Item>, item: Item)
    requires !item.ModelResponse?
    ensures OutputsIn(items + [item]) == OutputsIn(items) + if item.ToolOutput? then [item] else []
    ensures Responses(items + [item]) == Responses(items)
  {
    assert (items + [item])[..|items|] == items;
  }

  // --- An aborted approval ---------------------------------------------------------------------------------

  // Two calls are requested, the process dies after starting the first, which recovery may not repeat; the
  // host approves it and then aborts it. The second call stays unanswered.

  const ONE_SHOT := Config(false, 1, 2, map[0 := NonIdempotent])
  const FIRST := Call(1, 0, 0)
  const SECOND := Call(2, 0, 0)
  const SAVED: Suspension := Suspension(7, Some(1), true, Some(2))
  const STARTED: seq<Item> := [UserInput(5, None), ModelResponse(None, [FIRST, SECOND]), CallStarted(1, 1)]

  const PAUSED: seq<Item> := STARTED + [SuspensionCreated(SAVED)]

  lemma StartedView()
    ensures ViewOf(STARTED) == View({1, 2}, [FIRST, SECOND], multiset{}, {}, map[1 := 1], None, true)
    ensures PendingOf(ViewOf(STARTED)) == [PendingCall(FIRST, Some(1)), PendingCall(SECOND, None)]
    ensures ReplayItems(None, 0, STARTED).None?
  {
    var one, two := [STARTED[0]], [STARTED[0], STARTED[1]];
    assert STARTED[..2] == two && two[..1] == one && one[..0] == [];
    assert ObserveAll(BLANK, []) == BLANK;
    assert ViewOf(one) == BLANK;
    assert Ids([FIRST, SECOND]) == {1, 2};
    assert ViewOf(two) == View({1, 2}, [FIRST, SECOND], multiset{}, {}, map[], None, true);
    assert ReplayItems(None, 0, []).None? && ReplayItems(None, 0, one).None? && ReplayItems(None, 0, two).None?;
    assert [FIRST, SECOND][1..] == [SECOND] && [SECOND][1..] == [];
    var started := map[1 := 1];
    assert Unsettled([SECOND], {}, started) == [PendingCall(SECOND, None)];
    assert Unsettled([FIRST, SECOND], {}, started) == [PendingCall(FIRST, Some(1))] + [PendingCall(SECOND, None)];
  }

  const ROUND := Round([FIRST, SECOND], 2, 0, 2)

  lemma RunToCrash() returns (actions: seq<Action>)
    ensures Reaches(ONE_SHOT, actions, State([Turn(Running, STARTED)], 0, Idle, []))
  {
    actions := RunToRequest(ONE_SHOT, [FIRST, SECOND]);
    var s := State([Turn(Running, Asked([FIRST, SECOND]))], 0, AtCall(ROUND, 0), []);
    assert Asked([FIRST, SECOND]) + [STARTED[2]] == STARTED;
    var s' := State([Turn(Running, STARTED)], 0, CallBegun(ROUND, 0), []);
    assert Enabled(ONE_SHOT, s, StartCall(0)) && Next(ONE_SHOT, s, StartCall(0)) == s';
    ReachStep(ONE_SHOT, actions, s, StartCall(0));
    ReachStep(ONE_SHOT, actions + [StartCall(0)], s', Crash);
    actions := actions + [StartCall(0)] + [Crash];
  }

  const PENDING: seq<PendingCall> := [PendingCall(FIRST, Some(1)), PendingCall(SECOND, None)]

  const RECOVERED: seq<Event> := [Recovered(0, 2)]

  lemma RunToStartedRecovery() returns (actions: seq<Action>)
    ensures Reaches(ONE_SHOT, actions, State([Turn(Running, STARTED)], 0, AtPending(PENDING, 0), RECOVERED))
  {
    actions := RunToCrash();
    StartedView();
    var s := State([Turn(Running, STARTED)], 0, Idle, []);
    ReplayOne(Turn(Running, STARTED));
    assert Enabled(ONE_SHOT, s, Recover);
    assert [] + RECOVERED == RECOVERED;
    ReachStep(ONE_SHOT, actions, s, Recover);
    actions := actions + [Recover];
  }

  /** Recovery suspends the turn at the first call and leaves the second one pending. */
  lemma RunToSuspension() returns (actions: seq<Action>)
    ensures Reaches(ONE_SHOT, actions, State([Turn(Suspended, PAUSED)], 0, Idle, RECOVERED))
  {
    var before := RunToStartedRecovery();
    assert NextAttempt(PENDING[0].attempt) == 2;
    actions := SuspendFirst(ONE_SHOT, before, STARTED, PENDING, 7, RECOVERED);
  }

  lemma SuspendFirst(cfg: Config, before: seq<Action>, items: seq<Item>, p: seq<PendingCall>, id: nat, log: seq<Event>)
      returns (actions: seq<Action>)
    requires Reaches(cfg, before, State([Turn(Running, items)], 0, AtPending(p, 0), log))
    requires p != [] && p[0].attempt.Some? && p[0].call.name in cfg.policy && cfg.policy[p[0].call.name].NonIdempotent?
    ensures Reaches(cfg, actions, State([Turn(Suspended, items + [SuspensionCreated(Suspension(id, Some(p[0].call.id), true,
                                                                                              Some(NextAttempt(p[0].attempt))))])], 0, Idle, log))
  {
    var s := State([Turn(Running, items)], 0, AtPending(p, 0), log);
    var s' := Next(cfg, s, StartCall(id));
    ReachStep(cfg, before, s, StartCall(id));
    ReachStep(cfg, before + [StartCall(id)], s', FinalCommit);
    actions := before + [StartCall(id)] + [FinalCommit];
  }

  lemma ReplayOne(turn: Turn)
    ensures ReplayTurns([turn]) == ReplayItems(None, 0, turn.items)
  {
    assert [turn][..0] == [];
    assert ReplayTurns([]).None?;
  }

  lemma BothPending(started: map<nat, nat>)
    ensures |Unsettled([FIRST, SECOND], {}, started)| == 2
  {
    assert [FIRST, SECOND][1..] == [SECOND] && [SECOND][1..] == [];
    assert |Unsettled([SECOND], {}, started)| == 1;
  }

  const APPROVED: seq<Item> := PAUSED + [CallStarted(FIRST.id, ApprovedAttempt(SAVED.attempt))]

  lemma SavedIsOpen()
    ensures ReplayTurns([Turn(Suspended, PAUSED)]) == Some(Pending(SAVED, 0))
    ensures FindCall(PAUSED, 1) == Some(FIRST)
  {
    StartedView();
    assert PAUSED[..3] == STARTED && PAUSED[3] == SuspensionCreated(SAVED);
    ReplayOne(Turn(Suspended, PAUSED));
    assert ReplayItems(None, 0, PAUSED) == ReplayItem(ReplayItems(None, 0, STARTED), 0, PAUSED[3]);
    View1(STARTED, SuspensionCreated(SAVED));
    FoundCall(PAUSED, 1);
  }

  lemma Approve(cfg: Config, before: seq<Action>, turn: Turn, x: Suspension, call: Call, log: seq<Event>)
      returns (actions: seq<Action>)
    requires Reaches(cfg, before, State([turn], 0, Idle, log))
    requires ReplayTurns([turn]) == Some(Pending(x, 0)) && x.deferred && x.callId == Some(call.id)
    requires FindCall(turn.items, call.id) == Some(call)
    ensures Reaches(cfg, actions, State([Turn(turn.status, turn.items + [CallStarted(call.id, ApprovedAttempt(x.attempt))])], 0,
                                        ResumeBegun(call), log + [Approval(0, call.id)]))
  {
    var s := State([turn], 0, Idle, log);
    ReachStep(cfg, before, s, ResumeApprove(x.id));
    actions := before + [ResumeApprove(x.id)];
  }

  /** The host approves the first call. */
  lemma RunToApproval() returns (actions: seq<Action>)
    ensures Reaches(ONE_SHOT, actions, State([Turn(Suspended, APPROVED)], 0, ResumeBegun(FIRST), RECOVERED + [Approval(0, FIRST.id)]))
  {
    var before := RunToSuspension();
    SavedIsOpen();
    actions := Approve(ONE_SHOT, before, Turn(Suspended, PAUSED), SAVED, FIRST, RECOVERED);
  }

  /** Then it aborts: the turn has ended and the second call never gets an output. */
  lemma AbortedResumeLosesCall() returns (actions: seq<Action>, s: State)
    ensures Reaches(ONE_SHOT, actions, s) && |s.disk| == 1 && Terminal(s.disk[0].status) && !AllAnswered(s.disk[0].items)
  {
    actions := RunToApproval();
    StartedView();
    View1(STARTED, SuspensionCreated(SAVED));
    View1(PAUSED, CallStarted(FIRST.id, ApprovedAttempt(SAVED.attempt)));
    s := State([Turn(Suspended, APPROVED)], 0, ResumeBegun(FIRST), RECOVERED + [Approval(0, FIRST.id)]);
    BothPending(V(s).started);
    ResumeAbortAnswersAll(ONE_SHOT, actions, s);
    ReachStep(ONE_SHOT, actions, s, Abort);
    s, actions := Next(ONE_SHOT, s, Abort), actions + [Abort];
  }
}
