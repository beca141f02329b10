/** A model that answers alike leads every turn alike. */
module TurnSameModel {
  import opened Prelude
  import opened TurnItems
  import opened TurnMachine
  import opened TurnSafety
  import opened TurnOrder
  import opened TurnDeterminism

  // With functions, a host and a model that each behave alike every time, the whole conversation of a turn
  // follows from its first message, wherever the process dies and however often it recovers. What earlier
  // turns said is the same for the model throughout a turn, so it is part of what the model is.

  datatype Reply = Reply(text: Option<Text>, calls: seq<Call>)

  /** The answer to the user's text, what was answered before and what the functions put out. */
  type Model = (Text, seq<Reply>, seq<Item>) -> Reply

  ghost function Replied(items: seq<Item>): seq<Reply> {
    if items == [] then []
    else
      var n := |items| - 1;
      if items[n].ModelResponse? then Replied(items[..n]) + [Reply(items[n].reply, items[n].calls)] else Replied(items[..n])
  }

  /** The calls of those replies that had any. */
  ghost function CallLists(replies: seq<Reply>): seq<seq<Call>> {
    if replies == [] then []
    else
      var n := |replies| - 1;
      if replies[n].calls != [] then CallLists(replies[..n]) + [replies[n].calls] else CallLists(replies[..n])
  }

  lemma {:induction false} ResponsesAreReplied(items: seq<Item>)
    ensures Responses(items) == CallLists(Replied(items))
  {
    if items != [] {
      var n := |items| - 1;
      ResponsesAreReplied(items[..n]);
      if items[n].ModelResponse? {
        var replies := Replied(items);
        assert replies[..|replies| - 1] == Replied(items[..n]);
      }
    }
  }

  // --- Replies that follow from the first message ----------------------------------------------------------

  /** The `j`-th reply is the model's to all that came before. */
  ghost predicate FollowsAt(f: Functions, g: Model, text: Text, replies: seq<Reply>, j: nat)
    requires j < |replies|
  {
    replies[j] == g(text, replies[..j], AnswersTo(f, CallLists(replies[..j])))
  }

  ghost predicate Follows(f: Functions, g: Model, text: Text, replies: seq<Reply>) {
    forall j :: 0 <= j < |replies| ==> FollowsAt(f, g, text, replies, j)
  }

  lemma {:induction false} SameReplies(f: Functions, g: Model, text: Text, a: seq<Reply>, b: seq<Reply>, j: nat)
    requires Follows(f, g, text, a) && Follows(f, g, text, b) && j <= |a| && j <= |b|
    ensures a[..j] == b[..j]
  {
    if j > 0 {
      SameReplies(f, g, text, a, b, j - 1);
      assert FollowsAt(f, g, text, a, j - 1) && FollowsAt(f, g, text, b, j - 1);
      assert a[..j] == a[..j - 1] + [a[j - 1]] && b[..j] == b[..j - 1] + [b[j - 1]];
    }
  }

  lemma OneMoreReply(f: Functions, g: Model, text: Text, replies: seq<Reply>, next: Reply)
    requires Follows(f, g, text, replies) && next == g(text, replies, AnswersTo(f, CallLists(replies)))
    ensures Follows(f, g, text, replies + [next])
  {
    var more := replies + [next];
    forall j | 0 <= j < |more|
      ensures FollowsAt(f, g, text, more, j)
    {
      if j < |replies| {
        assert FollowsAt(f, g, text, replies, j) && more[..j] == replies[..j];
      } else {
        assert more[..j] == replies;
      }
    }
  }

  function FirstText(items: seq<Item>): Text {
    if items != [] && items[0].UserInput? then items[0].text else 0
  }

  /** All replies asked for calls, but for the one that completed the turn. */
  ghost predicate Shaped(turn: Turn) {
    var replies := Replied(turn.items);
    && (forall j :: 0 <= j < |replies| - 1 ==> replies[j].calls != [])
    && (if turn.status.Completed? then replies != [] && replies[|replies| - 1].calls == []
        else replies != [] ==> replies[|replies| - 1].calls != [])
  }

  ghost predicate Led(f: Functions, g: Model, turn: Turn) {
    turn.items != [] && Shaped(turn) && Follows(f, g, FirstText(turn.items), Replied(turn.items))
  }

  // --- Runs -----------------------------------------------------------------------------------------------------

  /** What the model replies is its answer to the turn so far. */
  ghost predicate ByModel(g: Model, s: State, a: Action) {
    a.ModelReplies? && s.turn < |s.disk| ==>
      Reply(a.reply, a.calls) == g(FirstText(s.disk[s.turn].items), Replied(s.disk[s.turn].items), OutputsIn(s.disk[s.turn].items))
  }

  ghost predicate ByModelAt(g: Model, actions: seq<Action>, states: seq<State>, i: nat)
    requires i < |actions| && |states| == |actions| + 1
  {
    ByModel(g, states[i], actions[i])
  }

  /** An undisturbed run with this model; it may crash and recover anywhere. */
  ghost predicate RunsWith(cfg: Config, f: Functions, g: Model, actions: seq<Action>, s: State) {
    exists states :: IsRun(cfg, actions, states) && states[|actions|] == s
                     && forall i :: 0 <= i < |actions| ==> UndisturbedAt(f, actions, states, i) && ByModelAt(g, actions, states, i)
  }

  lemma RunsWithIsRun(cfg: Config, f: Functions, g: Model, actions: seq<Action>, s: State)
    requires RunsWith(cfg, f, g, actions, s)
    ensures Runs(cfg, f, actions, s)
  {
    var states :| IsRun(cfg, actions, states) && states[|actions|] == s
                  && forall i :: 0 <= i < |actions| ==> UndisturbedAt(f, actions, states, i) && ByModelAt(g, actions, states, i);
    assert forall i :: 0 <= i < |actions| ==> UndisturbedAt(f, actions, states, i);
  }

  lemma LastByModel(cfg: Config, f: Functions, g: Model, actions: seq<Action>, s: State) returns (before: State)
    requires RunsWith(cfg, f, g, actions, s) && actions != []
    ensures var n := |actions| - 1;
            RunsWith(cfg, f, g, actions[..n], before) && Enabled(cfg, before, actions[n])
            && ByModel(g, before, actions[n]) && s == Next(cfg, before, actions[n])
  {
    var n := |actions| - 1;
    var states :| IsRun(cfg, actions, states) && states[|actions|] == s
                  && forall i :: 0 <= i < |actions| ==> UndisturbedAt(f, actions, states, i) && ByModelAt(g, actions, states, i);
    LastOfRun(cfg, actions, states);
    before := states[n];
    assert ByModelAt(g, actions, states, n);
    var front, past := actions[..n], states[..n + 1];
    forall i | 0 <= i < n
      ensures UndisturbedAt(f, front, past, i) && ByModelAt(g, front, past, i)
    {
      assert UndisturbedAt(f, actions, states, i) && ByModelAt(g, actions, states, i);
    }
    assert past[n] == before;
  }

  // --- Every action -----------------------------------------------------------------------------------------------

  predicate NoReply(items: seq<Item>) {
    forall i :: 0 <= i < |items| ==> !items[i].ModelResponse?
  }

  lemma {:induction false} RepliedSame(items: seq<Item>, more: seq<Item>)
    requires NoReply(more)
    ensures Replied(items + more) == Replied(items)
    decreases |more|
  {
    if more == [] {
      assert items + more == items;
    } else {
      assert (items + more)[..|items + more| - 1] == items + more[..|more| - 1];
      RepliedSame(items, more[..|more| - 1]);
    }
  }

  /** The turn is the same, or was open and got no reply. */
  ghost predicate NoNewReply(before: Turn, after: Turn) {
    before == after
    || (before.items <= after.items && NoReply(after.items[|before.items|..]) && !before.status.Completed? && !after.status.Completed?)
  }

  lemma LedOn(f: Functions, g: Model, before: Turn, after: Turn)
    requires Led(f, g, before) && NoNewReply(before, after)
    ensures Led(f, g, after)
  {
    if before != after {
      var more := after.items[|before.items|..];
      assert after.items == before.items + more;
      RepliedSame(before.items, more);
    }
  }

  ghost predicate AllLed(f: Functions, g: Model, s: State) {
    && (forall k :: 0 <= k < |s.disk| ==> LedAt(f, g, s.disk, k))
    && (s.pc.Closing? ==> Led(f, g, s.pc.mem))
  }

  ghost predicate LedAt(f: Functions, g: Model, disk: Thread, k: nat)
    requires k < |disk|
  {
    Led(f, g, disk[k])
  }

  /** The effect of an action that stores no reply and opens no turn. */
  ghost predicate Silently(s: State, s': State) {
    && |s'.disk| == |s.disk|
    && (forall k :: 0 <= k < |s.disk| ==> NoNewReply(s.disk[k], s'.disk[k]))
    && (s'.pc.Closing? ==> s.turn < |s.disk| && NoNewReply(s.disk[s.turn], s'.pc.mem))
  }

  lemma SilentlyLed(f: Functions, g: Model, s: State, s': State)
    requires AllLed(f, g, s) && Silently(s, s')
    ensures AllLed(f, g, s')
  {
    forall k | 0 <= k < |s'.disk|
      ensures LedAt(f, g, s'.disk, k)
    {
      assert LedAt(f, g, s.disk, k);
      LedOn(f, g, s.disk[k], s'.disk[k]);
    }
    if s'.pc.Closing? {
      assert LedAt(f, g, s.disk, s.turn);
      LedOn(f, g, s.disk[s.turn], s'.pc.mem);
    }
  }

  lemma CommitSilently(s: State, turn: nat, more: seq<Item>, status: Status, log: seq<Event>, pc: Pc)
    requires turn < |s.disk| && NoReply(more) && !s.disk[turn].status.Completed? && !status.Completed?
    requires pc.Closing? ==> turn == s.turn && pc.mem == Turn(status, s.disk[turn].items + more)
    ensures Silently(s, Commit(s.(turn := turn, log := log), more, status, pc))
    ensures s.turn == turn ==> Silently(s, Close(s, more, status))
  {
    assert (s.disk[turn].items + more)[|s.disk[turn].items|..] == more;
  }

  /** A turn that is worked on has not been completed. */
  lemma WorkIsOpen(s: State)
    requires StateOk(s)
    ensures Active(s) && !s.pc.Closing? ==> !s.disk[s.turn].status.Completed?
    ensures ReplayTurns(s.disk).Some? ==> ReplayTurns(s.disk).value.turn < |s.disk| && !s.disk[ReplayTurns(s.disk).value.turn].status.Completed?
  {
    PendingIsLast(s);
  }

  lemma HostSilently(cfg: Config, s: State, a: Action)
    requires StateOk(s) && Enabled(cfg, s, a) && (a.ResumeInput? || a.ResumeDeny? || a.ResumeApprove? || a.Recover? || a.Crash? || a.Invoke? || a.PendingEnds?)
    ensures Silently(s, Next(cfg, s, a))
  {
    WorkIsOpen(s);
    match a
    case ResumeInput(id, text) =>
      CommitSilently(s, ReplayTurns(s.disk).value.turn, [UserInput(text, Some(id))], Running, s.log, Idle);
      assert s.(log := s.log) == s;
    case ResumeDeny(_, reason) =>
      var p := ReplayTurns(s.disk).value;
      CommitSilently(s, p.turn, [ToolOutput(p.suspension.callId.value, Error(Denied(reason)))], Running, s.log, Idle);
    case ResumeApprove(_) =>
      var p := ReplayTurns(s.disk).value;
      var call := FindCall(s.disk[p.turn].items, p.suspension.callId.value).value;
      CommitSilently(s, p.turn, [CallStarted(call.id, ApprovedAttempt(p.suspension.attempt))], s.disk[p.turn].status,
                     s.log + [Approval(p.turn, call.id)], ResumeBegun(call));
    case _ => ActiveBounds(s.disk);
  }

  /** What is appended or closed in the working turn. */
  lemma WorkSilently(s: State, more: seq<Item>, status: Status, pc: Pc)
    requires Active(s) && NoReply(more) && !s.disk[s.turn].status.Completed? && !status.Completed? && !pc.Closing?
    ensures Silently(s, Commit(s, more, status, pc)) && Silently(s, Close(s, more, status)) && Silently(s, CommitAndClose(s, more, status))
  {
    CommitSilently(s, s.turn, more, status, s.log, pc);
    CommitSilently(s, s.turn, more, status, s.log, Closing(Turn(status, s.disk[s.turn].items + more)));
    assert s.(turn := s.turn, log := s.log) == s;
  }

  lemma StepSilently(cfg: Config, s: State, a: Action)
    requires StateOk(s) && Enabled(cfg, s, a) && (a.HookFails? || a.OutOfIterations? || a.ModelFails? || a.RoundEnds?)
    ensures Silently(s, Next(cfg, s, a))
  {
    WorkIsOpen(s);
    match a
    case HookFails(error) =>
      WorkSilently(s, [ToolOutput(s.pc.round.calls[s.pc.i].id, Error(FunctionError(error)))], Running, AtCall(s.pc.round, s.pc.i + 1));
    case RoundEnds => WorkSilently(s, Outputs(s.pc.round.calls[s.pc.i..], Error(OverLimit)) + [TurnFailed], Failed, Idle);
    case _ => WorkSilently(s, [TurnFailed], Failed, Idle);
  }

  lemma StartSilently(cfg: Config, s: State, newId: nat)
    requires StateOk(s) && Enabled(cfg, s, StartCall(newId))
    ensures Silently(s, Next(cfg, s, StartCall(newId)))
  {
    WorkIsOpen(s);
    if s.pc.AtCall? {
      WorkSilently(s, [CallStarted(s.pc.round.calls[s.pc.i].id, 1)], Running, CallBegun(s.pc.round, s.pc.i));
    } else {
      var PendingCall(call, attempt) := s.pc.pending[s.pc.i];
      WorkSilently(s, [CallStarted(call.id, NextAttempt(attempt))], Running, PendingBegun(s.pc.pending, s.pc.i));
      WorkSilently(s, [SuspensionCreated(Suspension(newId, Some(call.id), true, Some(NextAttempt(attempt))))], Suspended, Idle);
    }
  }

  lemma FinishSilently(cfg: Config, s: State, e: Execution)
    requires StateOk(s) && Enabled(cfg, s, Finish(e))
    ensures Silently(s, Next(cfg, s, Finish(e)))
  {
    WorkIsOpen(s);
    if s.pc.CallRunning? { CallFinishSilently(s, e); } else if s.pc.PendingRunning? { PendingFinishSilently(s, e); } else { ResumeFinishSilently(s, e); }
  }

  lemma CallFinishSilently(s: State, e: Execution)
    requires Active(s) && s.pc.CallRunning? && s.pc.i < |s.pc.round.calls| && !s.disk[s.turn].status.Completed?
    ensures Silently(s, AfterCall(s, e))
  {
    assert NoReply(AfterCall(s, e).disk[s.turn].items[|s.disk[s.turn].items|..]);
  }

  lemma PendingFinishSilently(s: State, e: Execution)
    requires Active(s) && s.pc.PendingRunning? && s.pc.i < |s.pc.pending| && !s.disk[s.turn].status.Completed?
    ensures Silently(s, AfterPending(s, e))
  {
    assert NoReply(AfterPending(s, e).disk[s.turn].items[|s.disk[s.turn].items|..]);
  }

  lemma ResumeFinishSilently(s: State, e: Execution)
    requires Active(s) && s.pc.ResumeRunning? && !s.disk[s.turn].status.Completed?
    ensures Silently(s, AfterResume(s, e))
  {
    assert NoReply(AfterResume(s, e).disk[s.turn].items[|s.disk[s.turn].items|..]);
  }

  lemma AbortSilently(cfg: Config, s: State)
    requires StateOk(s) && Enabled(cfg, s, Abort)
    ensures Silently(s, Next(cfg, s, Abort))
  {
    WorkIsOpen(s);
    var s' := Next(cfg, s, Abort);
    var mem := if s'.pc.Closing? then s'.pc.mem else s'.disk[s.turn];
    assert NoReply(mem.items[|s.disk[s.turn].items|..]);
  }

  lemma NewTurnLed(cfg: Config, f: Functions, g: Model, s: State, text: Text)
    requires AllLed(f, g, s) && Enabled(cfg, s, NewTurn(text))
    ensures AllLed(f, g, Next(cfg, s, NewTurn(text)))
  {
    var s' := Next(cfg, s, NewTurn(text));
    RepliedSame([], [UserInput(text, None)]);
    assert [] + [UserInput(text, None)] == [UserInput(text, None)];
    forall k | 0 <= k < |s'.disk|
      ensures LedAt(f, g, s'.disk, k)
    {
      if k < |s.disk| { assert LedAt(f, g, s.disk, k); }
    }
  }

  lemma FinalCommitLed(cfg: Config, f: Functions, g: Model, s: State)
    requires AllLed(f, g, s) && Enabled(cfg, s, FinalCommit)
    ensures AllLed(f, g, Next(cfg, s, FinalCommit))
  {
    var s' := Next(cfg, s, FinalCommit);
    forall k | 0 <= k < |s'.disk|
      ensures LedAt(f, g, s'.disk, k)
    {
      assert LedAt(f, g, s.disk, k);
    }
  }

  /** The turn with the model's reply. */
  lemma ReplyLed(f: Functions, g: Model, turn: Turn, reply: Option<Text>, calls: seq<Call>)
    requires Led(f, g, turn) && !turn.status.Completed? && OutputsIn(turn.items) == AnswersTo(f, Responses(turn.items))
    requires Reply(reply, calls) == g(FirstText(turn.items), Replied(turn.items), OutputsIn(turn.items))
    ensures Led(f, g, Turn(if calls == [] then Completed else Running, turn.items + [ModelResponse(reply, calls)]))
  {
    var replies, items := Replied(turn.items), turn.items + [ModelResponse(reply, calls)];
    assert items[..|turn.items|] == turn.items;
    ResponsesAreReplied(turn.items);
    OneMoreReply(f, g, FirstText(turn.items), replies, Reply(reply, calls));
    assert Replied(items) == replies + [Reply(reply, calls)];
  }

  lemma RepliesLed(cfg: Config, f: Functions, g: Model, s: State, reply: Option<Text>, calls: seq<Call>)
    requires StateOk(s) && AllLed(f, g, s) && Enabled(cfg, s, ModelReplies(reply, calls)) && ByModel(g, s, ModelReplies(reply, calls))
    requires OutputsIn(s.disk[s.turn].items) == AnswersTo(f, Responses(s.disk[s.turn].items))
    ensures AllLed(f, g, Next(cfg, s, ModelReplies(reply, calls)))
  {
    WorkIsOpen(s);
    assert LedAt(f, g, s.disk, s.turn);
    if IsEmpty(reply, calls) && !cfg.allowEmpty {
      CommitSilently(s, s.turn, [TurnFailed], Failed, s.log, Idle);
      SilentlyLed(f, g, s, Close(s, [TurnFailed], Failed));
    } else {
      ReplyLed(f, g, s.disk[s.turn], reply, calls);
      ReplacedLed(f, g, s, Turn(if calls == [] then Completed else Running, s.disk[s.turn].items + [ModelResponse(reply, calls)]),
                  AfterReply(cfg, s, reply, calls));
    }
  }

  lemma ReplacedLed(f: Functions, g: Model, s: State, turn: Turn, s': State)
    requires AllLed(f, g, s) && s.turn < |s.disk| && Led(f, g, turn) && s'.disk == s.disk[s.turn := turn] && (s'.pc.Closing? ==> s'.pc.mem == turn)
    ensures AllLed(f, g, s')
  {
    forall k | 0 <= k < |s'.disk| ensures LedAt(f, g, s'.disk, k) { assert LedAt(f, g, s.disk, k); }
  }

  lemma OthersSilently(cfg: Config, s: State, a: Action)
    requires StateOk(s) && Enabled(cfg, s, a) && !a.NewTurn? && !a.ModelReplies? && !a.FinalCommit?
    ensures Silently(s, Next(cfg, s, a))
  {
    match a
    case Finish(e) => FinishSilently(cfg, s, e);
    case Abort => AbortSilently(cfg, s);
    case StartCall(newId) => StartSilently(cfg, s, newId);
    case HookFails(_) => StepSilently(cfg, s, a);
    case OutOfIterations => StepSilently(cfg, s, a);
    case ModelFails => StepSilently(cfg, s, a);
    case RoundEnds => StepSilently(cfg, s, a);
    case _ => HostSilently(cfg, s, a);
  }

  lemma ActionLeads(cfg: Config, f: Functions, g: Model, s: State, a: Action)
    requires StateOk(s) && AllLed(f, g, s) && Enabled(cfg, s, a) && ByModel(g, s, a)
    requires s.pc.AskModel? && s.turn < |s.disk| ==> OutputsIn(s.disk[s.turn].items) == AnswersTo(f, Responses(s.disk[s.turn].items))
    ensures AllLed(f, g, Next(cfg, s, a))
  {
    if a.NewTurn? {
      NewTurnLed(cfg, f, g, s, a.text);
    } else if a.ModelReplies? {
      RepliesLed(cfg, f, g, s, a.reply, a.calls);
    } else if a.FinalCommit? {
      FinalCommitLed(cfg, f, g, s);
    } else {
      OthersSilently(cfg, s, a);
      SilentlyLed(f, g, s, Next(cfg, s, a));
    }
  }

  lemma {:induction false} EveryRunIsLed(cfg: Config, f: Functions, g: Model, actions: seq<Action>, s: State)
    requires AskersRepeat(cfg, f) && RunsWith(cfg, f, g, actions, s)
    ensures AllLed(f, g, s)
    decreases |actions|
  {
    if actions != [] {
      var n := |actions| - 1;
      var before := LastByModel(cfg, f, g, actions, s);
      EveryRunIsLed(cfg, f, g, actions[..n], before);
      RunsWithIsRun(cfg, f, g, actions[..n], before);
      RunsReach(cfg, f, actions[..n], before);
      EveryRunIsOk(cfg, actions[..n], before);
      if before.pc.AskModel? && before.turn < |before.disk| {
        OutputsAreDetermined(cfg, f, actions[..n], before, before.turn);
      }
      ActionLeads(cfg, f, g, before, actions[n]);
    }
  }

  // --- The same conversation ------------------------------------------------------------------------------------------

  /**
   * Two turns with the same first message, of any two runs with such surroundings: the replies of one are the
   * first replies of the other, and if both were completed, replies and outputs are the same.
   */
  lemma SameModelSameConversation(cfg: Config, f: Functions, g: Model, run: seq<Action>, s: State, k: nat, other: seq<Action>, t: State, m: nat)
    requires AskersRepeat(cfg, f) && RunsWith(cfg, f, g, run, s) && RunsWith(cfg, f, g, other, t)
    requires k < |s.disk| && m < |t.disk| && FirstText(s.disk[k].items) == FirstText(t.disk[m].items)
    ensures var a, b := Replied(s.disk[k].items), Replied(t.disk[m].items);
            a <= b || b <= a
    ensures s.disk[k].status.Completed? && t.disk[m].status.Completed? ==>
              Replied(s.disk[k].items) == Replied(t.disk[m].items) && OutputsIn(s.disk[k].items) == OutputsIn(t.disk[m].items)
  {
    EveryRunIsLed(cfg, f, g, run, s);
    EveryRunIsLed(cfg, f, g, other, t);
    assert LedAt(f, g, s.disk, k) && LedAt(f, g, t.disk, m);
    var a, b := Replied(s.disk[k].items), Replied(t.disk[m].items);
    SameReplies(f, g, FirstText(s.disk[k].items), a, b, Min(|a|, |b|));
    if s.disk[k].status.Completed? && t.disk[m].status.Completed? {
      SameLength(s.disk[k], t.disk[m]);
      ResponsesAreReplied(s.disk[k].items);
      ResponsesAreReplied(t.disk[m].items);
      RunsWithIsRun(cfg, f, g, run, s);
      RunsWithIsRun(cfg, f, g, other, t);
      CrashesLeaveNoTrace(cfg, f, run, s, k, other, t, m);
    }
  }

  lemma SameLength(a: Turn, b: Turn)
    requires Shaped(a) && Shaped(b) && a.status.Completed? && b.status.Completed?
    requires var n := Min(|Replied(a.items)|, |Replied(b.items)|); Replied(a.items)[..n] == Replied(b.items)[..n]
    ensures Replied(a.items) == Replied(b.items)
  {
    var x, y := Replied(a.items), Replied(b.items);
    var n := Min(|x|, |y|);
    assert n > 0 && x[..n][n - 1] == x[n - 1] && y[..n][n - 1] == y[n - 1];
    assert |x| == |y|;
    assert x[..n] == x && y[..n] == y;
  }
}
