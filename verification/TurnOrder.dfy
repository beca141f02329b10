/**
 * The order of outputs. Recovery finds pending the unanswered tail of the last response, unless it had run
 * a call again that suspended after executing: that call's output is dropped while later calls are answered,
 * so the call stands in a gap until it is answered. The invariant says where such gaps are, for every state,
 * and that nothing else breaks the order.
 */
module TurnOrder {
  import opened Prelude
  import opened TurnItems
  import opened TurnMachine
  import opened TurnSafety

  // --- The unanswered calls ----------------------------------------------------------------------

  ghost function Unanswered(calls: seq<Call>, settled: set<nat>): seq<Call> {
    if calls == [] then []
    else (if calls[0].id in settled then [] else [calls[0]]) + Unanswered(calls[1..], settled)
  }

  /** The calls of the last response without an output, in order. */
  ghost function Rest(v: View): seq<Call> {
    Unanswered(v.last, v.settled)
  }

  lemma {:induction false} PendingIsUnansweredCalls(calls: seq<Call>, settled: set<nat>, started: map<nat, nat>)
    ensures CallsOf(Unsettled(calls, settled, started)) == Unanswered(calls, settled)
  {
    if calls != [] {
      PendingIsUnansweredCalls(calls[1..], settled, started);
      var rest := Unsettled(calls[1..], settled, started);
      var u := Unsettled(calls, settled, started);
      if calls[0].id !in settled {
        assert u == [u[0]] + rest && CallsOf(u) == [calls[0]] + CallsOf(rest);
      }
    }
  }

  lemma {:induction false} UnansweredSplit(a: seq<Call>, b: seq<Call>, settled: set<nat>)
    ensures Unanswered(a + b, settled) == Unanswered(a, settled) + Unanswered(b, settled)
  {
    if a == [] {
      assert a + b == b;
    } else {
      assert (a + b)[1..] == a[1..] + b;
      UnansweredSplit(a[1..], b, settled);
    }
  }

  lemma {:induction false} AllUnanswered(calls: seq<Call>, settled: set<nat>)
    requires forall c :: c in calls ==> c.id !in settled
    ensures Unanswered(calls, settled) == calls
  {
    if calls != [] { AllUnanswered(calls[1..], settled); }
  }

  lemma {:induction false} AllSettled(calls: seq<Call>, settled: set<nat>)
    requires forall c :: c in calls ==> c.id in settled
    ensures Unanswered(calls, settled) == []
  {
    if calls != [] { AllSettled(calls[1..], settled); }
  }

  /** Answering the first unanswered call leaves the others. */
  lemma {:induction false} AnswerFirst(calls: seq<Call>, settled: set<nat>)
    requires DistinctIds(calls) && Unanswered(calls, settled) != []
    ensures var u := Unanswered(calls, settled);
            u[0] in calls && Unanswered(calls, settled + {u[0].id}) == u[1..]
  {
    if calls[0].id in settled {
      AnswerFirst(calls[1..], settled);
    } else {
      var id := calls[0].id;
      SameUnanswered(calls[1..], settled, settled + {id});
    }
  }

  lemma {:induction false} SameUnanswered(calls: seq<Call>, a: set<nat>, b: set<nat>)
    requires forall c :: c in calls ==> (c.id in a <==> c.id in b)
    ensures Unanswered(calls, a) == Unanswered(calls, b)
  {
    if calls != [] { SameUnanswered(calls[1..], a, b); }
  }

  /** When the first `i` calls are answered and no other, the rest is the tail from `i` on. */
  lemma {:induction false} UnansweredTail(calls: seq<Call>, settled: set<nat>, i: nat)
    requires i <= |calls|
    requires forall j :: 0 <= j < i ==> calls[j].id in settled
    requires forall j :: i <= j < |calls| ==> calls[j].id !in settled
    ensures Unanswered(calls, settled) == calls[i..]
  {
    if i == 0 {
      AllUnanswered(calls, settled);
    } else {
      UnansweredTail(calls[1..], settled, i - 1);
    }
  }

  lemma RoundRest(v: View, calls: seq<Call>, i: nat)
    requires RoundOk(v, calls, i)
    ensures Rest(v) == calls[i..]
  {
    forall j | 0 <= j < |calls|
      ensures calls[j].id in v.settled <==> j < i
    {
      assert calls[j].id in Ids(calls);
      assert j >= i ==> Waiting(v, calls[j].id);
    }
    UnansweredTail(calls, v.settled, i);
  }

  lemma ClosedRest(v: View)
    requires Sane(v) && Closed(v)
    ensures Rest(v) == []
  {
    forall c | c in v.last ensures c.id in v.settled {
      assert c.id in Ids(v.last);
    }
    AllSettled(v.last, v.settled);
  }

  // --- Pending calls form a suffix ------------------------------------------------------------------

  /** Answered calls come before unanswered ones. */
  ghost predicate InOrder(calls: seq<Call>, settled: set<nat>) {
    forall i, j :: 0 <= i < j < |calls| && calls[j].id in settled ==> calls[i].id in settled
  }

  /** The calls answered so far, and the one that the host will answer when it resumes the turn. */
  ghost function Decided(v: View): set<nat> {
    v.settled + if v.open.Some? && v.open.value.deferred && v.open.value.callId.Some? then {v.open.value.callId.value} else {}
  }

  lemma {:induction false} UnansweredAreUnsettled(calls: seq<Call>, settled: set<nat>)
    ensures |Unanswered(calls, settled)| <= |calls|
    ensures forall c :: c in Unanswered(calls, settled) ==> c.id !in settled
  {
    if calls != [] { UnansweredAreUnsettled(calls[1..], settled); }
  }

  lemma {:induction false} NoneUnanswered(calls: seq<Call>, settled: set<nat>)
    requires Unanswered(calls, settled) == []
    ensures forall c :: c in calls ==> c.id in settled
  {
    if calls != [] { NoneUnanswered(calls[1..], settled); }
  }

  /** In that order the unanswered calls are a suffix of the response. */
  lemma InOrderGivesSuffix(calls: seq<Call>, settled: set<nat>) returns (k: nat)
    requires InOrder(calls, settled)
    ensures k <= |calls| && Unanswered(calls, settled) == calls[k..]
  {
    k := 0;
    while k < |calls| && calls[k].id in settled
      invariant 0 <= k <= |calls|
      invariant forall i :: 0 <= i < k ==> calls[i].id in settled
    {
      k := k + 1;
    }
    UnansweredTail(calls, settled, k);
  }

  lemma SuffixSplits(front: seq<Call>, tail: seq<Call>, settled: set<nat>)
    requires Unanswered(front + tail, settled) == tail
    ensures forall c :: c in front ==> c.id in settled
    ensures forall c :: c in tail ==> c.id !in settled
  {
    UnansweredAreUnsettled(front + tail, settled);
    UnansweredSplit(front, tail, settled);
    AllUnanswered(tail, settled);
    assert |Unanswered(front, settled)| == 0;
    NoneUnanswered(front, settled);
  }

  /** And only in that order. */
  lemma SuffixGivesInOrder(calls: seq<Call>, settled: set<nat>, k: nat)
    requires k <= |calls| && Unanswered(calls, settled) == calls[k..]
    ensures InOrder(calls, settled)
  {
    assert calls == calls[..k] + calls[k..];
    SuffixSplits(calls[..k], calls[k..], settled);
    forall j | 0 <= j < |calls|
      ensures calls[j].id in settled <==> j < k
    {
      if j < k { assert calls[..k][j] == calls[j]; } else { assert calls[k..][j - k] == calls[j]; }
    }
  }

  // --- Late suspensions -----------------------------------------------------------------------------

  predicate LeavesGap(e: Event) {
    e.LateSuspension? && e.skipped > 0
  }

  /** The calls of turn `k` that recovery ran again and that suspended late, before others. */
  ghost function Late(k: nat, log: seq<Event>): set<nat> {
    set e | e in log && LeavesGap(e) && e.turn == k :: e.id
  }

  lemma LateGrows(k: nat, log: seq<Event>, e: Event)
    ensures Late(k, log + [e]) == Late(k, log) + if LeavesGap(e) && e.turn == k then {e.id} else {}
  {
    assert forall x :: x in log + [e] <==> x in log || x == e;
  }

  /** The call is followed by one that is answered. */
  ghost predicate Gap(calls: seq<Call>, settled: set<nat>, id: nat) {
    exists i, j :: 0 <= i < j < |calls| && calls[i].id == id && calls[j].id in settled
  }

  /** While a late call is unanswered it leaves a gap in its response. */
  ghost predicate Marked(v: View, id: nat) {
    id in v.requested && (Waiting(v, id) ==> Gap(v.last, v.settled, id))
  }

  lemma MarkedOne(v: View, item: Item, id: nat)
    requires Marked(v, id) && (item.ModelResponse? ==> Ids(item.calls) !! v.requested)
    ensures Marked(Observe(v, item), id)
  {
    var w := Observe(v, item);
    if Waiting(w, id) && w.last == v.last {
      var i, j :| 0 <= i < j < |v.last| && v.last[i].id == id && v.last[j].id in v.settled;
      assert w.last[j].id in w.settled;
    }
  }

  lemma {:induction false} MarkedMore(items: seq<Item>, more: seq<Item>, id: nat)
    requires Marked(ViewOf(items), id) && ViewOf(items + more).ordered
    ensures Marked(ViewOf(items + more), id)
    decreases |more|
  {
    if more == [] {
      assert items + more == items;
    } else {
      var n := |more| - 1;
      assert (items + more)[..|items + more| - 1] == items + more[..n];
      assert ViewOf(items + more) == Observe(ViewOf(items + more[..n]), more[n]);
      MarkedMore(items, more[..n], id);
      MarkedOne(ViewOf(items + more[..n]), more[n], id);
    }
  }

  ghost predicate LateAt(disk: Thread, k: nat, id: nat) {
    k < |disk| && Marked(ViewOf(disk[k].items), id)
  }

  ghost predicate LateOk(s: State) {
    forall k: nat, id: nat :: id in Late(k, s.log) ==> LateAt(s.disk, k, id)
  }

  /** Stored turns only grow, so old marks stay; a new one must be shown. */
  lemma LateKept(s: State, s': State, e: Event)
    requires LateOk(s) && DiskGrows(s.disk, s'.disk) && DiskOk(s') && (s'.log == s.log || s'.log == s.log + [e])
    requires LeavesGap(e) && s'.log == s.log + [e] ==> LateAt(s'.disk, e.turn, e.id)
    ensures LateOk(s')
  {
    forall k: nat, id: nat | id in Late(k, s'.log)
      ensures LateAt(s'.disk, k, id)
    {
      LateGrows(k, s.log, e);
      if id in Late(k, s.log) {
        assert LateAt(s.disk, k, id);
        var before, after := s.disk[k].items, s'.disk[k].items;
        assert TurnOk(s'.disk[k], k, s'.log) && after == before + after[|before|..];
        MarkedMore(before, after[|before|..], id);
      }
    }
  }

  /** The first two unanswered calls stand in this order in the response. */
  lemma {:induction false} FirstTwo(calls: seq<Call>, settled: set<nat>)
    requires |Unanswered(calls, settled)| >= 2
    ensures exists i, j :: 0 <= i < j < |calls| && calls[i] == Unanswered(calls, settled)[0] && calls[j] == Unanswered(calls, settled)[1]
  {
    var u := Unanswered(calls, settled);
    if calls[0].id in settled {
      FirstTwo(calls[1..], settled);
      var i, j :| 0 <= i < j < |calls[1..]| && calls[1..][i] == u[0] && calls[1..][j] == u[1];
      assert calls[i + 1] == u[0] && calls[j + 1] == u[1];
    } else {
      assert u[1] in Unanswered(calls[1..], settled);
      UnansweredFrom(calls[1..], settled, u[1]);
      var j :| 0 <= j < |calls[1..]| && calls[1..][j] == u[1];
      assert calls[0] == u[0] && calls[j + 1] == u[1];
    }
  }

  lemma {:induction false} UnansweredFrom(calls: seq<Call>, settled: set<nat>, c: Call)
    requires c in Unanswered(calls, settled)
    ensures c in calls
  {
    if calls[0].id in settled || c != calls[0] { UnansweredFrom(calls[1..], settled, c); }
  }

  /** A late suspension answers all later pending calls, so it leaves its call in a gap. */
  lemma LateIsMarked(items: seq<Item>, calls: seq<Call>, x: Suspension)
    requires Sane(ViewOf(items)) && Rest(ViewOf(items)) == calls && |calls| > 1
    ensures Marked(ViewOf(items + ([SuspensionCreated(x)] + Outputs(calls[1..], Error(Skipped)))), calls[0].id)
  {
    var v := ViewOf(items);
    SuspendedView(items, x, calls[1..]);
    FirstTwo(v.last, v.settled);
    var i, j :| 0 <= i < j < |v.last| && v.last[i] == calls[0] && v.last[j] == calls[1];
    assert calls[1] == calls[1..][0] && calls[1].id in Ids(calls[1..]);
    assert v.last[i].id in Ids(v.last);
  }

  // --- Every action keeps the order ---------------------------------------------------------------

  /** In a turn that can go on, answered, held and late calls come before all others. */
  ghost predicate LineOk(turn: Turn, k: nat, log: seq<Event>) {
    Terminal(turn.status) || InOrder(ViewOf(turn.items).last, Decided(ViewOf(turn.items)) + Late(k, log))
  }

  ghost predicate OrderOk(s: State) {
    && (s.disk != [] ==> LineOk(s.disk[|s.disk| - 1], |s.disk| - 1, s.log))
    && (!s.pc.Idle? ==> s.turn < |s.disk| && PcInOrder(s))
  }

  ghost predicate PcInOrder(s: State)
    requires s.turn < |s.disk|
  {
    match s.pc
    case AtPending(p, i) => i <= |p| && CallsOf(p)[i..] == Rest(V(s))
    case PendingBegun(p, i) => i <= |p| && CallsOf(p)[i..] == Rest(V(s))
    case PendingRunning(p, i) => i <= |p| && CallsOf(p)[i..] == Rest(V(s))
    case Closing(mem) => LineOk(mem, s.turn, s.log)
    case _ => true
  }

  /** Outside recovery the order follows from where the loop stands. */
  lemma RoundsAreInOrder(s: State)
    requires StateOk(s) && LateOk(s) && (s.pc.AskModel? || s.pc.AtCall? || s.pc.CallBegun? || s.pc.CallRunning?)
    ensures OrderOk(s)
  {
    assert TurnOk(s.disk[s.turn], s.turn, s.log);
    if s.pc.AskModel? {
      ClosedInOrder(V(s), Late(s.turn, s.log));
    } else {
      forall id | id in Late(s.turn, s.log)
        ensures Marked(V(s), id)
      {
        assert LateAt(s.disk, s.turn, id);
      }
      RoundInOrderAnyway(V(s), s.pc.round.calls, s.pc.i, Late(s.turn, s.log));
    }
  }

  lemma ClosedInOrder(v: View, late: set<nat>)
    requires Sane(v) && Closed(v)
    ensures InOrder(v.last, Decided(v) + late)
  {
    forall i | 0 <= i < |v.last|
      ensures v.last[i].id in v.settled
    {
      assert v.last[i].id in Ids(v.last);
    }
  }

  lemma RoundInOrder(v: View, calls: seq<Call>, i: nat)
    requires RoundOk(v, calls, i)
    ensures InOrder(v.last, v.settled) && forall j :: 0 <= j < |calls| ==> (calls[j].id in v.settled <==> j < i)
  {
    forall j | 0 <= j < |calls|
      ensures calls[j].id in v.settled <==> j < i
    {
      assert calls[j].id in Ids(calls);
      assert j >= i ==> Waiting(v, calls[j].id);
    }
  }

  /** In a round no late call is unanswered, as no answered call follows an unanswered one. */
  lemma RoundInOrderAnyway(v: View, calls: seq<Call>, i: nat, late: set<nat>)
    requires RoundOk(v, calls, i) && forall id :: id in late ==> Marked(v, id)
    ensures InOrder(v.last, Decided(v) + late)
  {
    RoundInOrder(v, calls, i);
    forall j | 0 <= j < |calls|
      ensures calls[j].id in late ==> j < i
    {
      if calls[j].id in late { LateIsAnswered(v, calls, i, j); }
    }
  }

  lemma LateIsAnswered(v: View, calls: seq<Call>, i: nat, j: nat)
    requires RoundOk(v, calls, i) && j < |calls| && Marked(v, calls[j].id)
    ensures j < i
  {
    RoundInOrder(v, calls, i);
    if j >= i { NoGap(calls, v.settled, i, j); }
  }

  lemma NoGap(calls: seq<Call>, settled: set<nat>, i: nat, j: nat)
    requires DistinctIds(calls) && i <= j < |calls|
    requires forall k :: 0 <= k < |calls| ==> (calls[k].id in settled <==> k < i)
    ensures !Gap(calls, settled, calls[j].id)
  {
  }

  /** Deciding the first unanswered call keeps the order. */
  lemma AnswerFirstInOrder(calls: seq<Call>, settled: set<nat>, decided: set<nat>)
    requires settled <= decided && InOrder(calls, decided) && Unanswered(calls, settled) != [] && DistinctIds(calls)
    ensures InOrder(calls, decided + {Unanswered(calls, settled)[0].id})
  {
    var k := FirstUnanswered(calls, settled);
  }

  lemma {:induction false} FirstUnanswered(calls: seq<Call>, settled: set<nat>) returns (k: nat)
    requires Unanswered(calls, settled) != []
    ensures k < |calls| && calls[k] == Unanswered(calls, settled)[0] && forall i :: 0 <= i < k ==> calls[i].id in settled
  {
    if calls[0].id in settled {
      k := FirstUnanswered(calls[1..], settled);
      k := k + 1;
    } else {
      k := 0;
    }
  }

  /** All calls but the first unanswered one get their output. */
  lemma AnswerAllButFirst(v: View, settled: set<nat>)
    requires Rest(v) != [] && settled == v.settled + Ids(Rest(v)[1..])
    ensures forall j :: 0 <= j < |v.last| && v.last[j].id != Rest(v)[0].id ==> v.last[j].id in settled
  {
    forall j | 0 <= j < |v.last| && v.last[j].id !in v.settled
      ensures v.last[j] in Rest(v)
    {
      UnansweredHas(v.last, v.settled, v.last[j]);
    }
  }

  lemma {:induction false} UnansweredHas(calls: seq<Call>, settled: set<nat>, c: Call)
    requires c in calls && c.id !in settled
    ensures c in Unanswered(calls, settled)
  {
    if c != calls[0] { UnansweredHas(calls[1..], settled, c); }
  }

  // One lemma per action that leaves a turn waiting or pending.

  lemma RecoverInOrder(cfg: Config, s: State)
    requires StateOk(s) && OrderOk(s) && Enabled(cfg, s, Recover)
    ensures OrderOk(Next(cfg, s, Recover))
  {
    ActiveIsLast(s);
    var v := ViewOf(s.disk[|s.disk| - 1].items);
    PendingIsUnansweredCalls(v.last, v.settled, v.started);
    assert CallsOf(PendingOf(v))[0..] == CallsOf(PendingOf(v));
    LateGrows(|s.disk| - 1, s.log, Recovered(|s.disk| - 1, |PendingOf(v)|));
  }

  lemma ResumeInputInOrder(cfg: Config, s: State, id: nat, text: Text)
    requires StateOk(s) && OrderOk(s) && Enabled(cfg, s, ResumeInput(id, text))
    ensures OrderOk(Next(cfg, s, ResumeInput(id, text)))
  {
    PendingIsLast(s);
    var v := ViewOf(s.disk[|s.disk| - 1].items);
    View1(s.disk[|s.disk| - 1].items, UserInput(text, Some(id)));
    assert Decided(Observe(v, UserInput(text, Some(id)))) == Decided(v);
  }

  /** Answering the held call changes nothing that was decided. */
  lemma AnswerHeld(turn: Turn, k: nat, log: seq<Event>, id: nat, result: ToolResult)
    requires LineOk(turn, k, log) && !Terminal(turn.status)
    requires var open := ViewOf(turn.items).open; open.Some? && open.value.deferred && open.value.callId == Some(id)
    ensures LineOk(Turn(Running, turn.items + [ToolOutput(id, result)]), k, log)
  {
    var v := ViewOf(turn.items);
    View1(turn.items, ToolOutput(id, result));
    assert Decided(Observe(v, ToolOutput(id, result))) == Decided(v);
  }

  lemma ResumeDenyInOrder(cfg: Config, s: State, id: nat, reason: nat)
    requires StateOk(s) && OrderOk(s) && Enabled(cfg, s, ResumeDeny(id, reason))
    ensures OrderOk(Next(cfg, s, ResumeDeny(id, reason)))
  {
    PendingIsLast(s);
    var n := |s.disk| - 1;
    AnswerHeld(s.disk[n], n, s.log, ViewOf(s.disk[n].items).open.value.callId.value, Error(Denied(reason)));
  }

  lemma ResumeApproveInOrder(cfg: Config, s: State, id: nat)
    requires StateOk(s) && OrderOk(s) && Enabled(cfg, s, ResumeApprove(id))
    ensures OrderOk(Next(cfg, s, ResumeApprove(id)))
  {
    PendingIsLast(s);
    var items := s.disk[|s.disk| - 1].items;
    var suspension := ViewOf(items).open.value;
    var call := FindCall(items, suspension.callId.value).value;
    View1(items, CallStarted(call.id, ApprovedAttempt(suspension.attempt)));
    LateGrows(|s.disk| - 1, s.log, Approval(|s.disk| - 1, call.id));
    var started := CallStarted(call.id, ApprovedAttempt(suspension.attempt));
    assert Decided(Observe(ViewOf(items), started)) == Decided(ViewOf(items));
  }

  lemma CommitInOrder(s: State, log: seq<Event>, more: seq<Item>, status: Status, pc: Pc)
    requires s.disk != [] && s.turn == |s.disk| - 1 && LineOk(Turn(status, s.disk[s.turn].items + more), s.turn, log)
    requires pc.Idle? || pc == Closing(Turn(status, s.disk[s.turn].items + more))
    ensures OrderOk(Commit(s.(log := log), more, status, pc))
  {
  }

  lemma CloseInOrder(s: State, log: seq<Event>, more: seq<Item>, status: Status)
    requires s.disk != [] && s.turn == |s.disk| - 1 && LineOk(Turn(status, s.disk[s.turn].items + more), s.turn, log)
    ensures OrderOk(CommitAndClose(s.(log := log), more, status))
  {
    CommitInOrder(s, log, more, status, Closing(Turn(status, s.disk[s.turn].items + more)));
  }

  lemma ResumeFinishInOrder(s: State, e: Execution)
    requires StateOk(s) && OrderOk(s) && Active(s) && s.pc.ResumeRunning?
    ensures OrderOk(AfterResume(s, e))
  {
    if e.Returned? || e.Broke? {
      ResumeAnswersInOrder(s, s.pc.call.id, if e.Returned? then Success(e.output) else Error(FunctionError(e.error)));
    }
  }

  lemma ResumeAnswersInOrder(s: State, id: nat, result: ToolResult)
    requires s.disk != [] && s.turn == |s.disk| - 1 && OrderOk(s) && s.disk[s.turn].status.Suspended?
    requires V(s).open.Some? && V(s).open.value.deferred && V(s).open.value.callId == Some(id)
    ensures OrderOk(Commit(s, [ToolOutput(id, result)], Running, Idle))
  {
    AnswerHeld(s.disk[s.turn], s.turn, s.log, id, result);
    CommitInOrder(s, s.log, [ToolOutput(id, result)], Running, Idle);
    assert s.(log := s.log) == s;
  }

  /** Recovery starts or suspends the first unanswered call. */
  lemma PendingStartLine(turn: Turn, k: nat, log: seq<Event>, call: Call, attempt: nat, newId: nat)
    requires LineOk(turn, k, log) && !Terminal(turn.status) && Sane(ViewOf(turn.items)) && ViewOf(turn.items).open.None?
    requires Rest(ViewOf(turn.items)) != [] && Rest(ViewOf(turn.items))[0] == call
    ensures LineOk(Turn(Running, turn.items + [CallStarted(call.id, attempt)]), k, log)
    ensures Rest(ViewOf(turn.items + [CallStarted(call.id, attempt)])) == Rest(ViewOf(turn.items))
    ensures LineOk(Turn(Suspended, turn.items + [SuspensionCreated(Suspension(newId, Some(call.id), true, Some(attempt)))]), k, log)
  {
    var v := ViewOf(turn.items);
    var suspended := SuspensionCreated(Suspension(newId, Some(call.id), true, Some(attempt)));
    View1(turn.items, CallStarted(call.id, attempt));
    View1(turn.items, suspended);
    assert Decided(v) == v.settled && Decided(Observe(v, suspended)) == v.settled + {call.id};
    AnswerFirstInOrder(v.last, v.settled, v.settled + Late(k, log));
    assert v.settled + Late(k, log) + {call.id} == v.settled + {call.id} + Late(k, log);
  }

  lemma PendingStartInOrder(cfg: Config, s: State, newId: nat)
    requires StateOk(s) && OrderOk(s) && Active(s) && s.pc.AtPending? && s.pc.i < |s.pc.pending|
    ensures OrderOk(AfterPendingStart(cfg, s, newId))
  {
    assert CallsOf(s.pc.pending)[s.pc.i..][0] == s.pc.pending[s.pc.i].call;
    StartAnyInOrder(cfg, s, newId, s.pc.pending[s.pc.i]);
  }

  lemma StartAnyInOrder(cfg: Config, s: State, newId: nat, p: PendingCall)
    requires s.disk != [] && s.turn == |s.disk| - 1 && s.disk[s.turn].status.Running? && OrderOk(s)
    requires s.pc.AtPending? && s.pc.i < |s.pc.pending| && s.pc.pending[s.pc.i] == p
    requires Sane(V(s)) && V(s).open.None? && Rest(V(s)) != [] && Rest(V(s))[0] == p.call
    ensures OrderOk(AfterPendingStart(cfg, s, newId))
  {
    StartOrSuspendInOrder(s, p.call, NextAttempt(p.attempt), newId);
  }

  lemma StartOrSuspendInOrder(s: State, call: Call, attempt: nat, newId: nat)
    requires s.disk != [] && s.turn == |s.disk| - 1 && s.disk[s.turn].status.Running? && OrderOk(s) && s.pc.AtPending?
    requires Sane(V(s)) && V(s).open.None? && Rest(V(s)) != [] && Rest(V(s))[0] == call
    ensures OrderOk(Commit(s, [CallStarted(call.id, attempt)], Running, PendingBegun(s.pc.pending, s.pc.i)))
    ensures OrderOk(CommitAndClose(s, [SuspensionCreated(Suspension(newId, Some(call.id), true, Some(attempt)))], Suspended))
  {
    PendingStartLine(s.disk[s.turn], s.turn, s.log, call, attempt, newId);
    CloseInOrder(s, s.log, [SuspensionCreated(Suspension(newId, Some(call.id), true, Some(attempt)))], Suspended);
    assert s.(log := s.log) == s;
  }

  /** Recovery answers the first unanswered call. */
  lemma PendingAnswerLine(turn: Turn, k: nat, log: seq<Event>, call: Call, result: ToolResult)
    requires LineOk(turn, k, log) && !Terminal(turn.status) && Sane(ViewOf(turn.items)) && ViewOf(turn.items).open.None?
    requires Rest(ViewOf(turn.items)) != [] && Rest(ViewOf(turn.items))[0] == call
    ensures LineOk(Turn(Running, turn.items + [ToolOutput(call.id, result)]), k, log)
    ensures Rest(ViewOf(turn.items + [ToolOutput(call.id, result)])) == Rest(ViewOf(turn.items))[1..]
  {
    var v := ViewOf(turn.items);
    View1(turn.items, ToolOutput(call.id, result));
    AnswerFirst(v.last, v.settled);
    assert Decided(v) == v.settled && Decided(Observe(v, ToolOutput(call.id, result))) == v.settled + {call.id};
    AnswerFirstInOrder(v.last, v.settled, v.settled + Late(k, log));
    assert v.settled + Late(k, log) + {call.id} == v.settled + {call.id} + Late(k, log);
  }

  lemma PendingAnswerInOrder(s: State, pending: seq<PendingCall>, i: nat, result: ToolResult)
    requires StateOk(s) && OrderOk(s) && s.pc == PendingRunning(pending, i)
    ensures OrderOk(Commit(s, [ToolOutput(pending[i].call.id, result)], Running, AtPending(pending, i + 1)))
  {
    assert CallsOf(pending)[i..][0] == pending[i].call;
    assert CallsOf(pending)[i..][1..] == CallsOf(pending)[i + 1..];
    PendingAnswerLine(s.disk[s.turn], s.turn, s.log, pending[i].call, result);
  }

  /** A turn suspended with every call decided. */
  lemma SuspendedLine(items: seq<Item>, x: Suspension, later: seq<Call>, k: nat, log: seq<Event>)
    requires x.callId.Some? ==> x.callId.value !in Ids(later)
    requires var v := ViewOf(items);
             forall j :: 0 <= j < |v.last| ==> v.last[j].id in v.settled + Ids(later) || (x.deferred && x.callId == Some(v.last[j].id))
    ensures LineOk(Turn(Suspended, items + ([SuspensionCreated(x)] + Outputs(later, Error(Skipped)))), k, log)
  {
    SuspendedView(items, x, later);
  }

  lemma RestOfRound(v: View, calls: seq<Call>, done: nat, i: nat)
    requires RoundOk(v, calls, done) && i < |calls| && i <= done <= i + 1
    ensures forall j :: 0 <= j < |v.last| ==> v.last[j].id in v.settled + Ids(calls[i + 1..]) || (j == i && done == i)
    ensures calls[i].id !in Ids(calls[i + 1..])
  {
    RoundInOrder(v, calls, done);
    SuffixDistinct(calls, i + 1);
  }

  lemma CallSuspendsLine(items: seq<Item>, calls: seq<Call>, i: nat, x: Suspension, k: nat, log: seq<Event>)
    requires RoundOk(ViewOf(items), calls, i) && i < |calls| && HonestSuspension(SuspendedBefore(x), calls[i])
    ensures LineOk(Turn(Suspended, items + ([SuspensionCreated(x)] + Outputs(calls[i + 1..], Error(Skipped)))), k, log)
  {
    RestOfRound(ViewOf(items), calls, i, i);
    SuspendedLine(items, x, calls[i + 1..], k, log);
  }

  lemma CallSuspendsAfterLine(items: seq<Item>, calls: seq<Call>, i: nat, x: Suspension, output: nat, k: nat, log: seq<Event>)
    requires RoundOk(ViewOf(items), calls, i) && i < |calls| && HonestSuspension(SuspendedAfter(x, output), calls[i])
    ensures LineOk(Turn(Suspended, items + ([ToolOutput(calls[i].id, Success(output)), SuspensionCreated(x)]
                                            + Outputs(calls[i + 1..], Error(Skipped)))), k, log)
  {
    var out := ToolOutput(calls[i].id, Success(output));
    View1(items, out);
    RoundAdvances(ViewOf(items), calls, i, Success(output));
    RestOfRound(ViewOf(items + [out]), calls, i + 1, i);
    SuspendedLine(items + [out], x, calls[i + 1..], k, log);
    assert items + ([out, SuspensionCreated(x)] + Outputs(calls[i + 1..], Error(Skipped)))
        == items + [out] + ([SuspensionCreated(x)] + Outputs(calls[i + 1..], Error(Skipped)));
  }

  lemma CallFinishInOrder(s: State, e: Execution)
    requires StateOk(s) && Active(s) && s.pc.CallRunning? && s.pc.i < |s.pc.round.calls|
    requires (e.SuspendedBefore? || e.SuspendedAfter?) && HonestSuspension(e, s.pc.round.calls[s.pc.i])
    ensures OrderOk(AfterCall(s, e))
  {
    SuspendCallInOrder(s, s.pc.round.calls, s.pc.i, e);
  }

  lemma SuspendCallInOrder(s: State, calls: seq<Call>, i: nat, e: Execution)
    requires s.disk != [] && s.turn == |s.disk| - 1 && RoundOk(V(s), calls, i) && i < |calls|
    requires s.pc.CallRunning? && s.pc.round.calls == calls && s.pc.i == i
    requires (e.SuspendedBefore? || e.SuspendedAfter?) && HonestSuspension(e, calls[i])
    ensures OrderOk(AfterCall(s, e))
  {
    var later := Outputs(calls[i + 1..], Error(Skipped));
    assert s.(log := s.log) == s;
    if e.SuspendedBefore? {
      CallSuspendsLine(s.disk[s.turn].items, calls, i, e.suspension, s.turn, s.log);
      CloseInOrder(s, s.log, [SuspensionCreated(e.suspension)] + later, Suspended);
    } else {
      CallSuspendsAfterLine(s.disk[s.turn].items, calls, i, e.suspension, e.output, s.turn, s.log);
      CloseInOrder(s, s.log, [ToolOutput(calls[i].id, Success(e.output)), SuspensionCreated(e.suspension)] + later, Suspended);
    }
  }

  lemma PendingSuspendsLine(items: seq<Item>, calls: seq<Call>, x: Suspension, k: nat, log: seq<Event>)
    requires Rest(ViewOf(items)) == calls && calls != [] && DistinctIds(calls) && HonestSuspension(SuspendedBefore(x), calls[0])
    ensures LineOk(Turn(Suspended, items + ([SuspensionCreated(x)] + Outputs(calls[1..], Error(Skipped)))), k, log)
  {
    var v := ViewOf(items);
    SuffixDistinct(calls, 1);
    AnswerAllButFirst(v, v.settled + Ids(calls[1..]));
    SuspendedLine(items, x, calls[1..], k, log);
  }

  lemma LastSuspendsLine(turn: Turn, x: Suspension, k: nat, log: seq<Event>)
    requires LineOk(turn, k, log) && !Terminal(turn.status) && ViewOf(turn.items).open.None? && !x.deferred
    ensures LineOk(Turn(Suspended, turn.items + [SuspensionCreated(x)]), k, log)
  {
    View1(turn.items, SuspensionCreated(x));
    assert Decided(Observe(ViewOf(turn.items), SuspensionCreated(x))) == Decided(ViewOf(turn.items));
  }

  /** Where a recovering loop stands, without the rest of the state. */
  ghost predicate AtRest(s: State, calls: seq<Call>) {
    s.disk != [] && s.turn == |s.disk| - 1 && calls != [] && DistinctIds(calls) && Rest(V(s)) == calls
  }

  lemma SuspendFirstInOrder(s: State, calls: seq<Call>, x: Suspension)
    requires AtRest(s, calls) && HonestSuspension(SuspendedBefore(x), calls[0])
    ensures OrderOk(CommitAndClose(s, [SuspensionCreated(x)] + Outputs(calls[1..], Error(Skipped)), Suspended))
  {
    PendingSuspendsLine(s.disk[s.turn].items, calls, x, s.turn, s.log);
    CloseInOrder(s, s.log, [SuspensionCreated(x)] + Outputs(calls[1..], Error(Skipped)), Suspended);
    assert s.(log := s.log) == s;
  }

  lemma SuspendLateInOrder(s: State, calls: seq<Call>, x: Suspension)
    requires AtRest(s, calls) && OrderOk(s) && s.disk[s.turn].status.Running? && V(s).open.None? && !x.deferred
    ensures var log := s.log + [LateSuspension(s.turn, calls[0].id, |calls| - 1)];
            OrderOk(CommitAndClose(s.(log := log), [SuspensionCreated(x)] + Outputs(calls[1..], Error(Skipped)), Suspended))
  {
    var log := s.log + [LateSuspension(s.turn, calls[0].id, |calls| - 1)];
    var more := [SuspensionCreated(x)] + Outputs(calls[1..], Error(Skipped));
    if calls[1..] == [] {
      assert more == [SuspensionCreated(x)];
      LastSuspendsLine(s.disk[s.turn], x, s.turn, s.log);
      LateGrows(s.turn, s.log, log[|s.log|]);
    } else {
      LateLine(s.disk[s.turn].items, calls, x, s.turn, s.log);
    }
    CloseInOrder(s, log, more, Suspended);
  }

  lemma LateLine(items: seq<Item>, calls: seq<Call>, x: Suspension, k: nat, log: seq<Event>)
    requires Rest(ViewOf(items)) == calls && |calls| > 1
    ensures LineOk(Turn(Suspended, items + ([SuspensionCreated(x)] + Outputs(calls[1..], Error(Skipped)))), k,
                   log + [LateSuspension(k, calls[0].id, |calls| - 1)])
  {
    var v := ViewOf(items);
    SuspendedView(items, x, calls[1..]);
    AnswerAllButFirst(v, v.settled + Ids(calls[1..]));
    LateGrows(k, log, LateSuspension(k, calls[0].id, |calls| - 1));
  }

  lemma PendingSuspendsInOrder(s: State, e: Execution)
    requires StateOk(s) && OrderOk(s) && s.pc.PendingRunning?
    requires (e.SuspendedBefore? || e.SuspendedAfter?) && HonestSuspension(e, s.pc.pending[s.pc.i].call)
    ensures OrderOk(AfterPending(s, e))
  {
    var calls := CallsOf(s.pc.pending)[s.pc.i..];
    assert calls[0] == s.pc.pending[s.pc.i].call && calls[1..] == CallsOf(s.pc.pending)[s.pc.i + 1..];
    SuffixDistinct(CallsOf(s.pc.pending), s.pc.i);
    if e.SuspendedBefore? { SuspendFirstInOrder(s, calls, e.suspension); } else { SuspendLateInOrder(s, calls, e.suspension); }
  }

  lemma AbortInOrder(cfg: Config, s: State)
    requires OrderOk(s) && Enabled(cfg, s, Abort)
    ensures OrderOk(Next(cfg, s, Abort))
  {
  }

  lemma InvokeInOrder(cfg: Config, s: State)
    requires StateOk(s) && OrderOk(s) && Enabled(cfg, s, Invoke) && StateOk(Next(cfg, s, Invoke)) && LateOk(Next(cfg, s, Invoke))
    ensures OrderOk(Next(cfg, s, Invoke))
  {
    if s.pc.CallBegun? { RoundsAreInOrder(Next(cfg, s, Invoke)); } else { RerunInOrder(s); }
  }

  lemma RerunInOrder(s: State)
    requires OrderOk(s) && Active(s) && ((s.pc.PendingBegun? && s.pc.i < |s.pc.pending|) || s.pc.ResumeBegun?)
    ensures OrderOk(AfterInvoke(s))
  {
    LateGrows(s.turn, s.log, AfterInvoke(s).log[|s.log|]);
  }

  lemma StepInOrder(cfg: Config, s: State, a: Action)
    requires OrderOk(s) && Enabled(cfg, s, a)
    requires a.OutOfIterations? || a.ModelFails? || a.FinalCommit? || a.Crash?
    ensures OrderOk(Next(cfg, s, a))
  {
    if a.FinalCommit? { LastCommitInOrder(s); }
  }

  lemma LastCommitInOrder(s: State)
    requires OrderOk(s) && s.pc.Closing? && s.turn < |s.disk|
    ensures OrderOk(s.(disk := s.disk[s.turn := s.pc.mem], pc := Idle))
  {
  }

  lemma EndInOrder(cfg: Config, s: State, a: Action)
    requires OrderOk(s) && Enabled(cfg, s, a) && (a.ModelReplies? || a.RoundEnds?) && !Next(cfg, s, a).pc.AskModel?
    ensures Next(cfg, s, a).pc.AtCall? || OrderOk(Next(cfg, s, a))
  {
  }

  lemma FinishPendingInOrder(s: State, e: Execution)
    requires StateOk(s) && OrderOk(s) && Active(s) && s.pc.PendingRunning?
    requires HonestSuspension(e, s.pc.pending[s.pc.i].call)
    ensures OrderOk(AfterPending(s, e))
  {
    if e.Returned? || e.Broke? {
      PendingAnswerInOrder(s, s.pc.pending, s.pc.i, if e.Returned? then Success(e.output) else Error(FunctionError(e.error)));
    } else {
      PendingSuspendsInOrder(s, e);
    }
  }

  lemma FinishInOrder(cfg: Config, s: State, e: Execution)
    requires StateOk(s) && OrderOk(s) && Enabled(cfg, s, Finish(e)) && StateOk(Next(cfg, s, Finish(e)))
    requires LateOk(Next(cfg, s, Finish(e)))
    ensures OrderOk(Next(cfg, s, Finish(e)))
  {
    if s.pc.ResumeRunning? {
      ResumeFinishInOrder(s, e);
    } else if s.pc.PendingRunning? {
      FinishPendingInOrder(s, e);
    } else if e.Returned? || e.Broke? {
      RoundsAreInOrder(AfterCall(s, e));
    } else {
      CallFinishInOrder(s, e);
    }
  }

  // --- Every action keeps the marks -----------------------------------------------------------------

  /** A late suspension is the only action that adds a mark. */
  lemma QuietActionKeepsLate(cfg: Config, s: State, a: Action)
    requires StateOk(s) && MemoryGrows(s) && LateOk(s) && Enabled(cfg, s, a) && !a.Finish?
    ensures LateOk(Next(cfg, s, a))
  {
    var s' := Next(cfg, s, a);
    ActionKeepsState(cfg, s, a);
    ActionGrowsDisk(cfg, s, a);
    QuietActionLog(cfg, s, a);
    LateKept(s, s', if |s'.log| == 0 then ResumeAborted(0) else s'.log[|s'.log| - 1]);
  }

  lemma QuietActionLog(cfg: Config, s: State, a: Action)
    requires Enabled(cfg, s, a) && !a.Finish?
    ensures var log' := Next(cfg, s, a).log;
            log' == s.log || (|log'| == |s.log| + 1 && log' == s.log + [log'[|s.log|]] && !log'[|s.log|].LateSuspension?)
  {
  }

  lemma FinishKeepsLate(cfg: Config, s: State, e: Execution)
    requires StateOk(s) && OrderOk(s) && LateOk(s) && Enabled(cfg, s, Finish(e))
    ensures LateOk(Next(cfg, s, Finish(e)))
  {
    var s' := Next(cfg, s, Finish(e));
    ActionKeepsState(cfg, s, Finish(e));
    FinishGrows(cfg, s, e);
    if s.pc.PendingRunning? && e.SuspendedAfter? {
      LateFinishKept(s, e);
    } else {
      FinishIsQuiet(cfg, s, e);
      LateKept(s, s', ResumeAborted(0));
    }
  }

  lemma LateFinishKept(s: State, e: Execution)
    requires LateOk(s) && Active(s) && s.pc.PendingRunning? && s.pc.i < |s.pc.pending| && e.SuspendedAfter?
    requires Sane(V(s)) && Rest(V(s)) == CallsOf(s.pc.pending)[s.pc.i..]
    requires DiskOk(AfterPending(s, e)) && DiskGrows(s.disk, AfterPending(s, e).disk)
    ensures LateOk(AfterPending(s, e))
  {
    LateStep(s, e);
    LateStepKept(s, AfterPending(s, e), CallsOf(s.pc.pending)[s.pc.i..], e.suspension);
  }

  /** What a late suspension leaves in the log and in the turn. */
  lemma LateStep(s: State, e: Execution)
    requires Active(s) && s.pc.PendingRunning? && s.pc.i < |s.pc.pending| && e.SuspendedAfter?
    ensures var calls := CallsOf(s.pc.pending)[s.pc.i..];
            && AfterPending(s, e).log == s.log + [LateSuspension(s.turn, calls[0].id, |calls| - 1)]
            && AfterPending(s, e).disk[s.turn].items
               == s.disk[s.turn].items + ([SuspensionCreated(e.suspension)] + Outputs(calls[1..], Error(Skipped)))
  {
    assert CallsOf(s.pc.pending)[s.pc.i..][1..] == CallsOf(s.pc.pending)[s.pc.i + 1..];
  }

  lemma LateStepKept(s: State, s': State, calls: seq<Call>, x: Suspension)
    requires LateOk(s) && s.turn < |s.disk| && Sane(V(s)) && Rest(V(s)) == calls && calls != []
    requires DiskOk(s') && DiskGrows(s.disk, s'.disk) && s'.log == s.log + [LateSuspension(s.turn, calls[0].id, |calls| - 1)]
    requires s'.disk[s.turn].items == s.disk[s.turn].items + ([SuspensionCreated(x)] + Outputs(calls[1..], Error(Skipped)))
    ensures LateOk(s')
  {
    if |calls| > 1 { LateIsMarked(s.disk[s.turn].items, calls, x); }
    LateKept(s, s', LateSuspension(s.turn, calls[0].id, |calls| - 1));
  }

  lemma FinishIsQuiet(cfg: Config, s: State, e: Execution)
    requires Enabled(cfg, s, Finish(e)) && !(s.pc.PendingRunning? && e.SuspendedAfter?)
    ensures Next(cfg, s, Finish(e)).log == s.log
  {
  }

  lemma ActionKeepsLate(cfg: Config, s: State, a: Action)
    requires StateOk(s) && MemoryGrows(s) && OrderOk(s) && LateOk(s) && Enabled(cfg, s, a)
    ensures LateOk(Next(cfg, s, a))
  {
    if a.Finish? { FinishKeepsLate(cfg, s, a.execution); } else { QuietActionKeepsLate(cfg, s, a); }
  }

  /** Every action keeps answered, held and late calls ahead of the others. */
  lemma ActionKeepsOrder(cfg: Config, s: State, a: Action)
    requires StateOk(s) && OrderOk(s) && Enabled(cfg, s, a) && LateOk(Next(cfg, s, a))
    ensures OrderOk(Next(cfg, s, a))
  {
    ActionKeepsState(cfg, s, a);
    var s' := Next(cfg, s, a);
    if s'.pc.AskModel? || s'.pc.AtCall? || s'.pc.CallBegun? {
      RoundsAreInOrder(s');
    } else {
      match a
      case Recover => RecoverInOrder(cfg, s);
      case ResumeInput(id, text) => ResumeInputInOrder(cfg, s, id, text);
      case ResumeDeny(id, reason) => ResumeDenyInOrder(cfg, s, id, reason);
      case ResumeApprove(id) => ResumeApproveInOrder(cfg, s, id);
      case ModelReplies(_, _) => EndInOrder(cfg, s, a);
      case RoundEnds => EndInOrder(cfg, s, a);
      case StartCall(newId) => PendingStartInOrder(cfg, s, newId);
      case Invoke => InvokeInOrder(cfg, s);
      case Finish(e) => FinishInOrder(cfg, s, e);
      case Abort => AbortInOrder(cfg, s);
      case NewTurn(_) =>
      case HookFails(_) =>
      case PendingEnds =>
      case _ => StepInOrder(cfg, s, a);
    }
  }

  lemma {:induction false} EveryRunIsInOrder(cfg: Config, actions: seq<Action>, s: State)
    requires Reaches(cfg, actions, s)
    ensures OrderOk(s) && LateOk(s) && MemoryGrows(s)
    decreases |actions|
  {
    if actions != [] {
      var n := |actions| - 1;
      var before := LastStep(cfg, actions, s);
      EveryRunIsInOrder(cfg, actions[..n], before);
      EveryRunIsOk(cfg, actions[..n], before);
      ActionGrowsDisk(cfg, before, actions[n]);
      ActionKeepsLate(cfg, before, actions[n]);
      ActionKeepsOrder(cfg, before, actions[n]);
    }
  }

  /** The pending calls are those from some position of the last response on, and just the calls before it are answered. */
  ghost predicate PendingIsTail(v: View) {
    exists k :: 0 <= k <= |v.last| && CallsOf(PendingOf(v)) == v.last[k..] && AnsweredBefore(v, k)
  }

  ghost predicate AnsweredBefore(v: View, k: nat) {
    forall j :: 0 <= j < |v.last| ==> (v.answered[v.last[j].id] == 1 <==> j < k)
  }

  /**
   * Whenever recovery is due, the pending calls are a tail of the last response if and only if every call
   * of the turn that suspended late, with others after it, has been answered by now.
   */
  lemma RecoveryReadsTail(cfg: Config, actions: seq<Action>, s: State)
    requires Reaches(cfg, actions, s) && Enabled(cfg, s, Recover)
    ensures s.disk != []
    ensures var k, v := |s.disk| - 1, ViewOf(s.disk[|s.disk| - 1].items);
            PendingIsTail(v) <==> forall id, n :: LateSuspension(k, id, n) in s.log && n > 0 ==> v.answered[id] == 1
  {
    EveryRunIsOk(cfg, actions, s);
    EveryRunIsInOrder(cfg, actions, s);
    ActiveIsLast(s);
    var n := |s.disk| - 1;
    assert TurnOk(s.disk[n], n, s.log);
    var late := Late(n, s.log);
    forall id: nat | id in late
      ensures Marked(ViewOf(s.disk[n].items), id)
    {
      assert LateAt(s.disk, n, id);
    }
    forall id: nat, m: nat | LateSuspension(n, id, m) in s.log && m > 0
      ensures id in late
    {
      assert LeavesGap(LateSuspension(n, id, m));
    }
    TailIffNoneLate(ViewOf(s.disk[n].items), late);
  }

  lemma TailIffNoneLate(v: View, late: set<nat>)
    requires Sane(v) && v.open.None? && InOrder(v.last, Decided(v) + late) && forall id :: id in late ==> Marked(v, id)
    ensures PendingIsTail(v) <==> forall id :: id in late ==> v.answered[id] == 1
  {
    PendingIsUnansweredCalls(v.last, v.settled, v.started);
    if forall id :: id in late ==> v.answered[id] == 1 {
      forall c | c in v.last ensures c.id in Decided(v) + late <==> c.id in v.settled {
        assert c.id in Ids(v.last);
      }
      var k := InOrderGivesSuffix(v.last, v.settled);
      TailUnanswered(v, k);
    }
    if id :| id in late && v.answered[id] != 1 {
      assert Marked(v, id);
      forall k: int | 0 <= k <= |v.last|
        ensures !AnsweredBefore(v, k)
      {
        GapIsNoTail(v, id, k);
      }
    }
  }

  lemma GapIsNoTail(v: View, id: nat, k: nat)
    requires Sane(v) && Waiting(v, id) && Gap(v.last, v.settled, id)
    ensures !AnsweredBefore(v, k)
  {
    var i, j :| 0 <= i < j < |v.last| && v.last[i].id == id && v.last[j].id in v.settled;
    assert v.last[j].id in Ids(v.last);
    assert v.answered[v.last[j].id] == 1 && v.answered[v.last[i].id] == 0;
  }

  lemma TailUnanswered(v: View, k: nat)
    requires Sane(v) && k <= |v.last| && Rest(v) == v.last[k..]
    ensures AnsweredBefore(v, k)
  {
    assert v.last == v.last[..k] + v.last[k..];
    SuffixSplits(v.last[..k], v.last[k..], v.settled);
    forall j | 0 <= j < |v.last|
      ensures v.last[j].id in v.settled <==> j < k
    {
      if j < k { assert v.last[..k][j] == v.last[j]; } else { assert v.last[k..][j - k] == v.last[j]; }
    }
    forall j | 0 <= j < |v.last|
      ensures v.last[j].id in Ids(v.last)
    {
      assert v.last[j] in v.last;
    }
  }

  /** Answering everything pending but the first call breaks the order unless there is nothing else. */
  lemma GapAfterFirst(calls: seq<Call>, settled: set<nat>)
    requires InOrder(calls, settled) && DistinctIds(calls) && Unanswered(calls, settled) != []
    ensures var u := Unanswered(calls, settled);
            InOrder(calls, settled + Ids(u[1..])) <==> |u| == 1
  {
    var k := InOrderGivesSuffix(calls, settled);
    var u := Unanswered(calls, settled);
    assert u[0] == calls[k] && u[0].id !in settled by { UnansweredAreUnsettled(calls, settled); }
    if |u| == 1 {
      assert settled + Ids(u[1..]) == settled;
    } else {
      assert calls[k + 1] == u[1..][0];
      assert calls[k + 1].id in Ids(u[1..]) && calls[k].id !in Ids(u[1..]);
    }
  }

  /** What the late suspension and the answer of the host make of the view. */
  lemma LateView(items: seq<Item>, x: Suspension, later: seq<Call>, text: Text)
    ensures var w := ViewOf(items + ([SuspensionCreated(x)] + Outputs(later, Error(Skipped))) + [UserInput(text, Some(x.id))]);
            w.last == ViewOf(items).last && w.settled == ViewOf(items).settled + Ids(later)
  {
    var all := items + ([SuspensionCreated(x)] + Outputs(later, Error(Skipped)));
    SuspendedView(items, x, later);
    View1(all, UserInput(text, Some(x.id)));
  }

  lemma SuspendedView(items: seq<Item>, x: Suspension, later: seq<Call>)
    ensures var w := ViewOf(items + ([SuspensionCreated(x)] + Outputs(later, Error(Skipped))));
            Settles(ViewOf(items).(open := Some(x)), later, w)
  {
    var outs := Outputs(later, Error(Skipped));
    View1(items, SuspensionCreated(x));
    ViewAppend(items + [SuspensionCreated(x)], outs);
    assert items + ([SuspensionCreated(x)] + outs) == items + [SuspensionCreated(x)] + outs;
    OutputsView(ViewOf(items + [SuspensionCreated(x)]), later, Error(Skipped));
  }

  /**
   * How it comes about, exactly: where the pending calls are a tail, a recovered call that suspends after
   * executing and is then resumed with input leaves them a tail just when it was the last one pending.
   */
  lemma LateSuspensionLeavesGap(cfg: Config, actions: seq<Action>, s: State, x: Suspension, output: nat, text: Text)
    requires Reaches(cfg, actions, s) && s.pc.PendingRunning?
    requires Enabled(cfg, s, Finish(SuspendedAfter(x, output))) && InOrder(V(s).last, V(s).settled)
    ensures var items := AfterPending(s, SuspendedAfter(x, output)).pc.mem.items + [UserInput(text, Some(x.id))];
            var v := ViewOf(items);
            InOrder(v.last, v.settled) <==> s.pc.i + 1 == |s.pc.pending|
  {
    EveryRunIsOk(cfg, actions, s);
    EveryRunIsInOrder(cfg, actions, s);
    var v, calls := V(s), CallsOf(s.pc.pending)[s.pc.i..];
    assert calls[1..] == CallsOf(s.pc.pending)[s.pc.i + 1..];
    GapAfterFirst(v.last, v.settled);
    LateView(s.disk[s.turn].items, x, calls[1..], text);
  }
}
