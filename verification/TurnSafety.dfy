/**
 * Safety of the durable turn protocol over every run, with crashes between any two steps. The invariant says
 * of each stored turn that nothing is answered twice or unasked and that only calls of its last response may
 * be unanswered, of the thread that all turns but the last have ended, and of the loop where it stands: which
 * calls of the response or of the pending list are answered already and which are started.
 */
module TurnSafety {
  import opened Prelude
  import opened TurnItems
  import opened TurnMachine

  // --- What holds of the items of one turn ------------------------------------------------------

  /** Nothing is answered twice or unasked, and only calls of the last response may be unanswered. */
  ghost predicate Sane(v: View) {
    && v.ordered
    && (forall id :: v.answered[id] <= 1)
    && (forall id :: v.answered[id] > 0 ==> id in v.requested)
    && (forall id :: id in v.requested && id !in Ids(v.last) ==> v.answered[id] == 1)
    && Ids(v.last) <= v.requested && DistinctIds(v.last)
    && (forall id :: id in Ids(v.last) ==> (id in v.settled <==> v.answered[id] == 1))
  }

  /** Every requested call has exactly one output. */
  ghost predicate Closed(v: View) {
    forall id :: id in v.requested ==> v.answered[id] == 1
  }

  ghost predicate Waiting(v: View, id: nat) {
    id in Ids(v.last) && v.answered[id] == 0
  }

  ghost predicate SuspendedOk(v: View) {
    Sane(v) && v.open.Some? && (v.open.value.deferred ==> v.open.value.callId.Some? && Waiting(v, v.open.value.callId.value))
  }

  ghost predicate TurnOk(turn: Turn, k: nat, log: seq<Event>) {
    && OpensFresh(turn)
    && var v := ViewOf(turn.items);
       match turn.status
       case Running => Sane(v) && v.open.None?
       case Suspended => SuspendedOk(v)
       case Completed => Sane(v) && v.open.None? && Closed(v)
       case Failed => Sane(v) && v.open.None? && Closed(v)
       case TurnWasAborted => Sane(v) && v.open.None? && (Closed(v) || ResumeAborted(k) in log)
  }

  /** Every stored turn is well-formed, and all but the last have ended. */
  ghost predicate DiskOk(s: State) {
    && (forall k :: 0 <= k < |s.disk| ==> TurnOk(s.disk[k], k, s.log))
    && (forall k :: 0 <= k < |s.disk| - 1 ==> Terminal(s.disk[k].status))
  }

  // --- Where the loop stands --------------------------------------------------------------------

  ghost predicate Answered(v: View, calls: seq<Call>, lo: nat, hi: nat)
    requires lo <= hi <= |calls|
  {
    forall j :: lo <= j < hi ==> v.answered[calls[j].id] == 1
  }

  ghost predicate Open(v: View, calls: seq<Call>, lo: nat)
    requires lo <= |calls|
  {
    forall j :: lo <= j < |calls| ==> Waiting(v, calls[j].id)
  }

  /** The first `i` calls of the last response are answered and no other. */
  ghost predicate RoundOk(v: View, calls: seq<Call>, i: nat) {
    i <= |calls| && v.last == calls && Sane(v) && v.open.None? && Answered(v, calls, 0, i) && Open(v, calls, i)
  }

  ghost predicate NotStarted(v: View, calls: seq<Call>, lo: nat) {
    forall j :: lo <= j < |calls| ==> calls[j].id !in v.started
  }

  /** The calls of `pending` from `i` on are exactly the unanswered ones. */
  ghost predicate PendingOk(v: View, pending: seq<PendingCall>, i: nat) {
    && i <= |pending| && Sane(v) && v.open.None? && DistinctIds(CallsOf(pending))
    && Open(v, CallsOf(pending), i)
    && (forall id :: Waiting(v, id) ==> exists j :: i <= j < |pending| && pending[j].call.id == id)
  }

  /** From `lo` on the recorded attempts are up to date. */
  ghost predicate AttemptsOk(v: View, pending: seq<PendingCall>, lo: nat) {
    forall j :: lo <= j < |pending| ==> (pending[j].attempt.Some? <==> pending[j].call.id in v.started)
  }

  ghost predicate ResumeOk(v: View, call: Call) {
    SuspendedOk(v) && v.open.value.deferred && v.open.value.callId == Some(call.id)
  }

  ghost predicate PcOk(s: State) {
    s.pc.Idle? ||
    (s.turn == |s.disk| - 1 &&
     var v, status := V(s), s.disk[s.turn].status;
     match s.pc
     case Idle => true
     case AskModel(_, _) => status.Running? && Closed(v)
     case AtCall(r, i) => status.Running? && RoundOk(v, r.calls, i) && NotStarted(v, r.calls, i) && i <= r.admitted <= |r.calls|
     case CallBegun(r, i) => status.Running? && RoundOk(v, r.calls, i) && NotStarted(v, r.calls, i + 1) && i < r.admitted <= |r.calls|
     case CallRunning(r, i) => status.Running? && RoundOk(v, r.calls, i) && NotStarted(v, r.calls, i + 1) && i < r.admitted <= |r.calls|
     case AtPending(p, i) => status.Running? && PendingOk(v, p, i) && AttemptsOk(v, p, i)
     case PendingBegun(p, i) => status.Running? && PendingOk(v, p, i) && AttemptsOk(v, p, i + 1) && i < |p|
     case PendingRunning(p, i) => status.Running? && PendingOk(v, p, i) && AttemptsOk(v, p, i + 1) && i < |p|
     case ResumeBegun(c) => status.Suspended? && ResumeOk(v, c)
     case ResumeRunning(c) => status.Suspended? && ResumeOk(v, c)
     case Closing(mem) => TurnOk(mem, s.turn, s.log) && !mem.status.Running?)
  }

  ghost predicate StateOk(s: State) {
    DiskOk(s) && PcOk(s)
  }

  // --- Views under appends ----------------------------------------------------------------------

  lemma ViewAppend(items: seq<Item>, more: seq<Item>)
    ensures ViewOf(items + more) == ObserveAll(ViewOf(items), more)
  {
    ObserveAppend(BLANK, items, more);
  }

  lemma View1(items: seq<Item>, a: Item)
    ensures ViewOf(items + [a]) == Observe(ViewOf(items), a)
  {
    ViewPush(items, a);
  }

  lemma View2(items: seq<Item>, a: Item, b: Item)
    ensures ViewOf(items + [a, b]) == Observe(Observe(ViewOf(items), a), b)
  {
    ViewPush(items, a);
    ViewPush(items + [a], b);
    assert items + [a, b] == items + [a] + [b];
  }

  /** A call's output closes that call and nothing else. */
  lemma OutputOne(v: View, id: nat, result: ToolResult)
    requires Sane(v) && Waiting(v, id)
    ensures var w := Observe(v, ToolOutput(id, result));
            && Sane(w) && w.answered[id] == 1 && w.last == v.last && w.requested == v.requested && w.started == v.started
            && (forall other :: other != id ==> w.answered[other] == v.answered[other])
  {
  }

  /** Outputs for unanswered calls close exactly those. */
  lemma OutputMany(v: View, calls: seq<Call>, result: ToolResult)
    requires Sane(v) && DistinctIds(calls) && Open(v, calls, 0)
    ensures var w := ObserveAll(v, Outputs(calls, result));
            && Sane(w) && w.last == v.last && w.requested == v.requested && w.started == v.started
            && (forall id :: id in Ids(calls) ==> w.answered[id] == 1)
            && (forall id :: id !in Ids(calls) ==> w.answered[id] == v.answered[id])
            && (v.open.None? ==> w.open.None?)
            && (v.open.Some? && (v.open.value.callId.None? || v.open.value.callId.value !in Ids(calls)) ==> w.open == v.open)
  {
    OutputsView(v, calls, result);
    forall id
      ensures IdBag(calls)[id] == if id in Ids(calls) then 1 else 0
    {
      IdBagCounts(calls, id);
    }
    forall id | id in Ids(calls)
      ensures Waiting(v, id)
    {
      var c :| c in calls && c.id == id;
      var j :| 0 <= j < |calls| && calls[j] == c;
    }
  }

  lemma FreshResponse(v: View, reply: Option<Text>, calls: seq<Call>)
    requires Sane(v) && Closed(v) && v.open.None? && calls != [] && DistinctIds(calls) && Ids(calls) !! v.requested
    ensures var w := Observe(v, ModelResponse(reply, calls));
            RoundOk(w, calls, 0) && NotStarted(w, calls, 0)
  {
    forall c | c in calls ensures c.id in Ids(calls) {}
  }

  lemma SuffixDistinct(calls: seq<Call>, i: nat)
    requires DistinctIds(calls) && i <= |calls|
    ensures DistinctIds(calls[i..])
    ensures forall j :: 0 <= j < i ==> calls[j].id !in Ids(calls[i..])
    ensures forall j :: i <= j < |calls| ==> calls[j].id in Ids(calls[i..])
  {
    forall j | i <= j < |calls|
      ensures calls[j].id in Ids(calls[i..])
    {
      assert calls[i..][j - i] == calls[j];
    }
  }

  /** Answering the rest of a round closes the turn. */
  lemma RoundClosed(v: View, calls: seq<Call>, i: nat, result: ToolResult)
    requires RoundOk(v, calls, i)
    ensures var w := ObserveAll(v, Outputs(calls[i..], result));
            Sane(w) && Closed(w) && w.open.None?
  {
    SuffixDistinct(calls, i);
    OutputMany(v, calls[i..], result);
    forall id | id in Ids(calls)
      ensures id in Ids(calls[i..]) || v.answered[id] == 1
    {
      var c :| c in calls && c.id == id;
      var j :| 0 <= j < |calls| && calls[j] == c;
    }
  }

  lemma RoundDone(v: View, calls: seq<Call>)
    requires RoundOk(v, calls, |calls|)
    ensures Closed(v)
  {
    forall id | id in Ids(calls)
      ensures v.answered[id] == 1
    {
      var c :| c in calls && c.id == id;
      var j :| 0 <= j < |calls| && calls[j] == c;
    }
  }

  lemma PendingDone(v: View, pending: seq<PendingCall>)
    requires PendingOk(v, pending, |pending|)
    ensures Closed(v)
  {
    forall id | id in v.requested
      ensures v.answered[id] == 1
    {
      if v.answered[id] == 0 { assert Waiting(v, id); }
    }
  }

  lemma PendingClosed(v: View, pending: seq<PendingCall>, i: nat, result: ToolResult)
    requires PendingOk(v, pending, i)
    ensures var w := ObserveAll(v, Outputs(CallsOf(pending)[i..], result));
            Sane(w) && Closed(w) && w.open.None?
  {
    var calls := CallsOf(pending);
    SuffixDistinct(calls, i);
    OutputMany(v, calls[i..], result);
    forall id | id in v.requested
      ensures id in Ids(calls[i..]) || v.answered[id] == 1
    {
      if v.answered[id] == 0 {
        assert Waiting(v, id);
        var j :| i <= j < |pending| && pending[j].call.id == id;
        assert calls[j].id == id;
      }
    }
  }

  /** Answering call `i` moves a round on. */
  lemma RoundAdvances(v: View, calls: seq<Call>, i: nat, result: ToolResult)
    requires RoundOk(v, calls, i) && i < |calls|
    ensures RoundOk(Observe(v, ToolOutput(calls[i].id, result)), calls, i + 1)
  {
    assert Waiting(v, calls[i].id);
    OutputOne(v, calls[i].id, result);
  }

  lemma PendingAdvances(v: View, pending: seq<PendingCall>, i: nat, result: ToolResult)
    requires PendingOk(v, pending, i) && i < |pending|
    ensures PendingOk(Observe(v, ToolOutput(pending[i].call.id, result)), pending, i + 1)
  {
    var calls := CallsOf(pending);
    var w := Observe(v, ToolOutput(pending[i].call.id, result));
    assert Waiting(v, calls[i].id);
    OutputOne(v, calls[i].id, result);
    forall id | Waiting(w, id)
      ensures exists j :: i + 1 <= j < |pending| && pending[j].call.id == id
    {
      assert Waiting(v, id);
      var j :| i <= j < |pending| && pending[j].call.id == id;
      assert j != i;
    }
  }

  /** What recovery finds pending is exactly what is unanswered. */
  lemma PendingIsUnanswered(v: View)
    requires Sane(v) && v.open.None?
    ensures PendingOk(v, PendingOf(v), 0) && AttemptsOk(v, PendingOf(v), 0)
  {
    var p := PendingOf(v);
    UnsettledFacts(v.last, v.settled, v.started);
    forall j | 0 <= j < |p|
      ensures Waiting(v, CallsOf(p)[j].id) && (p[j].attempt.Some? <==> p[j].call.id in v.started)
    {
      assert p[j] in p;
    }
    forall id | Waiting(v, id)
      ensures exists j :: 0 <= j < |p| && p[j].call.id == id
    {
      var c :| c in v.last && c.id == id;
      assert c in CallsOf(p);
      var j :| 0 <= j < |p| && CallsOf(p)[j] == c;
    }
  }

  /** Suspending on an unanswered call while answering the later ones. */
  lemma SuspendRound(v: View, x: Suspension, later: seq<Call>, result: ToolResult)
    requires Sane(v) && DistinctIds(later) && Open(v, later, 0)
    requires x.callId.Some? ==> x.callId.value !in Ids(later)
    requires x.deferred ==> x.callId.Some? && Waiting(v, x.callId.value)
    ensures SuspendedOk(ObserveAll(Observe(v, SuspensionCreated(x)), Outputs(later, result)))
  {
    OutputMany(Observe(v, SuspensionCreated(x)), later, result);
  }

  // --- One action -------------------------------------------------------------------------------

  lemma CommitKeepsDisk(s: State, log: seq<Event>, more: seq<Item>, status: Status, pc: Pc)
    requires DiskOk(s) && s.turn == |s.disk| - 1 && s.log <= log
    requires TurnOk(Turn(status, s.disk[s.turn].items + more), s.turn, log)
    ensures DiskOk(Commit(s.(log := log), more, status, pc))
    ensures V(Commit(s.(log := log), more, status, pc)) == ObserveAll(V(s), more)
  {
    ViewAppend(s.disk[s.turn].items, more);
    LogGrows(s, log);
  }

  lemma LogGrows(s: State, log: seq<Event>)
    requires DiskOk(s) && s.log <= log
    ensures DiskOk(s.(log := log))
  {
    forall e | e in s.log ensures e in log {
      var i :| 0 <= i < |s.log| && s.log[i] == e;
      assert log[i] == e;
    }
    forall k | 0 <= k < |s.disk|
      ensures TurnOk(s.disk[k], k, log)
    {
      assert TurnOk(s.disk[k], k, s.log);
    }
  }

  /** An open suspension belongs to the last turn, which is then suspended. */
  lemma PendingIsLast(s: State)
    requires DiskOk(s)
    ensures ReplayTurns(s.disk).Some? <==> s.disk != [] && s.disk[|s.disk| - 1].status.Suspended?
    ensures ReplayTurns(s.disk).Some? ==> ReplayTurns(s.disk) == AsPending(ViewOf(s.disk[|s.disk| - 1].items).open, |s.disk| - 1)
  {
    if s.disk != [] {
      var n := |s.disk| - 1;
      assert TurnOk(s.disk[n], n, s.log);
      ReplaySeesLastTurn(s.disk);
    }
  }

  /** A running turn is the last one. */
  lemma ActiveIsLast(s: State)
    requires DiskOk(s) && ActiveTurn(s.disk).Some?
    ensures ActiveTurn(s.disk).value == |s.disk| - 1 && s.disk[|s.disk| - 1].status.Running?
  {
    ActiveBounds(s.disk);
    var k := ActiveTurn(s.disk).value;
    assert k < |s.disk| - 1 ==> Terminal(s.disk[k].status);
  }

  lemma NewTurnOk(cfg: Config, s: State, text: Text)
    requires StateOk(s) && Enabled(cfg, s, NewTurn(text))
    ensures StateOk(Next(cfg, s, NewTurn(text)))
  {
    var turn := Turn(Running, [UserInput(text, None)]);
    ViewPush([], UserInput(text, None));
    assert [] + [UserInput(text, None)] == turn.items;
    assert ViewOf([]) == BLANK;
    assert ViewOf(turn.items) == BLANK;
    assert TurnOk(turn, |s.disk|, s.log);
    PendingIsLast(s);
    var s' := Next(cfg, s, NewTurn(text));
    forall k | 0 <= k < |s'.disk|
      ensures TurnOk(s'.disk[k], k, s'.log) && (k < |s'.disk| - 1 ==> Terminal(s'.disk[k].status))
    {
      if k < |s.disk| { assert TurnOk(s.disk[k], k, s.log) && s'.disk[k] == s.disk[k]; }
    }
  }

  lemma RecoverOk(cfg: Config, s: State)
    requires StateOk(s) && Enabled(cfg, s, Recover)
    ensures StateOk(Next(cfg, s, Recover))
  {
    ActiveIsLast(s);
    var n := |s.disk| - 1;
    assert TurnOk(s.disk[n], n, s.log);
    PendingIsUnanswered(ViewOf(s.disk[n].items));
    LogGrows(s, s.log + [Recovered(n, |PendingOf(ViewOf(s.disk[n].items))|)]);
  }

  lemma ResumeInputOk(cfg: Config, s: State, id: nat, text: Text)
    requires StateOk(s) && Enabled(cfg, s, ResumeInput(id, text))
    ensures StateOk(Next(cfg, s, ResumeInput(id, text)))
  {
    PendingIsLast(s);
    var n := |s.disk| - 1;
    assert TurnOk(s.disk[n], n, s.log);
    ViewAppend(s.disk[n].items, [UserInput(text, Some(id))]);
    View1(s.disk[n].items, UserInput(text, Some(id)));
    CommitKeepsDisk(s.(turn := n), s.log, [UserInput(text, Some(id))], Running, Idle);
  }

  lemma ResumeDenyOk(cfg: Config, s: State, id: nat, reason: nat)
    requires StateOk(s) && Enabled(cfg, s, ResumeDeny(id, reason))
    ensures StateOk(Next(cfg, s, ResumeDeny(id, reason)))
  {
    PendingIsLast(s);
    var n := |s.disk| - 1;
    assert TurnOk(s.disk[n], n, s.log);
    var v := ViewOf(s.disk[n].items);
    var callId := v.open.value.callId.value;
    View1(s.disk[n].items, ToolOutput(callId, Error(Denied(reason))));
    OutputOne(v, callId, Error(Denied(reason)));
    CommitKeepsDisk(s.(turn := n), s.log, [ToolOutput(callId, Error(Denied(reason)))], Running, Idle);
  }

  /** The call found for an id is the one the id was requested with. */
  lemma {:induction false} FoundCall(items: seq<Item>, id: nat)
    requires id in Ids(ViewOf(items).last)
    ensures FindCall(items, id).Some? && FindCall(items, id).value.id == id && FindCall(items, id).value in ViewOf(items).last
    decreases |items|
  {
    var item := items[|items| - 1];
    if item.ModelResponse? && item.calls != [] {
      FirstFinds(item.calls, id);
    } else {
      FoundCall(items[..|items| - 1], id);
    }
  }

  lemma {:induction false} FirstFinds(calls: seq<Call>, id: nat)
    requires id in Ids(calls)
    ensures FirstWithId(calls, id).Some? && FirstWithId(calls, id).value.id == id && FirstWithId(calls, id).value in calls
  {
    if calls[0].id != id {
      var c :| c in calls && c.id == id;
      assert c in calls[1..];
      FirstFinds(calls[1..], id);
    }
  }

  lemma ResumeApproveOk(cfg: Config, s: State, id: nat)
    requires StateOk(s) && Enabled(cfg, s, ResumeApprove(id))
    ensures StateOk(Next(cfg, s, ResumeApprove(id)))
  {
    PendingIsLast(s);
    var n := |s.disk| - 1;
    assert TurnOk(s.disk[n], n, s.log);
    var v := ViewOf(s.disk[n].items);
    FoundCall(s.disk[n].items, v.open.value.callId.value);
    var call := FindCall(s.disk[n].items, v.open.value.callId.value).value;
    var started := CallStarted(call.id, ApprovedAttempt(v.open.value.attempt));
    View1(s.disk[n].items, started);
    assert SuspendedOk(Observe(v, started));
    CommitKeepsDisk(s.(turn := n), s.log + [Approval(n, call.id)], [started], Suspended, ResumeBegun(call));
    ViewAppend(s.disk[n].items, [started]);
  }

  lemma CloseOk(s: State, more: seq<Item>, status: Status)
    requires DiskOk(s) && !status.Running?
    requires s.turn == |s.disk| - 1 && TurnOk(Turn(status, s.disk[s.turn].items + more), s.turn, s.log)
    ensures StateOk(Close(s, more, status)) && StateOk(CommitAndClose(s, more, status))
  {
    CommitAndCloseOk(s, s.log, more, status);
    assert s.(log := s.log) == s;
  }

  lemma CommitAndCloseOk(s: State, log: seq<Event>, more: seq<Item>, status: Status)
    requires DiskOk(s) && !status.Running? && s.log <= log
    requires s.turn == |s.disk| - 1 && TurnOk(Turn(status, s.disk[s.turn].items + more), s.turn, log)
    ensures StateOk(CommitAndClose(s.(log := log), more, status))
  {
    CommitKeepsDisk(s, log, more, status, Closing(Turn(status, s.disk[s.turn].items + more)));
  }

  lemma ModelStepOk(cfg: Config, s: State, a: Action)
    requires StateOk(s) && Enabled(cfg, s, a) && (a.OutOfIterations? || a.ModelFails? || a.ModelReplies?)
    ensures StateOk(Next(cfg, s, a))
  {
    if a.ModelReplies? && a.calls != [] {
      CallsRequestedOk(cfg, s, a.reply, a.calls);
    } else {
      assert TurnOk(s.disk[s.turn], s.turn, s.log);
      View1(s.disk[s.turn].items, TurnFailed);
      CloseOk(s, [TurnFailed], Failed);
      if a.ModelReplies? {
        View1(s.disk[s.turn].items, ModelResponse(a.reply, []));
        CloseOk(s, [ModelResponse(a.reply, [])], Completed);
      }
    }
  }

  lemma CallsRequestedOk(cfg: Config, s: State, reply: Option<Text>, calls: seq<Call>)
    requires StateOk(s) && Enabled(cfg, s, ModelReplies(reply, calls)) && calls != []
    ensures StateOk(Next(cfg, s, ModelReplies(reply, calls)))
  {
    var items, response := s.disk[s.turn].items, ModelResponse(reply, calls);
    assert TurnOk(s.disk[s.turn], s.turn, s.log);
    View1(items, response);
    FreshResponse(V(s), reply, calls);
    CommitKeepsDisk(s, s.log, [response], Running, Idle);
    ViewAppend(items, [response]);
  }

  lemma StartCallOk(cfg: Config, s: State, newId: nat)
    requires StateOk(s) && Enabled(cfg, s, StartCall(newId)) && s.pc.AtCall?
    ensures StateOk(Next(cfg, s, StartCall(newId)))
  {
    var started := CallStarted(s.pc.round.calls[s.pc.i].id, 1);
    View1(s.disk[s.turn].items, started);
    ViewAppend(s.disk[s.turn].items, [started]);
    CommitKeepsDisk(s, s.log, [started], Running, Idle);
  }

  lemma StartPendingOk(cfg: Config, s: State, newId: nat)
    requires StateOk(s) && Enabled(cfg, s, StartCall(newId)) && s.pc.AtPending?
    ensures StateOk(Next(cfg, s, StartCall(newId)))
  {
    var v := V(s);
    var PendingCall(call, attempt) := s.pc.pending[s.pc.i];
    assert CallsOf(s.pc.pending)[s.pc.i] == call && Waiting(v, call.id);
    assert CallsOf(s.pc.pending)[s.pc.i..] != [];
    var x := Suspension(newId, Some(call.id), true, Some(NextAttempt(attempt)));
    View1(s.disk[s.turn].items, SuspensionCreated(x));
    assert TurnOk(s.disk[s.turn], s.turn, s.log);
    CloseOk(s, [SuspensionCreated(x)], Suspended);
    var started := CallStarted(call.id, NextAttempt(attempt));
    View1(s.disk[s.turn].items, started);
    ViewAppend(s.disk[s.turn].items, [started]);
    var w := Observe(v, started);
    forall j | s.pc.i < j < |s.pc.pending|
      ensures s.pc.pending[j].call.id != call.id
    {
      assert CallsOf(s.pc.pending)[j].id != CallsOf(s.pc.pending)[s.pc.i].id;
    }
    assert PendingOk(w, s.pc.pending, s.pc.i) by {
      forall id | Waiting(w, id) ensures Waiting(v, id) {}
    }
    CommitKeepsDisk(s, s.log, [started], Running, Idle);
  }

  lemma OneOutputOk(s: State, calls: seq<Call>, i: nat, result: ToolResult)
    requires StateOk(s) && s.turn == |s.disk| - 1 && RoundOk(V(s), calls, i) && i < |calls| && NotStarted(V(s), calls, i + 1)
    ensures var s' := Commit(s, [ToolOutput(calls[i].id, result)], Running, Idle);
            StateOk(s') && RoundOk(V(s'), calls, i + 1) && NotStarted(V(s'), calls, i + 1)
  {
    var out := ToolOutput(calls[i].id, result);
    assert TurnOk(s.disk[s.turn], s.turn, s.log);
    View1(s.disk[s.turn].items, out);
    ViewAppend(s.disk[s.turn].items, [out]);
    RoundAdvances(V(s), calls, i, result);
    CommitKeepsDisk(s, s.log, [out], Running, Idle);
  }

  lemma OnePendingOutputOk(s: State, pending: seq<PendingCall>, i: nat, result: ToolResult)
    requires StateOk(s) && s.turn == |s.disk| - 1 && PendingOk(V(s), pending, i) && i < |pending| && AttemptsOk(V(s), pending, i + 1)
    ensures var s' := Commit(s, [ToolOutput(pending[i].call.id, result)], Running, Idle);
            StateOk(s') && PendingOk(V(s'), pending, i + 1) && AttemptsOk(V(s'), pending, i + 1)
  {
    var out := ToolOutput(pending[i].call.id, result);
    assert TurnOk(s.disk[s.turn], s.turn, s.log);
    View1(s.disk[s.turn].items, out);
    ViewAppend(s.disk[s.turn].items, [out]);
    PendingAdvances(V(s), pending, i, result);
    CommitKeepsDisk(s, s.log, [out], Running, Idle);
  }

  /** A turn may suspend at an unanswered call, the later calls being answered as skipped. */
  ghost predicate CanSuspend(w: View, x: Suspension, later: seq<Call>) {
    && Sane(w) && DistinctIds(later) && Open(w, later, 0)
    && (x.callId.Some? ==> x.callId.value !in Ids(later))
    && (x.deferred ==> x.callId.Some? && Waiting(w, x.callId.value))
  }

  lemma SuspendedTurnOk(turn: Turn, k: nat, log: seq<Event>, x: Suspension, later: seq<Call>)
    requires OpensFresh(turn) && CanSuspend(ViewOf(turn.items), x, later)
    ensures TurnOk(Turn(Suspended, turn.items + ([SuspensionCreated(x)] + Outputs(later, Error(Skipped)))), k, log)
  {
    var outs := Outputs(later, Error(Skipped));
    View1(turn.items, SuspensionCreated(x));
    ViewAppend(turn.items + [SuspensionCreated(x)], outs);
    assert turn.items + ([SuspensionCreated(x)] + outs) == turn.items + [SuspensionCreated(x)] + outs;
    SuspendRound(ViewOf(turn.items), x, later, Error(Skipped));
  }

  lemma SuspendOk(s: State, log: seq<Event>, x: Suspension, later: seq<Call>)
    requires DiskOk(s) && s.turn == |s.disk| - 1 && s.log <= log && CanSuspend(V(s), x, later)
    ensures StateOk(CommitAndClose(s.(log := log), [SuspensionCreated(x)] + Outputs(later, Error(Skipped)), Suspended))
  {
    assert TurnOk(s.disk[s.turn], s.turn, s.log);
    SuspendedTurnOk(s.disk[s.turn], s.turn, log, x, later);
    CommitAndCloseOk(s, log, [SuspensionCreated(x)] + Outputs(later, Error(Skipped)), Suspended);
  }

  lemma RoundCanSuspend(v: View, calls: seq<Call>, done: nat, i: nat, x: Suspension)
    requires RoundOk(v, calls, done) && i < |calls| && i <= done <= i + 1
    requires x.callId.Some? ==> x.callId.value == calls[i].id
    requires x.deferred ==> x.callId.Some? && done == i
    ensures CanSuspend(v, x, calls[i + 1..])
  {
    SuffixDistinct(calls, i + 1);
  }

  lemma FinishCallOk(cfg: Config, s: State, e: Execution)
    requires StateOk(s) && Enabled(cfg, s, Finish(e)) && s.pc.CallRunning?
    ensures StateOk(Next(cfg, s, Finish(e)))
  {
    if e.Returned? || e.Broke? {
      CallAnsweredOk(s, s.pc.round, s.pc.i, if e.Returned? then Success(e.output) else Error(FunctionError(e.error)));
    } else {
      CallSuspendsOk(s, s.pc.round.calls, s.pc.i, e);
    }
  }

  lemma CallAnsweredOk(s: State, r: Round, i: nat, result: ToolResult)
    requires StateOk(s) && s.pc == CallRunning(r, i) && i < |r.calls|
    ensures StateOk(Commit(s, [ToolOutput(r.calls[i].id, result)], Running, AtCall(r, i + 1)))
  {
    OneOutputOk(s, r.calls, i, result);
  }

  lemma CallSuspendsOk(s: State, calls: seq<Call>, i: nat, e: Execution)
    requires DiskOk(s) && s.turn == |s.disk| - 1 && RoundOk(V(s), calls, i) && i < |calls|
    requires s.pc.CallRunning? && s.pc.round.calls == calls && s.pc.i == i
    requires (e.SuspendedBefore? || e.SuspendedAfter?) && HonestSuspension(e, calls[i])
    ensures StateOk(AfterCall(s, e))
  {
    if e.SuspendedBefore? {
      SuspendUnansweredOk(s, calls, i, e.suspension);
      assert AfterCall(s, e) == CommitAndClose(s, [SuspensionCreated(e.suspension)] + Outputs(calls[i + 1..], Error(Skipped)), Suspended);
    } else {
      AnswerAndSuspendOk(s, calls, i, e.suspension, e.output);
      assert AfterCall(s, e) == CommitAndClose(s, [ToolOutput(calls[i].id, Success(e.output)), SuspensionCreated(e.suspension)]
                                                  + Outputs(calls[i + 1..], Error(Skipped)), Suspended);
    }
  }

  lemma SuspendUnansweredOk(s: State, calls: seq<Call>, i: nat, x: Suspension)
    requires DiskOk(s) && s.turn == |s.disk| - 1 && RoundOk(V(s), calls, i) && i < |calls|
    requires HonestSuspension(SuspendedBefore(x), calls[i])
    ensures StateOk(CommitAndClose(s, [SuspensionCreated(x)] + Outputs(calls[i + 1..], Error(Skipped)), Suspended))
  {
    RoundCanSuspend(V(s), calls, i, i, x);
    SuspendOk(s, s.log, x, calls[i + 1..]);
    assert s.(log := s.log) == s;
  }

  lemma AnswerAndSuspendOk(s: State, calls: seq<Call>, i: nat, x: Suspension, output: nat)
    requires DiskOk(s) && s.turn == |s.disk| - 1 && RoundOk(V(s), calls, i) && i < |calls|
    requires HonestSuspension(SuspendedAfter(x, output), calls[i])
    ensures StateOk(CommitAndClose(s, [ToolOutput(calls[i].id, Success(output)), SuspensionCreated(x)]
                                      + Outputs(calls[i + 1..], Error(Skipped)), Suspended))
  {
    var out, later := ToolOutput(calls[i].id, Success(output)), calls[i + 1..];
    RoundAdvances(V(s), calls, i, Success(output));
    RoundCanSuspend(Observe(V(s), out), calls, i + 1, i, x);
    assert TurnOk(s.disk[s.turn], s.turn, s.log);
    AnsweredAndSuspended(s.disk[s.turn], s.turn, s.log, out, x, later);
    CommitAndCloseOk(s, s.log, [out, SuspensionCreated(x)] + Outputs(later, Error(Skipped)), Suspended);
    assert s.(log := s.log) == s;
  }

  lemma AnsweredAndSuspended(turn: Turn, k: nat, log: seq<Event>, out: Item, x: Suspension, later: seq<Call>)
    requires OpensFresh(turn) && CanSuspend(Observe(ViewOf(turn.items), out), x, later)
    ensures TurnOk(Turn(Suspended, turn.items + ([out, SuspensionCreated(x)] + Outputs(later, Error(Skipped)))), k, log)
  {
    View1(turn.items, out);
    SuspendedTurnOk(Turn(Running, turn.items + [out]), k, log, x, later);
    assert turn.items + ([out, SuspensionCreated(x)] + Outputs(later, Error(Skipped)))
        == turn.items + [out] + ([SuspensionCreated(x)] + Outputs(later, Error(Skipped)));
  }

  lemma FinishPendingOk(cfg: Config, s: State, e: Execution)
    requires StateOk(s) && Enabled(cfg, s, Finish(e)) && s.pc.PendingRunning?
    ensures StateOk(Next(cfg, s, Finish(e)))
  {
    var pending, i := s.pc.pending, s.pc.i;
    match e
    case Returned(output) => OnePendingOutputOk(s, pending, i, Success(output));
    case Broke(error) => OnePendingOutputOk(s, pending, i, Error(FunctionError(error)));
    case SuspendedBefore(x) => PendingSuspends(s, e);
    case SuspendedAfter(x, _) => PendingSuspends(s, e);
  }

  lemma PendingSuspends(s: State, e: Execution)
    requires StateOk(s) && Active(s) && s.pc.PendingRunning? && s.pc.i < |s.pc.pending|
    requires (e.SuspendedBefore? || e.SuspendedAfter?) && HonestSuspension(e, s.pc.pending[s.pc.i].call)
    ensures StateOk(AfterPending(s, e))
  {
    var later := CallsOf(s.pc.pending)[s.pc.i + 1..];
    PendingCanSuspend(V(s), s.pc.pending, s.pc.i, e.suspension);
    SuspendOk(s, s.log, e.suspension, later);
    SuspendOk(s, s.log + [LateSuspension(s.turn, s.pc.pending[s.pc.i].call.id, |later|)], e.suspension, later);
    assert s.(log := s.log) == s;
  }

  lemma PendingCanSuspend(v: View, pending: seq<PendingCall>, i: nat, x: Suspension)
    requires PendingOk(v, pending, i) && i < |pending|
    requires x.callId.Some? ==> x.callId.value == pending[i].call.id
    requires x.deferred ==> x.callId.Some?
    ensures CanSuspend(v, x, CallsOf(pending)[i + 1..])
  {
    SuffixDistinct(CallsOf(pending), i + 1);
    assert CallsOf(pending)[i] == pending[i].call && Waiting(v, CallsOf(pending)[i].id);
  }

  lemma FinishResumeOk(cfg: Config, s: State, e: Execution)
    requires StateOk(s) && Enabled(cfg, s, Finish(e)) && s.pc.ResumeRunning?
    ensures StateOk(Next(cfg, s, Finish(e)))
  {
    if e.Returned? || e.Broke? {
      var result := if e.Returned? then Success(e.output) else Error(FunctionError(e.error));
      var out := ToolOutput(s.pc.call.id, result);
      assert TurnOk(s.disk[s.turn], s.turn, s.log);
      View1(s.disk[s.turn].items, out);
      OutputOne(V(s), s.pc.call.id, result);
      CommitKeepsDisk(s, s.log, [out], Running, Idle);
    }
  }

  lemma AbortedView(items: seq<Item>, outs: seq<Item>)
    ensures ViewOf(items + ([TurnAborted] + outs)) == ObserveAll(ViewOf(items), outs)
  {
    View1(items, TurnAborted);
    ViewAppend(items + [TurnAborted], outs);
    assert items + ([TurnAborted] + outs) == items + [TurnAborted] + outs;
  }

  lemma AbortRoundOk(s: State, calls: seq<Call>, i: nat)
    requires DiskOk(s) && s.turn == |s.disk| - 1 && RoundOk(V(s), calls, i)
    ensures StateOk(Close(s, [TurnAborted] + Outputs(calls[i..], Aborted), TurnWasAborted))
  {
    assert TurnOk(s.disk[s.turn], s.turn, s.log);
    AbortedView(s.disk[s.turn].items, Outputs(calls[i..], Aborted));
    RoundClosed(V(s), calls, i, Aborted);
    CloseOk(s, [TurnAborted] + Outputs(calls[i..], Aborted), TurnWasAborted);
  }

  lemma AbortPendingOk(s: State, pending: seq<PendingCall>, i: nat)
    requires DiskOk(s) && s.turn == |s.disk| - 1 && PendingOk(V(s), pending, i)
    ensures StateOk(CommitAndClose(s, [TurnAborted] + Outputs(CallsOf(pending)[i..], Aborted), TurnWasAborted))
  {
    assert TurnOk(s.disk[s.turn], s.turn, s.log);
    AbortedView(s.disk[s.turn].items, Outputs(CallsOf(pending)[i..], Aborted));
    PendingClosed(V(s), pending, i, Aborted);
    CloseOk(s, [TurnAborted] + Outputs(CallsOf(pending)[i..], Aborted), TurnWasAborted);
  }

  lemma AbortOk(cfg: Config, s: State)
    requires StateOk(s) && Enabled(cfg, s, Abort)
    ensures StateOk(Next(cfg, s, Abort))
  {
    if s.pc.AskModel? {
      assert TurnOk(s.disk[s.turn], s.turn, s.log);
      View1(s.disk[s.turn].items, TurnAborted);
      CloseOk(s, [TurnAborted], TurnWasAborted);
    } else if s.pc.CallBegun? || s.pc.CallRunning? {
      AbortRoundOk(s, s.pc.round.calls, s.pc.i);
    } else if s.pc.PendingBegun? || s.pc.PendingRunning? {
      AbortPendingOk(s, s.pc.pending, s.pc.i);
    } else {
      ResumeAbortOk(s);
    }
  }

  lemma ResumeAbortOk(s: State)
    requires StateOk(s) && Active(s) && (s.pc.ResumeBegun? || s.pc.ResumeRunning?)
    ensures StateOk(AfterAbort(s))
  {
    var items, out := s.disk[s.turn].items, ToolOutput(s.pc.call.id, Aborted);
    assert TurnOk(s.disk[s.turn], s.turn, s.log);
    View2(items, TurnAborted, out);
    OutputOne(V(s), s.pc.call.id, Aborted);
    var log := s.log + [ResumeAborted(s.turn)];
    assert ResumeAborted(s.turn) in log;
    CommitKeepsDisk(s, log, [TurnAborted, out], TurnWasAborted, Idle);
  }

  lemma RoundEndsOk(cfg: Config, s: State)
    requires StateOk(s) && Enabled(cfg, s, RoundEnds)
    ensures StateOk(Next(cfg, s, RoundEnds))
  {
    var calls, i, items := s.pc.round.calls, s.pc.i, s.disk[s.turn].items;
    assert TurnOk(s.disk[s.turn], s.turn, s.log);
    if i == |calls| {
      RoundDone(V(s), calls);
    } else {
      var outs := Outputs(calls[i..], Error(OverLimit));
      ViewAppend(items, outs);
      View1(items + outs, TurnFailed);
      assert items + (outs + [TurnFailed]) == items + outs + [TurnFailed];
      RoundClosed(V(s), calls, i, Error(OverLimit));
      CloseOk(s, outs + [TurnFailed], Failed);
    }
  }

  lemma HookFailsOk(cfg: Config, s: State, error: nat)
    requires StateOk(s) && Enabled(cfg, s, HookFails(error))
    ensures StateOk(Next(cfg, s, HookFails(error)))
  {
    OneOutputOk(s, s.pc.round.calls, s.pc.i, Error(FunctionError(error)));
  }

  lemma InvokeOk(cfg: Config, s: State)
    requires StateOk(s) && Enabled(cfg, s, Invoke)
    ensures StateOk(Next(cfg, s, Invoke))
  {
    var s' := Next(cfg, s, Invoke);
    LogGrows(s, s'.log);
  }

  lemma FinalCommitOk(cfg: Config, s: State)
    requires StateOk(s) && Enabled(cfg, s, FinalCommit)
    ensures StateOk(Next(cfg, s, FinalCommit))
  {
    assert forall k :: 0 <= k < |s.disk| ==> TurnOk(s.disk[k], k, s.log);
  }

  lemma PendingEndsOk(cfg: Config, s: State)
    requires StateOk(s) && Enabled(cfg, s, PendingEnds)
    ensures StateOk(Next(cfg, s, PendingEnds))
  {
    PendingDone(V(s), s.pc.pending);
  }

  /** Every action keeps the stored thread well-formed, whatever happens next. */
  lemma ActionKeepsState(cfg: Config, s: State, a: Action)
    requires StateOk(s) && Enabled(cfg, s, a)
    ensures StateOk(Next(cfg, s, a))
  {
    match a
    case NewTurn(text) => NewTurnOk(cfg, s, text);
    case Recover => RecoverOk(cfg, s);
    case ResumeInput(id, text) => ResumeInputOk(cfg, s, id, text);
    case ResumeDeny(id, reason) => ResumeDenyOk(cfg, s, id, reason);
    case ResumeApprove(id) => ResumeApproveOk(cfg, s, id);
    case OutOfIterations => ModelStepOk(cfg, s, a);
    case ModelFails => ModelStepOk(cfg, s, a);
    case ModelReplies(_, _) => ModelStepOk(cfg, s, a);
    case HookFails(error) => HookFailsOk(cfg, s, error);
    case StartCall(newId) => if s.pc.AtCall? { StartCallOk(cfg, s, newId); } else { StartPendingOk(cfg, s, newId); }
    case Invoke => InvokeOk(cfg, s);
    case Finish(e) =>
      if s.pc.CallRunning? { FinishCallOk(cfg, s, e); }
      else if s.pc.PendingRunning? { FinishPendingOk(cfg, s, e); }
      else { FinishResumeOk(cfg, s, e); }
    case Abort => AbortOk(cfg, s);
    case RoundEnds => RoundEndsOk(cfg, s);
    case PendingEnds => PendingEndsOk(cfg, s);
    case FinalCommit => FinalCommitOk(cfg, s);
    case Crash =>
  }

  lemma {:induction false} EveryRunIsOk(cfg: Config, actions: seq<Action>, s: State)
    requires Reaches(cfg, actions, s)
    ensures StateOk(s)
    decreases |actions|
  {
    if actions != [] {
      var n := |actions| - 1;
      var before := LastStep(cfg, actions, s);
      EveryRunIsOk(cfg, actions[..n], before);
      ActionKeepsState(cfg, before, actions[n]);
    }
  }
  // --- The store only grows ------------------------------------------------------------------------

  /** Turns are kept in place and their items only get longer. */
  ghost predicate DiskGrows(a: Thread, b: Thread) {
    |a| <= |b| && forall t :: 0 <= t < |a| ==> a[t].items <= b[t].items
  }

  ghost predicate MemoryGrows(s: State) {
    s.pc.Closing? ==> s.turn < |s.disk| && s.disk[s.turn].items <= s.pc.mem.items
  }

  lemma FinishGrows(cfg: Config, s: State, e: Execution)
    requires Enabled(cfg, s, Finish(e))
    ensures DiskGrows(s.disk, Next(cfg, s, Finish(e)).disk) && MemoryGrows(Next(cfg, s, Finish(e)))
  {
  }

  lemma AbortGrows(cfg: Config, s: State)
    requires Enabled(cfg, s, Abort)
    ensures DiskGrows(s.disk, Next(cfg, s, Abort).disk) && MemoryGrows(Next(cfg, s, Abort))
  {
  }

  /** Stored history is append-only: no action drops or changes a stored item. */
  lemma ActionGrowsDisk(cfg: Config, s: State, a: Action)
    requires Enabled(cfg, s, a) && MemoryGrows(s)
    ensures DiskGrows(s.disk, Next(cfg, s, a).disk) && MemoryGrows(Next(cfg, s, a))
  {
    match a
    case Finish(e) => FinishGrows(cfg, s, e);
    case Abort => AbortGrows(cfg, s);
    case _ =>
  }
}
