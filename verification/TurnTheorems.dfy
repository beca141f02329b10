/**
 * What every run of the turn protocol guarantees, said of the stored items alone.
 */
module TurnTheorems {
  import opened Prelude
  import opened TurnItems
  import opened TurnMachine
  import opened TurnSafety

  // --- Every call gets exactly one output --------------------------------------------------------

  predicate IsOutput(item: Item, id: nat) {
    item.ToolOutput? && item.callId == id
  }

  predicate Requests(item: Item, id: nat) {
    item.ModelResponse? && exists c :: c in item.calls && c.id == id
  }

  /** The call `id` requested at position `i` has one output, and it comes later. */
  ghost predicate AnsweredOnce(items: seq<Item>, i: nat, id: nat) {
    exists j :: i < j < |items| && IsOutput(items[j], id) && forall k :: 0 <= k < |items| && IsOutput(items[k], id) ==> k == j
  }

  /** Every call of every response has exactly one output, after the response. */
  ghost predicate AllAnswered(items: seq<Item>) {
    forall i, id :: 0 <= i < |items| && Requests(items[i], id) ==> AnsweredOnce(items, i, id)
  }

  /** The multiset of the view counts outputs. */
  lemma {:induction false} CountsOutputs(items: seq<Item>, id: nat)
    ensures ViewOf(items).answered[id] == 0 ==> forall j :: 0 <= j < |items| ==> !IsOutput(items[j], id)
    ensures ViewOf(items).answered[id] == 1 ==>
              exists j :: 0 <= j < |items| && IsOutput(items[j], id) && forall k :: 0 <= k < |items| && IsOutput(items[k], id) ==> k == j
  {
    if items != [] {
      var n := |items| - 1;
      var before := items[..n];
      CountsOutputs(before, id);
      ViewPush(before, items[n]);
      assert before + [items[n]] == items;
      if IsOutput(items[n], id) {
        assert ViewOf(items).answered[id] == ViewOf(before).answered[id] + 1;
      } else {
        assert ViewOf(items).answered[id] == ViewOf(before).answered[id];
        if ViewOf(before).answered[id] == 1 {
          var j :| 0 <= j < |before| && IsOutput(before[j], id) && forall k :: 0 <= k < |before| && IsOutput(before[k], id) ==> k == j;
          assert items[j] == before[j];
        }
      }
    }
  }

  lemma {:induction false} RequestedGrows(items: seq<Item>, i: nat)
    requires i <= |items| && ViewOf(items).ordered
    ensures ViewOf(items[..i]).requested <= ViewOf(items).requested && ViewOf(items[..i]).ordered
  {
    if i == |items| {
      assert items[..i] == items;
    } else {
      var n := |items| - 1;
      RequestedGrows(items[..n], i);
      assert items[..n][..i] == items[..i];
    }
  }

  /** In an ordered turn an output follows the request it answers. */
  lemma OutputFollowsRequest(items: seq<Item>, i: nat, j: nat, id: nat)
    requires ViewOf(items).ordered && i < |items| && j < |items| && Requests(items[i], id) && IsOutput(items[j], id)
    ensures i < j && id in ViewOf(items).requested
  {
    RequestedIn(items, i, id);
    if j < i {
      RequestedGrows(items, j + 1);
      RequestedGrows(items, i);
      RequestedGrows(items, i + 1);
      RequestedGrows(items[..i], j + 1);
      assert items[..i][..j + 1] == items[..j + 1];
      ViewSlice(items, i);
      ViewSlice(items, j);
    }
  }

  lemma RequestedIn(items: seq<Item>, i: nat, id: nat)
    requires ViewOf(items).ordered && i < |items| && Requests(items[i], id)
    ensures id in ViewOf(items).requested
  {
    RequestedGrows(items, i + 1);
    ViewSlice(items, i);
    var c :| c in items[i].calls && c.id == id;
    assert c.id in Ids(items[i].calls);
  }

  lemma ClosedMeansAllAnswered(items: seq<Item>)
    requires Sane(ViewOf(items)) && Closed(ViewOf(items))
    ensures AllAnswered(items)
  {
    forall i, id | 0 <= i < |items| && Requests(items[i], id)
      ensures AnsweredOnce(items, i, id)
    {
      RequestedIn(items, i, id);
      CountsOutputs(items, id);
      var j :| 0 <= j < |items| && IsOutput(items[j], id) && forall k :: 0 <= k < |items| && IsOutput(items[k], id) ==> k == j;
      OutputFollowsRequest(items, i, j, id);
    }
  }

  /** Whenever a model request is built, every earlier call of the turn has exactly one output. */
  lemma ModelSeesEveryOutput(cfg: Config, actions: seq<Action>, s: State)
    requires Reaches(cfg, actions, s) && s.pc.AskModel?
    ensures s.turn == |s.disk| - 1 && AllAnswered(s.disk[s.turn].items)
  {
    EveryRunIsOk(cfg, actions, s);
    assert TurnOk(s.disk[s.turn], s.turn, s.log);
    ClosedMeansAllAnswered(s.disk[s.turn].items);
  }

  /** So has every call of a turn that has ended, unless it ended when the host aborted an approved call. */
  lemma EndedTurnsAreAnswered(cfg: Config, actions: seq<Action>, s: State, k: nat)
    requires Reaches(cfg, actions, s) && k < |s.disk| && Terminal(s.disk[k].status)
    requires s.disk[k].status.TurnWasAborted? ==> ResumeAborted(k) !in s.log
    ensures AllAnswered(s.disk[k].items)
  {
    EveryRunIsOk(cfg, actions, s);
    assert TurnOk(s.disk[k], k, s.log);
    ClosedMeansAllAnswered(s.disk[k].items);
  }

  /** The exception, exactly: aborting an approved call answers everything just when nothing else was pending. */
  lemma ResumeAbortAnswersAll(cfg: Config, actions: seq<Action>, s: State)
    requires Reaches(cfg, actions, s) && (s.pc.ResumeBegun? || s.pc.ResumeRunning?) && Enabled(cfg, s, Abort)
    ensures var s' := Next(cfg, s, Abort);
            s'.turn < |s'.disk| && Terminal(s'.disk[s'.turn].status)
            && (AllAnswered(s'.disk[s'.turn].items) <==> |PendingOf(V(s))| == 1)
  {
    EveryRunIsOk(cfg, actions, s);
    var items, v := s.disk[s.turn].items, V(s);
    var more := [TurnAborted, ToolOutput(s.pc.call.id, Aborted)];
    View2(items, more[0], more[1]);
    assert TurnOk(s.disk[s.turn], s.turn, s.log);
    OutputOne(v, s.pc.call.id, Aborted);
    var w := ViewOf(items + more);
    assert w == Observe(v, more[1]);
    ClosedAfterOne(v, s.pc.call.id, Aborted);
    if AllAnswered(items + more) { AllAnsweredMeansClosed(items + more); }
    if Closed(w) { ClosedMeansAllAnswered(items + more); }
  }

  lemma ClosedAfterOne(v: View, id: nat, result: ToolResult)
    requires Sane(v) && Waiting(v, id)
    ensures Closed(Observe(v, ToolOutput(id, result))) <==> |PendingOf(v)| == 1
  {
    var p := PendingOf(v);
    var w := Observe(v, ToolOutput(id, result));
    UnsettledFacts(v.last, v.settled, v.started);
    var calls := CallsOf(p);
    var c :| c in v.last && c.id == id;
    var i :| 0 <= i < |calls| && calls[i] == c;
    if |p| > 1 {
      var j := if i == 0 then 1 else 0;
      assert p[j] in p && calls[j].id != calls[i].id;
      assert calls[j].id in Ids(v.last) && w.answered[calls[j].id] == 0;
    } else {
      forall other | other in v.requested
        ensures w.answered[other] == 1
      {
        if other != id && other in Ids(v.last) {
          var d :| d in v.last && d.id == other;
          assert d.id !in v.settled ==> d in calls;
        }
      }
    }
  }

  lemma AllAnsweredMeansClosed(items: seq<Item>)
    requires Sane(ViewOf(items)) && AllAnswered(items)
    ensures Closed(ViewOf(items))
  {
    forall id | id in ViewOf(items).requested
      ensures ViewOf(items).answered[id] == 1
    {
      var i := RequestedAt(items, id);
      CountsOutputs(items, id);
    }
  }

  lemma {:induction false} RequestedAt(items: seq<Item>, id: nat) returns (i: nat)
    requires id in ViewOf(items).requested
    ensures i < |items| && Requests(items[i], id)
  {
    var n := |items| - 1;
    if Requests(items[n], id) {
      i := n;
    } else {
      i := RequestedAt(items[..n], id);
    }
  }

  // --- The open suspension -------------------------------------------------------------------------

  /**
   * In every reachable durable state a suspension is open exactly when some turn is suspended; it is
   * then recorded in that turn, which is the last one, and every earlier turn has ended.
   */
  lemma ProjectionNamesSuspendedTurn(cfg: Config, actions: seq<Action>, s: State)
    requires Reaches(cfg, actions, s)
    ensures var p := ReplayTurns(s.disk);
            && (p.Some? <==> exists k :: 0 <= k < |s.disk| && s.disk[k].status.Suspended?)
            && (p.Some? ==> p.value.turn == |s.disk| - 1 && s.disk[p.value.turn].status.Suspended?
                            && SuspensionCreated(p.value.suspension) in s.disk[p.value.turn].items)
            && (forall k :: 0 <= k < |s.disk| - 1 ==> Terminal(s.disk[k].status))
  {
    EveryRunIsOk(cfg, actions, s);
    PendingIsLast(s);
    if s.disk != [] {
      OpenIsRecorded(s.disk[|s.disk| - 1].items);
    }
    SuspendedIsLast(s);
  }

  lemma SuspendedIsLast(s: State)
    requires DiskOk(s)
    ensures forall k :: 0 <= k < |s.disk| && s.disk[k].status.Suspended? ==> k == |s.disk| - 1
  {
  }

  lemma {:induction false} OpenIsRecorded(items: seq<Item>)
    ensures ViewOf(items).open.Some? ==> SuspensionCreated(ViewOf(items).open.value) in items
  {
    if items != [] { OpenIsRecorded(items[..|items| - 1]); }
  }

  /** An idle host can start a turn exactly when every turn has ended. */
  lemma WhenANewTurnMayStart(cfg: Config, actions: seq<Action>, s: State, text: Text)
    requires Reaches(cfg, actions, s) && s.pc.Idle?
    ensures Enabled(cfg, s, NewTurn(text)) <==> forall k :: 0 <= k < |s.disk| ==> Terminal(s.disk[k].status)
  {
    EveryRunIsOk(cfg, actions, s);
    PendingIsLast(s);
  }

  /** And it has to recover exactly when the last turn is running. */
  lemma WhenRecoveryIsDue(cfg: Config, actions: seq<Action>, s: State)
    requires Reaches(cfg, actions, s) && s.pc.Idle?
    ensures Enabled(cfg, s, Recover) <==> s.disk != [] && s.disk[|s.disk| - 1].status.Running?
  {
    EveryRunIsOk(cfg, actions, s);
    PendingIsLast(s);
    if ActiveTurn(s.disk).Some? { ActiveIsLast(s); }
  }

  /**
   * Attempts count up from one as 32-bit numbers. Recovery stays at the largest of them, and an approval goes
   * from it to zero; a suspension that says nothing of an attempt counts as one of the first.
   */
  lemma AttemptsCountUp(a: nat)
    ensures NextAttempt(None) == 1 && ApprovedAttempt(None) == 2
    ensures a < 0xFFFF_FFFF ==> NextAttempt(Some(a)) == a + 1 && ApprovedAttempt(Some(a)) == a + 1
    ensures a >= 0xFFFF_FFFF ==> NextAttempt(Some(a)) == 0xFFFF_FFFF
    ensures ApprovedAttempt(Some(0xFFFF_FFFF)) == 0 && ApprovedAttempt(Some(a + 0x1_0000_0000)) == ApprovedAttempt(Some(a))
  {
  }
}
