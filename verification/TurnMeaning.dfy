/** What the items of a turn leave unanswered and open. */
module TurnMeanings {
  import opened Prelude
  import opened TurnItems

  // --- Unanswered calls ------------------------------------------------------------------------------------

  /** The last response that has calls stands at that position. */
  predicate LastResponseAt(items: seq<Item>, at: nat) {
    at < |items| && items[at].ModelResponse? && items[at].calls != []
    && forall j :: at < j < |items| ==> !(items[j].ModelResponse? && items[j].calls != [])
  }

  predicate AnsweredAfter(items: seq<Item>, at: nat, id: nat) {
    exists j :: at < j < |items| && items[j].ToolOutput? && items[j].callId == id
  }

  /** The last start of a call behind that position is that attempt. */
  predicate LastStart(items: seq<Item>, at: nat, id: nat, attempt: nat) {
    exists j :: at < j < |items| && items[j] == CallStarted(id, attempt)
                && forall k :: j < k < |items| ==> !(items[k].CallStarted? && items[k].startedId == id)
  }

  predicate NeverStarted(items: seq<Item>, at: nat, id: nat) {
    forall j :: at < j < |items| ==> !(items[j].CallStarted? && items[j].startedId == id)
  }

  lemma {:induction false} ViewTells(items: seq<Item>, at: nat, id: nat)
    requires LastResponseAt(items, at)
    ensures ViewOf(items).last == items[at].calls
    ensures id in ViewOf(items).settled <==> AnsweredAfter(items, at, id)
    ensures id !in ViewOf(items).started <==> NeverStarted(items, at, id)
    ensures id in ViewOf(items).started ==> LastStart(items, at, id, ViewOf(items).started[id])
    decreases |items|
  {
    var n := |items| - 1;
    var front := items[..n];
    if at < n {
      assert LastResponseAt(front, at);
      ViewTells(front, at, id);
      SettledMore(items, at, id);
      StartedMore(items, at, id);
    }
  }

  lemma SettledMore(items: seq<Item>, at: nat, id: nat)
    requires at < |items| - 1
    ensures var n := |items| - 1;
            AnsweredAfter(items, at, id) <==> AnsweredAfter(items[..n], at, id) || (items[n].ToolOutput? && items[n].callId == id)
  {
    var n := |items| - 1;
    if AnsweredAfter(items[..n], at, id) {
      var j :| at < j < n && items[..n][j].ToolOutput? && items[..n][j].callId == id;
      assert items[j] == items[..n][j];
    }
    if j :| at < j < |items| && items[j].ToolOutput? && items[j].callId == id {
      if j < n { assert items[j] == items[..n][j]; }
    }
  }

  lemma StartedMore(items: seq<Item>, at: nat, id: nat)
    requires at < |items| - 1
    ensures var n := |items| - 1;
            NeverStarted(items, at, id) <==> NeverStarted(items[..n], at, id) && !(items[n].CallStarted? && items[n].startedId == id)
    ensures var n := |items| - 1;
            forall attempt :: (if items[n].CallStarted? && items[n].startedId == id then attempt == items[n].attempt
                               else LastStart(items[..n], at, id, attempt)) ==> LastStart(items, at, id, attempt)
  {
    var n := |items| - 1;
    assert forall j :: 0 <= j < n ==> items[..n][j] == items[j];
  }

  /** An unanswered call is one of the last response without an output behind it; its attempt is that of its last start. */
  predicate Leaves(items: seq<Item>, at: nat, p: PendingCall) {
    && !AnsweredAfter(items, at, p.call.id)
    && (p.attempt.None? ==> NeverStarted(items, at, p.call.id))
    && (p.attempt.Some? ==> LastStart(items, at, p.call.id, p.attempt.value))
  }

  /** The calls of a list that have no output behind that position, in order. */
  function LeftOf(items: seq<Item>, at: nat, calls: seq<Call>): seq<Call> {
    if calls == [] then []
    else (if AnsweredAfter(items, at, calls[0].id) then [] else [calls[0]]) + LeftOf(items, at, calls[1..])
  }

  lemma {:induction false} UnsettledTells(items: seq<Item>, at: nat, calls: seq<Call>)
    requires LastResponseAt(items, at)
    ensures var u := Unsettled(calls, ViewOf(items).settled, ViewOf(items).started);
            CallsOf(u) == LeftOf(items, at, calls) && forall k :: 0 <= k < |u| ==> Leaves(items, at, u[k])
  {
    if calls != [] {
      UnsettledTells(items, at, calls[1..]);
      ViewTells(items, at, calls[0].id);
    }
  }

  /** What recovery finds pending are the calls of the last response without an output since, in order, at their last attempts. */
  lemma PendingTells(items: seq<Item>, at: nat)
    requires LastResponseAt(items, at)
    ensures var p := PendingOf(ViewOf(items));
            CallsOf(p) == LeftOf(items, at, items[at].calls) && forall k :: 0 <= k < |p| ==> Leaves(items, at, p[k])
  {
    ViewTells(items, at, 0);
    UnsettledTells(items, at, items[at].calls);
  }

  /** Without a response that has calls nothing is pending. */
  lemma NothingPending(items: seq<Item>)
    requires forall j :: 0 <= j < |items| ==> !(items[j].ModelResponse? && items[j].calls != [])
    ensures PendingOf(ViewOf(items)) == []
  {
    NoResponse(items);
  }

  // --- The open suspension -----------------------------------------------------------------------------------

  /** Fresh input, an answer to the suspension or an output of its call closes it. */
  predicate Closes(item: Item, s: Suspension) {
    || (item.UserInput? && (item.responseTo == None || item.responseTo == Some(s.id)))
    || (item.ToolOutput? && s.callId == Some(item.callId))
  }

  /** It was created there, and neither closed nor replaced since. */
  predicate StandsOpen(items: seq<Item>, s: Suspension, i: nat) {
    i < |items| && items[i] == SuspensionCreated(s)
    && forall j :: i < j < |items| ==> !Closes(items[j], s) && !items[j].SuspensionCreated?
  }

  lemma {:induction false} OpenTells(items: seq<Item>, s: Suspension)
    ensures ViewOf(items).open == Some(s) <==> exists i: nat :: StandsOpen(items, s, i)
    decreases |items|
  {
    if items != [] {
      var n := |items| - 1;
      var front := items[..n];
      OpenTells(front, s);
      if i: nat :| StandsOpen(front, s, i) {
        if !Closes(items[n], s) && !items[n].SuspensionCreated? { assert StandsOpen(items, s, i); }
      }
      if i: nat :| StandsOpen(items, s, i) {
        if i < n { assert StandsOpen(front, s, i); }
      }
      if items[n] == SuspensionCreated(s) { assert StandsOpen(items, s, n); }
    }
  }

  /** The suspension that a thread leaves open is the one of its last turn that nothing has closed or replaced. */
  lemma OpenSuspensionTells(turns: Thread, s: Suspension, k: nat)
    requires turns != [] && OpensFresh(turns[|turns| - 1])
    ensures ReplayTurns(turns) == Some(Pending(s, k))
       <==> k == |turns| - 1 && exists i: nat :: StandsOpen(turns[k].items, s, i)
  {
    ReplaySeesLastTurn(turns);
    OpenTells(turns[|turns| - 1].items, s);
  }

  // --- Outputs and the running turn ------------------------------------------------------------------------------

  /** Each call gets one output, with that result, in order. */
  lemma OutputsTell(calls: seq<Call>, result: ToolResult)
    ensures |Outputs(calls, result)| == |calls|
    ensures forall i :: 0 <= i < |calls| ==> Outputs(calls, result)[i] == ToolOutput(calls[i].id, result)
  {
  }

  /** The running turn is the last one that runs. */
  lemma {:induction false} ActiveTells(turns: Thread, k: nat)
    ensures ActiveTurn(turns) == Some(k)
       <==> k < |turns| && turns[k].status == Running && forall j :: k < j < |turns| ==> turns[j].status != Running
    decreases |turns|
  {
    if turns != [] {
      var n := |turns| - 1;
      ActiveTells(turns[..n], k);
      assert forall j :: 0 <= j < n ==> turns[..n][j] == turns[j];
    }
  }
}
