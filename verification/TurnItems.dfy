/**
 * The durable record of a conversation: a thread is a list of turns, a turn an append-only list of
 * items plus a status. This module says what can be read back from the items.
 */
module TurnItems {
  import opened Prelude

  // Texts, names, arguments and outputs are opaque values (`0` is the empty text), turn ids are
  // positions in the thread.

  type Text = nat

  datatype Call = Call(id: nat, name: nat, arguments: nat)

  datatype Problem = FunctionError(error: nat) | Skipped | OverLimit | Denied(reason: nat)

  datatype ToolResult = Success(output: nat) | Error(problem: Problem) | Aborted

  datatype Suspension = Suspension(id: nat, callId: Option<nat>, deferred: bool, attempt: Option<nat>)

  datatype Item =
    | UserInput(text: Text, responseTo: Option<nat>)
    | ModelResponse(reply: Option<Text>, calls: seq<Call>)
    | ToolOutput(callId: nat, result: ToolResult)
    | CallStarted(startedId: nat, attempt: nat)
    | SuspensionCreated(suspension: Suspension)
    | TurnFailed
    | TurnAborted

  datatype Status = Running | Suspended | Completed | Failed | TurnWasAborted

  datatype Turn = Turn(status: Status, items: seq<Item>)

  type Thread = seq<Turn>

  predicate Terminal(s: Status) {
    s.Completed? || s.Failed? || s.TurnWasAborted?
  }

  // --- Reading a turn -------------------------------------------------------------------------

  /**
   * What the items of a turn amount to: every call id ever requested, the calls of the last
   * response that had any, how often each id was answered in all, the ids answered and the calls
   * started (with their latest attempt) since that response, and the suspension still open.
   * `ordered` says that ids were requested once and outputs came after their request.
   */
  datatype View = View(requested: set<nat>, last: seq<Call>, answered: multiset<nat>,
                       settled: set<nat>, started: map<nat, nat>, open: Option<Suspension>, ordered: bool)

  const BLANK := View({}, [], multiset{}, {}, map[], None, true)

  function Ids(calls: seq<Call>): set<nat> {
    set c | c in calls :: c.id
  }

  function AfterInput(open: Option<Suspension>, responseTo: Option<nat>): Option<Suspension> {
    if responseTo.None? || (open.Some? && open.value.id == responseTo.value) then None else open
  }

  function AfterOutput(open: Option<Suspension>, callId: nat): Option<Suspension> {
    if open.Some? && open.value.callId == Some(callId) then None else open
  }

  function Observe(v: View, item: Item): View {
    match item
    case UserInput(_, responseTo) => v.(open := AfterInput(v.open, responseTo))
    case ModelResponse(_, calls) =>
      if calls == [] then v
      else v.(requested := v.requested + Ids(calls), last := calls, settled := {}, started := map[],
              ordered := v.ordered && Ids(calls) !! v.requested)
    case ToolOutput(id, _) =>
      v.(answered := v.answered + multiset{id}, settled := v.settled + {id}, open := AfterOutput(v.open, id),
         ordered := v.ordered && id in v.requested)
    case CallStarted(id, attempt) => v.(started := v.started[id := attempt])
    case SuspensionCreated(s) => v.(open := Some(s))
    case TurnFailed => v
    case TurnAborted => v
  }

  function ObserveAll(v: View, items: seq<Item>): View {
    if items == [] then v else Observe(ObserveAll(v, items[..|items| - 1]), items[|items| - 1])
  }

  function ViewOf(items: seq<Item>): View {
    ObserveAll(BLANK, items)
  }

  lemma {:induction false} ObserveAppend(v: View, a: seq<Item>, b: seq<Item>)
    ensures ObserveAll(v, a + b) == ObserveAll(ObserveAll(v, a), b)
    decreases |b|
  {
    if b == [] {
      assert a + b == a;
    } else {
      assert (a + b)[..|a + b| - 1] == a + b[..|b| - 1];
      ObserveAppend(v, a, b[..|b| - 1]);
    }
  }

  lemma ViewPush(items: seq<Item>, item: Item)
    ensures ViewOf(items + [item]) == Observe(ViewOf(items), item)
  {
    assert (items + [item])[..|items|] == items;
  }

  /** One tool output with the same result for every call of a list. */
  function Outputs(calls: seq<Call>, result: ToolResult): seq<Item> {
    seq(|calls|, i requires 0 <= i < |calls| => ToolOutput(calls[i].id, result))
  }

  ghost function IdBag(calls: seq<Call>): multiset<nat> {
    if calls == [] then multiset{} else IdBag(calls[..|calls| - 1]) + multiset{calls[|calls| - 1].id}
  }

  ghost predicate Settles(v: View, calls: seq<Call>, w: View) {
    && w.requested == v.requested && w.last == v.last && w.started == v.started
    && w.answered == v.answered + IdBag(calls) && w.settled == v.settled + Ids(calls)
    && w.ordered == (v.ordered && Ids(calls) <= v.requested)
    && w.open == (if v.open.Some? && v.open.value.callId.Some? && v.open.value.callId.value in Ids(calls) then None else v.open)
  }

  lemma SettlesMore(v: View, calls: seq<Call>, w: View, c: Call, result: ToolResult)
    requires Settles(v, calls, w)
    ensures Settles(v, calls + [c], Observe(w, ToolOutput(c.id, result)))
  {
    assert (calls + [c])[..|calls|] == calls;
    assert Ids(calls + [c]) == Ids(calls) + {c.id};
  }

  lemma {:induction false} OutputsView(v: View, calls: seq<Call>, result: ToolResult)
    ensures Settles(v, calls, ObserveAll(v, Outputs(calls, result)))
    decreases |calls|
  {
    if calls != [] {
      var n := |calls| - 1;
      var os := Outputs(calls, result);
      assert os[..n] == Outputs(calls[..n], result) && os[n] == ToolOutput(calls[n].id, result);
      OutputsView(v, calls[..n], result);
      assert calls == calls[..n] + [calls[n]];
      SettlesMore(v, calls[..n], ObserveAll(v, os[..n]), calls[n], result);
    }
  }

  /** No two calls share an id. */
  predicate DistinctIds(calls: seq<Call>) {
    forall i, j :: 0 <= i < j < |calls| ==> calls[i].id != calls[j].id
  }

  lemma {:induction false} IdBagCounts(calls: seq<Call>, id: nat)
    requires DistinctIds(calls)
    ensures IdBag(calls)[id] == if id in Ids(calls) then 1 else 0
    decreases |calls|
  {
    if calls != [] {
      var n := |calls| - 1;
      IdBagCounts(calls[..n], id);
      assert calls == calls[..n] + [calls[n]];
      assert Ids(calls) == Ids(calls[..n]) + {calls[n].id};
      assert calls[n].id !in Ids(calls[..n]);
    }
  }

  // --- Pending calls --------------------------------------------------------------------------

  datatype PendingCall = PendingCall(call: Call, attempt: Option<nat>)

  /** The calls not yet settled, in order, each with its last started attempt. */
  function Unsettled(calls: seq<Call>, settled: set<nat>, started: map<nat, nat>): seq<PendingCall> {
    if calls == [] then []
    else
      var c, rest := calls[0], Unsettled(calls[1..], settled, started);
      if c.id in settled then rest
      else [PendingCall(c, if c.id in started then Some(started[c.id]) else None)] + rest
  }

  ghost function PendingOf(v: View): seq<PendingCall> {
    Unsettled(v.last, v.settled, v.started)
  }

  function CallsOf(pending: seq<PendingCall>): seq<Call> {
    seq(|pending|, i requires 0 <= i < |pending| => pending[i].call)
  }

  lemma CallsOfFirst(p: PendingCall, rest: seq<PendingCall>)
    ensures CallsOf([p] + rest) == [p.call] + CallsOf(rest)
  {
  }

  lemma {:induction false} UnsettledFacts(calls: seq<Call>, settled: set<nat>, started: map<nat, nat>)
    ensures var u := Unsettled(calls, settled, started);
            && (forall p :: p in u ==>
                  p.call in calls && p.call.id !in settled
                  && p.attempt == if p.call.id in started then Some(started[p.call.id]) else None)
            && (forall c :: c in calls && c.id !in settled ==> c in CallsOf(u))
            && (DistinctIds(calls) ==> DistinctIds(CallsOf(u)))
  {
    if calls != [] {
      var rest := Unsettled(calls[1..], settled, started);
      UnsettledFacts(calls[1..], settled, started);
      assert calls == [calls[0]] + calls[1..];
      if calls[0].id !in settled {
        CallsOfFirst(Unsettled(calls, settled, started)[0], rest);
        forall i | 0 <= i < |rest|
          ensures CallsOf(rest)[i] in calls[1..]
        {
          assert rest[i] in rest;
        }
      }
    }
  }

  /** `pending_function_calls`: scans back for the last response with calls, then forward over its tail. */
  method PendingFunctionCalls(items: seq<Item>) returns (pending: seq<PendingCall>)
    ensures pending == PendingOf(ViewOf(items))
  {
    var from := |items|;
    while from > 0 && !(items[from - 1].ModelResponse? && items[from - 1].calls != [])
      invariant 0 <= from <= |items|
      invariant forall j :: from <= j < |items| ==> !(items[j].ModelResponse? && items[j].calls != [])
    {
      from := from - 1;
    }
    if from == 0 {
      NoResponse(items);
      return [];
    }
    var calls := items[from - 1].calls;
    var completed, started := ScanTail(items, from);
    pending := WithoutCompleted(calls, completed, started);
  }

  method WithoutCompleted(calls: seq<Call>, completed: set<nat>, started: map<nat, nat>) returns (pending: seq<PendingCall>)
    ensures pending == Unsettled(calls, completed, started)
  {
    pending := [];
    for i := 0 to |calls|
      invariant pending + Unsettled(calls[i..], completed, started) == Unsettled(calls, completed, started)
    {
      var c := calls[i];
      assert calls[i..] == [c] + calls[i + 1..] && calls[i..][1..] == calls[i + 1..];
      if c.id !in completed {
        pending := pending + [PendingCall(c, if c.id in started then Some(started[c.id]) else None)];
      }
    }
  }

  lemma ViewSlice(items: seq<Item>, i: nat)
    requires i < |items|
    ensures ViewOf(items[..i + 1]) == Observe(ViewOf(items[..i]), items[i])
  {
    assert items[..i + 1][..i] == items[..i];
  }

  /** What was answered and started after the last response with calls. */
  method ScanTail(items: seq<Item>, from: nat) returns (completed: set<nat>, started: map<nat, nat>)
    requires 0 < from <= |items| && items[from - 1].ModelResponse? && items[from - 1].calls != []
    requires forall j :: from <= j < |items| ==> !(items[j].ModelResponse? && items[j].calls != [])
    ensures var v := ViewOf(items);
            v.last == items[from - 1].calls && v.settled == completed && v.started == started
  {
    completed, started := {}, map[];
    ViewSlice(items, from - 1);
    for i := from to |items|
      invariant ViewOf(items[..i]).last == items[from - 1].calls
      invariant ViewOf(items[..i]).settled == completed && ViewOf(items[..i]).started == started
    {
      ViewSlice(items, i);
      match items[i]
      case CallStarted(id, attempt) => started := started[id := attempt];
      case ToolOutput(id, _) => completed := completed + {id};
      case _ =>
    }
    assert items[..|items|] == items;
  }

  lemma {:induction false} NoResponse(items: seq<Item>)
    requires forall j :: 0 <= j < |items| ==> !(items[j].ModelResponse? && items[j].calls != [])
    ensures ViewOf(items).last == []
  {
    if items != [] { NoResponse(items[..|items| - 1]); }
  }

  // --- The projection ---------------------------------------------------------------------------

  datatype Pending = Pending(suspension: Suspension, turn: nat)

  /** Open suspension after replaying items of turn `k` from `p`. */
  function ReplayItem(p: Option<Pending>, k: nat, item: Item): Option<Pending> {
    match item
    case UserInput(_, responseTo) =>
      if responseTo.None? || (p.Some? && p.value.suspension.id == responseTo.value) then None else p
    case ToolOutput(id, _) =>
      if p.Some? && p.value.suspension.callId == Some(id) then None else p
    case SuspensionCreated(s) => Some(Pending(s, k))
    case _ => p
  }

  function ReplayItems(p: Option<Pending>, k: nat, items: seq<Item>): Option<Pending> {
    if items == [] then p
    else ReplayItem(ReplayItems(p, k, items[..|items| - 1]), k, items[|items| - 1])
  }

  function ReplayTurns(turns: Thread): Option<Pending> {
    if turns == [] then None
    else
      var n := |turns| - 1;
      ReplayItems(ReplayTurns(turns[..n]), n, turns[n].items)
  }

  /** The last turn that is still running. */
  function ActiveTurn(turns: Thread): Option<nat> {
    if turns == [] then None
    else if turns[|turns| - 1].status.Running? then Some(|turns| - 1)
    else ActiveTurn(turns[..|turns| - 1])
  }

  datatype Projection = Projection(pending: Option<Pending>, active: Option<nat>)

  /** Replays a thread; only the fields the loop decides on are kept. */
  method FromThread(turns: Thread) returns (p: Projection)
    ensures p == Projection(ReplayTurns(turns), ActiveTurn(turns))
  {
    var back := |turns|;
    assert turns[..back] == turns;
    while back > 0 && !turns[back - 1].status.Running?
      invariant back <= |turns|
      invariant ActiveTurn(turns) == ActiveTurn(turns[..back])
    {
      assert turns[..back][..back - 1] == turns[..back - 1];
      back := back - 1;
    }
    var active := if back > 0 then Some(back - 1) else None;
    var pending: Option<Pending> := None;
    for k := 0 to |turns|
      invariant pending == ReplayTurns(turns[..k])
    {
      var items := turns[k].items;
      ghost var before := pending;
      for i := 0 to |items|
        invariant pending == ReplayItems(before, k, items[..i])
      {
        assert items[..i + 1][..i] == items[..i];
        pending := ReplayItem(pending, k, items[i]);
      }
      assert items[..|items|] == items;
      assert turns[..k + 1][..k] == turns[..k];
    }
    assert turns[..|turns|] == turns;
    p := Projection(pending, active);
  }

  /** A turn that opens with fresh user input forgets what earlier turns left open. */
  ghost predicate OpensFresh(turn: Turn) {
    turn.items != [] && turn.items[0].UserInput? && turn.items[0].responseTo.None?
  }

  ghost function AsPending(open: Option<Suspension>, k: nat): Option<Pending> {
    if open.Some? then Some(Pending(open.value, k)) else None
  }

  lemma {:induction false} ReplayIsView(p: Option<Pending>, k: nat, items: seq<Item>)
    requires items != [] && items[0].UserInput? && items[0].responseTo.None?
    ensures ReplayItems(p, k, items) == AsPending(ViewOf(items).open, k)
  {
    if |items| == 1 {
      assert items[..0] == [];
      assert ReplayItems(p, k, []) == p && ObserveAll(BLANK, []) == BLANK;
    } else {
      ReplayIsView(p, k, items[..|items| - 1]);
    }
  }

  /** The projection's open suspension is the one of the last turn alone. */
  lemma ReplaySeesLastTurn(turns: Thread)
    requires turns != [] && OpensFresh(turns[|turns| - 1])
    ensures ReplayTurns(turns) == AsPending(ViewOf(turns[|turns| - 1].items).open, |turns| - 1)
  {
    var n := |turns| - 1;
    ReplayIsView(ReplayTurns(turns[..n]), n, turns[n].items);
  }

  /**
   * No turn before the last one shows in the projection, whatever it holds: a suspension that recovery
   * adds to an older turn can never be resumed. Hence a running turn is to be recovered before the next
   * one is started.
   */
  lemma OlderTurnsAreForgotten(turns: Thread, k: nat, other: Turn)
    requires k < |turns| - 1 && OpensFresh(turns[|turns| - 1])
    ensures ReplayTurns(turns[k := other]) == ReplayTurns(turns)
  {
    ReplaySeesLastTurn(turns);
    ReplaySeesLastTurn(turns[k := other]);
  }
}
