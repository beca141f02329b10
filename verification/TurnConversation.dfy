/** The conversation that a turn's items project to. */
module TurnConversation {
  import opened Prelude
  import opened TurnItems
  import opened TurnMachine
  import opened TurnSafety
  import Context = ContextBlocks
  import Builder = ContextBuilder

  // Which tool outputs stand in the block of their call. A recovered call that suspends after executing gets
  // its output only after the host's answer, which projects to a user message: that output is out of place.

  /** How the name and content of a tool output read. */
  type Wording = (nat, ToolResult) -> (nat, nat)

  function CallIds(calls: seq<Call>): seq<nat> {
    seq(|calls|, i requires 0 <= i < |calls| => calls[i].id)
  }

  /** What `from_thread` adds to the conversation for one item. */
  function MessagesOf(w: Wording, item: Item): seq<Context.Message> {
    match item
    case UserInput(text, _) => [Context.User(text)]
    case ModelResponse(reply, calls) => [Context.Assistant(reply, CallIds(calls))]
    case ToolOutput(id, result) => [Context.Tool(id, w(id, result).0, w(id, result).1)]
    case _ => []
  }

  function Conversation(w: Wording, items: seq<Item>): seq<Context.Message> {
    if items == [] then [] else Conversation(w, items[..|items| - 1]) + MessagesOf(w, items[|items| - 1])
  }

  function ThreadConversation(w: Wording, turns: Thread): seq<Context.Message> {
    if turns == [] then [] else ThreadConversation(w, turns[..|turns| - 1]) + Conversation(w, turns[|turns| - 1].items)
  }

  /** The conversation part of `from_thread`. */
  method Project(w: Wording, turns: Thread) returns (conversation: seq<Context.Message>)
    ensures conversation == ThreadConversation(w, turns)
    ensures TellsItems(w, SpeakingOf(turns), conversation)
  {
    ThreadTells(w, turns);
    conversation := [];
    for k := 0 to |turns|
      invariant conversation == ThreadConversation(w, turns[..k])
    {
      var items := turns[k].items;
      ghost var before := conversation;
      for i := 0 to |items|
        invariant conversation == before + Conversation(w, items[..i])
      {
        assert items[..i + 1][..i] == items[..i];
        conversation := conversation + MessagesOf(w, items[i]);
      }
      assert items[..|items|] == items;
      assert turns[..k + 1][..k] == turns[..k];
    }
    assert turns[..|turns|] == turns;
  }

  // --- What the conversation says ------------------------------------------------------------------------

  /** The item is put into words; all others leave no message. */
  predicate Speaks(item: Item) {
    item.UserInput? || item.ModelResponse? || item.ToolOutput?
  }

  function Speaking(items: seq<Item>): seq<Item> {
    if items == [] then []
    else Speaking(items[..|items| - 1]) + if Speaks(items[|items| - 1]) then [items[|items| - 1]] else []
  }

  function SpeakingOf(turns: Thread): seq<Item> {
    if turns == [] then [] else SpeakingOf(turns[..|turns| - 1]) + Speaking(turns[|turns| - 1].items)
  }

  /** The message tells the item: the user's text, the reply with the ids of its calls, or the output worded for its call. */
  predicate TellsItem(w: Wording, item: Item, m: Context.Message) {
    && (item.UserInput? ==> m.User? && m.content == item.text)
    && (item.ModelResponse? ==>
          m.Assistant? && m.reply == item.reply && |m.calls| == |item.calls|
          && forall k :: 0 <= k < |item.calls| ==> m.calls[k] == item.calls[k].id)
    && (item.ToolOutput? ==>
          m.Tool? && m.callId == item.callId && m.name == w(item.callId, item.result).0 && m.content == w(item.callId, item.result).1)
  }

  /** One message for each item, in order. */
  predicate TellsItems(w: Wording, items: seq<Item>, ms: seq<Context.Message>) {
    |ms| == |items| && forall k :: 0 <= k < |items| ==> TellsItem(w, items[k], ms[k])
  }

  lemma OneMessage(w: Wording, item: Item)
    ensures TellsItems(w, if Speaks(item) then [item] else [], MessagesOf(w, item))
  {
  }

  lemma {:induction false} ConversationTells(w: Wording, items: seq<Item>)
    ensures TellsItems(w, Speaking(items), Conversation(w, items))
    decreases |items|
  {
    if items != [] {
      ConversationTells(w, items[..|items| - 1]);
      OneMessage(w, items[|items| - 1]);
    }
  }

  /** The conversation tells the user's words, the replies and the outputs of all turns, each once and in order. */
  lemma {:induction false} ThreadTells(w: Wording, turns: Thread)
    ensures TellsItems(w, SpeakingOf(turns), ThreadConversation(w, turns))
    decreases |turns|
  {
    if turns != [] {
      ThreadTells(w, turns[..|turns| - 1]);
      ConversationTells(w, turns[|turns| - 1].items);
    }
  }

  // --- Item by item ------------------------------------------------------------------------------------

  /** The calls of the block that is open, and whether every output so far was in its block. */
  datatype Place = Place(run: set<nat>, ok: bool)

  function After(p: Place, item: Item): Place {
    match item
    case UserInput(_, _) => Place({}, p.ok)
    case ModelResponse(_, calls) => Place(Ids(calls), p.ok)
    case ToolOutput(id, _) => p.(ok := p.ok && id in p.run)
    case _ => p
  }

  function AfterAll(p: Place, items: seq<Item>): Place {
    if items == [] then p else After(AfterAll(p, items[..|items| - 1]), items[|items| - 1])
  }

  function PlaceOf(items: seq<Item>): Place {
    AfterAll(Place({}, true), items)
  }

  lemma {:induction false} AfterAppend(p: Place, a: seq<Item>, b: seq<Item>)
    ensures AfterAll(p, a + b) == AfterAll(AfterAll(p, a), b)
    decreases |b|
  {
    if b == [] {
      assert a + b == a;
    } else {
      assert (a + b)[..|a + b| - 1] == a + b[..|b| - 1];
      AfterAppend(p, a, b[..|b| - 1]);
    }
  }

  function Same(p: Place): Context.Place {
    Context.Place(p.run, p.ok)
  }

  lemma AfterIsNext(w: Wording, p: Place, item: Item)
    ensures Context.Places(Same(p), MessagesOf(w, item)) == Same(After(p, item))
  {
    var ms := MessagesOf(w, item);
    if ms != [] { assert ms[..0] == [] && Context.Places(Same(p), ms) == Context.Next(Same(p), ms[0]); }
    if item.ModelResponse? { SameIds(item.calls); }
  }

  lemma SameIds(calls: seq<Call>)
    ensures (set id | id in CallIds(calls)) == Ids(calls)
  {
    forall id: nat
      ensures id in CallIds(calls) <==> id in Ids(calls)
    {
      if id in CallIds(calls) {
        var i :| 0 <= i < |calls| && CallIds(calls)[i] == id;
        assert calls[i] in calls;
      }
      if id in Ids(calls) {
        var c :| c in calls && c.id == id;
        var i :| 0 <= i < |calls| && calls[i] == c;
        assert CallIds(calls)[i] == id;
      }
    }
  }

  lemma {:induction false} PlacesAgree(w: Wording, items: seq<Item>)
    ensures Context.Places(Context.Place({}, true), Conversation(w, items)) == Same(PlaceOf(items))
    decreases |items|
  {
    if items != [] {
      var n := |items| - 1;
      PlacesAgree(w, items[..n]);
      AfterIsNext(w, PlaceOf(items[..n]), items[n]);
      Context.PlacesConcat(Context.Place({}, true), Conversation(w, items[..n]), MessagesOf(w, items[n]));
    }
  }

  lemma InPlaceIsOk(w: Wording, items: seq<Item>)
    ensures Context.InPlace(Conversation(w, items)) <==> PlaceOf(items).ok
  {
    PlacesAgree(w, items);
    Context.InPlaceIs(Context.Place({}, true), Conversation(w, items));
  }

  lemma {:induction false} StartsWithUser(w: Wording, items: seq<Item>)
    requires items != [] && items[0].UserInput?
    ensures Conversation(w, items) != [] && Conversation(w, items)[0].User?
    decreases |items|
  {
    if |items| > 1 {
      StartsWithUser(w, items[..|items| - 1]);
    } else {
      assert Conversation(w, items[..0]) == [];
    }
  }

  /** The conversation of a thread is in place exactly if that of each turn is. */
  lemma {:induction false} ThreadInPlace(w: Wording, turns: Thread)
    requires forall k :: 0 <= k < |turns| ==> OpensFresh(turns[k])
    ensures Context.InPlace(ThreadConversation(w, turns)) <==> forall k :: 0 <= k < |turns| ==> PlaceOf(turns[k].items).ok
    decreases |turns|
  {
    if turns != [] {
      var n := |turns| - 1;
      ThreadInPlace(w, turns[..n]);
      StartsWithUser(w, turns[n].items);
      Context.InPlaceConcat(ThreadConversation(w, turns[..n]), Conversation(w, turns[n].items));
      InPlaceIsOk(w, turns[n].items);
      assert forall k :: 0 <= k < n ==> turns[..n][k] == turns[k];
    }
  }

  // --- Which outputs will be in place --------------------------------------------------------------------

  /** The calls of turn `k` whose output recovery dropped because they suspended after executing. */
  ghost function Dropped(k: nat, log: seq<Event>): set<nat> {
    set e | e in log && e.LateSuspension? && e.turn == k :: e.id
  }

  lemma DroppedMore(k: nat, log: seq<Event>, e: Event)
    ensures Dropped(k, log + [e]) == Dropped(k, log) + if e.LateSuspension? && e.turn == k then {e.id} else {}
  {
    assert forall x :: x in log + [e] <==> x in log || x == e;
  }

  /** Outputs are in place except those of dropped calls. */
  ghost predicate Told(v: View, p: Place, dropped: set<nat>) {
    && (p.ok <==> forall id :: id in dropped ==> v.answered[id] == 0)
    && dropped <= v.requested
  }

  /** And an output to come will be in place except that of a dropped call. */
  ghost predicate Fair(v: View, p: Place, dropped: set<nat>) {
    Told(v, p, dropped) && forall id :: Waiting(v, id) ==> (id in p.run <==> id !in dropped)
  }

  /** Only dropped calls still wait for their outputs. */
  ghost predicate OnlyDropped(v: View, dropped: set<nat>) {
    forall id :: Waiting(v, id) ==> id in dropped
  }

  /** A suspension for user input is open, so that the next message will be the user's. */
  predicate UserIsNext(v: View) {
    v.open.Some? && !v.open.value.deferred
  }

  ghost predicate FairTurn(items: seq<Item>, dropped: set<nat>) {
    var v, p := ViewOf(items), PlaceOf(items);
    if UserIsNext(v) then Told(v, p, dropped) && OnlyDropped(v, dropped) else Fair(v, p, dropped)
  }

  /** The items answer calls that wait, or are none of the model's or the user's. */
  ghost predicate Answers(v: View, more: seq<Item>) {
    more == []
    || (Answers(v, more[..|more| - 1]) && Harmless(ObserveAll(v, more[..|more| - 1]), more[|more| - 1]))
  }

  ghost predicate Harmless(v: View, item: Item) {
    !item.UserInput? && !item.ModelResponse? && (item.ToolOutput? ==> Waiting(v, item.callId))
  }

  lemma HarmlessIsFair(v: View, p: Place, dropped: set<nat>, item: Item)
    requires Fair(v, p, dropped) && Harmless(v, item)
    ensures Fair(Observe(v, item), After(p, item), dropped)
  {
    var w := Observe(v, item);
    forall id | Waiting(w, id) ensures Waiting(v, id) {}
    if item.ToolOutput? {
      var id := item.callId;
      assert w.answered[id] == 1 && forall other :: other != id ==> w.answered[other] == v.answered[other];
    }
  }

  lemma {:induction false} AnswersAreFair(v: View, p: Place, dropped: set<nat>, more: seq<Item>)
    requires Fair(v, p, dropped) && Answers(v, more)
    ensures Fair(ObserveAll(v, more), AfterAll(p, more), dropped)
    decreases |more|
  {
    if more != [] {
      var n := |more| - 1;
      AnswersAreFair(v, p, dropped, more[..n]);
      HarmlessIsFair(ObserveAll(v, more[..n]), AfterAll(p, more[..n]), dropped, more[n]);
    }
  }

  lemma {:induction false} AnswersMore(v: View, a: seq<Item>, b: seq<Item>)
    requires Answers(v, a) && Answers(ObserveAll(v, a), b)
    ensures Answers(v, a + b)
    decreases |b|
  {
    if b == [] {
      assert a + b == a;
    } else {
      assert (a + b)[..|a + b| - 1] == a + b[..|b| - 1];
      AnswersMore(v, a, b[..|b| - 1]);
      ObserveAppend(v, a, b[..|b| - 1]);
    }
  }

  lemma AnswersOne(v: View, item: Item)
    requires Harmless(v, item)
    ensures Answers(v, [item]) && ObserveAll(v, [item]) == Observe(v, item)
  {
    var none := [item][..|[item]| - 1];
    assert none == [] && Answers(v, none) && ObserveAll(v, none) == v;
  }

  lemma NotAmong(calls: seq<Call>, n: nat)
    requires DistinctIds(calls) && n < |calls|
    ensures calls[n].id !in Ids(calls[..n])
  {
  }

  /** Outputs for calls that wait. */
  lemma {:induction false} OutputsAnswer(v: View, calls: seq<Call>, result: ToolResult)
    requires Sane(v) && DistinctIds(calls) && Open(v, calls, 0)
    ensures Answers(v, Outputs(calls, result))
    decreases |calls|
  {
    if calls != [] {
      var n := |calls| - 1;
      var outs := Outputs(calls, result);
      assert outs[..n] == Outputs(calls[..n], result) && outs[n] == ToolOutput(calls[n].id, result);
      OutputsAnswer(v, calls[..n], result);
      OutputMany(v, calls[..n], result);
      NotAmong(calls, n);
      assert Waiting(v, calls[n].id);
    }
  }

  /** What a turn may be given at any time. */
  lemma AppendIsFair(items: seq<Item>, more: seq<Item>, dropped: set<nat>)
    requires FairTurn(items, dropped) && !UserIsNext(ViewOf(items)) && Answers(ViewOf(items), more)
    requires UserIsNext(ViewOf(items + more)) ==> OnlyDropped(ViewOf(items + more), dropped)
    ensures FairTurn(items + more, dropped)
  {
    ViewAppend(items, more);
    AfterAppend(Place({}, true), items, more);
    AnswersAreFair(ViewOf(items), PlaceOf(items), dropped, more);
  }

  // --- Every action ----------------------------------------------------------------------------------------

  ghost predicate FairState(s: State) {
    && (forall k :: 0 <= k < |s.disk| ==> FairTurn(s.disk[k].items, Dropped(k, s.log)))
    && (forall k: nat :: |s.disk| <= k ==> Dropped(k, s.log) == {})
    && (s.pc.Closing? ==> s.turn < |s.disk| && FairTurn(s.pc.mem.items, Dropped(s.turn, s.log)))
  }

  ghost predicate SameDropped(a: seq<Event>, b: seq<Event>) {
    forall k: nat :: Dropped(k, a) == Dropped(k, b)
  }

  lemma OtherEvent(log: seq<Event>, e: Event)
    requires !e.LateSuspension?
    ensures SameDropped(log, log + [e])
  {
    forall k: nat ensures Dropped(k, log) == Dropped(k, log + [e]) { DroppedMore(k, log, e); }
  }

  lemma CommitIsFair(s: State, log: seq<Event>, more: seq<Item>, status: Status, pc: Pc)
    requires FairState(s) && s.turn < |s.disk| && FairTurn(s.disk[s.turn].items + more, Dropped(s.turn, log))
    requires forall k: nat :: k != s.turn ==> Dropped(k, log) == Dropped(k, s.log)
    requires pc.Closing? ==> pc.mem.items == s.disk[s.turn].items + more
    ensures FairState(Commit(s.(log := log), more, status, pc))
  {
  }

  lemma CloseIsFair(s: State, more: seq<Item>, status: Status)
    requires FairState(s) && s.turn < |s.disk| && FairTurn(s.disk[s.turn].items + more, Dropped(s.turn, s.log))
    ensures FairState(Close(s, more, status)) && FairState(CommitAndClose(s, more, status))
  {
    CommitIsFair(s, s.log, more, status, Closing(Turn(status, s.disk[s.turn].items + more)));
    assert s.(log := s.log) == s;
  }

  lemma NewTurnIsFair(cfg: Config, s: State, text: Text)
    requires FairState(s) && Enabled(cfg, s, NewTurn(text))
    ensures FairState(Next(cfg, s, NewTurn(text)))
  {
    var items := [UserInput(text, None)];
    ViewPush([], items[0]);
    assert ViewOf([]) == BLANK && [] + [items[0]] == items && items[..0] == [];
    assert PlaceOf(items) == After(AfterAll(Place({}, true), []), items[0]);
    assert Dropped(|s.disk|, s.log) == {};
    assert FairTurn(items, {});
  }

  /** Steps that leave the stored turns and the working copy as they are, but for an event. */
  lemma QuietIsFair(s: State, log: seq<Event>, s': State)
    requires FairState(s) && s'.disk == s.disk && s'.log == log && SameDropped(s.log, log) && !s'.pc.Closing?
    ensures FairState(s')
  {
  }

  lemma UserInputIsFair(items: seq<Item>, id: nat, text: Text, dropped: set<nat>)
    requires FairTurn(items, dropped) && UserIsNext(ViewOf(items)) && ViewOf(items).open.value.id == id
    ensures FairTurn(items + [UserInput(text, Some(id))], dropped)
  {
    View1(items, UserInput(text, Some(id)));
    assert (items + [UserInput(text, Some(id))])[..|items|] == items;
  }

  lemma ResumeInputIsFair(cfg: Config, s: State, id: nat, text: Text)
    requires StateOk(s) && FairState(s) && Enabled(cfg, s, ResumeInput(id, text))
    ensures FairState(Next(cfg, s, ResumeInput(id, text)))
  {
    PendingIsLast(s);
    var n := |s.disk| - 1;
    UserInputIsFair(s.disk[n].items, id, text, Dropped(n, s.log));
    CommitIsFair(s.(turn := n), s.log, [UserInput(text, Some(id))], Running, Idle);
  }

  /** One more item, which answers a call that waits or answers none. */
  lemma OneIsFair(items: seq<Item>, item: Item, dropped: set<nat>)
    requires FairTurn(items, dropped) && !UserIsNext(ViewOf(items)) && Harmless(ViewOf(items), item)
    requires item.SuspensionCreated? ==> item.suspension.deferred
    ensures FairTurn(items + [item], dropped)
  {
    AnswersOne(ViewOf(items), item);
    View1(items, item);
    AppendIsFair(items, [item], dropped);
  }

  lemma ResumeDenyIsFair(cfg: Config, s: State, id: nat, reason: nat)
    requires StateOk(s) && FairState(s) && Enabled(cfg, s, ResumeDeny(id, reason))
    ensures FairState(Next(cfg, s, ResumeDeny(id, reason)))
  {
    PendingIsLast(s);
    var n := |s.disk| - 1;
    assert TurnOk(s.disk[n], n, s.log);
    var out := ToolOutput(ViewOf(s.disk[n].items).open.value.callId.value, Error(Denied(reason)));
    OneIsFair(s.disk[n].items, out, Dropped(n, s.log));
    CommitIsFair(s.(turn := n), s.log, [out], Running, Idle);
  }

  lemma ResumeApproveIsFair(cfg: Config, s: State, id: nat)
    requires StateOk(s) && FairState(s) && Enabled(cfg, s, ResumeApprove(id))
    ensures FairState(Next(cfg, s, ResumeApprove(id)))
  {
    PendingIsLast(s);
    var n := |s.disk| - 1;
    var suspension := ViewOf(s.disk[n].items).open.value;
    var call := FindCall(s.disk[n].items, suspension.callId.value).value;
    var started := CallStarted(call.id, ApprovedAttempt(suspension.attempt));
    OneIsFair(s.disk[n].items, started, Dropped(n, s.log));
    OtherEvent(s.log, Approval(n, call.id));
    CommitIsFair(s.(turn := n), s.log + [Approval(n, call.id)], [started], s.disk[n].status, ResumeBegun(call));
  }

  lemma ResponseIsFair(items: seq<Item>, reply: Option<Text>, calls: seq<Call>, dropped: set<nat>)
    requires FairTurn(items, dropped) && ViewOf(items).open.None? && Closed(ViewOf(items)) && Sane(ViewOf(items))
    requires Ids(calls) !! ViewOf(items).requested
    ensures FairTurn(items + [ModelResponse(reply, calls)], dropped)
  {
    var response := ModelResponse(reply, calls);
    var v, w := ViewOf(items), Observe(ViewOf(items), response);
    View1(items, response);
    assert (items + [response])[..|items|] == items;
    forall id | Waiting(w, id)
      ensures id in Ids(calls) && id !in dropped
    {
      assert id !in Ids(v.last) || v.answered[id] == 1;
    }
  }

  lemma ModelStepIsFair(cfg: Config, s: State, a: Action)
    requires StateOk(s) && FairState(s) && Enabled(cfg, s, a) && (a.OutOfIterations? || a.ModelFails? || a.ModelReplies?)
    ensures FairState(Next(cfg, s, a))
  {
    var items, dropped := s.disk[s.turn].items, Dropped(s.turn, s.log);
    assert TurnOk(s.disk[s.turn], s.turn, s.log);
    OneIsFair(items, TurnFailed, dropped);
    CloseIsFair(s, [TurnFailed], Failed);
    if a.ModelReplies? {
      ResponseIsFair(items, a.reply, a.calls, dropped);
      CloseIsFair(s, [ModelResponse(a.reply, a.calls)], Completed);
      ReplyIsFair(cfg, s, a.reply, a.calls);
    }
  }

  lemma ReplyIsFair(cfg: Config, s: State, reply: Option<Text>, calls: seq<Call>)
    requires FairState(s) && Active(s) && s.pc.AskModel?
    requires FairState(Close(s, [TurnFailed], Failed)) && FairState(CommitAndClose(s, [ModelResponse(reply, calls)], Completed))
    ensures FairState(AfterReply(cfg, s, reply, calls))
  {
  }

  /** An output or a mark for the working turn, which goes on. */
  lemma StepIsFair(s: State, item: Item, pc: Pc)
    requires FairState(s) && s.turn < |s.disk| && !UserIsNext(V(s)) && Harmless(V(s), item) && !item.SuspensionCreated? && !pc.Closing?
    ensures FairState(Commit(s, [item], Running, pc))
  {
    OneIsFair(s.disk[s.turn].items, item, Dropped(s.turn, s.log));
    CommitIsFair(s, s.log, [item], Running, pc);
    assert s.(log := s.log) == s;
  }

  lemma StartIsFair(cfg: Config, s: State, newId: nat)
    requires StateOk(s) && FairState(s) && Enabled(cfg, s, StartCall(newId))
    ensures FairState(Next(cfg, s, StartCall(newId)))
  {
    if s.pc.AtCall? {
      StepIsFair(s, CallStarted(s.pc.round.calls[s.pc.i].id, 1), CallBegun(s.pc.round, s.pc.i));
    } else {
      var PendingCall(call, attempt) := s.pc.pending[s.pc.i];
      var suspended := SuspensionCreated(Suspension(newId, Some(call.id), true, Some(NextAttempt(attempt))));
      OneIsFair(s.disk[s.turn].items, suspended, Dropped(s.turn, s.log));
      CloseIsFair(s, [suspended], Suspended);
      StepIsFair(s, CallStarted(call.id, NextAttempt(attempt)), PendingBegun(s.pc.pending, s.pc.i));
    }
  }

  // Suspensions.

  /** A suspension and the outputs of the calls it skips. */
  lemma SuspensionAnswers(items: seq<Item>, x: Suspension, later: seq<Call>)
    requires CanSuspend(ViewOf(items), x, later) && ViewOf(items).open.None?
    ensures var more := [SuspensionCreated(x)] + Outputs(later, Error(Skipped));
            var v, w := ViewOf(items), ViewOf(items + more);
            && Answers(v, more) && w.open == Some(x)
            && forall id :: Waiting(w, id) <==> Waiting(v, id) && id !in Ids(later)
  {
    var v, more := ViewOf(items), [SuspensionCreated(x)] + Outputs(later, Error(Skipped));
    var u := Observe(v, SuspensionCreated(x));
    AnswersOne(v, SuspensionCreated(x));
    OutputsAnswer(u, later, Error(Skipped));
    AnswersMore(v, [SuspensionCreated(x)], Outputs(later, Error(Skipped)));
    OutputMany(u, later, Error(Skipped));
    ViewAppend(items, more);
    ObserveAppend(v, [SuspensionCreated(x)], Outputs(later, Error(Skipped)));
  }

  lemma SuspendIsFair(items: seq<Item>, x: Suspension, later: seq<Call>, dropped: set<nat>)
    requires FairTurn(items, dropped) && CanSuspend(ViewOf(items), x, later) && ViewOf(items).open.None?
    requires !x.deferred ==> forall id :: Waiting(ViewOf(items), id) ==> id in Ids(later)
    ensures FairTurn(items + ([SuspensionCreated(x)] + Outputs(later, Error(Skipped))), dropped)
  {
    SuspensionAnswers(items, x, later);
    AppendIsFair(items, [SuspensionCreated(x)] + Outputs(later, Error(Skipped)), dropped);
  }

  /** The output of the call is dropped: when it comes, it will be out of place. */
  lemma LateIsFair(items: seq<Item>, x: Suspension, later: seq<Call>, id: nat, dropped: set<nat>)
    requires FairTurn(items, dropped) && CanSuspend(ViewOf(items), x, later) && ViewOf(items).open.None? && !x.deferred
    requires Waiting(ViewOf(items), id) && id !in Ids(later)
    requires forall other :: Waiting(ViewOf(items), other) ==> other == id || other in Ids(later)
    ensures FairTurn(items + ([SuspensionCreated(x)] + Outputs(later, Error(Skipped))), dropped + {id})
  {
    var more := [SuspensionCreated(x)] + Outputs(later, Error(Skipped));
    SuspensionAnswers(items, x, later);
    ViewAppend(items, more);
    AfterAppend(Place({}, true), items, more);
    AnswersAreFair(ViewOf(items), PlaceOf(items), dropped, more);
    assert Waiting(ViewOf(items + more), id);
    WaitsIsRequested(ViewOf(items), more, id);
  }

  lemma WaitsIsRequested(v: View, more: seq<Item>, id: nat)
    requires Sane(v) && Waiting(v, id) && Answers(v, more)
    ensures id in ObserveAll(v, more).requested
  {
    AnswersKeepRequests(v, more);
  }

  lemma {:induction false} AnswersKeepRequests(v: View, more: seq<Item>)
    requires Answers(v, more)
    ensures ObserveAll(v, more).requested == v.requested
    decreases |more|
  {
    if more != [] { AnswersKeepRequests(v, more[..|more| - 1]); }
  }

  lemma CallSuspendsIsFair(s: State, calls: seq<Call>, i: nat, e: Execution)
    requires FairState(s) && s.turn < |s.disk| && RoundOk(V(s), calls, i) && i < |calls|
    requires s.pc.CallRunning? && s.pc.round.calls == calls && s.pc.i == i
    requires (e.SuspendedBefore? || e.SuspendedAfter?) && HonestSuspension(e, calls[i])
    ensures FairState(AfterCall(s, e))
  {
    var more := SuspensionItems(calls[i], e, calls[i + 1..]);
    SuspensionItemsFair(s.disk[s.turn].items, calls, i, e, Dropped(s.turn, s.log));
    CloseIsFair(s, more, Suspended);
    assert AfterCall(s, e) == CommitAndClose(s, more, Suspended);
  }

  /** What the loop stores for a call that suspends. */
  function SuspensionItems(call: Call, e: Execution, later: seq<Call>): seq<Item>
    requires e.SuspendedBefore? || e.SuspendedAfter?
  {
    (if e.SuspendedAfter? then [ToolOutput(call.id, Success(e.output)), SuspensionCreated(e.suspension)] else [SuspensionCreated(e.suspension)])
    + Outputs(later, Error(Skipped))
  }

  lemma SuspensionItemsFair(items: seq<Item>, calls: seq<Call>, i: nat, e: Execution, dropped: set<nat>)
    requires FairTurn(items, dropped) && RoundOk(ViewOf(items), calls, i) && i < |calls|
    requires (e.SuspendedBefore? || e.SuspendedAfter?) && HonestSuspension(e, calls[i])
    ensures FairTurn(items + SuspensionItems(calls[i], e, calls[i + 1..]), dropped)
  {
    if e.SuspendedBefore? {
      UnansweredSuspendIsFair(items, calls, i, e.suspension, dropped);
    } else {
      AnsweredSuspendIsFair(items, calls, i, e.suspension, e.output, dropped);
    }
  }

  lemma UnansweredSuspendIsFair(items: seq<Item>, calls: seq<Call>, i: nat, x: Suspension, dropped: set<nat>)
    requires FairTurn(items, dropped) && RoundOk(ViewOf(items), calls, i) && i < |calls| && HonestSuspension(SuspendedBefore(x), calls[i])
    ensures FairTurn(items + ([SuspensionCreated(x)] + Outputs(calls[i + 1..], Error(Skipped))), dropped)
  {
    RoundCanSuspend(ViewOf(items), calls, i, i, x);
    SuspendIsFair(items, x, calls[i + 1..], dropped);
  }

  lemma AnsweredSuspendIsFair(items: seq<Item>, calls: seq<Call>, i: nat, x: Suspension, output: nat, dropped: set<nat>)
    requires FairTurn(items, dropped) && RoundOk(ViewOf(items), calls, i) && i < |calls| && HonestSuspension(SuspendedAfter(x, output), calls[i])
    ensures FairTurn(items + ([ToolOutput(calls[i].id, Success(output)), SuspensionCreated(x)] + Outputs(calls[i + 1..], Error(Skipped))), dropped)
  {
    var out, later := ToolOutput(calls[i].id, Success(output)), calls[i + 1..];
    var w := ViewOf(items + [out]);
    View1(items, out);
    OneIsFair(items, out, dropped);
    RoundAdvances(ViewOf(items), calls, i, Success(output));
    RoundCanSuspend(w, calls, i + 1, i, x);
    RestWaits(w, calls, i + 1);
    SuspendIsFair(items + [out], x, later, dropped);
    assert items + [out] + ([SuspensionCreated(x)] + Outputs(later, Error(Skipped)))
        == items + ([out, SuspensionCreated(x)] + Outputs(later, Error(Skipped)));
  }

  lemma RestWaits(v: View, calls: seq<Call>, i: nat)
    requires RoundOk(v, calls, i)
    ensures forall id :: Waiting(v, id) ==> id in Ids(calls[i..])
  {
    SuffixDistinct(calls, i);
    forall id | Waiting(v, id)
      ensures id in Ids(calls[i..])
    {
      var c :| c in calls && c.id == id;
      var j :| 0 <= j < |calls| && calls[j] == c;
    }
  }

  lemma PendingSuspendsIsFair(s: State, e: Execution)
    requires StateOk(s) && FairState(s) && s.pc.PendingRunning? && s.turn < |s.disk| && s.pc.i < |s.pc.pending|
    requires (e.SuspendedBefore? || e.SuspendedAfter?) && HonestSuspension(e, s.pc.pending[s.pc.i].call)
    ensures FairState(AfterPending(s, e))
  {
    var later := CallsOf(s.pc.pending)[s.pc.i + 1..];
    PendingCanSuspend(V(s), s.pc.pending, s.pc.i, e.suspension);
    if e.SuspendedBefore? {
      SuspendStepIsFair(s, e.suspension, later);
    } else {
      FirstOrLater(V(s), s.pc.pending, s.pc.i);
      LateStepIsFair(s, e.suspension, later, s.pc.pending[s.pc.i].call.id);
    }
  }

  lemma SuspendStepIsFair(s: State, x: Suspension, later: seq<Call>)
    requires FairState(s) && s.turn < |s.disk| && CanSuspend(V(s), x, later) && V(s).open.None? && x.deferred
    ensures FairState(CommitAndClose(s, [SuspensionCreated(x)] + Outputs(later, Error(Skipped)), Suspended))
  {
    SuspendIsFair(s.disk[s.turn].items, x, later, Dropped(s.turn, s.log));
    CloseIsFair(s, [SuspensionCreated(x)] + Outputs(later, Error(Skipped)), Suspended);
  }

  lemma LateStepIsFair(s: State, x: Suspension, later: seq<Call>, id: nat)
    requires FairState(s) && s.turn < |s.disk| && CanSuspend(V(s), x, later) && V(s).open.None? && !x.deferred
    requires Waiting(V(s), id) && id !in Ids(later)
    requires forall other :: Waiting(V(s), other) ==> other == id || other in Ids(later)
    ensures var log, more := s.log + [LateSuspension(s.turn, id, |later|)], [SuspensionCreated(x)] + Outputs(later, Error(Skipped));
            FairState(CommitAndClose(s.(log := log), more, Suspended))
  {
    var items, event := s.disk[s.turn].items, LateSuspension(s.turn, id, |later|);
    var more := [SuspensionCreated(x)] + Outputs(later, Error(Skipped));
    LateIsFair(items, x, later, id, Dropped(s.turn, s.log));
    forall k: nat
      ensures Dropped(k, s.log + [event]) == Dropped(k, s.log) + if k == s.turn then {id} else {}
    {
      DroppedMore(k, s.log, event);
    }
    CommitIsFair(s, s.log + [event], more, Suspended, Closing(Turn(Suspended, items + more)));
  }

  lemma FirstOrLater(v: View, pending: seq<PendingCall>, i: nat)
    requires PendingOk(v, pending, i) && i < |pending|
    ensures var id, later := pending[i].call.id, Ids(CallsOf(pending)[i + 1..]);
            Waiting(v, id) && id !in later && forall other :: Waiting(v, other) ==> other == id || other in later
  {
    var calls := CallsOf(pending);
    SuffixDistinct(calls, i + 1);
    assert calls[i] == pending[i].call && Waiting(v, calls[i].id);
    forall other | Waiting(v, other)
      ensures other == pending[i].call.id || other in Ids(calls[i + 1..])
    {
      var j :| i <= j < |pending| && pending[j].call.id == other;
      assert calls[j].id == other;
    }
  }

  lemma FinishIsFair(cfg: Config, s: State, e: Execution)
    requires StateOk(s) && FairState(s) && Enabled(cfg, s, Finish(e))
    ensures FairState(Next(cfg, s, Finish(e)))
  {
    if e.Returned? || e.Broke? {
      AnswerIsFair(s, RunningCall(s.pc).value.id, e);
    } else if s.pc.CallRunning? {
      CallSuspendsIsFair(s, s.pc.round.calls, s.pc.i, e);
    } else if s.pc.PendingRunning? {
      PendingSuspendsIsFair(s, e);
    }
  }

  lemma AnswerIsFair(s: State, id: nat, e: Execution)
    requires StateOk(s) && FairState(s) && Active(s) && RunningCall(s.pc).Some? && RunningCall(s.pc).value.id == id && (e.Returned? || e.Broke?)
    ensures s.pc.CallRunning? ==> FairState(AfterCall(s, e))
    ensures s.pc.PendingRunning? ==> FairState(AfterPending(s, e))
    ensures s.pc.ResumeRunning? ==> FairState(AfterResume(s, e))
  {
    var out := ToolOutput(id, if e.Returned? then Success(e.output) else Error(FunctionError(e.error)));
    RunningWaits(s);
    match s.pc
    case CallRunning(r, i) => StepIsFair(s, out, AtCall(r, i + 1));
    case PendingRunning(p, i) => StepIsFair(s, out, AtPending(p, i + 1));
    case ResumeRunning(_) => StepIsFair(s, out, Idle);
  }

  lemma RunningWaits(s: State)
    requires StateOk(s) && Active(s) && RunningCall(s.pc).Some?
    ensures Waiting(V(s), RunningCall(s.pc).value.id) && !UserIsNext(V(s))
  {
    if s.pc.PendingRunning? { assert CallsOf(s.pc.pending)[s.pc.i] == s.pc.pending[s.pc.i].call; }
  }

  // Ends.

  /** Outputs for all calls that are left, and a mark before or after them. */
  lemma EndIsFair(items: seq<Item>, calls: seq<Call>, result: ToolResult, dropped: set<nat>)
    requires FairTurn(items, dropped) && ViewOf(items).open.None? && Sane(ViewOf(items)) && DistinctIds(calls) && Open(ViewOf(items), calls, 0)
    ensures FairTurn(items + ([TurnAborted] + Outputs(calls, result)), dropped)
    ensures FairTurn(items + (Outputs(calls, result) + [TurnFailed]), dropped)
  {
    var outs := Outputs(calls, result);
    OneIsFair(items, TurnAborted, dropped);
    View1(items, TurnAborted);
    OutputsAreFair(items + [TurnAborted], calls, result, dropped);
    assert items + [TurnAborted] + outs == items + ([TurnAborted] + outs);
    OutputsAreFair(items, calls, result, dropped);
    OneIsFair(items + outs, TurnFailed, dropped);
    assert items + outs + [TurnFailed] == items + (outs + [TurnFailed]);
  }

  lemma OutputsAreFair(items: seq<Item>, calls: seq<Call>, result: ToolResult, dropped: set<nat>)
    requires FairTurn(items, dropped) && ViewOf(items).open.None? && Sane(ViewOf(items)) && DistinctIds(calls) && Open(ViewOf(items), calls, 0)
    ensures FairTurn(items + Outputs(calls, result), dropped) && ViewOf(items + Outputs(calls, result)).open.None?
  {
    OutputsAnswer(ViewOf(items), calls, result);
    OutputMany(ViewOf(items), calls, result);
    ViewAppend(items, Outputs(calls, result));
    AppendIsFair(items, Outputs(calls, result), dropped);
  }

  lemma RoundEndsIsFair(cfg: Config, s: State)
    requires StateOk(s) && FairState(s) && Enabled(cfg, s, RoundEnds)
    ensures FairState(Next(cfg, s, RoundEnds))
  {
    var calls, i := s.pc.round.calls, s.pc.i;
    if i < |calls| {
      SuffixDistinct(calls, i);
      EndIsFair(s.disk[s.turn].items, calls[i..], Error(OverLimit), Dropped(s.turn, s.log));
      CloseIsFair(s, Outputs(calls[i..], Error(OverLimit)) + [TurnFailed], Failed);
    }
  }

  lemma AbortIsFair(cfg: Config, s: State)
    requires StateOk(s) && FairState(s) && Enabled(cfg, s, Abort)
    ensures FairState(Next(cfg, s, Abort))
  {
    var items, dropped := s.disk[s.turn].items, Dropped(s.turn, s.log);
    if s.pc.AskModel? {
      assert TurnOk(s.disk[s.turn], s.turn, s.log);
      OneIsFair(items, TurnAborted, dropped);
      CloseIsFair(s, [TurnAborted], TurnWasAborted);
    } else if s.pc.ResumeBegun? || s.pc.ResumeRunning? {
      ResumeAbortIsFair(s, s.pc.call);
    } else {
      var calls, i := if s.pc.CallBegun? || s.pc.CallRunning? then s.pc.round.calls else CallsOf(s.pc.pending), s.pc.i;
      SuffixDistinct(calls, i);
      EndIsFair(items, calls[i..], Aborted, dropped);
      CloseIsFair(s, [TurnAborted] + Outputs(calls[i..], Aborted), TurnWasAborted);
    }
  }

  lemma ResumeAbortIsFair(s: State, call: Call)
    requires StateOk(s) && FairState(s) && Active(s) && (s.pc == ResumeBegun(call) || s.pc == ResumeRunning(call))
    ensures FairState(AfterAbort(s))
  {
    var items, out, dropped := s.disk[s.turn].items, ToolOutput(call.id, Aborted), Dropped(s.turn, s.log);
    OneIsFair(items, TurnAborted, dropped);
    View1(items, TurnAborted);
    OneIsFair(items + [TurnAborted], out, dropped);
    assert items + [TurnAborted] + [out] == items + [TurnAborted, out];
    OtherEvent(s.log, ResumeAborted(s.turn));
    CommitIsFair(s, s.log + [ResumeAborted(s.turn)], [TurnAborted, out], TurnWasAborted, Idle);
  }

  lemma LogIsFair(cfg: Config, s: State, a: Action)
    requires FairState(s) && Enabled(cfg, s, a) && (a.Recover? || a.Invoke?)
    ensures FairState(Next(cfg, s, a))
  {
    ActiveBounds(s.disk);
    OtherEvent(s.log, Next(cfg, s, a).log[|s.log|]);
    QuietIsFair(s, Next(cfg, s, a).log, Next(cfg, s, a));
  }

  lemma EndsIsFair(cfg: Config, s: State, a: Action)
    requires FairState(s) && Enabled(cfg, s, a) && (a.PendingEnds? || a.FinalCommit? || a.Crash?)
    ensures FairState(Next(cfg, s, a))
  {
  }

  /** Every action keeps outputs in place, those of dropped calls aside. */
  lemma ActionIsFair(cfg: Config, s: State, a: Action)
    requires StateOk(s) && FairState(s) && Enabled(cfg, s, a)
    ensures FairState(Next(cfg, s, a))
  {
    match a
    case NewTurn(text) => NewTurnIsFair(cfg, s, text);
    case Recover => LogIsFair(cfg, s, a);
    case ResumeInput(id, text) => ResumeInputIsFair(cfg, s, id, text);
    case ResumeDeny(id, reason) => ResumeDenyIsFair(cfg, s, id, reason);
    case ResumeApprove(id) => ResumeApproveIsFair(cfg, s, id);
    case OutOfIterations => ModelStepIsFair(cfg, s, a);
    case ModelFails => ModelStepIsFair(cfg, s, a);
    case ModelReplies(_, _) => ModelStepIsFair(cfg, s, a);
    case HookFails(error) =>
      StepIsFair(s, ToolOutput(s.pc.round.calls[s.pc.i].id, Error(FunctionError(error))), AtCall(s.pc.round, s.pc.i + 1));
    case StartCall(newId) => StartIsFair(cfg, s, newId);
    case Invoke => LogIsFair(cfg, s, a);
    case Finish(e) => FinishIsFair(cfg, s, e);
    case Abort => AbortIsFair(cfg, s);
    case RoundEnds => RoundEndsIsFair(cfg, s);
    case PendingEnds => EndsIsFair(cfg, s, a);
    case FinalCommit => EndsIsFair(cfg, s, a);
    case Crash => EndsIsFair(cfg, s, a);
  }

  lemma {:induction false} EveryRunIsFair(cfg: Config, actions: seq<Action>, s: State)
    requires Reaches(cfg, actions, s)
    ensures FairState(s)
    decreases |actions|
  {
    if actions != [] {
      var n := |actions| - 1;
      var before := LastStep(cfg, actions, s);
      EveryRunIsFair(cfg, actions[..n], before);
      EveryRunIsOk(cfg, actions[..n], before);
      ActionIsFair(cfg, before, actions[n]);
    }
  }

  // --- What requests are built from ----------------------------------------------------------------------------

  /**
   * In every durable state the outputs of a turn stand in the blocks of their calls, exactly if no call whose
   * output a recovery dropped has been answered yet.
   */
  lemma TurnInPlaceIff(cfg: Config, actions: seq<Action>, s: State, k: nat, w: Wording)
    requires Reaches(cfg, actions, s) && k < |s.disk|
    ensures Context.InPlace(Conversation(w, s.disk[k].items))
       <==> forall id, n :: LateSuspension(k, id, n) in s.log ==> ViewOf(s.disk[k].items).answered[id] == 0
  {
    EveryRunIsFair(cfg, actions, s);
    InPlaceIsOk(w, s.disk[k].items);
    assert FairTurn(s.disk[k].items, Dropped(k, s.log));
    DroppedIs(k, s.log);
  }

  lemma DroppedIs(k: nat, log: seq<Event>)
    ensures forall id :: id in Dropped(k, log) <==> exists n :: LateSuspension(k, id, n) in log
  {
    forall id
      ensures id in Dropped(k, log) <==> exists n :: LateSuspension(k, id, n) in log
    {
      if id in Dropped(k, log) {
        var e :| e in log && e.LateSuspension? && e.turn == k && e.id == id;
        assert e == LateSuspension(k, id, e.skipped);
      }
    }
  }

  ghost predicate NoneToldLate(s: State, k: nat)
    requires k < |s.disk|
  {
    forall id, n :: LateSuspension(k, id, n) in s.log ==> ViewOf(s.disk[k].items).answered[id] == 0
  }

  /** The whole conversation is in place exactly if that holds of every turn. */
  lemma ThreadInPlaceIff(cfg: Config, actions: seq<Action>, s: State, w: Wording)
    requires Reaches(cfg, actions, s)
    ensures Context.InPlace(ThreadConversation(w, s.disk)) <==> forall k :: 0 <= k < |s.disk| ==> NoneToldLate(s, k)
  {
    EveryRunIsOk(cfg, actions, s);
    forall k | 0 <= k < |s.disk|
      ensures OpensFresh(s.disk[k]) && (PlaceOf(s.disk[k].items).ok <==> NoneToldLate(s, k))
    {
      assert TurnOk(s.disk[k], k, s.log);
      TurnInPlaceIff(cfg, actions, s, k, w);
      InPlaceIsOk(w, s.disk[k].items);
    }
    ThreadInPlace(w, s.disk);
  }

  /** When the model is asked, exactly a late suspension in the turn has left an output out of place. */
  lemma AskedInPlaceIff(cfg: Config, actions: seq<Action>, s: State, w: Wording)
    requires Reaches(cfg, actions, s) && s.pc.AskModel?
    ensures s.turn < |s.disk|
    ensures Context.InPlace(Conversation(w, s.disk[s.turn].items)) <==> forall id, n :: LateSuspension(s.turn, id, n) !in s.log
  {
    EveryRunIsOk(cfg, actions, s);
    EveryRunIsFair(cfg, actions, s);
    TurnInPlaceIff(cfg, actions, s, s.turn, w);
    DroppedIs(s.turn, s.log);
    assert FairTurn(s.disk[s.turn].items, Dropped(s.turn, s.log));
    forall id, n | LateSuspension(s.turn, id, n) in s.log
      ensures V(s).answered[id] == 1
    {
      assert id in Dropped(s.turn, s.log);
    }
  }

  /** So builds send every tool output with its call exactly under that condition. */
  lemma RequestsSendCallsIff(cfg: Config, actions: seq<Action>, s: State, w: Wording)
    requires Reaches(cfg, actions, s) && |ThreadConversation(w, s.disk)| < MAX_U64
    ensures Builder.AlwaysSendsCalls(ThreadConversation(w, s.disk)) <==> forall k :: 0 <= k < |s.disk| ==> NoneToldLate(s, k)
  {
    ThreadInPlaceIff(cfg, actions, s, w);
    Builder.BuildsSendCallsIff(ThreadConversation(w, s.disk));
  }
}
