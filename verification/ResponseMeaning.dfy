/** What a stream of the Responses format says. */
module ResponseMeaning {
  import opened Prelude
  import opened ResponseItems

  // The text and the calls of a response from its items, what each event does to the items, and what a message
  // becomes in a later request.

  // --- A completed response ------------------------------------------------------------------------------------

  predicate Readable(p: Part) {
    match p
    case OutputText(text) => text.Some?
    case Refusal(text) => text.Some?
    case OtherPart(_) => false
  }

  /** A finished message whose parts can be read, a finished call with id, name and parsable arguments, or a reasoning item. */
  predicate Acceptable(parse: Parser, item: Item) {
    && item.progress != Some(Unfinished)
    && (item.kind == Str(MessageItem) || item.kind == Str(CallItem) || item.kind == Str(ReasoningItem))
    && (item.kind == Str(MessageItem) ==> item.content.Some? && forall i :: 0 <= i < |item.content.value| ==> Readable(item.content.value[i]))
    && (item.kind == Str(CallItem) ==>
          item.callId.Str? && item.name.Str? && item.arguments.Some? && parse(item.arguments.value).Some?)
  }

  /** The words of a part: text and refusals alike. */
  function Words(p: Part): seq<nat> {
    if p.OutputText? && p.text.Some? then p.text.value else if p.Refusal? && p.refusal.Some? then p.refusal.value else []
  }

  function PartWords(ps: seq<Part>): seq<nat> {
    if ps == [] then [] else Words(ps[0]) + PartWords(ps[1..])
  }

  function ItemWords(item: Item): seq<nat> {
    if item.kind == Str(MessageItem) && item.content.Some? then PartWords(item.content.value) else []
  }

  /** The words of all messages, in order. */
  function AllWords(items: seq<Item>): seq<nat> {
    if items == [] then [] else ItemWords(items[0]) + AllWords(items[1..])
  }

  function CallOf(item: Item): seq<Item> {
    if item.kind == Str(CallItem) then [item] else []
  }

  /** The call items, in order. */
  function CallItems(items: seq<Item>): seq<Item> {
    if items == [] then [] else CallOf(items[0]) + CallItems(items[1..])
  }

  lemma {:induction false} PartWordsSnoc(ps: seq<Part>, p: Part)
    ensures PartWords(ps + [p]) == PartWords(ps) + Words(p)
  {
    if ps == [] {
      assert [p][1..] == [] && ps + [p] == [p];
    } else {
      assert (ps + [p])[1..] == ps[1..] + [p];
      PartWordsSnoc(ps[1..], p);
    }
  }

  lemma {:induction false} AllWordsConcat(a: seq<Item>, b: seq<Item>)
    ensures AllWords(a + b) == AllWords(a) + AllWords(b)
  {
    if a == [] {
      assert a + b == b;
    } else {
      assert (a + b)[1..] == a[1..] + b;
      AllWordsConcat(a[1..], b);
      assert ItemWords(a[0]) + (AllWords(a[1..]) + AllWords(b)) == ItemWords(a[0]) + AllWords(a[1..]) + AllWords(b);
    }
  }

  lemma {:induction false} CallItemsConcat(a: seq<Item>, b: seq<Item>)
    ensures CallItems(a + b) == CallItems(a) + CallItems(b)
  {
    if a == [] {
      assert a + b == b;
    } else {
      assert (a + b)[1..] == a[1..] + b;
      CallItemsConcat(a[1..], b);
      assert CallOf(a[0]) + (CallItems(a[1..]) + CallItems(b)) == CallOf(a[0]) + CallItems(a[1..]) + CallItems(b);
    }
  }

  lemma {:induction false} PartsSay(ps: seq<Part>)
    ensures PartsText(ps).Ok? <==> forall i :: 0 <= i < |ps| ==> Readable(ps[i])
    ensures PartsText(ps).Ok? ==> PartsText(ps).value == PartWords(ps)
    decreases |ps|
  {
    if ps != [] {
      var n := |ps| - 1;
      PartsSay(ps[..n]);
      PartWordsSnoc(ps[..n], ps[n]);
      assert ps[..n] + [ps[n]] == ps;
      assert forall i :: 0 <= i < n ==> ps[..n][i] == ps[i];
    }
  }

  /** A call is made of the call id, the name and the parsed arguments of its item. */
  predicate MakesCall(parse: Parser, item: Item, call: Call) {
    item.callId == Str(call.id) && item.name == Str(call.name) && item.arguments.Some? && parse(item.arguments.value) == Some(call.arguments)
  }

  predicate MakeCalls(parse: Parser, items: seq<Item>, calls: seq<Call>) {
    |calls| == |items| && forall k :: 0 <= k < |items| ==> MakesCall(parse, items[k], calls[k])
  }

  lemma ItemSays(parse: Parser, item: Item)
    ensures ItemAdds(parse, item).Ok? <==> Acceptable(parse, item)
    ensures ItemAdds(parse, item).Ok? ==>
              ItemAdds(parse, item).value.0 == AllWords([item]) && MakeCalls(parse, CallItems([item]), ItemAdds(parse, item).value.1)
  {
    assert [item][1..] == [];
    if item.content.Some? { PartsSay(item.content.value); }
  }

  lemma {:induction false} ItemsSay(parse: Parser, items: seq<Item>)
    ensures ItemsAdd(parse, items).Ok? <==> forall i :: 0 <= i < |items| ==> Acceptable(parse, items[i])
    ensures ItemsAdd(parse, items).Ok? ==>
              ItemsAdd(parse, items).value.0 == AllWords(items) && MakeCalls(parse, CallItems(items), ItemsAdd(parse, items).value.1)
    decreases |items|
  {
    if items != [] {
      var n := |items| - 1;
      ItemsSay(parse, items[..n]);
      ItemSays(parse, items[n]);
      assert items[..n] + [items[n]] == items;
      assert forall i :: 0 <= i < n ==> items[..n][i] == items[i];
      AllWordsConcat(items[..n], [items[n]]);
      CallItemsConcat(items[..n], [items[n]]);
    }
  }

  /**
   * Items make a response exactly if each is acceptable. Its text is the words of the messages, if there are any,
   * its calls are those of the call items, and the items themselves are carried on.
   */
  lemma CompletedSays(parse: Parser, items: seq<Item>)
    ensures var r := CompletedResponse(parse, Some(items));
            && (r.Ok? <==> forall i :: 0 <= i < |items| ==> Acceptable(parse, items[i]))
            && (r.Ok? ==>
                  && r.value.text == (if |AllWords(items)| == 0 then None else Some(AllWords(items)))
                  && MakeCalls(parse, CallItems(items), r.value.calls)
                  && r.value.continuation == items)
    ensures CompletedResponse(parse, None) == Err(MissingField)
  {
    ItemsSay(parse, items);
  }

  /** The first part that cannot be read. */
  predicate FirstUnreadable(ps: seq<Part>, i: int) {
    0 <= i < |ps| && !Readable(ps[i]) && forall j :: 0 <= j < i ==> Readable(ps[j])
  }

  /** The failure of an item by itself; in a message that of its first part that cannot be read. */
  ghost predicate FailsWith(parse: Parser, item: Item, f: Failure) {
    if item.progress == Some(Unfinished) then f == ItemUnfinished
    else if item.kind == Str(MessageItem) then
      if item.content.None? then f == MissingField
      else exists i :: FirstUnreadable(item.content.value, i) && f == if item.content.value[i].OtherPart? then Unsupported else MissingField
    else if item.kind == Str(CallItem) then
      if item.arguments.Some? && item.callId.Str? && item.name.Str? then f == BadArguments(item.callId.value) else f == MissingField
    else f == Unsupported
  }

  lemma {:induction false} PartsFail(ps: seq<Part>)
    requires PartsText(ps).Err?
    ensures exists i :: FirstUnreadable(ps, i) && PartsText(ps).error == if ps[i].OtherPart? then Unsupported else MissingField
    decreases |ps|
  {
    var n := |ps| - 1;
    assert forall i :: 0 <= i < n ==> ps[..n][i] == ps[i];
    if PartsText(ps[..n]).Err? {
      PartsFail(ps[..n]);
      var i :| FirstUnreadable(ps[..n], i) && PartsText(ps[..n]).error == if ps[..n][i].OtherPart? then Unsupported else MissingField;
      assert FirstUnreadable(ps, i);
    } else {
      PartsSay(ps[..n]);
      assert FirstUnreadable(ps, n);
    }
  }

  lemma ItemFails(parse: Parser, item: Item)
    requires ItemAdds(parse, item).Err?
    ensures FailsWith(parse, item, ItemAdds(parse, item).error)
  {
    if item.content.Some? && PartsText(item.content.value).Err? { PartsFail(item.content.value); }
  }

  /** All items before this one are acceptable and this one is not. */
  predicate FirstBad(parse: Parser, items: seq<Item>, i: nat) {
    i < |items| && !Acceptable(parse, items[i]) && forall j :: 0 <= j < i ==> Acceptable(parse, items[j])
  }

  /** A refusal is that of the first item that is not acceptable. */
  lemma {:induction false} FirstBadDecides(parse: Parser, items: seq<Item>, i: nat)
    requires FirstBad(parse, items, i)
    ensures ItemsAdd(parse, items).Err? && FailsWith(parse, items[i], ItemsAdd(parse, items).error)
    decreases |items|
  {
    var n := |items| - 1;
    assert forall j :: 0 <= j < n ==> items[..n][j] == items[j];
    if i < n {
      FirstBadDecides(parse, items[..n], i);
    } else {
      ItemsSay(parse, items[..n]);
      ItemSays(parse, items[n]);
      ItemFails(parse, items[n]);
    }
  }

  // --- Slots and identities ----------------------------------------------------------------------------------------

  /** The item stands at that index, and none with its id at a lower one. */
  predicate FirstWithId(items: map<nat, Item>, id: nat, k: nat) {
    k in items && items[k].id == Str(id) && forall j :: j in items && items[j].id == Str(id) ==> k <= j
  }

  predicate NoneWithId(items: map<nat, Item>, id: nat) {
    forall k :: k in items ==> items[k].id != Str(id)
  }

  /** The index that an event gives wins, then an announced item with that id, then a finished one, then a new index. */
  lemma SlotIs(added: map<nat, Item>, done: map<nat, Item>, explicit: Option<nat>, item: Item)
    ensures var k := ItemIndex(added, done, explicit, item);
            && (explicit.Some? ==> k == explicit.value)
            && (explicit.None? && item.id.Str? && !NoneWithId(added, item.id.value) ==> FirstWithId(added, item.id.value, k))
            && (explicit.None? && item.id.Str? && NoneWithId(added, item.id.value) && !NoneWithId(done, item.id.value) ==>
                  FirstWithId(done, item.id.value, k))
            && (explicit.None? && (item.id.Str? ==> NoneWithId(added, item.id.value) && NoneWithId(done, item.id.value)) ==>
                  && (forall j :: j in added || j in done ==> j < k || k == 0xFFFF_FFFF_FFFF_FFFF)
                  && (k == 0 || k == 0xFFFF_FFFF_FFFF_FFFF || k - 1 in added || k - 1 in done))
  {
    NewSlot(added.Keys + done.Keys);
  }

  lemma NewSlot(keys: set<nat>)
    ensures forall j :: j in keys ==> j < NextSlot(keys) || NextSlot(keys) == 0xFFFF_FFFF_FFFF_FFFF
    ensures NextSlot(keys) == 0 || NextSlot(keys) == 0xFFFF_FFFF_FFFF_FFFF || NextSlot(keys) - 1 in keys
  {
  }

  /** Both items have the key, and with different values. */
  predicate Differ(key: Key, a: Item, b: Item) {
    match key
    case TypeKey => a.kind != Absent && b.kind != Absent && a.kind != b.kind
    case IdKey => a.id != Absent && b.id != Absent && a.id != b.id
    case CallIdKey => a.callId != Absent && b.callId != Absent && a.callId != b.callId
    case NameKey => a.name != Absent && b.name != Absent && a.name != b.name
  }

  /** The conflict of two items is at the first key, in the order of type, id, call id and name, at which they differ. */
  lemma ConflictIs(a: Item, b: Item)
    ensures Conflict(a, b).None? <==> !Differ(TypeKey, a, b) && !Differ(IdKey, a, b) && !Differ(CallIdKey, a, b) && !Differ(NameKey, a, b)
    ensures Conflict(a, b) == Some(TypeKey) <==> Differ(TypeKey, a, b)
    ensures Conflict(a, b) == Some(IdKey) <==> Differ(IdKey, a, b) && !Differ(TypeKey, a, b)
    ensures Conflict(a, b) == Some(CallIdKey) <==> Differ(CallIdKey, a, b) && !Differ(TypeKey, a, b) && !Differ(IdKey, a, b)
    ensures Conflict(a, b) == Some(NameKey)
       <==> Differ(NameKey, a, b) && !Differ(TypeKey, a, b) && !Differ(IdKey, a, b) && !Differ(CallIdKey, a, b)
  {
  }

  // --- Events ----------------------------------------------------------------------------------------------------------

  /** An announcement only replaces the announced item at its slot. */
  lemma AddedSays(parse: Parser, d: Decoder, index: Option<nat>, item: Item)
    ensures var r := Take(parse, d, ItemAdded(index, Some(item)));
            r.Ok? && r.value.added == d.added[ItemIndex(d.added, d.done, index, item) := item] && r.value.done == d.done
            && r.value.completed == d.completed
  {
  }

  /** A finished item is refused if it contradicts the announced one, else it replaces the finished item at its slot. */
  lemma DoneSays(parse: Parser, d: Decoder, index: Option<nat>, item: Item)
    ensures var r, k := Take(parse, d, ItemDone(index, Some(item))), ItemIndex(d.added, d.done, index, item);
            && (r.Err? <==> k in d.added && Conflict(d.added[k], item).Some?)
            && (r.Err? ==> r.error == IdentityConflict(Conflict(d.added[k], item).value))
            && (r.Ok? ==> r.value.done == d.done[k := item] && r.value.added == d.added && r.value.completed == d.completed)
  {
  }

  /** The announced call that finished arguments are for. */
  predicate ArgumentsAreFor(d: Decoder, index: Option<nat>, itemId: Option<nat>, k: nat) {
    && k in d.added && d.added[k].kind == Str(CallItem)
    && (index.Some? ==> k == index.value) && (index.None? ==> itemId.Some? && FirstWithId(d.added, itemId.value, k))
  }

  /** The announced call under that slot is finished with those arguments; for no such call nothing happens. */
  lemma ArgumentsSay(parse: Parser, d: Decoder, index: Option<nat>, itemId: Option<nat>, arguments: Option<nat>)
    ensures var r := Take(parse, d, ArgumentsDone(index, itemId, arguments));
            && ((forall k :: !ArgumentsAreFor(d, index, itemId, k)) ==> r == Ok(d))
            && (forall k :: ArgumentsAreFor(d, index, itemId, k) ==>
                  var item := d.added[k];
                  && (item.id.Str? && itemId.Some? && item.id != Str(itemId.value) ==> r == Err(ArgumentMismatch))
                  && (!(item.id.Str? && itemId.Some? && item.id != Str(itemId.value)) && arguments.None? ==> r == Err(MissingField))
                  && (!(item.id.Str? && itemId.Some? && item.id != Str(itemId.value)) && arguments.Some? ==>
                        r == Ok(Decoder(d.added, d.done[k := Item(item.kind, item.id, item.callId, item.name, arguments, Some(Finished), item.content, item.extra)], d.completed))))
  {
    if index.None? && itemId.Some? && FindId(d.added, itemId.value).Some? && FindId(d.added, itemId.value).value in d.added
       && d.added[FindId(d.added, itemId.value).value].kind == Str(CallItem) {
      assert ArgumentsAreFor(d, index, itemId, FindId(d.added, itemId.value).value);
    }
    if index.Some? && index.value in d.added && d.added[index.value].kind == Str(CallItem) {
      assert ArgumentsAreFor(d, index, itemId, index.value);
    }
  }

  /** The least index that was announced and not finished. */
  predicate FirstWaiting(d: Decoder, k: nat) {
    k in d.added && k !in d.done && forall j :: j in d.added && j !in d.done ==> k <= j
  }

  /** The items that the end of a stream is answered with: those finished, in index order, or else its own. */
  predicate Answers(d: Decoder, own: Option<seq<Item>>, items: Option<seq<Item>>) {
    if |d.done| == 0 then items == own
    else
      && items.Some? && |items.value| == |Ascending(d.done.Keys)|
      && forall i :: 0 <= i < |items.value| ==> Ascending(d.done.Keys)[i] in d.done && items.value[i] == d.done[Ascending(d.done.Keys)[i]]
  }

  /** An end that is not a completion, or that contradicts itself, is a failure. */
  lemma BadEndSays(parse: Parser, d: Decoder, ending: Ending, response: Terminal)
    requires ending != Completed || response.contradicted
    ensures Take(parse, d, Ends(ending, Some(response))) == Err(NotCompleted)
  {
  }

  /** So is a completion while something announced is unfinished, once any item is finished; the least index is named. */
  lemma UnfinishedEndSays(parse: Parser, d: Decoder, output: Option<seq<Item>>, k: nat)
    requires |d.done| > 0 && FirstWaiting(d, k)
    ensures Take(parse, d, Ends(Completed, Some(Terminal(false, output)))) == Err(NotFinishedAt(k))
  {
    assert d.done != map[] && k in Waiting(d);
    var least := LeastNat(Waiting(d));
    assert least in d.added && least !in d.done;
  }

  /** Any other completion is answered with the items that count, whose response decides. */
  lemma EndSays(parse: Parser, d: Decoder, output: Option<seq<Item>>, items: Option<seq<Item>>)
    requires |d.done| == 0 || forall k :: k in d.added ==> k in d.done
    requires Answers(d, output, items)
    ensures var r, response := Take(parse, d, Ends(Completed, Some(Terminal(false, output)))), CompletedResponse(parse, items);
            r == if response.Ok? then Ok(Decoder(d.added, d.done, Some(response.value))) else Err(response.error)
  {
    EndItems(d, output, items);
    if |d.done| != 0 { assert Waiting(d) == {}; }
  }

  lemma EndItems(d: Decoder, output: Option<seq<Item>>, items: Option<seq<Item>>)
    requires Answers(d, output, items)
    ensures items == if d.done != map[] then Some(InOrder(d.done)) else output
  {
    if |d.done| == 0 {
      assert d.done == map[];
    } else {
      InOrderIs(d, items.value);
    }
  }

  lemma InOrderIs(d: Decoder, items: seq<Item>)
    requires |items| == |Ascending(d.done.Keys)|
    requires forall i :: 0 <= i < |items| ==> Ascending(d.done.Keys)[i] in d.done && items[i] == d.done[Ascending(d.done.Keys)[i]]
    ensures items == InOrder(d.done)
  {
  }

  /** Deltas and unknown events change nothing, an error fails, and nothing may lack what it is about. */
  lemma OtherEventsSay(parse: Parser, d: Decoder, delta: nat, index: Option<nat>, ending: Ending)
    ensures Take(parse, d, TextDelta(Some(delta))) == Ok(d) && Take(parse, d, ArgumentsDelta(Some(delta))) == Ok(d)
    ensures Take(parse, d, Unknown) == Ok(d) && Take(parse, d, Error) == Err(ProviderError)
    ensures Take(parse, d, TextDelta(None)) == Err(MissingField) && Take(parse, d, ArgumentsDelta(None)) == Err(MissingField)
    ensures Take(parse, d, ItemAdded(index, None)) == Err(MissingField) && Take(parse, d, ItemDone(index, None)) == Err(MissingField)
    ensures Take(parse, d, Ends(ending, None)) == Err(MissingField)
  {
  }

  // --- Whole streams --------------------------------------------------------------------------------------------------------

  /** The decoder has taken that many events, and the response is still to come. */
  ghost predicate Underway(parse: Parser, d: Decoder, es: seq<Event>, n: nat) {
    n <= |es| && TakeAll(parse, d, es[..n]).Ok? && TakeAll(parse, d, es[..n]).value.completed == None
  }

  lemma {:induction false} DecodeUnderway(parse: Parser, d: Decoder, es: seq<Event>, n: nat)
    requires n <= |es| && forall k :: 0 <= k <= n ==> Underway(parse, d, es, k)
    ensures Underway(parse, d, es, n) && Decode(parse, d, es) == Decode(parse, TakeAll(parse, d, es[..n]).value, es[n..])
  {
    if n == 0 {
      assert es[0..] == es && es[..0] == [];
    } else {
      DecodeUnderway(parse, d, es, n - 1);
      assert Underway(parse, d, es, n - 1) && Underway(parse, d, es, n);
      assert es[..n][..n - 1] == es[..n - 1] && es[n - 1..][1..] == es[n..];
    }
  }

  /**
   * The first event that is refused decides the failure and the first that completes the response decides it;
   * a stream that ends before either is not completed.
   */
  lemma StreamEnds(parse: Parser, d: Decoder, es: seq<Event>, n: nat)
    requires n <= |es| && forall k :: 0 <= k <= n ==> Underway(parse, d, es, k)
    ensures n == |es| ==> Decode(parse, d, es) == Err(NotCompleted)
    ensures Underway(parse, d, es, n)
    ensures n < |es| ==>
              var next := Take(parse, TakeAll(parse, d, es[..n]).value, es[n]);
              && (next.Err? ==> Decode(parse, d, es) == Err(next.error))
              && (next.Ok? && next.value.completed.Some? ==> Decode(parse, d, es) == Ok(next.value.completed.value))
  {
    DecodeUnderway(parse, d, es, n);
    assert Underway(parse, d, es, n);
    if n < |es| { assert es[n..][0] == es[n]; }
  }

  // --- Requests ------------------------------------------------------------------------------------------------------------

  /** The message carries items in a format that is not known, or no items at all. */
  predicate BadContinuation(m: ChatMessage) {
    m.AssistantMessage? && m.continuation.Some? && (m.continuation.value.format != 1 || m.continuation.value.items.None?)
  }

  /** The inputs that stand for one message. */
  predicate StandsFor(m: ChatMessage, inputs: seq<Input>) {
    match m
    case SystemMessage(content) => inputs == [RoleInput(true, content)]
    case UserMessage(content) => inputs == [RoleInput(false, content)]
    case ToolMessage(callId, content) => inputs == [CallOutput(callId, content)]
    case AssistantMessage(text, calls, continuation) =>
      if continuation.Some? then
        && continuation.value.items.Some? && |inputs| == |continuation.value.items.value|
        && forall i :: 0 <= i < |inputs| ==> inputs[i] == ReplayedItem(continuation.value.items.value[i])
      else
        var n := if text.Some? then 1 else 0;
        && |inputs| == n + |calls| && (text.Some? ==> inputs[0] == AssistantInput(text.value))
        && forall i :: 0 <= i < |calls| ==> inputs[n + i] == CallInput(calls[i])
  }

  lemma MessageSays(m: ChatMessage)
    ensures InputOf(m).Ok? <==> !BadContinuation(m)
    ensures InputOf(m).Ok? ==> StandsFor(m, InputOf(m).value)
  {
  }

  function Joined(parts: seq<seq<Input>>): seq<Input> {
    if parts == [] then [] else Joined(parts[..|parts| - 1]) + parts[|parts| - 1]
  }

  predicate StandFor(ms: seq<ChatMessage>, parts: seq<seq<Input>>) {
    |parts| == |ms| && forall i :: 0 <= i < |ms| ==> StandsFor(ms[i], parts[i])
  }

  predicate Good(ms: seq<ChatMessage>) {
    forall i :: 0 <= i < |ms| ==> !BadContinuation(ms[i])
  }

  lemma GoodStep(ms: seq<ChatMessage>)
    requires ms != []
    ensures Good(ms) <==> Good(ms[..|ms| - 1]) && !BadContinuation(ms[|ms| - 1])
  {
    assert forall i :: 0 <= i < |ms| - 1 ==> ms[..|ms| - 1][i] == ms[i];
  }

  /** A request is refused exactly if a continuation is bad. */
  lemma {:induction false} RequestRefusedIff(ms: seq<ChatMessage>)
    ensures InputsOf(ms).Ok? <==> Good(ms)
    decreases |ms|
  {
    if ms != [] {
      GoodStep(ms);
      RequestRefusedIff(ms[..|ms| - 1]);
      MessageSays(ms[|ms| - 1]);
    }
  }

  predicate MadeOf(inputs: seq<Input>, ms: seq<ChatMessage>, parts: seq<seq<Input>>) {
    StandFor(ms, parts) && inputs == Joined(parts)
  }

  /** Otherwise each message is there, in order. */
  lemma {:induction false} RequestSays(ms: seq<ChatMessage>)
    requires Good(ms)
    ensures InputsOf(ms).Ok? && exists parts :: MadeOf(InputsOf(ms).value, ms, parts)
    decreases |ms|
  {
    RequestRefusedIff(ms);
    if ms == [] {
      assert MadeOf([], ms, []);
    } else {
      GoodStep(ms);
      RequestSays(ms[..|ms| - 1]);
      var before :| MadeOf(InputsOf(ms[..|ms| - 1]).value, ms[..|ms| - 1], before);
      MessageSays(ms[|ms| - 1]);
      OneMorePart(ms, before, InputOf(ms[|ms| - 1]).value);
      assert MadeOf(InputsOf(ms).value, ms, before + [InputOf(ms[|ms| - 1]).value]);
    }
  }

  lemma OneMorePart(ms: seq<ChatMessage>, before: seq<seq<Input>>, last: seq<Input>)
    requires ms != [] && StandFor(ms[..|ms| - 1], before) && StandsFor(ms[|ms| - 1], last)
    ensures StandFor(ms, before + [last]) && Joined(before + [last]) == Joined(before) + last
  {
    assert (before + [last])[..|before|] == before;
    forall i | 0 <= i < |ms|
      ensures StandsFor(ms[i], (before + [last])[i])
    {
      if i < |ms| - 1 { assert ms[..|ms| - 1][i] == ms[i]; }
    }
  }
}
