/** The Responses decoder from decoded events on. */
module ResponseItems {
  import opened Prelude

  // Output items arrive under explicit indices, under ids seen before, or under neither, and the completed
  // response lists them in index order. Strings and JSON values are opaque, and `0` is the empty string.

  datatype Kind = MessageItem | CallItem | ReasoningItem | OtherItem(name: nat)

  datatype Progress = Finished | Unfinished

  datatype Part = OutputText(text: Option<seq<nat>>) | Refusal(refusal: Option<seq<nat>>) | OtherPart(name: nat)

  /** A field of an untyped JSON object: absent, a string, or a value of another type. */
  datatype Field<+T> = Absent | Str(value: T) | NonString(json: nat)

  /** The fields of an output item that the decoder looks at; the rest is `extra`. */
  datatype Item = Item(kind: Field<Kind>, id: Field<nat>, callId: Field<nat>, name: Field<nat>,
                       arguments: Option<nat>, progress: Option<Progress>, content: Option<seq<Part>>, extra: nat)

  datatype Key = TypeKey | IdKey | CallIdKey | NameKey

  datatype Failure =
    | MissingField
    | IdentityConflict(key: Key)
    | ArgumentMismatch
    | NotCompleted
    | NotFinishedAt(index: nat)
    | ItemUnfinished
    | Unsupported
    | BadArguments(callId: nat)
    | ProviderError
    | UnknownFormat

  datatype Call = Call(id: nat, name: nat, arguments: nat)

  /** The text, the calls, and the items themselves to be replayed later. */
  datatype Response = Response(text: Option<seq<nat>>, calls: seq<Call>, continuation: seq<Item>)

  /** Parses the JSON text of call arguments. */
  type Parser = nat -> Option<nat>

  // --- A completed response ----------------------------------------------------------------------------

  function PartText(p: Part): Result<seq<nat>, Failure> {
    match p
    case OutputText(text) => if text.None? then Err(MissingField) else Ok(text.value)
    case Refusal(text) => if text.None? then Err(MissingField) else Ok(text.value)
    case OtherPart(_) => Err(Unsupported)
  }

  function PartsText(ps: seq<Part>): Result<seq<nat>, Failure> {
    if ps == [] then Ok([])
    else
      var before := PartsText(ps[..|ps| - 1]);
      if before.Err? then before
      else
        var last := PartText(ps[|ps| - 1]);
        if last.Err? then last else Ok(before.value + last.value)
  }

  /** What one item adds to the response. */
  function ItemAdds(parse: Parser, item: Item): Result<(seq<nat>, seq<Call>), Failure> {
    if item.progress == Some(Unfinished) then Err(ItemUnfinished)
    else if item.kind == Str(MessageItem) then
      if item.content.None? then Err(MissingField)
      else
        var text := PartsText(item.content.value);
        if text.Err? then Err(text.error) else Ok((text.value, []))
    else if item.kind == Str(CallItem) then
      if item.arguments.None? || !item.callId.Str? || !item.name.Str? then Err(MissingField)
      else
        var arguments := parse(item.arguments.value);
        if arguments.None? then Err(BadArguments(item.callId.value))
        else Ok(([], [Call(item.callId.value, item.name.value, arguments.value)]))
    else if item.kind == Str(ReasoningItem) then Ok(([], []))
    else Err(Unsupported)
  }

  function ItemsAdd(parse: Parser, items: seq<Item>): Result<(seq<nat>, seq<Call>), Failure> {
    if items == [] then Ok(([], []))
    else
      var before := ItemsAdd(parse, items[..|items| - 1]);
      if before.Err? then before
      else
        var last := ItemAdds(parse, items[|items| - 1]);
        if last.Err? then last else Ok((before.value.0 + last.value.0, before.value.1 + last.value.1))
  }

  function CompletedResponse(parse: Parser, output: Option<seq<Item>>): Result<Response, Failure> {
    if output.None? then Err(MissingField)
    else
      var sum := ItemsAdd(parse, output.value);
      if sum.Err? then Err(sum.error)
      else Ok(Response(if sum.value.0 == [] then None else Some(sum.value.0), sum.value.1, output.value))
  }

  /** `completed_response`, item by item. */
  method BuildResponse(parse: Parser, output: Option<seq<Item>>) returns (r: Result<Response, Failure>)
    ensures r == CompletedResponse(parse, output)
  {
    if output.None? { return Err(MissingField); }
    var text: seq<nat>, calls: seq<Call> := [], [];
    for i := 0 to |output.value|
      invariant ItemsAdd(parse, output.value[..i]) == Ok((text, calls))
    {
      assert output.value[..i + 1][..i] == output.value[..i];
      var adds := ItemAdds(parse, output.value[i]);
      if adds.Err? {
        FirstFailureStays(parse, output.value, i + 1);
        return Err(adds.error);
      }
      text, calls := text + adds.value.0, calls + adds.value.1;
    }
    assert output.value[..|output.value|] == output.value;
    r := Ok(Response(if text == [] then None else Some(text), calls, output.value));
  }

  lemma {:induction false} FirstFailureStays(parse: Parser, items: seq<Item>, i: nat)
    requires i <= |items| && ItemsAdd(parse, items[..i]).Err?
    ensures ItemsAdd(parse, items) == ItemsAdd(parse, items[..i])
    decreases |items|
  {
    if i < |items| {
      var n := |items| - 1;
      assert items[..n][..i] == items[..i];
      FirstFailureStays(parse, items[..n], i);
    } else {
      assert items[..i] == items;
    }
  }

  // --- Slots -----------------------------------------------------------------------------------------------

  /** The least index whose item has this id. */
  function FindId(items: map<nat, Item>, id: nat): (r: Option<nat>)
    ensures r.None? <==> forall k :: k in items ==> items[k].id != Str(id)
    ensures r.Some? ==> r.value in items && items[r.value].id == Str(id)
                        && forall k :: k in items && items[k].id == Str(id) ==> r.value <= k
  {
    var keys := set k | k in items && items[k].id == Str(id);
    assert forall k :: k in items && items[k].id == Str(id) ==> k in keys;
    if keys == {} then None else Some(LeastNat(keys))
  }

  /** The first index after all that are taken; it sticks at the largest integer. */
  function NextSlot(keys: set<nat>): nat {
    if keys == {} then 0 else SatAdd(GreatestNat(keys), 1)
  }

  predicate IsGreatestNat(k: nat, s: set<nat>) {
    k in s && forall j :: j in s ==> j <= k
  }

  lemma GreatestNatExists(s: set<nat>)
    requires s != {}
    ensures exists k :: IsGreatestNat(k, s)
  {
    var x :| x in s;
    if s == {x} {
      assert IsGreatestNat(x, s);
    } else {
      GreatestNatExists(s - {x});
      var y :| IsGreatestNat(y, s - {x});
      forall j | j in s ensures j <= x || j <= y {
        assert j != x ==> j in s - {x};
      }
      if y <= x { assert IsGreatestNat(x, s); } else { assert IsGreatestNat(y, s); }
    }
  }

  function GreatestNat(s: set<nat>): (k: nat)
    requires s != {}
    ensures IsGreatestNat(k, s)
  {
    GreatestNatExists(s);
    var k: nat :| k in s && IsGreatestNat(k, s);
    k
  }

  /** `item_index`: the explicit index, the index of an item with that id, or the next slot. */
  function ItemIndex(added: map<nat, Item>, done: map<nat, Item>, explicit: Option<nat>, item: Item): nat {
    if explicit.Some? then explicit.value
    else if item.id.Str? && FindId(added, item.id.value).Some? then FindId(added, item.id.value).value
    else if item.id.Str? && FindId(done, item.id.value).Some? then FindId(done, item.id.value).value
    else NextSlot(added.Keys + done.Keys)
  }

  /** Neither an index nor an id seen before: the item gets a slot of its own, behind all others. */
  lemma UnknownItemGetsFreshSlot(added: map<nat, Item>, done: map<nat, Item>, item: Item)
    requires forall k :: k in added.Keys + done.Keys ==> k < MAX_U64
    requires item.id.Str? ==> FindId(added, item.id.value).None? && FindId(done, item.id.value).None?
    ensures forall k :: k in added.Keys + done.Keys ==> k < ItemIndex(added, done, None, item)
  {
  }

  // --- Events ----------------------------------------------------------------------------------------------

  datatype Ending = Completed | Failed | Incomplete

  datatype Terminal = Terminal(contradicted: bool, output: Option<seq<Item>>)

  datatype Event =
    | TextDelta(delta: Option<nat>)
    | ArgumentsDelta(delta: Option<nat>)
    | ItemAdded(index: Option<nat>, item: Option<Item>)
    | ItemDone(index: Option<nat>, item: Option<Item>)
    | ArgumentsDone(index: Option<nat>, itemId: Option<nat>, arguments: Option<nat>)
    | Ends(ending: Ending, response: Option<Terminal>)
    | Error
    | Unknown

  datatype Decoder = Decoder(added: map<nat, Item>, done: map<nat, Item>, completed: Option<Response>)

  const START := Decoder(map[], map[], None)

  predicate Agree<T(==)>(a: Field<T>, b: Field<T>) {
    a.Absent? || b.Absent? || a == b
  }

  /** Fields that both items have agree. */
  predicate SameItem(a: Item, b: Item) {
    Agree(a.kind, b.kind) && Agree(a.id, b.id) && Agree(a.callId, b.callId) && Agree(a.name, b.name)
  }

  /** `check_item_identity`: the first key whose values differ. */
  function Conflict(announced: Item, item: Item): (key: Option<Key>)
    ensures key.None? <==> SameItem(announced, item)
  {
    if !Agree(announced.kind, item.kind) then Some(TypeKey)
    else if !Agree(announced.id, item.id) then Some(IdKey)
    else if !Agree(announced.callId, item.callId) then Some(CallIdKey)
    else if !Agree(announced.name, item.name) then Some(NameKey)
    else None
  }

  /** The done items in index order. */
  function Listed(done: map<nat, Item>, keys: seq<nat>): seq<Item>
    requires forall k :: k in keys ==> k in done
  {
    seq(|keys|, i requires 0 <= i < |keys| => assert keys[i] in keys; done[keys[i]])
  }

  function InOrder(done: map<nat, Item>): seq<Item> {
    Listed(done, Ascending(done.Keys))
  }

  function TakeAdded(d: Decoder, index: Option<nat>, item: Item): Decoder {
    d.(added := d.added[ItemIndex(d.added, d.done, index, item) := item])
  }

  function TakeDone(d: Decoder, index: Option<nat>, item: Item): Result<Decoder, Failure> {
    var k := ItemIndex(d.added, d.done, index, item);
    if k in d.added && Conflict(d.added[k], item).Some? then Err(IdentityConflict(Conflict(d.added[k], item).value))
    else Ok(d.(done := d.done[k := item]))
  }

  /** A done snapshot of the arguments finishes the item announced at that index or under that id. */
  function TakeArguments(d: Decoder, index: Option<nat>, itemId: Option<nat>, arguments: Option<nat>): Result<Decoder, Failure> {
    var k := if index.Some? then index else if itemId.Some? then FindId(d.added, itemId.value) else None;
    if k.None? || k.value !in d.added || d.added[k.value].kind != Str(CallItem) then Ok(d)
    else
      var item := d.added[k.value];
      if item.id.Str? && itemId.Some? && item.id.value != itemId.value then Err(ArgumentMismatch)
      else if arguments.None? then Err(MissingField)
      else Ok(d.(done := d.done[k.value := item.(arguments := arguments, progress := Some(Finished))]))
  }

  /** Announced and not done. */
  function Waiting(d: Decoder): set<nat> {
    d.added.Keys - d.done.Keys
  }

  /** The items of the terminal event count only when none were streamed. */
  function TakeEnd(parse: Parser, d: Decoder, ending: Ending, response: Terminal): Result<Decoder, Failure> {
    if ending != Completed || response.contradicted then Err(NotCompleted)
    else if d.done != map[] && Waiting(d) != {} then Err(NotFinishedAt(LeastNat(Waiting(d))))
    else
      var r := CompletedResponse(parse, if d.done != map[] then Some(InOrder(d.done)) else response.output);
      if r.Err? then Err(r.error) else Ok(d.(completed := Some(r.value)))
  }

  function Take(parse: Parser, d: Decoder, e: Event): Result<Decoder, Failure> {
    match e
    case TextDelta(delta) => if delta.None? then Err(MissingField) else Ok(d)
    case ArgumentsDelta(delta) => if delta.None? then Err(MissingField) else Ok(d)
    case ItemAdded(index, item) => if item.None? then Err(MissingField) else Ok(TakeAdded(d, index, item.value))
    case ItemDone(index, item) => if item.None? then Err(MissingField) else TakeDone(d, index, item.value)
    case ArgumentsDone(index, itemId, arguments) => TakeArguments(d, index, itemId, arguments)
    case Ends(ending, response) => if response.None? then Err(MissingField) else TakeEnd(parse, d, ending, response.value)
    case Error => Err(ProviderError)
    case Unknown => Ok(d)
  }

  function TakeAll(parse: Parser, d: Decoder, es: seq<Event>): Result<Decoder, Failure> {
    if es == [] then Ok(d)
    else
      var before := TakeAll(parse, d, es[..|es| - 1]);
      if before.Err? then before else Take(parse, before.value, es[|es| - 1])
  }

  /** The stream up to the event that completes it. */
  function Decode(parse: Parser, d: Decoder, es: seq<Event>): Result<Response, Failure>
    decreases |es|
  {
    if d.completed.Some? then Ok(d.completed.value)
    else if es == [] then Err(NotCompleted)
    else
      var next := Take(parse, d, es[0]);
      if next.Err? then Err(next.error) else Decode(parse, next.value, es[1..])
  }

  lemma {:induction false} DecodeAfter(parse: Parser, d: Decoder, a: seq<Event>, b: seq<Event>)
    requires d.completed.None? && TakeAll(parse, d, a).Ok? && forall i :: 0 <= i < |a| ==> !a[i].Ends?
    ensures TakeAll(parse, d, a).value.completed.None?
    ensures Decode(parse, d, a + b) == Decode(parse, TakeAll(parse, d, a).value, b)
    decreases |a|
  {
    if a == [] {
      assert a + b == b;
    } else {
      var n := |a| - 1;
      DecodeAfter(parse, d, a[..n], [a[n]] + b);
      assert a + b == a[..n] + ([a[n]] + b);
      assert ([a[n]] + b)[1..] == b;
    }
  }

  lemma {:induction false} DecodeRefused(parse: Parser, d: Decoder, a: seq<Event>, b: seq<Event>)
    requires d.completed.None? && TakeAll(parse, d, a).Err? && forall i :: 0 <= i < |a| ==> !a[i].Ends?
    ensures Decode(parse, d, a + b) == Err(TakeAll(parse, d, a).error)
    decreases |a|
  {
    var n := |a| - 1;
    assert a + b == a[..n] + ([a[n]] + b);
    if TakeAll(parse, d, a[..n]).Err? {
      DecodeRefused(parse, d, a[..n], [a[n]] + b);
    } else {
      DecodeAfter(parse, d, a[..n], [a[n]] + b);
    }
  }

  // --- The decoder as it runs --------------------------------------------------------------------------------

  class ResponseDecoder {
    const parse: Parser
    var added: map<nat, Item>
    var done: map<nat, Item>
    var completed: Option<Response>

    constructor (parse: Parser)
      ensures this.parse == parse && Now() == START
    {
      this.parse, added, done, completed := parse, map[], map[], None;
    }

    function Now(): Decoder
      reads this
    {
      Decoder(added, done, completed)
    }

    /** `item_index`: looks through the added items, then the done ones. */
    method SlotFor(explicit: Option<nat>, item: Item) returns (index: nat)
      ensures index == ItemIndex(added, done, explicit, item)
    {
      if explicit.Some? { return explicit.value; }
      if item.id.Str? {
        var found := Search(added, item.id.value);
        if found.None? { found := Search(done, item.id.value); }
        if found.Some? { return found.value; }
      }
      index := NextSlot(added.Keys + done.Keys);
    }

    /** One event; the source's `data` after parsing. */
    method Data(event: Event) returns (failure: Option<Failure>)
      modifies this
      ensures if failure.None? then Take(parse, old(Now()), event) == Ok(Now())
              else Take(parse, old(Now()), event) == Err(failure.value) && Now() == old(Now())
    {
      failure := None;
      match event {
      case TextDelta(delta) => if delta.None? { failure := Some(MissingField); }
      case ArgumentsDelta(delta) => if delta.None? { failure := Some(MissingField); }
      case ItemAdded(explicit, item) =>
        if item.None? { return Some(MissingField); }
        var index := SlotFor(explicit, item.value);
        added := added[index := item.value];
      case ItemDone(explicit, item) =>
        if item.None? { return Some(MissingField); }
        var index := SlotFor(explicit, item.value);
        if index in added {
          var conflict := Conflict(added[index], item.value);
          if conflict.Some? { return Some(IdentityConflict(conflict.value)); }
        }
        done := done[index := item.value];
      case ArgumentsDone(explicit, itemId, arguments) =>
        var index := explicit;
        if index.None? && itemId.Some? { index := Search(added, itemId.value); }
        if index.Some? && index.value in added && added[index.value].kind == Str(CallItem) {
          var item := added[index.value];
          if item.id.Str? && itemId.Some? && item.id.value != itemId.value { return Some(ArgumentMismatch); }
          if arguments.None? { return Some(MissingField); }
          done := done[index.value := item.(arguments := arguments, progress := Some(Finished))];
        }
      case Ends(ending, response) =>
        if response.None? { return Some(MissingField); }
        if ending != Completed || response.value.contradicted { return Some(NotCompleted); }
        var output := response.value.output;
        if done != map[] {
          var waiting := added.Keys - done.Keys;
          if waiting != {} { return Some(NotFinishedAt(LeastNat(waiting))); }
          output := Some(InOrder(done));
        }
        var response := BuildResponse(parse, output);
        if response.Err? { return Some(response.error); }
        completed := Some(response.value);
      case Error => failure := Some(ProviderError);
      case Unknown =>
      }
    }

    /** The reading loop, which stops as soon as the response is completed. */
    method ReadStream(events: seq<Event>) returns (r: Result<Response, Failure>)
      requires Now() == START
      modifies this
      ensures r == Decode(parse, START, events)
    {
      for i := 0 to |events|
        invariant completed.None? && Decode(parse, START, events) == Decode(parse, Now(), events[i..])
      {
        var failure := Data(events[i]);
        if failure.Some? { return Err(failure.value); }
        if completed.Some? { return Ok(completed.value); }
      }
      r := Err(NotCompleted);
    }
  }

  method Search(items: map<nat, Item>, id: nat) returns (found: Option<nat>)
    ensures found == FindId(items, id)
  {
    var keys := Ascending(items.Keys);
    for i := 0 to |keys|
      invariant forall j :: 0 <= j < i ==> items[keys[j]].id != Str(id)
    {
      assert keys[i] in keys;
      if items[keys[i]].id == Str(id) {
        assert FindId(items, id).Some?;
        assert FindId(items, id).value in keys;
        return Some(keys[i]);
      }
    }
    forall k | k in items ensures items[k].id != Str(id) {
      assert k in keys;
    }
    found := None;
  }

  // --- Arrival order does not matter -----------------------------------------------------------------------

  datatype Arrival = Arrival(index: nat, item: Item)

  function DoneEvents(arrivals: seq<Arrival>): seq<Event> {
    seq(|arrivals|, i requires 0 <= i < |arrivals| => ItemDone(Some(arrivals[i].index), Some(arrivals[i].item)))
  }

  ghost predicate DistinctIndices(arrivals: seq<Arrival>) {
    forall i, j :: 0 <= i < j < |arrivals| ==> arrivals[i].index != arrivals[j].index
  }

  /** The item agrees with what was announced at its index. */
  predicate Agrees(d: Decoder, a: Arrival) {
    a.index in d.added ==> SameItem(d.added[a.index], a.item)
  }

  /** Exactly these items were added to those done before. */
  ghost predicate Adds(before: map<nat, Item>, arrivals: seq<Arrival>, after: map<nat, Item>) {
    && (forall a :: a in arrivals ==> a.index in after && after[a.index] == a.item)
    && (forall k :: k in after ==> (exists a :: a in arrivals && a.index == k) || (k in before && after[k] == before[k]))
    && (forall k :: k in before ==> k in after)
  }

  /** All are taken, unless one contradicts its announcement. */
  ghost predicate AllFiled(d: Decoder, arrivals: seq<Arrival>, r: Result<Decoder, Failure>) {
    && (r.Ok? <==> forall a :: a in arrivals ==> Agrees(d, a))
    && (r.Ok? ==> r.value == d.(done := r.value.done) && Adds(d.done, arrivals, r.value.done))
    && (r.Err? ==> r.error.IdentityConflict?)
  }

  lemma {:induction false} DoneItemsAreFiled(parse: Parser, d: Decoder, arrivals: seq<Arrival>)
    requires DistinctIndices(arrivals)
    ensures AllFiled(d, arrivals, TakeAll(parse, d, DoneEvents(arrivals)))
    decreases |arrivals|
  {
    if arrivals != [] {
      var n := |arrivals| - 1;
      var es := DoneEvents(arrivals);
      assert es[..n] == DoneEvents(arrivals[..n]);
      DoneItemsAreFiled(parse, d, arrivals[..n]);
      assert arrivals == arrivals[..n] + [arrivals[n]];
      OneMoreFiled(parse, d, arrivals[..n], arrivals[n], TakeAll(parse, d, es[..n]));
    }
  }

  lemma OneMoreFiled(parse: Parser, d: Decoder, arrivals: seq<Arrival>, a: Arrival, before: Result<Decoder, Failure>)
    requires DistinctIndices(arrivals + [a]) && AllFiled(d, arrivals, before)
    ensures AllFiled(d, arrivals + [a], if before.Err? then before else Take(parse, before.value, ItemDone(Some(a.index), Some(a.item))))
  {
    assert forall b :: b in arrivals + [a] <==> b in arrivals || b == a;
    if before.Ok? && Agrees(d, a) {
      AddsOne(d.done, arrivals, before.value.done, a);
    }
  }

  lemma AddsOne(before: map<nat, Item>, arrivals: seq<Arrival>, after: map<nat, Item>, a: Arrival)
    requires Adds(before, arrivals, after) && DistinctIndices(arrivals + [a])
    ensures Adds(before, arrivals + [a], after[a.index := a.item])
  {
    forall b | b in arrivals
      ensures b.index != a.index
    {
      var i :| 0 <= i < |arrivals| && arrivals[i] == b;
      assert (arrivals + [a])[i] == b && (arrivals + [a])[|arrivals|] == a;
    }
    var more := arrivals + [a];
    assert a in more;
    forall k | k in after[a.index := a.item]
      ensures (exists b :: b in more && b.index == k) || (k in before && after[a.index := a.item][k] == before[k])
    {
      if k != a.index && exists b :: b in arrivals && b.index == k {
        var b :| b in arrivals && b.index == k;
        assert b in more;
      }
    }
  }

  lemma AddsDetermines(before: map<nat, Item>, a: seq<Arrival>, b: seq<Arrival>, x: map<nat, Item>, y: map<nat, Item>)
    requires Adds(before, a, x) && Adds(before, b, y) && forall arrival :: arrival in a <==> arrival in b
    ensures x == y
  {
    forall k | k in x ensures k in y && y[k] == x[k] {
      if arrival :| arrival in a && arrival.index == k { assert arrival in b; }
    }
    forall k | k in y ensures k in x {
      if arrival :| arrival in b && arrival.index == k { assert arrival in a; }
    }
  }

  /** In whatever order items with explicit indices arrive, they are all filed alike or one is refused. */
  lemma ArrivalOrderIsInvisible(parse: Parser, d: Decoder, a: seq<Arrival>, b: seq<Arrival>)
    requires DistinctIndices(a) && DistinctIndices(b) && forall arrival :: arrival in a <==> arrival in b
    ensures var x, y := TakeAll(parse, d, DoneEvents(a)), TakeAll(parse, d, DoneEvents(b));
            if x.Ok? then y == x else x.error.IdentityConflict? && y.Err? && y.error.IdentityConflict?
  {
    DoneItemsAreFiled(parse, d, a);
    DoneItemsAreFiled(parse, d, b);
    if TakeAll(parse, d, DoneEvents(a)).Ok? {
      AddsDetermines(d.done, a, b, TakeAll(parse, d, DoneEvents(a)).value.done, TakeAll(parse, d, DoneEvents(b)).value.done);
    }
  }

  // --- Index order -----------------------------------------------------------------------------------------

  /** The items were filed under the indices from `start` on. */
  ghost predicate FiledFrom(before: map<nat, Item>, after: map<nat, Item>, start: nat, items: seq<Item>) {
    && (forall k :: k in after <==> k in before || start <= k < start + |items|)
    && (forall k :: k in before ==> k in after && after[k] == before[k])
    && (forall k :: start <= k < start + |items| ==> after[k] == items[k - start])
  }

  predicate Rising(keys: seq<nat>) {
    forall i, j :: 0 <= i < j < |keys| ==> keys[i] < keys[j]
  }

  lemma {:induction false} AscendingIsUnique(a: seq<nat>, b: seq<nat>)
    requires Rising(a) && Rising(b) && forall k :: k in a <==> k in b
    ensures a == b
    decreases |a|
  {
    assert (a != [] ==> a[0] in b) && (b != [] ==> b[0] in a);
    if a != [] && b != [] {
      var i :| 0 <= i < |b| && b[i] == a[0];
      var j :| 0 <= j < |a| && a[j] == b[0];
      assert a[0] == b[0];
      forall k: nat
        ensures k in a[1..] <==> k in b[1..]
      {
        if k in a[1..] { assert k in b; }
        if k in b[1..] { assert k in a; }
      }
      AscendingIsUnique(a[1..], b[1..]);
    }
  }

  lemma RisingFrom(front: seq<nat>, whole: seq<nat>, start: nat, n: nat)
    requires Rising(front) && Rising(whole) && forall k :: k in front ==> k < start
    requires forall k :: k in whole <==> k in front || start <= k < start + n
    ensures |whole| == |front| + n && front == whole[..|front|]
    ensures forall i :: |front| <= i < |whole| ==> whole[i] == start + (i - |front|)
  {
    var behind := seq(n, i requires 0 <= i < n => start + i);
    forall k: nat
      ensures k in behind <==> start <= k < start + n
    {
      if start <= k < start + n { assert behind[k - start] == k; }
    }
    assert forall i :: 0 <= i < |front| ==> front[i] in front;
    assert forall i :: 0 <= i < n ==> behind[i] == start + i;
    AscendingIsUnique(whole, front + behind);
  }

  lemma InOrderFrom(before: map<nat, Item>, after: map<nat, Item>, start: nat, items: seq<Item>)
    requires FiledFrom(before, after, start, items) && forall k :: k in before ==> k < start
    ensures InOrder(after) == InOrder(before) + items
  {
    RisingFrom(Ascending(before.Keys), Ascending(after.Keys), start, |items|);
    ListedFrom(before, after, start, items, Ascending(before.Keys), Ascending(after.Keys));
  }

  lemma ListedFrom(before: map<nat, Item>, after: map<nat, Item>, start: nat, items: seq<Item>, front: seq<nat>, whole: seq<nat>)
    requires FiledFrom(before, after, start, items)
    requires (forall k :: k in front ==> k in before) && forall k :: k in whole ==> k in after
    requires |whole| == |front| + |items| && front == whole[..|front|]
    requires forall i :: |front| <= i < |whole| ==> whole[i] == start + (i - |front|)
    ensures Listed(after, whole) == Listed(before, front) + items
  {
    forall i | 0 <= i < |whole|
      ensures Listed(after, whole)[i] == (Listed(before, front) + items)[i]
    {
      if i < |front| {
        assert front[i] in front && whole[i] == front[i];
      } else {
        assert after[whole[i]] == items[i - |front|];
      }
    }
  }

  /** Every position of a list, in any order of arrival. */
  ghost predicate Delivers(arrivals: seq<Arrival>, items: seq<Item>) {
    DistinctIndices(arrivals) && forall a :: a in arrivals <==> a.index < |items| && a.item == items[a.index]
  }

  lemma DeliveredInOrder(arrivals: seq<Arrival>, items: seq<Item>, done: map<nat, Item>)
    requires Delivers(arrivals, items) && Adds(map[], arrivals, done)
    ensures FiledFrom(map[], done, 0, items)
  {
    forall k: nat | k < |items|
      ensures k in done && done[k] == items[k]
    {
      assert Arrival(k, items[k]) in arrivals;
    }
    forall k: nat | k in done
      ensures k < |items|
    {
      var a :| a in arrivals && a.index == k;
    }
  }

  /** Some item was announced as another one. */
  predicate Contradicted(d: Decoder, items: seq<Item>) {
    exists k :: k in d.added && k < |items| && !SameItem(d.added[k], items[k])
  }

  /** The announced indices for which the list has no item. */
  function Unfilled(d: Decoder, items: seq<Item>): set<nat> {
    set k | k in d.added && |items| <= k
  }

  /**
   * A response streamed item by item, in any order and after any announcements, decodes to what its
   * finished list of items decodes to, whatever list the terminal event itself carries. It is refused
   * beforehand exactly when an announcement contradicts its item or has none.
   */
  lemma StreamedIsSnapshot(parse: Parser, d: Decoder, items: seq<Item>, arrivals: seq<Arrival>, snapshot: Option<seq<Item>>)
    requires d.completed.None? && d.done == map[] && items != [] && Delivers(arrivals, items)
    ensures var r := Decode(parse, d, DoneEvents(arrivals) + [Ends(Completed, Some(Terminal(false, snapshot)))]);
            if Contradicted(d, items) then r.Err? && r.error.IdentityConflict?
            else if Unfilled(d, items) != {} then r == Err(NotFinishedAt(LeastNat(Unfilled(d, items))))
            else r == CompletedResponse(parse, Some(items))
  {
    var end := [Ends(Completed, Some(Terminal(false, snapshot)))];
    DoneItemsAreFiled(parse, d, arrivals);
    if Contradicted(d, items) {
      var k :| k in d.added && k < |items| && !SameItem(d.added[k], items[k]);
      assert Arrival(k, items[k]) in arrivals && !Agrees(d, Arrival(k, items[k]));
      DecodeRefused(parse, d, DoneEvents(arrivals), end);
    } else {
      assert forall a :: a in arrivals ==> Agrees(d, a);
      DecodeAfter(parse, d, DoneEvents(arrivals), end);
      var after := TakeAll(parse, d, DoneEvents(arrivals)).value;
      DeliveredInOrder(arrivals, items, after.done);
      EndOfList(parse, after, items, snapshot);
    }
  }

  lemma WholeList(done: map<nat, Item>, items: seq<Item>)
    requires items != [] && FiledFrom(map[], done, 0, items)
    ensures done != map[] && InOrder(done) == items
  {
    InOrderFrom(map[], done, 0, items);
    assert InOrder(map[]) + items == items;
    assert 0 in done;
  }

  /** The terminal event after all items of a list. */
  lemma EndOfList(parse: Parser, d: Decoder, items: seq<Item>, snapshot: Option<seq<Item>>)
    requires d.completed.None? && items != [] && FiledFrom(map[], d.done, 0, items)
    ensures Decode(parse, d, [Ends(Completed, Some(Terminal(false, snapshot)))])
         == if Unfilled(d, items) == {} then CompletedResponse(parse, Some(items)) else Err(NotFinishedAt(LeastNat(Unfilled(d, items))))
  {
    WholeList(d.done, items);
    WaitingIsUnfilled(d, items);
    DecodeEnd(parse, d, Terminal(false, snapshot));
  }

  lemma WaitingIsUnfilled(d: Decoder, items: seq<Item>)
    requires FiledFrom(map[], d.done, 0, items)
    ensures Waiting(d) == Unfilled(d, items)
  {
  }

  lemma DecodeEnd(parse: Parser, d: Decoder, response: Terminal)
    requires d.completed.None? && d.done != map[] && !response.contradicted
    ensures Decode(parse, d, [Ends(Completed, Some(response))])
         == if Waiting(d) == {} then CompletedResponse(parse, Some(InOrder(d.done)))
            else Err(NotFinishedAt(LeastNat(Waiting(d))))
  {
    var e := Ends(Completed, Some(response));
    assert [e][1..] == [];
    var next := Take(parse, d, e);
    assert next == TakeEnd(parse, d, Completed, response);
    if next.Ok? { assert Decode(parse, next.value, []) == Ok(next.value.completed.value); }
  }

  // --- Streams of every kind of event ------------------------------------------------------------------------

  /** An announced call with the arguments of a done snapshot. */
  function FinishedWith(announced: Item, arguments: Option<nat>): Item {
    announced.(arguments := arguments, progress := Some(Finished))
  }

  /** An event that a stream of these items may hold: whatever it says of an item agrees with the item. */
  predicate InLine(e: Event, items: seq<Item>) {
    match e
    case TextDelta(delta) => delta.Some?
    case ArgumentsDelta(delta) => delta.Some?
    case ItemAdded(index, item) =>
      index.Some? && item.Some? && index.value < |items| && SameItem(item.value, items[index.value])
    case ItemDone(index, item) =>
      index.Some? && index.value < |items| && item == Some(items[index.value])
    case ArgumentsDone(index, itemId, arguments) =>
      && index.Some? && index.value < |items| && arguments.Some?
      && (itemId.Some? ==> items[index.value].id == Str(itemId.value))
    case Unknown => true
    case Ends(_, _) => false
    case Error => false
  }

  predicate AllInLine(es: seq<Event>, items: seq<Item>) {
    forall i :: 0 <= i < |es| ==> InLine(es[i], items)
  }

  /** What is announced after an event. */
  function Announced(added: map<nat, Item>, e: Event): map<nat, Item> {
    if e.ItemAdded? && e.index.Some? && e.item.Some? then added[e.index.value := e.item.value] else added
  }

  /** Whether slot `k` holds its item after an event, given whether it did before. */
  predicate HoldsAfter(added: map<nat, Item>, e: Event, items: seq<Item>, k: nat, holds: bool)
    requires k < |items|
  {
    match e
    case ItemDone(index, item) => if index == Some(k) then item == Some(items[k]) else holds
    case ArgumentsDone(index, _, arguments) =>
      if index == Some(k) && k in added && added[k].kind == Str(CallItem) then FinishedWith(added[k], arguments) == items[k] else holds
    case _ => holds
  }

  /** Whether the last event of a stream that files something in slot `k` files its item. */
  predicate HoldsAtEnd(added: map<nat, Item>, es: seq<Event>, items: seq<Item>, k: nat, holds: bool)
    requires k < |items|
    decreases |es|
  {
    if es == [] then holds
    else HoldsAtEnd(Announced(added, es[0]), es[1..], items, k, HoldsAfter(added, es[0], items, k, holds))
  }

  predicate Holds(done: map<nat, Item>, items: seq<Item>, k: nat)
    requires k < |items|
  {
    k in done && done[k] == items[k]
  }

  ghost predicate AllHoldAtEnd(d: Decoder, es: seq<Event>, items: seq<Item>) {
    forall k :: 0 <= k < |items| ==> HoldsAtEnd(d.added, es, items, k, Holds(d.done, items, k))
  }

  /** Nothing announced or done so far disagrees with the items. */
  ghost predicate OnTrack(d: Decoder, items: seq<Item>) {
    && d.completed.None?
    && (forall k :: k in d.added ==> k < |items| && SameItem(d.added[k], items[k]))
    && (forall k :: k in d.done ==> k < |items|)
  }

  lemma TakeKeepsOnTrack(parse: Parser, d: Decoder, e: Event, items: seq<Item>)
    requires InLine(e, items) && OnTrack(d, items)
    ensures var r := Take(parse, d, e);
            && r.Ok? && OnTrack(r.value, items) && r.value.added == Announced(d.added, e)
            && forall k :: 0 <= k < |items| ==> Holds(r.value.done, items, k) == HoldsAfter(d.added, e, items, k, Holds(d.done, items, k))
  {
  }

  /** Where a stream leads before it ends. */
  lemma {:induction false} Streamed(parse: Parser, d: Decoder, es: seq<Event>, items: seq<Item>, end: seq<Event>) returns (last: Decoder)
    requires AllInLine(es, items) && OnTrack(d, items)
    ensures OnTrack(last, items) && Decode(parse, d, es + end) == Decode(parse, last, end)
    ensures forall k :: 0 <= k < |items| ==> Holds(last.done, items, k) == HoldsAtEnd(d.added, es, items, k, Holds(d.done, items, k))
    decreases |es|
  {
    last := d;
    if es == [] {
      assert es + end == end;
    } else {
      var next := Take(parse, d, es[0]).value;
      TakeKeepsOnTrack(parse, d, es[0], items);
      last := Streamed(parse, next, es[1..], items, end);
      assert (es + end)[1..] == es[1..] + end;
    }
  }

  lemma {:induction false} RisingGap(keys: seq<nat>, i: nat, j: nat)
    requires Rising(keys) && i <= j < |keys|
    ensures keys[j] - keys[i] >= j - i
    decreases j - i
  {
    if i < j { RisingGap(keys, i, j - 1); }
  }

  /** A full list can only come from full slots. */
  lemma ListedAll(done: map<nat, Item>, items: seq<Item>)
    requires InOrder(done) == items && forall k :: k in done ==> k < |items|
    ensures forall k :: 0 <= k < |items| ==> Holds(done, items, k)
  {
    var keys := Ascending(done.Keys);
    forall k | 0 <= k < |items|
      ensures Holds(done, items, k)
    {
      assert keys[0] in keys && keys[|keys| - 1] in keys && keys[k] in keys;
      RisingGap(keys, 0, k);
      RisingGap(keys, k, |keys| - 1);
      assert keys[k] == k && InOrder(done)[k] == done[keys[k]];
    }
  }

  lemma EndsWithList(parse: Parser, d: Decoder, items: seq<Item>, snapshot: Option<seq<Item>>)
    requires items != [] && OnTrack(d, items)
    ensures (forall k :: 0 <= k < |items| ==> Holds(d.done, items, k)) ==>
              Decode(parse, d, [Ends(Completed, Some(Terminal(false, snapshot)))]) == CompletedResponse(parse, Some(items))
    ensures CompletedResponse(parse, Some(items)).Ok?
            && Decode(parse, d, [Ends(Completed, Some(Terminal(false, None)))]) == CompletedResponse(parse, Some(items)) ==>
              forall k :: 0 <= k < |items| ==> Holds(d.done, items, k)
  {
    if forall k :: 0 <= k < |items| ==> Holds(d.done, items, k) {
      forall k: nat | k < |items|
        ensures k in d.done && d.done[k] == items[k]
      {
        assert Holds(d.done, items, k);
      }
      EndOfList(parse, d, items, snapshot);
    } else if d.done != map[] {
      DecodeEnd(parse, d, Terminal(false, None));
      if InOrder(d.done) == items { ListedAll(d.done, items); }
    } else {
      EmptyEnd(parse, d);
    }
  }

  lemma EmptyEnd(parse: Parser, d: Decoder)
    requires d.completed.None? && d.done == map[]
    ensures Decode(parse, d, [Ends(Completed, Some(Terminal(false, None)))]) == Err(MissingField)
  {
    assert Take(parse, d, Ends(Completed, Some(Terminal(false, None)))) == TakeEnd(parse, d, Completed, Terminal(false, None));
  }

  /**
   * Announcements, deltas, done arguments and done items of any slots in any order, all in line with a list:
   * the response is that of the list, whatever list the terminal event carries, if in every slot the last
   * event that files something files the item of the list. Done arguments file what was announced with those
   * arguments. For a list that decodes and a terminal event without one, the condition is also necessary.
   */
  lemma MixedStreamIsSnapshot(parse: Parser, d: Decoder, es: seq<Event>, items: seq<Item>, snapshot: Option<seq<Item>>)
    requires items != [] && AllInLine(es, items) && OnTrack(d, items)
    ensures AllHoldAtEnd(d, es, items) ==>
              Decode(parse, d, es + [Ends(Completed, Some(Terminal(false, snapshot)))]) == CompletedResponse(parse, Some(items))
    ensures CompletedResponse(parse, Some(items)).Ok?
            && Decode(parse, d, es + [Ends(Completed, Some(Terminal(false, None)))]) == CompletedResponse(parse, Some(items)) ==>
              AllHoldAtEnd(d, es, items)
  {
    var last := Streamed(parse, d, es, items, [Ends(Completed, Some(Terminal(false, snapshot)))]);
    EndsWithList(parse, last, items, snapshot);
    var other := Streamed(parse, d, es, items, [Ends(Completed, Some(Terminal(false, None)))]);
    EndsWithList(parse, other, items, None);
  }

  // --- Done arguments ----------------------------------------------------------------------------------------

  /** A done snapshot of the arguments of every announced call, in any order. */
  ghost predicate Finishes(es: seq<Event>, items: seq<Item>) {
    && (forall i :: 0 <= i < |es| ==> es[i].ArgumentsDone? && InLine(es[i], items))
    && (forall k :: 0 <= k < |items| ==> exists i :: 0 <= i < |es| && es[i].index == Some(k))
  }

  /** What was announced, with the arguments that are sent for it, is the item. */
  ghost predicate Announces(d: Decoder, es: seq<Event>, items: seq<Item>)
    requires Finishes(es, items)
  {
    && (forall k :: 0 <= k < |items| ==> k in d.added && d.added[k].kind == Str(CallItem))
    && (forall i :: 0 <= i < |es| ==> es[i].index.value in d.added && FinishedWith(d.added[es[i].index.value], es[i].arguments) == items[es[i].index.value])
  }

  /** Done arguments alone finish announced calls, without any done item. */
  lemma ArgumentsAloneFinish(parse: Parser, d: Decoder, es: seq<Event>, items: seq<Item>, snapshot: Option<seq<Item>>)
    requires items != [] && OnTrack(d, items) && Finishes(es, items) && Announces(d, es, items)
    ensures Decode(parse, d, es + [Ends(Completed, Some(Terminal(false, snapshot)))]) == CompletedResponse(parse, Some(items))
  {
    forall k | 0 <= k < |items|
      ensures HoldsAtEnd(d.added, es, items, k, Holds(d.done, items, k))
    {
      var i :| 0 <= i < |es| && es[i].index == Some(k);
      FinishedHolds(d.added, es, items, k, Holds(d.done, items, k), i);
    }
    MixedStreamIsSnapshot(parse, d, es, items, snapshot);
  }

  lemma {:induction false} FinishedHolds(added: map<nat, Item>, es: seq<Event>, items: seq<Item>, k: nat, holds: bool, i: nat)
    requires k < |items| && k in added && added[k].kind == Str(CallItem)
    requires holds || (i < |es| && es[i].ArgumentsDone? && es[i].index == Some(k))
    requires forall j :: 0 <= j < |es| ==> es[j].ArgumentsDone? && (es[j].index == Some(k) ==> FinishedWith(added[k], es[j].arguments) == items[k])
    ensures HoldsAtEnd(added, es, items, k, holds)
    decreases |es|
  {
    if es != [] {
      var now := HoldsAfter(added, es[0], items, k, holds);
      assert now || (i > 0 && es[1..][i - 1] == es[i]);
      FinishedHolds(added, es[1..], items, k, now, if i > 0 then i - 1 else |es|);
    }
  }

  /**
   * Done arguments that come after the done item replace it by what was announced. The response stays that
   * of the list exactly if the announcement with those arguments is the item.
   */
  lemma LateArgumentsReplaceItem(parse: Parser, d: Decoder, items: seq<Item>, k: nat, itemId: Option<nat>, arguments: Option<nat>)
    requires items != [] && OnTrack(d, items) && CompletedResponse(parse, Some(items)).Ok?
    requires forall j :: 0 <= j < |items| ==> Holds(d.done, items, j)
    requires k < |items| && k in d.added && d.added[k].kind == Str(CallItem) && InLine(ArgumentsDone(Some(k), itemId, arguments), items)
    ensures Decode(parse, d, [ArgumentsDone(Some(k), itemId, arguments)] + [Ends(Completed, Some(Terminal(false, None)))])
            == CompletedResponse(parse, Some(items))
       <==> FinishedWith(d.added[k], arguments) == items[k]
  {
    ReplacedAtEnd(d, items, k, itemId, arguments);
    MixedStreamIsSnapshot(parse, d, [ArgumentsDone(Some(k), itemId, arguments)], items, None);
  }

  lemma ReplacedAtEnd(d: Decoder, items: seq<Item>, k: nat, itemId: Option<nat>, arguments: Option<nat>)
    requires forall j :: 0 <= j < |items| ==> Holds(d.done, items, j)
    requires k < |items| && k in d.added && d.added[k].kind == Str(CallItem)
    ensures AllHoldAtEnd(d, [ArgumentsDone(Some(k), itemId, arguments)], items) <==> FinishedWith(d.added[k], arguments) == items[k]
  {
    var e := ArgumentsDone(Some(k), itemId, arguments);
    forall j | 0 <= j < |items|
      ensures HoldsAtEnd(d.added, [e], items, j, Holds(d.done, items, j)) == (j == k ==> FinishedWith(d.added[k], arguments) == items[k])
    {
      assert Holds(d.done, items, j);
      OneEvent(d.added, e, items, j, true);
    }
    assert HoldsAtEnd(d.added, [e], items, k, Holds(d.done, items, k)) == (FinishedWith(d.added[k], arguments) == items[k]);
  }

  const CALL := Item(Str(CallItem), Str(1), Str(2), Str(3), Some(4), Some(Finished), None, 5)

  /**
   * A stream that loses a call: it is announced by its type alone, done, and its arguments are sent once more.
   * Without these the response is that of the call, with them it is refused.
   */
  lemma LateArgumentsLoseItem(parse: Parser)
    requires parse(4).Some?
    ensures var announced := Item(Str(CallItem), Absent, Absent, Absent, None, None, None, 0);
            var es := [ItemAdded(Some(0), Some(announced)), ItemDone(Some(0), Some(CALL))];
            var end := [Ends(Completed, Some(Terminal(false, None)))];
            && Decode(parse, START, es + end) == CompletedResponse(parse, Some([CALL]))
            && CompletedResponse(parse, Some([CALL])).Ok?
            && Decode(parse, START, es + [ArgumentsDone(Some(0), None, Some(4))] + end) != CompletedResponse(parse, Some([CALL]))
  {
    var announced := Item(Str(CallItem), Absent, Absent, Absent, None, None, None, 0);
    var one, two := ItemAdded(Some(0), Some(announced)), ItemDone(Some(0), Some(CALL));
    var three, items := ArgumentsDone(Some(0), None, Some(4)), [CALL];
    assert items[..0] == [] && ItemsAdd(parse, items[..0]) == Ok(([], []));
    var added := map[0 := announced];
    assert Announced(map[], one) == added;
    OneEvent(added, three, items, 0, true);
    OneEvent(added, two, items, 0, false);
    assert START.added == map[] && !Holds(START.done, items, 0);
    assert [two, three][1..] == [three] && [one, two][1..] == [two] && [one, two, three][1..] == [two, three];
    assert !HoldsAtEnd(map[], [one, two, three], items, 0, false);
    assert HoldsAtEnd(map[], [one, two], items, 0, false);
    assert [one, two] + [three] == [one, two, three];
    MixedStreamIsSnapshot(parse, START, [one, two], items, None);
    MixedStreamIsSnapshot(parse, START, [one, two, three], items, None);
  }

  lemma OneEvent(added: map<nat, Item>, e: Event, items: seq<Item>, k: nat, holds: bool)
    requires k < |items|
    ensures HoldsAtEnd(added, [e], items, k, holds) == HoldsAfter(added, e, items, k, holds)
  {
    assert [e][1..] == [];
  }

  /** Every decoded response is what its own items decode to. */
  lemma {:induction false} DecodedIsItsItems(parse: Parser, d: Decoder, es: seq<Event>)
    requires d.completed.Some? ==> CompletedResponse(parse, Some(d.completed.value.continuation)) == Ok(d.completed.value)
    requires Decode(parse, d, es).Ok?
    ensures CompletedResponse(parse, Some(Decode(parse, d, es).value.continuation)) == Decode(parse, d, es)
    decreases |es|
  {
    if d.completed.None? {
      DecodedIsItsItems(parse, Take(parse, d, es[0]).value, es[1..]);
    }
  }

  /**
   * Round trip: the items a response carries, streamed again in any order, decode to the same text, the
   * same calls and the same items.
   */
  lemma CarriedItemsDecodeAlike(parse: Parser, es: seq<Event>, arrivals: seq<Arrival>)
    requires Decode(parse, START, es).Ok? && Decode(parse, START, es).value.continuation != []
    requires Delivers(arrivals, Decode(parse, START, es).value.continuation)
    ensures Decode(parse, START, DoneEvents(arrivals) + [Ends(Completed, Some(Terminal(false, None)))]) == Decode(parse, START, es)
  {
    DecodedIsItsItems(parse, START, es);
    StreamedIsSnapshot(parse, START, Decode(parse, START, es).value.continuation, arrivals, None);
  }

  // --- Items without an index ------------------------------------------------------------------------------

  ghost predicate DistinctIds(items: seq<Item>) {
    forall i, j :: 0 <= i < j < |items| && items[i].id.Str? ==> items[i].id != items[j].id
  }

  function Unindexed(items: seq<Item>): seq<Event> {
    seq(|items|, i requires 0 <= i < |items| => ItemDone(None, Some(items[i])))
  }

  /** No item done or announced so far has the id of one of these. */
  ghost predicate NoneKnown(d: Decoder, items: seq<Item>) {
    forall i :: 0 <= i < |items| && items[i].id.Str? ==>
      FindId(d.added, items[i].id.value).None? && FindId(d.done, items[i].id.value).None?
  }

  function Next(d: Decoder): nat {
    NextSlot(d.added.Keys + d.done.Keys)
  }

  /** Items with neither an index nor a known id take the next slots in order of arrival. */
  lemma {:induction false} UnindexedTakeNextSlots(parse: Parser, d: Decoder, items: seq<Item>)
    requires DistinctIds(items) && NoneKnown(d, items) && Next(d) + |items| <= MAX_U64
    ensures var r := TakeAll(parse, d, Unindexed(items));
            r.Ok? && r.value == d.(done := r.value.done) && FiledFrom(d.done, r.value.done, Next(d), items)
    decreases |items|
  {
    if items != [] {
      var n := |items| - 1;
      var es := Unindexed(items);
      assert es[..n] == Unindexed(items[..n]) && es[n] == ItemDone(None, Some(items[n]));
      UnindexedTakeNextSlots(parse, d, items[..n]);
      UnindexedStep(parse, d, TakeAll(parse, d, es[..n]).value.done, items);
    }
  }

  lemma UnindexedStep(parse: Parser, d: Decoder, done: map<nat, Item>, items: seq<Item>)
    requires items != [] && DistinctIds(items) && NoneKnown(d, items) && Next(d) + |items| <= MAX_U64
    requires FiledFrom(d.done, done, Next(d), items[..|items| - 1])
    ensures var last := items[|items| - 1];
            var more := done[Next(d) + |items| - 1 := last];
            && Take(parse, d.(done := done), ItemDone(None, Some(last))) == Ok(d.(done := more))
            && FiledFrom(d.done, more, Next(d), items)
  {
    KeysBelowNext(d);
    UnindexedSlot(d, done, items[..|items| - 1], items[|items| - 1]);
    FiledOneMore(d.done, done, Next(d), items);
    TakeUnannounced(parse, d.(done := done), items[|items| - 1]);
  }

  lemma TakeUnannounced(parse: Parser, d: Decoder, item: Item)
    requires ItemIndex(d.added, d.done, None, item) !in d.added
    ensures Take(parse, d, ItemDone(None, Some(item))) == Ok(d.(done := d.done[ItemIndex(d.added, d.done, None, item) := item]))
  {
  }

  lemma FiledOneMore(before: map<nat, Item>, done: map<nat, Item>, start: nat, items: seq<Item>)
    requires items != [] && FiledFrom(before, done, start, items[..|items| - 1]) && forall k :: k in before ==> k < start
    ensures FiledFrom(before, done[start + |items| - 1 := items[|items| - 1]], start, items)
  {
  }

  lemma KeysBelowNext(d: Decoder)
    requires Next(d) < MAX_U64
    ensures forall k :: k in d.added.Keys + d.done.Keys ==> k < Next(d)
  {
  }

  lemma UnindexedSlot(d: Decoder, done: map<nat, Item>, items: seq<Item>, next: Item)
    requires Next(d) + |items| < MAX_U64 && forall k :: k in d.added.Keys + d.done.Keys ==> k < Next(d)
    requires FiledFrom(d.done, done, Next(d), items)
    requires next.id.Str? ==> FindId(d.added, next.id.value).None? && FindId(d.done, next.id.value).None?
    requires forall i :: 0 <= i < |items| && next.id.Str? ==> items[i].id != next.id
    ensures ItemIndex(d.added, done, None, next) == Next(d) + |items|
  {
    var slot := Next(d) + |items|;
    assert forall k :: k in d.added.Keys + done.Keys ==> k < slot;
    if items != [] {
      assert slot - 1 in d.added.Keys + done.Keys;
    } else {
      assert done == d.done;
    }
    forall k | k in done && next.id.Str?
      ensures done[k].id != next.id
    {
      if k !in d.done { assert done[k] == items[k - Next(d)]; }
    }
  }

  /**
   * Items without index and known id are listed behind those done before, in order of arrival, unless an
   * item announced before is still unfinished.
   */
  lemma UnindexedInArrivalOrder(parse: Parser, d: Decoder, items: seq<Item>, snapshot: Option<seq<Item>>)
    requires DistinctIds(items) && NoneKnown(d, items) && Next(d) + |items| <= MAX_U64 && items != [] && d.completed.None?
    ensures Decode(parse, d, Unindexed(items) + [Ends(Completed, Some(Terminal(false, snapshot)))])
         == if Waiting(d) == {} then CompletedResponse(parse, Some(InOrder(d.done) + items))
            else Err(NotFinishedAt(LeastNat(Waiting(d))))
  {
    var end := [Ends(Completed, Some(Terminal(false, snapshot)))];
    UnindexedTakeNextSlots(parse, d, items);
    DecodeAfter(parse, d, Unindexed(items), end);
    var done := TakeAll(parse, d, Unindexed(items)).value.done;
    KeysBelowNext(d);
    InOrderFrom(d.done, done, Next(d), items);
    assert Next(d) in done;
    assert Waiting(d.(done := done)) == Waiting(d);
    DecodeEnd(parse, d.(done := done), Terminal(false, snapshot));
  }

  // --- Replay in a later request -----------------------------------------------------------------------------

  datatype Continuation = Continuation(format: nat, items: Option<seq<Item>>)

  const FORMAT: nat := 1

  datatype ChatMessage =
    | SystemMessage(content: nat)
    | UserMessage(content: nat)
    | AssistantMessage(text: Option<nat>, calls: seq<Call>, continuation: Option<Continuation>)
    | ToolMessage(callId: nat, content: nat)

  datatype Input =
    | RoleInput(system: bool, content: nat)
    | ReplayedItem(item: Item)
    | AssistantInput(text: nat)
    | CallInput(call: Call)
    | CallOutput(callId: nat, content: nat)

  function ReplayAll(items: seq<Item>): seq<Input> {
    seq(|items|, i requires 0 <= i < |items| => ReplayedItem(items[i]))
  }

  /** What one message becomes: a continuation is replayed instead of text and calls. */
  function InputOf(m: ChatMessage): Result<seq<Input>, Failure> {
    match m
    case SystemMessage(content) => Ok([RoleInput(true, content)])
    case UserMessage(content) => Ok([RoleInput(false, content)])
    case AssistantMessage(text, calls, continuation) =>
      if continuation.Some? then
        if continuation.value.format != FORMAT then Err(UnknownFormat)
        else if continuation.value.items.None? then Err(MissingField)
        else Ok(ReplayAll(continuation.value.items.value))
      else Ok((if text.Some? then [AssistantInput(text.value)] else []) + seq(|calls|, i requires 0 <= i < |calls| => CallInput(calls[i])))
    case ToolMessage(callId, content) => Ok([CallOutput(callId, content)])
  }

  function InputsOf(ms: seq<ChatMessage>): Result<seq<Input>, Failure> {
    if ms == [] then Ok([])
    else
      var before := InputsOf(ms[..|ms| - 1]);
      if before.Err? then before
      else
        var last := InputOf(ms[|ms| - 1]);
        if last.Err? then last else Ok(before.value + last.value)
  }

  function Replayed(inputs: seq<Input>): seq<Item> {
    if inputs == [] then []
    else if inputs[0].ReplayedItem? then [inputs[0].item] + Replayed(inputs[1..])
    else Replayed(inputs[1..])
  }

  lemma {:induction false} ReplayedConcat(a: seq<Input>, b: seq<Input>)
    ensures Replayed(a + b) == Replayed(a) + Replayed(b)
  {
    if a == [] {
      assert a + b == b;
    } else {
      assert (a + b)[1..] == a[1..] + b;
      ReplayedConcat(a[1..], b);
    }
  }

  lemma {:induction false} ReplayedItems(items: seq<Item>)
    ensures Replayed(ReplayAll(items)) == items
  {
    if items != [] {
      assert ReplayAll(items)[1..] == ReplayAll(items[1..]);
      ReplayedItems(items[1..]);
    }
  }

  function ItemsOf(m: ChatMessage): seq<Item> {
    if m.AssistantMessage? && m.continuation.Some? && m.continuation.value.items.Some? then m.continuation.value.items.value else []
  }

  /** The items a history carries, in order. */
  function Carried(ms: seq<ChatMessage>): seq<Item> {
    if ms == [] then []
    else
      var m := ms[|ms| - 1];
      Carried(ms[..|ms| - 1]) + ItemsOf(m)
  }

  lemma NothingReplayed(inputs: seq<Input>)
    requires forall i :: 0 <= i < |inputs| ==> !inputs[i].ReplayedItem?
    ensures Replayed(inputs) == []
  {
    if inputs != [] { NothingReplayed(inputs[1..]); }
  }

  /** A request replays exactly the items of its history's responses, unchanged and in order. */
  lemma {:induction false} RequestReplaysItems(ms: seq<ChatMessage>)
    requires InputsOf(ms).Ok?
    ensures Replayed(InputsOf(ms).value) == Carried(ms)
    decreases |ms|
  {
    if ms != [] {
      var n := |ms| - 1;
      RequestReplaysItems(ms[..n]);
      var last := InputOf(ms[n]).value;
      ReplayedConcat(InputsOf(ms[..n]).value, last);
      assert InputsOf(ms).value == InputsOf(ms[..n]).value + last;
      if ms[n].AssistantMessage? && ms[n].continuation.Some? {
        ReplayedItems(ItemsOf(ms[n]));
      } else {
        NothingReplayed(last);
      }
      assert Replayed(last) == ItemsOf(ms[n]);
    }
  }
}
