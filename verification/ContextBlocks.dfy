/** A conversation and its blocks. */
module ContextBlocks {
  import opened Prelude

  // An assistant message that calls tools stays together with the tool outputs right after it, every other
  // message is a block of its own. A tool output that follows no such message is a block too; a recovered
  // call that suspended after executing leaves one. Texts, names and call ids are opaque values.

  type Text = nat

  datatype Message =
    | System(content: Text)
    | User(content: Text)
    | Assistant(reply: Option<Text>, calls: seq<nat>)
    | Tool(callId: nat, name: nat, content: Text)

  predicate CallsTools(m: Message) {
    m.Assistant? && m.calls != []
  }

  /** How many tool outputs a conversation starts with. */
  function ToolRun(ms: seq<Message>): (n: nat)
    ensures n <= |ms| && (forall i :: 0 <= i < n ==> ms[i].Tool?) && (n < |ms| ==> !ms[n].Tool?)
  {
    if ms == [] || !ms[0].Tool? then 0 else 1 + ToolRun(ms[1..])
  }

  function BlockLength(ms: seq<Message>): (n: nat)
    requires ms != []
    ensures 0 < n <= |ms|
  {
    if CallsTools(ms[0]) then 1 + ToolRun(ms[1..]) else 1
  }

  function Blocks(ms: seq<Message>): (bs: seq<seq<Message>>)
    ensures forall b :: b in bs ==> b != []
    decreases |ms|
  {
    if ms == [] then [] else [ms[..BlockLength(ms)]] + Blocks(ms[BlockLength(ms)..])
  }

  function Flatten(bs: seq<seq<Message>>): seq<Message> {
    if bs == [] then [] else bs[0] + Flatten(bs[1..])
  }

  lemma {:induction false} FlattenConcat(a: seq<seq<Message>>, b: seq<seq<Message>>)
    ensures Flatten(a + b) == Flatten(a) + Flatten(b)
  {
    if a == [] {
      assert a + b == b;
    } else {
      assert (a + b)[1..] == a[1..] + b;
      FlattenConcat(a[1..], b);
    }
  }

  /** The blocks are the conversation, cut up. */
  lemma {:induction false} BlocksConcat(ms: seq<Message>)
    ensures Flatten(Blocks(ms)) == ms
    decreases |ms|
  {
    if ms != [] {
      var n := BlockLength(ms);
      BlocksConcat(ms[n..]);
      assert Blocks(ms)[1..] == Blocks(ms[n..]);
      assert ms[..n] + ms[n..] == ms;
    }
  }

  /** The message at `at` is one of the tool outputs right after the calls at `q`. */
  ghost predicate BelongsTo(ms: seq<Message>, q: nat, at: nat)
    requires q < at < |ms|
  {
    CallsTools(ms[q]) && forall j :: q < j <= at ==> ms[j].Tool?
  }

  /** No tool output right after the cut belongs to calls before it. */
  ghost predicate CleanCut(ms: seq<Message>, at: nat) {
    at <= |ms| && (at < |ms| ==> forall q :: 0 <= q < at ==> !BelongsTo(ms, q, at))
  }

  /** The blocks from `k` on. */
  function From(ms: seq<Message>, k: nat): seq<Message>
    requires k <= |Blocks(ms)|
  {
    Flatten(Blocks(ms)[k..])
  }

  lemma FirstBlock(ms: seq<Message>, k: nat)
    requires 0 < k <= |Blocks(ms)|
    ensures var rest := ms[BlockLength(ms)..];
            Blocks(rest) == Blocks(ms)[1..] && k - 1 <= |Blocks(rest)| && From(ms, k) == From(rest, k - 1)
  {
    assert Blocks(ms)[1..][k - 1..] == Blocks(ms)[k..];
  }

  /** Cuts between blocks separate no tool output from calls that it directly follows. */
  lemma {:induction false} BlockCutsAreClean(ms: seq<Message>, k: nat)
    requires k <= |Blocks(ms)|
    ensures |From(ms, k)| <= |ms| && From(ms, k) == ms[|ms| - |From(ms, k)|..]
    ensures CleanCut(ms, |ms| - |From(ms, k)|)
    decreases |ms|
  {
    BlocksConcat(ms);
    if k == 0 {
      assert Blocks(ms)[0..] == Blocks(ms);
    } else {
      var n, rest := BlockLength(ms), ms[BlockLength(ms)..];
      FirstBlock(ms, k);
      BlockCutsAreClean(rest, k - 1);
      var inner := |rest| - |From(rest, k - 1)|;
      assert rest[inner..] == ms[n + inner..];
      CleanLater(ms, inner);
    }
  }

  /** A clean cut behind the first block is clean in the whole. */
  lemma CleanLater(ms: seq<Message>, inner: nat)
    requires ms != [] && CleanCut(ms[BlockLength(ms)..], inner)
    ensures CleanCut(ms, BlockLength(ms) + inner)
  {
    var n := BlockLength(ms);
    var rest, at := ms[n..], n + inner;
    if at < |ms| {
      assert CallsTools(ms[0]) ==> ms[n] == ms[1..][n - 1] && !ms[n].Tool?;
      forall q | 0 <= q < at
        ensures !BelongsTo(ms, q, at)
      {
        if q >= n {
          assert !BelongsTo(rest, q - n, inner);
          forall j | q - n < j <= inner ensures rest[j] == ms[j + n] {}
        } else if q > 0 {
          assert ms[q] == ms[1..][q - 1];
        }
      }
    }
  }

  // --- Outputs and the calls of their ids -------------------------------------------------------------

  predicate Calls(m: Message, id: nat) {
    m.Assistant? && id in m.calls
  }

  predicate CalledBefore(ms: seq<Message>, at: nat, id: nat)
    requires at <= |ms|
  {
    exists q :: 0 <= q < at && Calls(ms[q], id)
  }

  /** Every tool output comes after a message with the call of its id. */
  predicate Called(ms: seq<Message>) {
    forall i :: 0 <= i < |ms| && ms[i].Tool? ==> CalledBefore(ms, i, ms[i].callId)
  }

  /** Every tool output of the block has its call in the block's first message. */
  predicate BlockInPlace(b: seq<Message>) {
    forall i :: 0 <= i < |b| && b[i].Tool? ==> Calls(b[0], b[i].callId)
  }

  predicate InPlace(ms: seq<Message>) {
    forall b :: b in Blocks(ms) ==> BlockInPlace(b)
  }

  /** Behind its first message it has nothing but tool outputs, and those only behind calls. */
  predicate Block(b: seq<Message>) {
    forall i :: 0 < i < |b| ==> b[i].Tool? && CallsTools(b[0])
  }

  lemma {:induction false} BlockShape(ms: seq<Message>, k: nat)
    requires k < |Blocks(ms)|
    ensures Block(Blocks(ms)[k])
    decreases k
  {
    var n := BlockLength(ms);
    if k > 0 {
      assert Blocks(ms)[k] == Blocks(ms[n..])[k - 1];
      BlockShape(ms[n..], k - 1);
    } else {
      forall i | 0 < i < n
        ensures ms[..n][i].Tool? && CallsTools(ms[0])
      {
        assert ms[..n][i] == ms[1..][i - 1];
      }
      assert Blocks(ms)[0] == ms[..n];
    }
  }

  lemma CalledConcat(a: seq<Message>, b: seq<Message>)
    requires Called(a) && Called(b)
    ensures Called(a + b)
  {
    var ms := a + b;
    forall i | 0 <= i < |ms| && ms[i].Tool?
      ensures CalledBefore(ms, i, ms[i].callId)
    {
      if i < |a| {
        assert CalledBefore(a, i, a[i].callId);
        var q :| 0 <= q < i && Calls(a[q], a[i].callId);
        assert Calls(ms[q], ms[i].callId);
      } else {
        assert CalledBefore(b, i - |a|, b[i - |a|].callId);
        var q :| 0 <= q < i - |a| && Calls(b[q], b[i - |a|].callId);
        assert Calls(ms[|a| + q], ms[i].callId);
      }
    }
  }

  lemma {:induction false} FlattenCalled(bs: seq<seq<Message>>)
    requires forall b :: b in bs ==> b != [] && BlockInPlace(b)
    ensures Called(Flatten(bs))
  {
    if bs != [] {
      var b := bs[0];
      forall i | 0 <= i < |b| && b[i].Tool?
        ensures CalledBefore(b, i, b[i].callId)
      {
        assert b in bs && Calls(b[0], b[i].callId);
      }
      forall c | c in bs[1..] ensures c != [] && BlockInPlace(c) { assert c in bs; }
      FlattenCalled(bs[1..]);
      CalledConcat(b, Flatten(bs[1..]));
    }
  }

  /** A block that is kept with all that follows needs its calls within itself. */
  lemma CalledBlock(ms: seq<Message>, k: nat)
    requires k < |Blocks(ms)| && Called(From(ms, k))
    ensures BlockInPlace(Blocks(ms)[k])
  {
    var b, from := Blocks(ms)[k], From(ms, k);
    BlockShape(ms, k);
    assert Blocks(ms)[k..][0] == b && from == b + Flatten(Blocks(ms)[k..][1..]);
    forall i | 0 <= i < |b| && b[i].Tool?
      ensures Calls(b[0], b[i].callId)
    {
      assert from[i] == b[i] && CalledBefore(from, i, b[i].callId);
      var q :| 0 <= q < i && Calls(from[q], b[i].callId);
      assert from[q] == b[q];
    }
  }

  /**
   * No cut between blocks keeps a tool output without the call of its id if and only if every output
   * stands in a block whose first message makes that call.
   */
  lemma CutsKeepCallsIff(ms: seq<Message>)
    ensures (forall k: nat :: k <= |Blocks(ms)| ==> Called(From(ms, k))) <==> InPlace(ms)
  {
    if InPlace(ms) {
      forall k: nat | k <= |Blocks(ms)|
        ensures Called(From(ms, k))
      {
        forall b | b in Blocks(ms)[k..] ensures b != [] && BlockInPlace(b) { assert b in Blocks(ms); }
        FlattenCalled(Blocks(ms)[k..]);
      }
    } else {
      var b :| b in Blocks(ms) && !BlockInPlace(b);
      var k :| 0 <= k < |Blocks(ms)| && Blocks(ms)[k] == b;
      if Called(From(ms, k)) { CalledBlock(ms, k); }
    }
  }

  // --- Blocks message by message -----------------------------------------------------------------------

  /** The calls of the block that is open, and whether every output so far was in place. */
  datatype Place = Place(run: set<nat>, ok: bool)

  function Next(p: Place, m: Message): Place {
    match m
    case Assistant(_, calls) => Place((set id | id in calls), p.ok)
    case Tool(id, _, _) => p.(ok := p.ok && id in p.run)
    case _ => Place({}, p.ok)
  }

  function Places(p: Place, ms: seq<Message>): Place {
    if ms == [] then p else Next(Places(p, ms[..|ms| - 1]), ms[|ms| - 1])
  }

  lemma {:induction false} PlacesConcat(p: Place, a: seq<Message>, b: seq<Message>)
    ensures Places(p, a + b) == Places(Places(p, a), b)
    decreases |b|
  {
    if b == [] {
      assert a + b == a;
    } else {
      assert (a + b)[..|a + b| - 1] == a + b[..|b| - 1];
      PlacesConcat(p, a, b[..|b| - 1]);
    }
  }

  lemma {:induction false} PlacesOfTools(p: Place, ms: seq<Message>)
    requires forall i :: 0 <= i < |ms| ==> ms[i].Tool?
    ensures Places(p, ms) == Place(p.run, p.ok && forall i :: 0 <= i < |ms| ==> ms[i].callId in p.run)
    decreases |ms|
  {
    if ms != [] { PlacesOfTools(p, ms[..|ms| - 1]); }
  }

  lemma PlacesOfBlock(p: Place, b: seq<Message>)
    requires b != [] && Block(b)
    requires b[0].Tool? ==> p.run == {}
    ensures Places(p, b).ok <==> p.ok && BlockInPlace(b)
    ensures Places(p, b).run != {} ==> CallsTools(b[0])
  {
    var first, rest := b[..1], b[1..];
    assert b == first + rest && first == [b[0]] && first[..0] == [];
    PlacesConcat(p, first, rest);
    var q := Next(p, b[0]);
    assert Places(p, first) == q;
    PlacesOfTools(q, rest);
    assert forall i :: 0 < i < |b| ==> b[i] == rest[i - 1];
    if b[0].Assistant? && b[0].calls != [] { assert b[0].calls[0] in q.run; }
  }

  lemma FirstInPlace(ms: seq<Message>)
    requires ms != []
    ensures var b, rest := ms[..BlockLength(ms)], ms[BlockLength(ms)..];
            Blocks(ms)[0] == b && (InPlace(ms) <==> BlockInPlace(b) && InPlace(rest))
  {
    var b, rest := ms[..BlockLength(ms)], ms[BlockLength(ms)..];
    assert Blocks(ms) == [b] + Blocks(rest);
    forall c ensures c in Blocks(ms) <==> c == b || c in Blocks(rest) {}
  }

  lemma {:induction false} InPlaceIs(p: Place, ms: seq<Message>)
    requires ms != [] && ms[0].Tool? ==> p.run == {}
    ensures Places(p, ms).ok <==> p.ok && InPlace(ms)
    decreases |ms|
  {
    if ms != [] {
      var b, rest := ms[..BlockLength(ms)], ms[BlockLength(ms)..];
      BlockShape(ms, 0);
      FirstInPlace(ms);
      assert ms == b + rest;
      PlacesConcat(p, b, rest);
      PlacesOfBlock(p, b);
      if CallsTools(ms[0]) && rest != [] { assert rest[0] == ms[1..][BlockLength(ms) - 1]; }
      InPlaceIs(Places(p, b), rest);
    }
  }

  /** A conversation that goes on with anything but a tool output is in place exactly if both parts are. */
  lemma InPlaceConcat(a: seq<Message>, b: seq<Message>)
    requires b == [] || !b[0].Tool?
    ensures InPlace(a + b) <==> InPlace(a) && InPlace(b)
  {
    var start := Place({}, true);
    PlacesConcat(start, a, b);
    InPlaceIs(start, a);
    InPlaceIs(Places(start, a), b);
    InPlaceIs(start, a + b);
  }

  // --- Appending -----------------------------------------------------------------------------------

  lemma {:induction false} ToolRunAppend(a: seq<Message>, b: seq<Message>)
    ensures ToolRun(a) <= ToolRun(a + b)
    ensures ToolRun(a) < |a| ==> ToolRun(a + b) == ToolRun(a)
  {
    if a != [] && a[0].Tool? {
      assert (a + b)[1..] == a[1..] + b;
      ToolRunAppend(a[1..], b);
    }
  }

  lemma BlockLengthAppend(a: seq<Message>, b: seq<Message>)
    requires a != []
    ensures BlockLength(a) <= BlockLength(a + b)
    ensures BlockLength(a) < |a| ==> BlockLength(a + b) == BlockLength(a)
  {
    assert (a + b)[1..] == a[1..] + b;
    ToolRunAppend(a[1..], b);
  }

  /** Appending leaves all blocks but the last as they are, and the last one can only grow. */
  lemma {:induction false} BlocksAppend(a: seq<Message>, b: seq<Message>)
    requires a != []
    ensures var n := |Blocks(a)|;
            0 < n <= |Blocks(a + b)| && Blocks(a + b)[..n - 1] == Blocks(a)[..n - 1] && Blocks(a)[n - 1] <= Blocks(a + b)[n - 1]
    decreases |a|
  {
    var k := BlockLength(a);
    BlockLengthAppend(a, b);
    if k < |a| {
      assert (a + b)[k..] == a[k..] + b && (a + b)[..k] == a[..k];
      BlocksAppend(a[k..], b);
    }
  }

  /** `tool_call_blocks`. */
  method ToolCallBlocks(messages: seq<Message>) returns (groups: seq<seq<Message>>)
    ensures groups == Blocks(messages)
  {
    groups := [];
    var index := 0;
    while index < |messages|
      invariant index <= |messages|
      invariant groups + Blocks(messages[index..]) == Blocks(messages)
    {
      ghost var rest, before := messages[index..], groups;
      var group := NextGroup(messages, index);
      assert rest != [] && rest[BlockLength(rest)..] == messages[index + |group|..];
      assert Blocks(rest) == [group] + Blocks(messages[index + |group|..]);
      index := index + |group|;
      groups := groups + [group];
      assert before + Blocks(rest) == groups + Blocks(messages[index..]);
    }
  }

  /** The inner loop: an assistant message with calls takes the tool outputs after it along. */
  method NextGroup(messages: seq<Message>, start: nat) returns (group: seq<Message>)
    requires start < |messages|
    ensures var rest := messages[start..];
            group == rest[..BlockLength(rest)]
  {
    group := [messages[start]];
    if CallsTools(group[0]) {
      var index := start + 1;
      while index < |messages| && messages[index].Tool?
        invariant start < index <= |messages|
        invariant group == messages[start..index]
        invariant forall i :: start < i < index ==> messages[i].Tool?
      {
        group := group + [messages[index]];
        index := index + 1;
      }
      RunIs(messages[start..][1..], index - start - 1);
    }
  }

  lemma RunIs(ms: seq<Message>, n: nat)
    requires n <= |ms| && (forall i :: 0 <= i < n ==> ms[i].Tool?) && (n < |ms| ==> !ms[n].Tool?)
    ensures ToolRun(ms) == n
  {
  }
}
