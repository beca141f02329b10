/** The streaming chat-completions decoder. */
module SseStream {
  import opened Prelude

  // A byte buffer is cut into frames as chunks arrive, each frame into lines, and the data lines carry events
  // whose deltas are assembled into text and tool calls. UTF-8 validation, Unicode trimming and JSON parsing
  // are parameters.

  const CR: byte := 13
  const LF: byte := 10

  const DATA: Bytes := [100, 97, 116, 97, 58]
  const DONE: Bytes := [91, 68, 79, 78, 69, 93]

  // --- Frames ---------------------------------------------------------------------------------

  datatype End = End(index: nat, length: nat)

  /** A frame delimiter of that length stands at that position. */
  predicate DelimiterAt(b: Bytes, i: nat, n: nat) {
    (n == 2 && i + 2 <= |b| && b[i] == LF && b[i + 1] == LF)
    || (n == 4 && i + 4 <= |b| && b[i] == CR && b[i + 1] == LF && b[i + 2] == CR && b[i + 3] == LF)
  }

  predicate AnyDelimiterAt(b: Bytes, i: nat) {
    DelimiterAt(b, i, 2) || DelimiterAt(b, i, 4)
  }

  /** The earliest delimiter at or after `from`. */
  function FrameEndFrom(b: Bytes, from: nat): (e: Option<End>)
    ensures e.Some? ==> from <= e.value.index && DelimiterAt(b, e.value.index, e.value.length)
                        && forall j :: from <= j < e.value.index ==> !AnyDelimiterAt(b, j)
    ensures e.None? ==> forall j :: from <= j < |b| ==> !AnyDelimiterAt(b, j)
    decreases |b| - from
  {
    if from >= |b| then None
    else if DelimiterAt(b, from, 2) then Some(End(from, 2))
    else if DelimiterAt(b, from, 4) then Some(End(from, 4))
    else FrameEndFrom(b, from + 1)
  }

  function FrameEnd(b: Bytes): (e: Option<End>)
    ensures e.Some? ==> DelimiterAt(b, e.value.index, e.value.length) && forall j :: 0 <= j < e.value.index ==> !AnyDelimiterAt(b, j)
    ensures e.None? ==> forall j :: 0 <= j < |b| ==> !AnyDelimiterAt(b, j)
  {
    FrameEndFrom(b, 0)
  }

  /** The two delimiters start with different bytes, so the earliest one is determined. */
  lemma FrameEndIs(b: Bytes, i: nat, n: nat)
    requires DelimiterAt(b, i, n) && forall j :: 0 <= j < i ==> !AnyDelimiterAt(b, j)
    ensures FrameEnd(b) == Some(End(i, n))
  {
    assert AnyDelimiterAt(b, i);
    assert FrameEnd(b).Some? ==> AnyDelimiterAt(b, FrameEnd(b).value.index);
  }

  /** `find_sse_frame_end`. */
  method FindFrameEnd(buffer: Bytes) returns (e: Option<End>)
    ensures e == FrameEnd(buffer)
  {
    for index := 0 to |buffer|
      invariant forall j :: 0 <= j < index ==> !AnyDelimiterAt(buffer, j)
    {
      if index + 2 <= |buffer| && buffer[index..index + 2] == [LF, LF] {
        assert buffer[index] == [LF, LF][0] && buffer[index + 1] == [LF, LF][1];
        FrameEndIs(buffer, index, 2);
        return Some(End(index, 2));
      }
      if index + 4 <= |buffer| && buffer[index..index + 4] == [CR, LF, CR, LF] {
        ghost var four := buffer[index..index + 4];
        assert four[0] == buffer[index] && four[1] == buffer[index + 1] && four[2] == buffer[index + 2] && four[3] == buffer[index + 3];
        FrameEndIs(buffer, index, 4);
        return Some(End(index, 4));
      }
    }
    e := None;
    assert FrameEnd(buffer).Some? ==> AnyDelimiterAt(buffer, FrameEnd(buffer).value.index);
  }

  /** Later bytes cannot bring the first frame end forward, not even by completing a split delimiter. */
  lemma FrameEndIsStable(a: Bytes, b: Bytes)
    requires FrameEnd(a).Some?
    ensures FrameEnd(a + b) == FrameEnd(a)
  {
    var End(i, n) := FrameEnd(a).value;
    forall j | 0 <= j < i
      ensures !AnyDelimiterAt(a + b, j)
    {
      assert !AnyDelimiterAt(a, j);
    }
    assert DelimiterAt(a + b, i, n);
    FrameEndIs(a + b, i, n);
  }

  // --- Events -----------------------------------------------------------------------------------

  /** One increment of a streamed tool call; the source nests name and arguments in `function`. */
  datatype CallDelta = CallDelta(index: nat, id: Option<Bytes>, name: Option<Bytes>, arguments: Option<Bytes>)

  datatype Choice = Choice(content: Option<Bytes>, deltas: seq<CallDelta>)

  datatype StreamEvent = StreamEvent(choices: seq<Choice>, usage: Option<nat>, error: Option<Bytes>)

  datatype Emitted = OutputProgress | TokenUsage(usage: nat) | AssistantDelta(text: Bytes)

  datatype Failure =
    | InvalidUtf8
    | InvalidJson
    | ProviderError(message: Bytes)
    | MissingId
    | MissingName(id: Bytes)
    | InvalidArguments(id: Bytes)

  datatype Codec = Codec(validUtf8: Bytes -> bool, trim: Bytes -> Bytes, event: Bytes -> Option<StreamEvent>, arguments: Bytes -> Option<nat>)

  datatype Partial = Partial(id: Option<Bytes>, name: Option<Bytes>, arguments: Bytes)

  const BLANK := Partial(None, None, [])

  /** Everything decoded so far. */
  datatype Output = Output(text: Bytes, calls: map<nat, Partial>, emitted: seq<Emitted>)

  const NOTHING := Output([], map[], [])

  datatype Step = Going(out: Output) | Stopped(out: Output, failure: Failure)

  /** `apply_delta`: the last id and name win, arguments are joined. */
  function ApplyDelta(p: Partial, d: CallDelta): Partial {
    Partial(if d.id.Some? then d.id else p.id,
            if d.name.Some? then d.name else p.name,
            p.arguments + if d.arguments.Some? then d.arguments.value else [])
  }

  function AddDelta(calls: map<nat, Partial>, d: CallDelta): map<nat, Partial> {
    calls[d.index := ApplyDelta(if d.index in calls then calls[d.index] else BLANK, d)]
  }

  function AddDeltas(calls: map<nat, Partial>, ds: seq<CallDelta>): map<nat, Partial> {
    if ds == [] then calls else AddDelta(AddDeltas(calls, ds[..|ds| - 1]), ds[|ds| - 1])
  }

  predicate NonEmpty(b: Option<Bytes>) {
    b.Some? && b.value != []
  }

  predicate HasOutput(e: StreamEvent) {
    exists i :: 0 <= i < |e.choices| && (NonEmpty(e.choices[i].content)
      || exists j :: 0 <= j < |e.choices[i].deltas| && ShowsOutput(e.choices[i].deltas[j]))
  }

  predicate ShowsOutput(d: CallDelta) {
    NonEmpty(d.id) || NonEmpty(d.name) || NonEmpty(d.arguments)
  }

  function TakeChoice(out: Output, c: Choice): Output {
    var calls := AddDeltas(out.calls, c.deltas);
    if c.content.Some? then Output(out.text + c.content.value, calls, out.emitted + [AssistantDelta(c.content.value)])
    else out.(calls := calls)
  }

  function TakeChoices(out: Output, cs: seq<Choice>): Output {
    if cs == [] then out else TakeChoice(TakeChoices(out, cs[..|cs| - 1]), cs[|cs| - 1])
  }

  function Emit(out: Output, e: Emitted): Output {
    out.(emitted := out.emitted + [e])
  }

  /** Progress and usage are reported before any text of the event. */
  function Announce(out: Output, e: StreamEvent): Output {
    var progressed := if HasOutput(e) then Emit(out, OutputProgress) else out;
    if e.usage.Some? then Emit(progressed, TokenUsage(e.usage.value)) else progressed
  }

  function TakeEvent(out: Output, e: StreamEvent): Step {
    if e.error.Some? then Stopped(out, ProviderError(e.error.value))
    else Going(TakeChoices(Announce(out, e), e.choices))
  }

  /** One line of a frame. */
  function TakeLine(codec: Codec, out: Output, line: Bytes): Step {
    if !(DATA <= line) then Going(out)
    else
      var data := codec.trim(line[|DATA|..]);
      if data == [] || data == DONE then Going(out)
      else
        var e := codec.event(data);
        if e.None? then Stopped(out, InvalidJson) else TakeEvent(out, e.value)
  }

  function TakeLines(codec: Codec, out: Output, lines: seq<Bytes>): Step
    decreases |lines|
  {
    if lines == [] then Going(out)
    else
      var s := TakeLine(codec, out, lines[0]);
      if s.Stopped? then s else TakeLines(codec, s.out, lines[1..])
  }

  /** The position of the first line feed, or the length. */
  function LineEnd(b: Bytes): (n: nat)
    ensures n <= |b| && (n < |b| ==> b[n] == LF) && forall j :: 0 <= j < n ==> b[j] != LF
  {
    if b == [] || b[0] == LF then 0 else 1 + LineEnd(b[1..])
  }

  function WithoutCr(line: Bytes): Bytes {
    if line != [] && line[|line| - 1] == CR then line[..|line| - 1] else line
  }

  /** Lines end with a line feed, a carriage return before it belongs to the ending. */
  function Lines(b: Bytes): seq<Bytes>
    decreases |b|
  {
    if b == [] then []
    else
      var n := LineEnd(b);
      if n < |b| then [WithoutCr(b[..n])] + Lines(b[n + 1..]) else [b]
  }

  function TakeFrame(codec: Codec, out: Output, frame: Bytes): Step {
    if !codec.validUtf8(frame) then Stopped(out, InvalidUtf8) else TakeLines(codec, out, Lines(frame))
  }

  // --- The buffer -----------------------------------------------------------------------------------

  datatype Drained = Drained(rest: Bytes, out: Output) | Broken(out: Output, failure: Failure)

  /** Takes all complete frames off the buffer. */
  function Drain(codec: Codec, buffer: Bytes, out: Output): Drained
    decreases |buffer|
  {
    var e := FrameEnd(buffer);
    if e.None? then Drained(buffer, out)
    else
      var s := TakeFrame(codec, out, buffer[..e.value.index]);
      if s.Stopped? then Broken(s.out, s.failure)
      else Drain(codec, buffer[e.value.index + e.value.length..], s.out)
  }

  /** The chunk loop. */
  function Feed(codec: Codec, chunks: seq<Bytes>): Drained {
    if chunks == [] then Drained([], NOTHING)
    else
      var d := Feed(codec, chunks[..|chunks| - 1]);
      if d.Broken? then d else Drain(codec, d.rest + chunks[|chunks| - 1], d.out)
  }

  function Flatten(chunks: seq<Bytes>): Bytes {
    if chunks == [] then [] else Flatten(chunks[..|chunks| - 1]) + chunks[|chunks| - 1]
  }

  predicate AsciiSpace(b: byte) {
    b == 32 || b == 9 || b == LF || b == 12 || b == CR
  }

  predicate Blank(b: Bytes) {
    forall i :: 0 <= i < |b| ==> AsciiSpace(b[i])
  }

  /** What is left at the end of the stream is a frame too, unless it is blank. */
  function Finish(codec: Codec, d: Drained): Step {
    if d.Broken? then Stopped(d.out, d.failure)
    else if Blank(d.rest) then Going(d.out)
    else TakeFrame(codec, d.out, d.rest)
  }

  /** The first frame of a longer buffer is the same, and so is what follows it. */
  lemma FirstFrame(a: Bytes, b: Bytes)
    requires FrameEnd(a).Some?
    ensures var End(i, n) := FrameEnd(a).value;
            FrameEnd(a + b) == Some(End(i, n)) && (a + b)[..i] == a[..i] && (a + b)[i + n..] == a[i + n..] + b
  {
    FrameEndIsStable(a, b);
  }

  /** Draining in two goes is draining once. */
  lemma {:induction false} DrainAppend(codec: Codec, a: Bytes, b: Bytes, out: Output)
    ensures var d := Drain(codec, a, out);
            Drain(codec, a + b, out) == if d.Broken? then d else Drain(codec, d.rest + b, d.out)
    decreases |a|
  {
    if FrameEnd(a).Some? {
      FirstFrame(a, b);
      var End(i, n) := FrameEnd(a).value;
      var s := TakeFrame(codec, out, a[..i]);
      if s.Going? { DrainAppend(codec, a[i + n..], b, s.out); }
    }
  }

  lemma {:induction false} FeedIsDrain(codec: Codec, chunks: seq<Bytes>)
    ensures Feed(codec, chunks) == Drain(codec, Flatten(chunks), NOTHING)
  {
    if chunks != [] {
      var n := |chunks| - 1;
      FeedIsDrain(codec, chunks[..n]);
      DrainAppend(codec, Flatten(chunks[..n]), chunks[n], NOTHING);
    }
  }

  /** However the bytes arrive, what is emitted, decoded or refused is that of the whole byte string. */
  lemma ChunkingIsInvisible(codec: Codec, chunks: seq<Bytes>, other: seq<Bytes>)
    requires Flatten(chunks) == Flatten(other)
    ensures Finish(codec, Feed(codec, chunks)) == Finish(codec, Feed(codec, other))
    ensures Finish(codec, Feed(codec, chunks)) == Finish(codec, Drain(codec, Flatten(chunks), NOTHING))
  {
    FeedIsDrain(codec, chunks);
    FeedIsDrain(codec, other);
  }

  // --- The text is what was emitted ----------------------------------------------------------------

  /** The text of all deltas that were emitted, in order. */
  function Spoken(emitted: seq<Emitted>): Bytes {
    if emitted == [] then []
    else
      var n := |emitted| - 1;
      Spoken(emitted[..n]) + if emitted[n].AssistantDelta? then emitted[n].text else []
  }

  ghost predicate Consistent(out: Output) {
    out.text == Spoken(out.emitted)
  }

  lemma EmitConsistent(out: Output, e: Emitted)
    requires Consistent(out) && !e.AssistantDelta?
    ensures Consistent(Emit(out, e))
  {
    assert (out.emitted + [e])[..|out.emitted|] == out.emitted;
  }

  lemma ChoiceConsistent(out: Output, c: Choice)
    requires Consistent(out)
    ensures Consistent(TakeChoice(out, c))
  {
    if c.content.Some? { assert (out.emitted + [AssistantDelta(c.content.value)])[..|out.emitted|] == out.emitted; }
  }

  lemma {:induction false} ChoicesConsistent(out: Output, cs: seq<Choice>)
    requires Consistent(out)
    ensures Consistent(TakeChoices(out, cs))
    decreases |cs|
  {
    if cs != [] {
      ChoicesConsistent(out, cs[..|cs| - 1]);
      ChoiceConsistent(TakeChoices(out, cs[..|cs| - 1]), cs[|cs| - 1]);
    }
  }

  lemma EventConsistent(out: Output, e: StreamEvent)
    requires Consistent(out)
    ensures Consistent(TakeEvent(out, e).out)
  {
    if e.error.None? {
      EmitConsistent(out, OutputProgress);
      var progressed := if HasOutput(e) then Emit(out, OutputProgress) else out;
      if e.usage.Some? { EmitConsistent(progressed, TokenUsage(e.usage.value)); }
      ChoicesConsistent(Announce(out, e), e.choices);
    }
  }

  lemma LineConsistent(codec: Codec, out: Output, line: Bytes)
    requires Consistent(out)
    ensures Consistent(TakeLine(codec, out, line).out)
  {
    if DATA <= line {
      var data := codec.trim(line[|DATA|..]);
      if codec.event(data).Some? { EventConsistent(out, codec.event(data).value); }
    }
  }

  lemma {:induction false} LinesConsistent(codec: Codec, out: Output, lines: seq<Bytes>)
    requires Consistent(out)
    ensures Consistent(TakeLines(codec, out, lines).out)
    decreases |lines|
  {
    if lines != [] {
      LineConsistent(codec, out, lines[0]);
      var s := TakeLine(codec, out, lines[0]);
      if s.Going? { LinesConsistent(codec, s.out, lines[1..]); }
    }
  }

  lemma {:induction false} DrainConsistent(codec: Codec, buffer: Bytes, out: Output)
    requires Consistent(out)
    ensures Consistent(Drain(codec, buffer, out).out)
    decreases |buffer|
  {
    var e := FrameEnd(buffer);
    if e.Some? {
      LinesConsistent(codec, out, Lines(buffer[..e.value.index]));
      var s := TakeFrame(codec, out, buffer[..e.value.index]);
      if s.Going? { DrainConsistent(codec, buffer[e.value.index + e.value.length..], s.out); }
    }
  }

  /** At every end of every stream, broken off or not, the text is what was emitted as text, put together. */
  lemma TextIsEmitted(codec: Codec, chunks: seq<Bytes>)
    ensures var out := Finish(codec, Feed(codec, chunks)).out;
            out.text == Spoken(out.emitted)
  {
    FeedIsDrain(codec, chunks);
    DrainConsistent(codec, Flatten(chunks), NOTHING);
    var d := Feed(codec, chunks);
    if d.Drained? { LinesConsistent(codec, d.out, Lines(d.rest)); }
  }

  // --- Framing round trip -----------------------------------------------------------------------------

  /** A payload that an encoder may send: no delimiter inside, no line ending at the end. */
  predicate Payload(f: Bytes) {
    (f != [] ==> f[|f| - 1] != LF && f[|f| - 1] != CR) && forall i :: 0 <= i < |f| ==> !AnyDelimiterAt(f, i)
  }

  /** A payload, and whether the blank line behind it is written with carriage returns. */
  datatype Frame = Frame(payload: Bytes, crlf: bool)

  function Delimiter(crlf: bool): Bytes {
    if crlf then [CR, LF, CR, LF] else [LF, LF]
  }

  /** Each payload followed by a blank line. */
  function Framed(frames: seq<Frame>): Bytes {
    if frames == [] then [] else frames[0].payload + Delimiter(frames[0].crlf) + Framed(frames[1..])
  }

  function TakeFrames(codec: Codec, out: Output, frames: seq<Frame>): Step
    decreases |frames|
  {
    if frames == [] then Going(out)
    else
      var s := TakeFrame(codec, out, frames[0].payload);
      if s.Stopped? then s else TakeFrames(codec, s.out, frames[1..])
  }

  lemma PayloadEnd(f: Bytes, crlf: bool, rest: Bytes)
    requires Payload(f)
    ensures FrameEnd(f + Delimiter(crlf) + rest) == Some(End(|f|, |Delimiter(crlf)|))
  {
    var b := f + Delimiter(crlf) + rest;
    assert b[|f|] == Delimiter(crlf)[0] && b[|f| + 1] == Delimiter(crlf)[1];
    if crlf { assert b[|f| + 2] == CR && b[|f| + 3] == LF; }
    forall j | 0 <= j < |f|
      ensures !AnyDelimiterAt(b, j)
    {
      assert !AnyDelimiterAt(f, j);
      assert forall i :: 0 <= i < |f| ==> b[i] == f[i];
    }
    FrameEndIs(b, |f|, |Delimiter(crlf)|);
  }

  /** What is framed arrives: exactly those payloads are taken, in order, and what follows is drained behind them. */
  lemma {:induction false} FramesArrive(codec: Codec, frames: seq<Frame>, rest: Bytes, out: Output)
    requires forall i :: 0 <= i < |frames| ==> Payload(frames[i].payload)
    ensures var s := TakeFrames(codec, out, frames);
            Drain(codec, Framed(frames) + rest, out) == if s.Stopped? then Broken(s.out, s.failure) else Drain(codec, rest, s.out)
    decreases |frames|
  {
    if frames == [] {
      assert [] + rest == rest;
    } else {
      var f, crlf, more := frames[0].payload, frames[0].crlf, Framed(frames[1..]) + rest;
      assert Framed(frames) + rest == f + Delimiter(crlf) + more;
      PayloadEnd(f, crlf, more);
      assert (f + Delimiter(crlf) + more)[..|f|] == f;
      assert (f + Delimiter(crlf) + more)[|f| + |Delimiter(crlf)|..] == more;
      var s := TakeFrame(codec, out, f);
      if s.Going? { FramesArrive(codec, frames[1..], rest, s.out); }
    }
  }

  /** Only tabs, line feeds, form feeds, carriage returns and spaces. */
  predicate OnlySpace(b: Bytes) {
    forall i :: 0 <= i < |b| ==> b[i] == 9 || b[i] == 10 || b[i] == 12 || b[i] == 13 || b[i] == 32
  }

  lemma BlankIs(b: Bytes)
    ensures Blank(b) <==> OnlySpace(b)
  {
  }

  lemma NoEnd(rest: Bytes)
    requires forall i :: 0 <= i < |rest| ==> !AnyDelimiterAt(rest, i)
    ensures FrameEnd(rest).None?
  {
    assert FrameEnd(rest).Some? ==> AnyDelimiterAt(rest, FrameEnd(rest).value.index);
  }

  /**
   * Sent in frames and cut anywhere, a stream decodes to what its payloads say, and last to what the rest
   * says that no blank line ended, unless that is blank.
   */
  lemma AnyCutDecodes(codec: Codec, frames: seq<Frame>, rest: Bytes, chunks: seq<Bytes>)
    requires forall i :: 0 <= i < |frames| ==> Payload(frames[i].payload)
    requires forall i :: 0 <= i < |rest| ==> !AnyDelimiterAt(rest, i)
    requires Flatten(chunks) == Framed(frames) + rest
    ensures var s := TakeFrames(codec, NOTHING, frames);
            Finish(codec, Feed(codec, chunks))
              == if s.Stopped? || OnlySpace(rest) then s else TakeFrame(codec, s.out, rest)
  {
    FeedIsDrain(codec, chunks);
    FramesArrive(codec, frames, rest, NOTHING);
    NoEnd(rest);
    BlankIs(rest);
  }

  // --- Tool calls ---------------------------------------------------------------------------------------

  /** The deltas of one call, in order. */
  function OfIndex(ds: seq<CallDelta>, index: nat): seq<CallDelta> {
    if ds == [] then []
    else OfIndex(ds[..|ds| - 1], index) + if ds[|ds| - 1].index == index then [ds[|ds| - 1]] else []
  }

  function Assemble(p: Partial, ds: seq<CallDelta>): Partial {
    if ds == [] then p else ApplyDelta(Assemble(p, ds[..|ds| - 1]), ds[|ds| - 1])
  }

  /** A call is assembled from its own deltas alone. */
  lemma {:induction false} AssemblyIsPerIndex(ds: seq<CallDelta>, index: nat)
    ensures index in AddDeltas(map[], ds) <==> OfIndex(ds, index) != []
    ensures index in AddDeltas(map[], ds) ==> AddDeltas(map[], ds)[index] == Assemble(BLANK, OfIndex(ds, index))
    decreases |ds|
  {
    if ds != [] {
      var n := |ds| - 1;
      AssemblyIsPerIndex(ds[..n], index);
      if ds[n].index == index {
        assert OfIndex(ds, index)[..|OfIndex(ds, index)| - 1] == OfIndex(ds[..n], index);
      } else {
        assert OfIndex(ds, index) == OfIndex(ds[..n], index);
      }
    }
  }

  predicate SameDeltas(ds: seq<CallDelta>, other: seq<CallDelta>, index: nat) {
    OfIndex(ds, index) == OfIndex(other, index)
  }

  /** How the deltas of different calls interleave does not matter. */
  lemma InterleavingIsInvisible(ds: seq<CallDelta>, other: seq<CallDelta>)
    requires forall index: nat :: SameDeltas(ds, other, index)
    ensures AddDeltas(map[], ds) == AddDeltas(map[], other)
  {
    forall index: nat
      ensures index in AddDeltas(map[], ds) <==> index in AddDeltas(map[], other)
      ensures index in AddDeltas(map[], ds) ==> AddDeltas(map[], ds)[index] == AddDeltas(map[], other)[index]
    {
      assert SameDeltas(ds, other, index);
      AssemblyIsPerIndex(ds, index);
      AssemblyIsPerIndex(other, index);
    }
  }

  /** The argument text of a call is the concatenation of its pieces. */
  function Joined(ds: seq<CallDelta>): Bytes {
    if ds == [] then []
    else Joined(ds[..|ds| - 1]) + if ds[|ds| - 1].arguments.Some? then ds[|ds| - 1].arguments.value else []
  }

  lemma {:induction false} ArgumentsAreJoined(ds: seq<CallDelta>)
    ensures Assemble(BLANK, ds).arguments == Joined(ds)
    ensures Assemble(BLANK, ds).id.Some? <==> exists i :: 0 <= i < |ds| && ds[i].id.Some?
    decreases |ds|
  {
    if ds != [] {
      var n := |ds| - 1;
      ArgumentsAreJoined(ds[..n]);
      assert ds == ds[..n] + [ds[n]];
      if i :| 0 <= i < |ds| && ds[i].id.Some? && i < n { assert ds[..n][i] == ds[i]; }
    }
  }

  // --- The decoder as it runs ---------------------------------------------------------------------------

  datatype ToolCall = ToolCall(id: Bytes, name: Bytes, arguments: nat)

  datatype Response = Response(text: Option<Bytes>, calls: seq<ToolCall>)

  /** The finished calls of some indices, or the first that cannot be finished. */
  function FinishCalls(codec: Codec, calls: map<nat, Partial>, indices: seq<nat>): (r: Result<seq<ToolCall>, Failure>)
    requires forall i :: i in indices ==> i in calls
    ensures r.Ok? ==> |r.value| == |indices|
                      && forall i :: 0 <= i < |indices| ==> FinishCall(codec, calls[indices[i]]) == Ok(r.value[i])
    ensures r.Err? ==> exists i :: 0 <= i < |indices| && FinishCall(codec, calls[indices[i]]) == Err(r.error)
                                   && forall j :: 0 <= j < i ==> FinishCall(codec, calls[indices[j]]).Ok?
    decreases |indices|
  {
    if indices == [] then Ok([])
    else
      var n := |indices| - 1;
      var before := FinishCalls(codec, calls, indices[..n]);
      if before.Err? then before
      else
        var c := FinishCall(codec, calls[indices[n]]);
        if c.Err? then Err(c.error) else Ok(before.value + [c.value])
  }

  /** The answer of a decoded stream: calls in index order. */
  function Respond(codec: Codec, s: Step): Result<Response, Failure> {
    if s.Stopped? then Err(s.failure)
    else
      var calls := FinishCalls(codec, s.out.calls, Ascending(s.out.calls.Keys));
      if calls.Err? then Err(calls.error)
      else Ok(Response(if s.out.text == [] then None else Some(s.out.text), calls.value))
  }

  function FinishCall(codec: Codec, p: Partial): Result<ToolCall, Failure> {
    if p.id.None? then Err(MissingId)
    else if p.name.None? then Err(MissingName(p.id.value))
    else
      var a := codec.arguments(p.arguments);
      if a.None? then Err(InvalidArguments(p.id.value)) else Ok(ToolCall(p.id.value, p.name.value, a.value))
  }

  /** The decoder state: what the source keeps in the buffer, the text, the call map and the handler. */
  class Decoder {
    const codec: Codec
    var buffer: Bytes
    var text: Bytes
    var calls: map<nat, Partial>
    var emitted: seq<Emitted>

    constructor (codec: Codec)
      ensures this.codec == codec && buffer == [] && Out() == NOTHING
    {
      this.codec, buffer, text, calls, emitted := codec, [], [], map[], [];
    }

    function Out(): Output
      reads this
    {
      Output(text, calls, emitted)
    }

    /** `handle_sse_frame` on the lines of a valid frame. */
    method HandleLines(lines: seq<Bytes>) returns (failure: Option<Failure>)
      modifies this`text, this`calls, this`emitted
      ensures TakeLines(codec, old(Out()), lines) == if failure.None? then Going(Out()) else Stopped(Out(), failure.value)
    {
      for i := 0 to |lines|
        invariant TakeLines(codec, old(Out()), lines) == TakeLines(codec, Out(), lines[i..])
      {
        if !(DATA <= lines[i]) { continue; }
        var data := codec.trim(lines[i][|DATA|..]);
        if data == [] || data == DONE { continue; }
        var event := codec.event(data);
        if event.None? { return Some(InvalidJson); }
        if event.value.error.Some? { return Some(ProviderError(event.value.error.value)); }
        HandleEvent(event.value);
      }
      failure := None;
    }

    method HandleEvent(event: StreamEvent)
      requires event.error.None?
      modifies this`text, this`calls, this`emitted
      ensures TakeEvent(old(Out()), event) == Going(Out())
    {
      if HasOutput(event) { emitted := emitted + [OutputProgress]; }
      if event.usage.Some? { emitted := emitted + [TokenUsage(event.usage.value)]; }
      ghost var announced := Out();
      for i := 0 to |event.choices|
        invariant Out() == TakeChoices(announced, event.choices[..i])
      {
        assert event.choices[..i + 1][..i] == event.choices[..i];
        HandleChoice(event.choices[i]);
      }
      assert event.choices[..|event.choices|] == event.choices;
    }

    method HandleChoice(c: Choice)
      modifies this`text, this`calls, this`emitted
      ensures Out() == TakeChoice(old(Out()), c)
      ensures c.content.Some? ==> text == old(text) + c.content.value && emitted == old(emitted) + [AssistantDelta(c.content.value)]
      ensures c.content.None? ==> text == old(text) && emitted == old(emitted)
    {
      if c.content.Some? {
        text := text + c.content.value;
        emitted := emitted + [AssistantDelta(c.content.value)];
      }
      ghost var spoken := Out();
      for j := 0 to |c.deltas|
        invariant calls == AddDeltas(old(calls), c.deltas[..j]) && Out() == spoken.(calls := calls)
      {
        assert c.deltas[..j + 1][..j] == c.deltas[..j];
        calls := AddDelta(calls, c.deltas[j]);
      }
      assert c.deltas[..|c.deltas|] == c.deltas;
    }

    method HandleFrame(frame: Bytes) returns (failure: Option<Failure>)
      modifies this`text, this`calls, this`emitted
      ensures TakeFrame(codec, old(Out()), frame) == if failure.None? then Going(Out()) else Stopped(Out(), failure.value)
    {
      if !codec.validUtf8(frame) { return Some(InvalidUtf8); }
      failure := HandleLines(Lines(frame));
    }

    /** `consume_sse_frames`. */
    method ConsumeFrames() returns (failure: Option<Failure>)
      modifies this
      ensures Drain(codec, old(buffer), old(Out())) == if failure.None? then Drained(buffer, Out()) else Broken(Out(), failure.value)
    {
      var end := FindFrameEnd(buffer);
      while end.Some?
        invariant end == FrameEnd(buffer)
        invariant Drain(codec, old(buffer), old(Out())) == Drain(codec, buffer, Out())
        decreases |buffer|
      {
        failure := HandleFrame(buffer[..end.value.index]);
        if failure.Some? { return; }
        buffer := buffer[end.value.index + end.value.length..];
        end := FindFrameEnd(buffer);
      }
      failure := None;
    }

    /** The chunk loop of `stream_complete`, and the end of the stream. */
    method Decode(chunks: seq<Bytes>) returns (failure: Option<Failure>)
      requires buffer == [] && Out() == NOTHING
      modifies this
      ensures Finish(codec, Feed(codec, chunks)) == if failure.None? then Going(Out()) else Stopped(Out(), failure.value)
    {
      for i := 0 to |chunks|
        invariant Feed(codec, chunks[..i]) == Drained(buffer, Out())
      {
        assert chunks[..i + 1][..i] == chunks[..i];
        buffer := buffer + chunks[i];
        failure := ConsumeFrames();
        if failure.Some? {
          BrokenStays(codec, chunks, i + 1);
          return;
        }
      }
      assert chunks[..|chunks|] == chunks;
      DrainedIsDrained(codec, chunks);
      failure := ConsumeFrames();
      if !Blank(buffer) {
        failure := HandleFrame(buffer);
      }
    }

    method StreamComplete(chunks: seq<Bytes>) returns (r: Result<Response, Failure>)
      requires buffer == [] && Out() == NOTHING
      modifies this
      ensures r == Respond(codec, Finish(codec, Feed(codec, chunks)))
      ensures Out() == Finish(codec, Feed(codec, chunks)).out
      ensures text == Spoken(emitted)
    {
      TextIsEmitted(codec, chunks);
      var failure := Decode(chunks);
      if failure.Some? { return Err(failure.value); }
      var finished := FinishAll(codec, calls, Ascending(calls.Keys));
      r := match finished
        case Err(error) => Err(error)
        case Ok(calls) => Ok(Response(if text == [] then None else Some(text), calls));
    }
  }

  method FinishAll(codec: Codec, calls: map<nat, Partial>, indices: seq<nat>) returns (r: Result<seq<ToolCall>, Failure>)
    requires forall i :: i in indices ==> i in calls
    ensures r == FinishCalls(codec, calls, indices)
  {
    var finished: seq<ToolCall> := [];
    for i := 0 to |indices|
      invariant FinishCalls(codec, calls, indices[..i]) == Ok(finished)
    {
      assert indices[..i + 1][..i] == indices[..i];
      var c := FinishCall(codec, calls[indices[i]]);
      if c.Err? {
        FirstErrorWins(codec, calls, indices, i + 1);
        return Err(c.error);
      }
      finished := finished + [c.value];
    }
    assert indices[..|indices|] == indices;
    r := Ok(finished);
  }

  lemma ErrorStays(codec: Codec, calls: map<nat, Partial>, indices: seq<nat>)
    requires forall k :: k in indices ==> k in calls
    requires |indices| > 0 && FinishCalls(codec, calls, indices[..|indices| - 1]).Err?
    ensures FinishCalls(codec, calls, indices) == FinishCalls(codec, calls, indices[..|indices| - 1])
  {
  }

  lemma {:induction false} FirstErrorWins(codec: Codec, calls: map<nat, Partial>, indices: seq<nat>, i: nat)
    requires forall k :: k in indices ==> k in calls
    requires i <= |indices| && FinishCalls(codec, calls, indices[..i]).Err?
    ensures FinishCalls(codec, calls, indices) == FinishCalls(codec, calls, indices[..i])
    decreases |indices|
  {
    if i < |indices| {
      var n := |indices| - 1;
      assert indices[..n][..i] == indices[..i];
      FirstErrorWins(codec, calls, indices[..n], i);
      ErrorStays(codec, calls, indices);
    } else {
      assert indices[..i] == indices;
    }
  }

  lemma {:induction false} BrokenStays(codec: Codec, chunks: seq<Bytes>, i: nat)
    requires i <= |chunks| && Feed(codec, chunks[..i]).Broken?
    ensures Feed(codec, chunks) == Feed(codec, chunks[..i])
    decreases |chunks|
  {
    if i < |chunks| {
      var n := |chunks| - 1;
      assert chunks[..n][..i] == chunks[..i];
      BrokenStays(codec, chunks[..n], i);
    } else {
      assert chunks[..i] == chunks;
    }
  }

  /** Nothing complete is left after the chunk loop. */
  lemma DrainedIsDrained(codec: Codec, chunks: seq<Bytes>)
    ensures var d := Feed(codec, chunks);
            d.Drained? ==> FrameEnd(d.rest).None?
  {
    FeedIsDrain(codec, chunks);
    DrainLeavesNone(codec, Flatten(chunks), NOTHING);
  }

  lemma {:induction false} DrainLeavesNone(codec: Codec, b: Bytes, out: Output)
    ensures var d := Drain(codec, b, out);
            d.Drained? ==> FrameEnd(d.rest).None?
    decreases |b|
  {
    var e := FrameEnd(b);
    if e.Some? {
      var s := TakeFrame(codec, out, b[..e.value.index]);
      if s.Going? { DrainLeavesNone(codec, b[e.value.index + e.value.length..], s.out); }
    }
  }
}
