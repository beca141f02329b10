/** What a stream of chat completions says. */
module StreamMeaning {
  import opened Prelude
  import opened SseStream

  // The text, the calls and the reports of a stream, from the events that its data lines carry.

  // --- The text ------------------------------------------------------------------------------------------

  lemma {:induction false} SpokenConcat(a: seq<Emitted>, b: seq<Emitted>)
    ensures Spoken(a + b) == Spoken(a) + Spoken(b)
    decreases |b|
  {
    if b == [] {
      assert a + b == a;
    } else {
      assert (a + b)[..|a + b| - 1] == a + b[..|b| - 1];
      SpokenConcat(a, b[..|b| - 1]);
    }
  }

  /** The deltas of the choices that have a content, in order. */
  function Deltas(cs: seq<Choice>): seq<Emitted> {
    if cs == [] then []
    else
      var n := |cs| - 1;
      Deltas(cs[..n]) + if cs[n].content.Some? then [AssistantDelta(cs[n].content.value)] else []
  }

  /** The call deltas of all choices, in order. */
  function CallDeltas(cs: seq<Choice>): seq<CallDelta> {
    if cs == [] then [] else CallDeltas(cs[..|cs| - 1]) + cs[|cs| - 1].deltas
  }

  /** The event brings text or a part of a call. */
  predicate Progresses(e: StreamEvent) {
    exists i :: 0 <= i < |e.choices| && ChoiceProgresses(e.choices[i])
  }

  predicate ChoiceProgresses(c: Choice) {
    (c.content.Some? && c.content.value != [])
    || exists j :: 0 <= j < |c.deltas| && DeltaProgresses(c.deltas[j])
  }

  predicate DeltaProgresses(d: CallDelta) {
    (d.id.Some? && d.id.value != []) || (d.name.Some? && d.name.value != []) || (d.arguments.Some? && d.arguments.value != [])
  }

  /** What is reported of an event: progress once, then usage, then its text. */
  function Reports(e: StreamEvent): seq<Emitted> {
    (if Progresses(e) then [OutputProgress] else [])
    + (if e.usage.Some? then [TokenUsage(e.usage.value)] else [])
    + Deltas(e.choices)
  }

  lemma {:induction false} DeltasConcat(calls: map<nat, Partial>, a: seq<CallDelta>, b: seq<CallDelta>)
    ensures AddDeltas(calls, a + b) == AddDeltas(AddDeltas(calls, a), b)
    decreases |b|
  {
    if b == [] {
      assert a + b == a;
    } else {
      assert (a + b)[..|a + b| - 1] == a + b[..|b| - 1];
      DeltasConcat(calls, a, b[..|b| - 1]);
    }
  }

  lemma {:induction false} ChoicesText(out: Output, cs: seq<Choice>)
    ensures TakeChoices(out, cs).text == out.text + Spoken(Deltas(cs))
    decreases |cs|
  {
    if cs != [] {
      var n := |cs| - 1;
      ChoicesText(out, cs[..n]);
      if cs[n].content.Some? {
        OneMore(Deltas(cs[..n]), AssistantDelta(cs[n].content.value));
      } else {
        assert Deltas(cs) == Deltas(cs[..n]);
      }
    }
  }

  lemma OneMore(emitted: seq<Emitted>, delta: Emitted)
    requires delta.AssistantDelta?
    ensures Spoken(emitted + [delta]) == Spoken(emitted) + delta.text
  {
    assert (emitted + [delta])[..|emitted|] == emitted;
  }

  lemma {:induction false} ChoicesCalls(out: Output, cs: seq<Choice>)
    ensures TakeChoices(out, cs).calls == AddDeltas(out.calls, CallDeltas(cs))
    decreases |cs|
  {
    if cs != [] {
      var n := |cs| - 1;
      ChoicesCalls(out, cs[..n]);
      DeltasConcat(out.calls, CallDeltas(cs[..n]), cs[n].deltas);
    }
  }

  lemma {:induction false} ChoicesEmitted(out: Output, cs: seq<Choice>)
    ensures TakeChoices(out, cs).emitted == out.emitted + Deltas(cs)
    decreases |cs|
  {
    if cs != [] { ChoicesEmitted(out, cs[..|cs| - 1]); }
  }

  lemma AnnouncedIs(out: Output, e: StreamEvent)
    ensures Announce(out, e).text == out.text && Announce(out, e).calls == out.calls
    ensures Announce(out, e).emitted + Deltas(e.choices) == out.emitted + Reports(e)
  {
    ProgressIs(e);
  }

  /** What an event without an error adds: its contents to the text, its call deltas to the calls, and its reports. */
  function Adds(out: Output, text: Bytes, ds: seq<CallDelta>, reports: seq<Emitted>): Output {
    Output(out.text + text, AddDeltas(out.calls, ds), out.emitted + reports)
  }

  lemma EventSays(out: Output, e: StreamEvent)
    requires e.error.None?
    ensures TakeEvent(out, e) == Going(Adds(out, Spoken(Deltas(e.choices)), CallDeltas(e.choices), Reports(e)))
  {
    AnnouncedIs(out, e);
    var announced := Announce(out, e);
    ChoicesText(announced, e.choices);
    ChoicesCalls(announced, e.choices);
    ChoicesEmitted(announced, e.choices);
  }

  lemma ProgressIs(e: StreamEvent)
    ensures HasOutput(e) <==> Progresses(e)
  {
    forall i | 0 <= i < |e.choices|
      ensures ChoiceProgresses(e.choices[i])
         <==> NonEmpty(e.choices[i].content) || exists j :: 0 <= j < |e.choices[i].deltas| && ShowsOutput(e.choices[i].deltas[j])
    {
      forall j | 0 <= j < |e.choices[i].deltas|
        ensures DeltaProgresses(e.choices[i].deltas[j]) <==> ShowsOutput(e.choices[i].deltas[j])
      {
      }
    }
  }

  /** An event with an error ends the stream with the provider's message. */
  lemma ErrorStops(out: Output, e: StreamEvent)
    requires e.error.Some?
    ensures TakeEvent(out, e) == Stopped(out, ProviderError(e.error.value))
  {
  }

  // --- Lines --------------------------------------------------------------------------------------------------

  /** Lines written with their endings. */
  function Written(lines: seq<Bytes>, crlf: bool): Bytes {
    if lines == [] then [] else lines[0] + (if crlf then [CR, LF] else [LF]) + Written(lines[1..], crlf)
  }

  predicate IsLine(line: Bytes) {
    (forall i :: 0 <= i < |line| ==> line[i] != LF) && (line != [] ==> line[|line| - 1] != CR)
  }

  lemma {:induction false} LineEndIs(b: Bytes, n: nat)
    requires n < |b| && b[n] == LF && forall i :: 0 <= i < n ==> b[i] != LF
    ensures LineEnd(b) == n
  {
  }

  lemma LineBefore(line: Bytes, crlf: bool, rest: Bytes)
    requires IsLine(line)
    ensures Lines(line + (if crlf then [CR, LF] else [LF]) + rest) == [line] + Lines(rest)
  {
    var body := if crlf then line + [CR] else line;
    var b := line + (if crlf then [CR, LF] else [LF]) + rest;
    assert b == body + [LF] + rest;
    LineEndIs(b, |body|);
    assert b[..|body|] == body && b[|body| + 1..] == rest;
    assert WithoutCr(body) == line;
  }

  /** Lines are read as they were written, with either ending. */
  lemma {:induction false} LinesAreRead(lines: seq<Bytes>, crlf: bool)
    requires forall i :: 0 <= i < |lines| ==> IsLine(lines[i])
    ensures Lines(Written(lines, crlf)) == lines
    decreases |lines|
  {
    if lines != [] {
      LineBefore(lines[0], crlf, Written(lines[1..], crlf));
      LinesAreRead(lines[1..], crlf);
    }
  }

  /** A last line needs no ending. */
  lemma OneLine(line: Bytes)
    requires line != [] && forall i :: 0 <= i < |line| ==> line[i] != LF
    ensures Lines(line) == [line]
  {
  }

  // --- Data lines ----------------------------------------------------------------------------------------------

  /** A data line is decoded, unless it is blank or says that the stream is done; other lines say nothing. */
  lemma LineSays(codec: Codec, out: Output, line: Bytes)
    ensures !([100, 97, 116, 97, 58] <= line) ==> TakeLine(codec, out, line) == Going(out)
    ensures [100, 97, 116, 97, 58] <= line ==>
              var data := codec.trim(line[5..]);
              TakeLine(codec, out, line)
                == if data == [] || data == [91, 68, 79, 78, 69, 93] then Going(out)
                   else if codec.event(data).None? then Stopped(out, InvalidJson)
                   else TakeEvent(out, codec.event(data).value)
  {
    assert |DATA| == 5;
  }

  /** A frame that carries one event on one data line. */
  predicate Carries(codec: Codec, payload: Bytes, e: StreamEvent) {
    && [100, 97, 116, 97, 58] <= payload && (forall i :: 0 <= i < |payload| ==> payload[i] != LF && payload[i] != CR)
    && codec.validUtf8(payload) && e.error.None?
    && var data := codec.trim(payload[5..]);
       data != [] && data != [91, 68, 79, 78, 69, 93] && codec.event(data) == Some(e)
  }

  lemma FrameSays(codec: Codec, out: Output, payload: Bytes, e: StreamEvent)
    requires Carries(codec, payload, e)
    ensures TakeFrame(codec, out, payload)
         == Going(Adds(out, Spoken(Deltas(e.choices)), CallDeltas(e.choices), Reports(e)))
  {
    OneLine(payload);
    LineSays(codec, out, payload);
    EventSays(out, e);
    assert TakeLines(codec, out, [payload]) == TakeLine(codec, out, payload) by { assert [payload][1..] == []; }
  }

  /** The contents, call deltas and reports of all events, in order. */
  function AllText(es: seq<StreamEvent>): Bytes {
    if es == [] then [] else Spoken(Deltas(es[0].choices)) + AllText(es[1..])
  }

  function AllCallDeltas(es: seq<StreamEvent>): seq<CallDelta> {
    if es == [] then [] else CallDeltas(es[0].choices) + AllCallDeltas(es[1..])
  }

  function AllReports(es: seq<StreamEvent>): seq<Emitted> {
    if es == [] then [] else Reports(es[0]) + AllReports(es[1..])
  }

  lemma AddsNothing(out: Output)
    ensures Adds(out, [], [], []) == out
  {
    assert out.text + [] == out.text && out.emitted + [] == out.emitted;
  }

  lemma AddsTwice(out: Output, text: Bytes, ds: seq<CallDelta>, reports: seq<Emitted>, more: Bytes, moreDs: seq<CallDelta>, moreReports: seq<Emitted>)
    ensures Adds(Adds(out, text, ds, reports), more, moreDs, moreReports) == Adds(out, text + more, ds + moreDs, reports + moreReports)
  {
    DeltasConcat(out.calls, ds, moreDs);
    assert out.text + text + more == out.text + (text + more);
    assert out.emitted + reports + moreReports == out.emitted + (reports + moreReports);
  }

  lemma CarriesPayload(codec: Codec, payload: Bytes, e: StreamEvent)
    requires Carries(codec, payload, e)
    ensures Payload(payload)
  {
  }

  lemma {:induction false} FramesSay(codec: Codec, out: Output, frames: seq<Frame>, es: seq<StreamEvent>)
    requires |frames| == |es| && forall i :: 0 <= i < |es| ==> Carries(codec, frames[i].payload, es[i])
    ensures TakeFrames(codec, out, frames)
         == Going(Adds(out, AllText(es), AllCallDeltas(es), AllReports(es)))
    decreases |frames|
  {
    if frames == [] {
      AddsNothing(out);
    } else {
      assert Carries(codec, frames[0].payload, es[0]);
      FrameSays(codec, out, frames[0].payload, es[0]);
      var next := TakeFrame(codec, out, frames[0].payload).out;
      FramesSay(codec, next, frames[1..], es[1..]);
      AddsTwice(out, Spoken(Deltas(es[0].choices)), CallDeltas(es[0].choices), Reports(es[0]),
                AllText(es[1..]), AllCallDeltas(es[1..]), AllReports(es[1..]));
    }
  }

  /**
   * Events that are sent on data lines, in frames with either kind of blank line and cut anywhere, arrive as the
   * text of their contents, the calls assembled from their deltas, and their reports, all in order.
   */
  lemma StreamSays(codec: Codec, frames: seq<Frame>, es: seq<StreamEvent>, chunks: seq<Bytes>)
    requires |frames| == |es| && forall i :: 0 <= i < |es| ==> Carries(codec, frames[i].payload, es[i])
    requires Flatten(chunks) == Framed(frames)
    ensures Finish(codec, Feed(codec, chunks)) == Going(Output(AllText(es), AddDeltas(map[], AllCallDeltas(es)), AllReports(es)))
  {
    forall i | 0 <= i < |frames|
      ensures Payload(frames[i].payload)
    {
      CarriesPayload(codec, frames[i].payload, es[i]);
    }
    FramesSay(codec, NOTHING, frames, es);
    assert Framed(frames) + [] == Framed(frames);
    AnyCutDecodes(codec, frames, [], chunks);
    assert [] + AllText(es) == AllText(es) && [] + AllReports(es) == AllReports(es);
  }

  /** The last frame needs no blank line behind it. */
  lemma UnendedFrameSays(codec: Codec, frames: seq<Frame>, es: seq<StreamEvent>, last: Bytes, e: StreamEvent, chunks: seq<Bytes>)
    requires |frames| == |es| && forall i :: 0 <= i < |es| ==> Carries(codec, frames[i].payload, es[i])
    requires Carries(codec, last, e) && Flatten(chunks) == Framed(frames) + last
    ensures Finish(codec, Feed(codec, chunks))
         == Going(Output(AllText(es) + Spoken(Deltas(e.choices)), AddDeltas(map[], AllCallDeltas(es) + CallDeltas(e.choices)), AllReports(es) + Reports(e)))
  {
    forall i | 0 <= i < |frames|
      ensures Payload(frames[i].payload)
    {
      CarriesPayload(codec, frames[i].payload, es[i]);
    }
    FramesSay(codec, NOTHING, frames, es);
    CarriesPayload(codec, last, e);
    assert last[0] == 100;
    AnyCutDecodes(codec, frames, last, chunks);
    var before := Adds(NOTHING, AllText(es), AllCallDeltas(es), AllReports(es));
    FrameSays(codec, before, last, e);
    AddsTwice(NOTHING, AllText(es), AllCallDeltas(es), AllReports(es), Spoken(Deltas(e.choices)), CallDeltas(e.choices), Reports(e));
    AddsToNothing(AllText(es) + Spoken(Deltas(e.choices)), AllCallDeltas(es) + CallDeltas(e.choices), AllReports(es) + Reports(e));
  }

  lemma AddsToNothing(text: Bytes, ds: seq<CallDelta>, reports: seq<Emitted>)
    ensures Adds(NOTHING, text, ds, reports) == Output(text, AddDeltas(map[], ds), reports)
  {
    assert [] + text == text && [] + reports == reports;
  }

  /** The frame cannot be decoded, or carries an error. */
  predicate BreaksWith(codec: Codec, payload: Bytes, f: Failure) {
    && Payload(payload)
    && if !codec.validUtf8(payload) then f == InvalidUtf8
       else
         && [100, 97, 116, 97, 58] <= payload && (forall i :: 0 <= i < |payload| ==> payload[i] != LF)
         && var data := codec.trim(payload[5..]);
            && data != [] && data != [91, 68, 79, 78, 69, 93]
            && if codec.event(data).None? then f == InvalidJson
               else codec.event(data).value.error.Some? && f == ProviderError(codec.event(data).value.error.value)
  }

  lemma FrameBreaks(codec: Codec, out: Output, payload: Bytes, f: Failure)
    requires BreaksWith(codec, payload, f)
    ensures TakeFrame(codec, out, payload) == Stopped(out, f)
  {
    if codec.validUtf8(payload) {
      OneLine(payload);
      LineSays(codec, out, payload);
      assert TakeLines(codec, out, [payload]) == TakeLine(codec, out, payload) by { assert [payload][1..] == []; }
    }
  }

  lemma {:induction false} FramesBreak(codec: Codec, out: Output, frames: seq<Frame>, es: seq<StreamEvent>, bad: Frame, f: Failure)
    requires |frames| == |es| && forall i :: 0 <= i < |es| ==> Carries(codec, frames[i].payload, es[i])
    requires BreaksWith(codec, bad.payload, f)
    ensures TakeFrames(codec, out, frames + [bad]) == Stopped(Adds(out, AllText(es), AllCallDeltas(es), AllReports(es)), f)
    decreases |frames|
  {
    if frames == [] {
      AddsNothing(out);
      FrameBreaks(codec, out, bad.payload, f);
      assert frames + [bad] == [bad];
    } else {
      assert Carries(codec, frames[0].payload, es[0]);
      FrameSays(codec, out, frames[0].payload, es[0]);
      var next := TakeFrame(codec, out, frames[0].payload).out;
      FramesBreak(codec, next, frames[1..], es[1..], bad, f);
      AddsTwice(out, Spoken(Deltas(es[0].choices)), CallDeltas(es[0].choices), Reports(es[0]),
                AllText(es[1..]), AllCallDeltas(es[1..]), AllReports(es[1..]));
      assert (frames + [bad])[1..] == frames[1..] + [bad];
    }
  }

  /** At the first frame that breaks the stream, decoding stops with its failure, and with all that the frames before it said. */
  lemma StreamStops(codec: Codec, frames: seq<Frame>, es: seq<StreamEvent>, bad: Frame, f: Failure, more: Bytes, chunks: seq<Bytes>)
    requires |frames| == |es| && forall i :: 0 <= i < |es| ==> Carries(codec, frames[i].payload, es[i])
    requires BreaksWith(codec, bad.payload, f) && Flatten(chunks) == Framed(frames + [bad]) + more
    ensures Finish(codec, Feed(codec, chunks)) == Stopped(Output(AllText(es), AddDeltas(map[], AllCallDeltas(es)), AllReports(es)), f)
  {
    var all := frames + [bad];
    forall i | 0 <= i < |all|
      ensures Payload(all[i].payload)
    {
      if i < |frames| { CarriesPayload(codec, frames[i].payload, es[i]); }
    }
    FramesBreak(codec, NOTHING, frames, es, bad, f);
    AddsToNothing(AllText(es), AllCallDeltas(es), AllReports(es));
    FeedIsDrain(codec, chunks);
    FramesArrive(codec, all, more, NOTHING);
  }

  // --- Calls ------------------------------------------------------------------------------------------------------

  /** The last delta that has one gives the id, and likewise the name. */
  lemma {:induction false} LastIdAndName(ds: seq<CallDelta>, i: nat)
    requires i < |ds|
    ensures ds[i].id.Some? && (forall j :: i < j < |ds| ==> ds[j].id.None?) ==> Assemble(BLANK, ds).id == ds[i].id
    ensures ds[i].name.Some? && (forall j :: i < j < |ds| ==> ds[j].name.None?) ==> Assemble(BLANK, ds).name == ds[i].name
    decreases |ds|
  {
    var n := |ds| - 1;
    if i < n { LastIdAndName(ds[..n], i); }
  }

  /** A call is complete when it has an id, a name and arguments that parse. */
  predicate Complete(codec: Codec, p: Partial) {
    p.id.Some? && p.name.Some? && codec.arguments(p.arguments).Some?
  }

  /**
   * The response of a decoded stream: its text if there is any, and its calls in the order of their indices,
   * each with its own id, name and arguments. It fails exactly if some call is incomplete.
   */
  lemma ResponseSays(codec: Codec, out: Output)
    ensures var r, indices := Respond(codec, Going(out)), Ascending(out.calls.Keys);
            && (r.Ok? <==> forall i :: i in out.calls ==> Complete(codec, out.calls[i]))
            && (r.Ok? ==>
                  && r.value.text == (if |out.text| > 0 then Some(out.text) else None)
                  && |r.value.calls| == |indices|
                  && forall k :: 0 <= k < |indices| ==>
                       var p, c := out.calls[indices[k]], r.value.calls[k];
                       Some(c.id) == p.id && Some(c.name) == p.name && Some(c.arguments) == codec.arguments(p.arguments))
  {
    var indices := Ascending(out.calls.Keys);
    var calls := FinishCalls(codec, out.calls, indices);
    forall k | 0 <= k < |indices|
      ensures indices[k] in out.calls
    {
      assert indices[k] in indices;
    }
    if calls.Ok? {
      forall i | i in out.calls
        ensures Complete(codec, out.calls[i])
      {
        assert i in indices;
        var k :| 0 <= k < |indices| && indices[k] == i;
        assert FinishCall(codec, out.calls[indices[k]]) == Ok(calls.value[k]);
      }
    } else {
      var k :| 0 <= k < |indices| && FinishCall(codec, out.calls[indices[k]]) == Err(calls.error);
      assert !Complete(codec, out.calls[indices[k]]);
    }
  }

  /** What an incomplete call lacks, in the order of the checks. */
  lemma IncompleteCall(codec: Codec, p: Partial)
    ensures p.id.None? ==> FinishCall(codec, p) == Err(MissingId)
    ensures p.id.Some? && p.name.None? ==> FinishCall(codec, p) == Err(MissingName(p.id.value))
    ensures p.id.Some? && p.name.Some? && codec.arguments(p.arguments).None? ==> FinishCall(codec, p) == Err(InvalidArguments(p.id.value))
  {
  }
}
