/**
 * The compacting context builder: from the newest block back, blocks are kept while two budgets last;
 * what is omitted may be replaced by a summary.
 */
module ContextBuilder {
  import opened Prelude
  import opened ContextBlocks

  datatype OversizedPolicy = ElideToolOutputs | DropWithMarker | Fail

  type Estimator = seq<Message> -> usize

  datatype Config = Config(maxTokens: usize, summaryBudget: nat, policy: OversizedPolicy, version: nat,
                           hasCompactor: bool, estimate: Estimator)

  datatype Cache = Cache(revision: nat, version: nat, covered: nat, summary: Text)

  datatype Input = Input(revision: nat, conversation: seq<Message>, system: Text, cached: Option<Cache>)

  datatype Output = Output(messages: seq<Message>, cache: Option<Cache>)

  datatype BuildError =
    | WindowExceeded(estimated: nat, limit: nat)
    | CompactorViolation(estimated: nat, limit: nat)
    | CompactorFailed(error: nat)

  const ELIDED: Text := 1
  const OMITTED: Text := 2

  // --- Selection ------------------------------------------------------------------------------------

  /** Tokens of the blocks from `i` on. */
  function Tokens(est: Estimator, bs: seq<seq<Message>>, i: nat): nat
    requires i <= |bs|
    decreases |bs| - i
  {
    if i == |bs| then 0 else SatAdd(Tokens(est, bs, i + 1), est(bs[i]))
  }

  /** The oldest block kept, going back from `i` while the history budget lasts. */
  function OldestKept(est: Estimator, bs: seq<seq<Message>>, historyBudget: nat, i: nat): (e: nat)
    requires i <= |bs|
    ensures e <= i && (e > 0 ==> Tokens(est, bs, e - 1) > historyBudget)
    ensures e < i ==> Tokens(est, bs, e) <= historyBudget
  {
    if i == 0 || Tokens(est, bs, i - 1) > historyBudget then i else OldestKept(est, bs, historyBudget, i - 1)
  }

  datatype Selection = Selection(kept: seq<Message>, tokens: nat, omittedEnd: nat)

  function Marker(est: Estimator, budget: nat): seq<Message> {
    if est([System(OMITTED)]) <= budget then [System(OMITTED)] else []
  }

  function Elide(m: Message): Message {
    if m.Tool? then m.(content := ELIDED) else m
  }

  function ElideAll(ms: seq<Message>): (r: seq<Message>)
    ensures |r| == |ms| && forall i :: 0 <= i < |ms| ==> r[i] == Elide(ms[i])
  {
    if ms == [] then [] else ElideAll(ms[..|ms| - 1]) + [Elide(ms[|ms| - 1])]
  }

  /** `fit_oversized_group`. */
  function Fit(est: Estimator, policy: OversizedPolicy, group: seq<Message>, budget: nat): Result<seq<Message>, BuildError> {
    match policy
    case Fail => Err(WindowExceeded(est(group), budget))
    case DropWithMarker => Ok(Marker(est, budget))
    case ElideToolOutputs => Ok(if est(ElideAll(group)) <= budget then ElideAll(group) else Marker(est, budget))
  }

  /** How many blocks are left out; the newest one never is, it is reduced instead. */
  function EndOf(est: Estimator, bs: seq<seq<Message>>, budget: nat, historyBudget: nat): (e: nat)
    ensures if bs == [] then e == 0 else e < |bs|
  {
    if bs == [] then 0
    else if Tokens(est, bs, |bs| - 1) > budget then |bs| - 1
    else OldestKept(est, bs, historyBudget, |bs| - 1)
  }

  function Select(cfg: Config, bs: seq<seq<Message>>, budget: nat, historyBudget: nat): (r: Result<Selection, BuildError>)
    ensures r.Ok? ==> r.value.omittedEnd == EndOf(cfg.estimate, bs, budget, historyBudget)
  {
    if bs == [] then Ok(Selection([], 0, 0))
    else
      var e := EndOf(cfg.estimate, bs, budget, historyBudget);
      if Tokens(cfg.estimate, bs, |bs| - 1) > budget then
        var r := Fit(cfg.estimate, cfg.policy, bs[e], budget);
        if r.Err? then Err(r.error) else Ok(Selection(r.value, cfg.estimate(r.value), e))
      else Ok(Selection(Flatten(bs[e..]), Tokens(cfg.estimate, bs, e), e))
  }

  /** The selection loop of `build`. */
  method SelectBlocks(cfg: Config, groups: seq<seq<Message>>, budget: nat, historyBudget: nat) returns (r: Result<Selection, BuildError>)
    requires forall b :: b in groups ==> b != []
    ensures r == Select(cfg, groups, budget, historyBudget)
  {
    var selected: seq<Message> := [];
    var selectedTokens := 0;
    var index := |groups|;
    while index > 0
      invariant 0 <= index <= |groups|
      invariant selected == Flatten(groups[index..]) && selectedTokens == Tokens(cfg.estimate, groups, index)
      invariant (selected == []) == (index == |groups|)
      invariant index < |groups| ==> Tokens(cfg.estimate, groups, |groups| - 1) <= budget
      invariant index < |groups| ==> EndOf(cfg.estimate, groups, budget, historyBudget) == OldestKept(cfg.estimate, groups, historyBudget, index)
    {
      index := index - 1;
      var groupTokens := cfg.estimate(groups[index]);
      var selectionBudget := if selected == [] then budget else historyBudget;
      if SatAdd(selectedTokens, groupTokens) > selectionBudget {
        if selected == [] {
          var reduced := Fit(cfg.estimate, cfg.policy, groups[index], budget);
          return match reduced
            case Err(error) => Err(error)
            case Ok(kept) => Ok(Selection(kept, cfg.estimate(kept), index));
        }
        return Ok(Selection(selected, selectedTokens, index + 1));
      }
      assert groups[index..] == [groups[index]] + groups[index + 1..];
      assert groups[index] in groups;
      selected := groups[index] + selected;
      selectedTokens := SatAdd(selectedTokens, groupTokens);
    }
    assert groups[0..] == groups;
    r := Ok(Selection(selected, selectedTokens, 0));
  }

  // --- The whole build --------------------------------------------------------------------------------

  function Reserved(cfg: Config, budget: nat): nat {
    if cfg.hasCompactor then Min(cfg.summaryBudget, budget) else 0
  }

  /** The cached summary stands for exactly what is omitted now. */
  predicate IsCurrent(cfg: Config, input: Input, omitted: seq<Message>) {
    input.cached.Some? && input.cached.value.revision == input.revision && input.cached.value.version == cfg.version
    && input.cached.value.covered == |omitted|
  }

  /** How many omitted messages the cached summary already covers. */
  function Covered(cfg: Config, input: Input, omitted: seq<Message>): (n: nat)
    ensures n <= |omitted|
  {
    if input.cached.Some? && input.cached.value.version == cfg.version then Min(input.cached.value.covered, |omitted|) else 0
  }

  function Previous(cfg: Config, input: Input, omitted: seq<Message>): Option<Text> {
    if input.cached.Some? && input.cached.value.version == cfg.version && input.cached.value.covered <= |omitted|
    then Some(input.cached.value.summary) else None
  }

  predicate Compacts(cfg: Config, input: Input, omitted: seq<Message>) {
    omitted != [] && !IsCurrent(cfg, input, omitted) && cfg.hasCompactor
  }

  /** The summary of what is omitted: none, the cached one, or the compactor's `answer`. */
  function SummaryOf(cfg: Config, input: Input, omitted: seq<Message>, answer: Result<Text, nat>): Result<Option<Text>, BuildError> {
    if omitted == [] then Ok(None)
    else if IsCurrent(cfg, input, omitted) then Ok(Some(input.cached.value.summary))
    else if cfg.hasCompactor then
      match answer case Ok(s) => Ok(Some(s)) case Err(e) => Err(CompactorFailed(e))
    else Ok(None)
  }

  /** What is left for the conversation after the system prompt. */
  function Budget(cfg: Config, system: Text): nat {
    var systemTokens := cfg.estimate([System(system)]);
    if systemTokens < cfg.maxTokens then cfg.maxTokens - systemTokens else 0
  }

  function BlocksOmitted(cfg: Config, input: Input): nat {
    var budget := Budget(cfg, input.system);
    EndOf(cfg.estimate, Blocks(input.conversation), budget, budget - Reserved(cfg, budget))
  }

  lemma FlattenPrefix(bs: seq<seq<Message>>, e: nat, ms: seq<Message>)
    requires e <= |bs| && bs == Blocks(ms)
    ensures |Flatten(bs[..e])| <= |ms| && Flatten(bs[..e]) == ms[..|Flatten(bs[..e])|]
  {
    BlocksConcat(ms);
    assert bs == bs[..e] + bs[e..];
    FlattenConcat(bs[..e], bs[e..]);
  }

  /** How many of the oldest messages are left out. */
  function Omitted(cfg: Config, input: Input): (n: nat)
    ensures n <= |input.conversation|
  {
    var e := BlocksOmitted(cfg, input);
    FlattenPrefix(Blocks(input.conversation), e, input.conversation);
    |Flatten(Blocks(input.conversation)[..e])|
  }

  function Finish(cfg: Config, input: Input, sel: Selection, omitted: seq<Message>, summary: Option<Text>): Result<Output, BuildError> {
    if summary.None? then Ok(Output([System(input.system)] + sel.kept, None))
    else
      var budget := Budget(cfg, input.system);
      var tokens := cfg.estimate([System(summary.value)]);
      if tokens > Reserved(cfg, budget) then Err(CompactorViolation(tokens, Reserved(cfg, budget)))
      else if SatAdd(sel.tokens, tokens) > budget then
        Err(WindowExceeded(SatAdd(SatAdd(cfg.estimate([System(input.system)]), sel.tokens), tokens), cfg.maxTokens))
      else Ok(Output([System(input.system), System(summary.value)] + sel.kept,
                     Some(Cache(input.revision, cfg.version, |omitted|, summary.value))))
  }

  /** The rest of a build, once the blocks are selected. */
  function Complete(cfg: Config, input: Input, sel: Selection, answer: Result<Text, nat>): Result<Output, BuildError> {
    var omitted := input.conversation[..Omitted(cfg, input)];
    var summary := SummaryOf(cfg, input, omitted, answer);
    if summary.Err? then Err(summary.error)
    else Finish(cfg, input, sel, omitted, summary.value)
  }

  function SelectFor(cfg: Config, input: Input): Result<Selection, BuildError> {
    var budget := Budget(cfg, input.system);
    Select(cfg, Blocks(input.conversation), budget, budget - Reserved(cfg, budget))
  }

  function Build(cfg: Config, input: Input, answer: Result<Text, nat>): Result<Output, BuildError> {
    var systemTokens := cfg.estimate([System(input.system)]);
    if systemTokens >= cfg.maxTokens then Err(WindowExceeded(systemTokens, cfg.maxTokens))
    else
      var sel := SelectFor(cfg, input);
      if sel.Err? then Err(sel.error) else Complete(cfg, input, sel.value, answer)
  }

  datatype Request = Request(messages: seq<Message>, previous: Option<Text>, maxTokens: nat)

  /** What a compactor is asked to summarise, when it is. */
  function Asked(cfg: Config, input: Input): Option<Request> {
    var omitted := input.conversation[..Omitted(cfg, input)];
    if Compacts(cfg, input, omitted)
    then Some(Request(omitted[Covered(cfg, input, omitted)..], Previous(cfg, input, omitted), Reserved(cfg, Budget(cfg, input.system))))
    else None
  }

  /** What a compactor answers when it is asked; otherwise its answer does not matter. */
  function AnswerFrom(cfg: Config, input: Input, compact: Request -> Result<Text, nat>): Result<Text, nat> {
    match Asked(cfg, input) case Some(request) => compact(request) case None => Err(0)
  }

  /** The summary step: the compactor is asked at most once. */
  method Summarise(cfg: Config, input: Input, compact: Request -> Result<Text, nat>, omitted: seq<Message>, reserved: nat)
      returns (summary: Result<Option<Text>, BuildError>)
    requires omitted == input.conversation[..Omitted(cfg, input)] && reserved == Reserved(cfg, Budget(cfg, input.system))
    ensures summary == SummaryOf(cfg, input, omitted, AnswerFrom(cfg, input, compact))
  {
    summary := Ok(None);
    if omitted != [] {
      if IsCurrent(cfg, input, omitted) {
        summary := Ok(Some(input.cached.value.summary));
      } else if cfg.hasCompactor {
        var answer := compact(Request(omitted[Covered(cfg, input, omitted)..], Previous(cfg, input, omitted), reserved));
        summary := match answer case Ok(s) => Ok(Some(s)) case Err(e) => Err(CompactorFailed(e));
      }
    }
  }

  /** `build`, with any compactor. */
  method BuildContext(cfg: Config, input: Input, compact: Request -> Result<Text, nat>) returns (r: Result<Output, BuildError>)
    ensures r == Build(cfg, input, AnswerFrom(cfg, input, compact))
  {
    var systemTokens := cfg.estimate([System(input.system)]);
    if systemTokens >= cfg.maxTokens {
      return Err(WindowExceeded(systemTokens, cfg.maxTokens));
    }
    var budget := cfg.maxTokens - systemTokens;
    var reserved := Reserved(cfg, budget);
    var groups, selection := SelectMessages(cfg, input, budget, reserved);
    if selection.Err? {
      return Err(selection.error);
    }
    r := CompleteBuild(cfg, input, compact, groups, selection.value, reserved);
  }

  method SelectMessages(cfg: Config, input: Input, budget: nat, reserved: nat) returns (groups: seq<seq<Message>>, selection: Result<Selection, BuildError>)
    requires budget == Budget(cfg, input.system) && reserved == Reserved(cfg, budget)
    ensures groups == Blocks(input.conversation) && selection == SelectFor(cfg, input)
    ensures selection.Ok? ==> selection.value.omittedEnd == BlocksOmitted(cfg, input)
  {
    groups := ToolCallBlocks(input.conversation);
    selection := SelectBlocks(cfg, groups, budget, budget - reserved);
  }

  method CompleteBuild(cfg: Config, input: Input, compact: Request -> Result<Text, nat>, groups: seq<seq<Message>>,
                       selection: Selection, reserved: nat) returns (r: Result<Output, BuildError>)
    requires groups == Blocks(input.conversation) && selection.omittedEnd == BlocksOmitted(cfg, input)
    requires reserved == Reserved(cfg, Budget(cfg, input.system))
    ensures r == Complete(cfg, input, selection, AnswerFrom(cfg, input, compact))
  {
    FlattenPrefix(groups, selection.omittedEnd, input.conversation);
    var omitted := Flatten(groups[..selection.omittedEnd]);
    var summary := Summarise(cfg, input, compact, omitted, reserved);
    if summary.Err? {
      r := Err(summary.error);
    } else {
      r := Finish(cfg, input, selection, omitted, summary.value);
    }
  }

  // --- What is kept ---------------------------------------------------------------------------------------

  /** A block whose tool outputs were elided, a marker in its place, or nothing. */
  ghost predicate ReducedBlock(block: seq<Message>, kept: seq<Message>) {
    kept == ElideAll(block) || kept == [System(OMITTED)] || kept == []
  }

  function SummaryPart(cache: Option<Cache>): seq<Message> {
    if cache.None? then [] else [System(cache.value.summary)]
  }

  lemma BuildShape(cfg: Config, input: Input, answer: Result<Text, nat>)
    requires Build(cfg, input, answer).Ok?
    ensures SelectFor(cfg, input).Ok?
    ensures var out := Build(cfg, input, answer).value;
            out.messages == [System(input.system)] + SummaryPart(out.cache) + SelectFor(cfg, input).value.kept
            && (out.cache.Some? ==>
                  var tokens := cfg.estimate(SummaryPart(out.cache));
                  tokens <= Reserved(cfg, Budget(cfg, input.system))
                  && SatAdd(SelectFor(cfg, input).value.tokens, tokens) <= Budget(cfg, input.system))
  {
    var out := Build(cfg, input, answer).value;
    if out.cache.None? {
      assert [System(input.system)] + [] == [System(input.system)];
    } else {
      assert [System(input.system)] + [System(out.cache.value.summary)] == [System(input.system), System(out.cache.value.summary)];
    }
  }

  /**
   * After the system prompt and at most one summary a build keeps the conversation from a clean cut on,
   * or a reduced form of the newest block alone. Nothing between what is omitted and what is kept is lost.
   * Where all outputs are in place, none is sent without the call of its id.
   */
  lemma KeptPart(cfg: Config, input: Input, answer: Result<Text, nat>, kept: seq<Message>)
    requires Build(cfg, input, answer).Ok?
    requires var out := Build(cfg, input, answer).value;
             out.messages == [System(input.system)] + SummaryPart(out.cache) + kept
    ensures var ms, n := input.conversation, Omitted(cfg, input);
            CleanCut(ms, n)
            && (kept == ms[n..] || (Blocks(ms) != [] && ms[n..] == Blocks(ms)[|Blocks(ms)| - 1] && ReducedBlock(ms[n..], kept)))
            && (InPlace(ms) ==> Called(Build(cfg, input, answer).value.messages))
  {
    var budget := Budget(cfg, input.system);
    BuildShape(cfg, input, answer);
    var out := Build(cfg, input, answer).value;
    var front := [System(input.system)] + SummaryPart(out.cache);
    assert kept == (front + kept)[|front|..];
    assert SelectFor(cfg, input).value.kept == (front + SelectFor(cfg, input).value.kept)[|front|..];
    CutAtBlock(input.conversation, BlocksOmitted(cfg, input));
    SelectionKeeps(cfg, Blocks(input.conversation), budget, budget - Reserved(cfg, budget));
    if InPlace(input.conversation) {
      KeptIsCalled(input.conversation, BlocksOmitted(cfg, input), kept);
      CalledConcat(front, kept);
    }
  }

  lemma KeptIsCalled(ms: seq<Message>, e: nat, kept: seq<Message>)
    requires InPlace(ms) && e <= |Blocks(ms)|
    requires kept == From(ms, e) || (Blocks(ms) != [] && ReducedBlock(Blocks(ms)[|Blocks(ms)| - 1], kept))
    ensures Called(kept)
  {
    CutsKeepCallsIff(ms);
    if kept != From(ms, e) {
      var b := Blocks(ms)[|Blocks(ms)| - 1];
      assert b in Blocks(ms) && BlockInPlace(b);
      forall i | 0 <= i < |kept| && kept[i].Tool?
        ensures CalledBefore(kept, i, kept[i].callId)
      {
        assert kept[0] == Elide(b[0]) && kept[i] == Elide(b[i]) && Calls(b[0], b[i].callId);
      }
    }
  }

  // --- Outputs without their calls --------------------------------------------------------------------------

  /** A configuration that counts messages. */
  function Counting(limit: usize): Config {
    Config(limit, 0, Fail, 0, false, (ms: seq<Message>) => Min(|ms|, MAX_U64))
  }

  ghost predicate CountsMessages(est: Estimator) {
    forall ms :: est(ms) == Min(|ms|, MAX_U64)
  }

  lemma {:induction false} TokensCount(est: Estimator, bs: seq<seq<Message>>, i: nat)
    requires CountsMessages(est) && i <= |bs| && |Flatten(bs)| < MAX_U64
    ensures Tokens(est, bs, i) == |Flatten(bs[i..])|
    decreases |bs| - i
  {
    FlattenSplit(bs, 0, i);
    if i < |bs| {
      assert bs[i..][1..] == bs[i + 1..];
      TokensCount(est, bs, i + 1);
    }
  }

  lemma FlattenSplit(bs: seq<seq<Message>>, k: nat, i: nat)
    requires k <= i <= |bs|
    ensures |Flatten(bs[k..])| == |Flatten(bs[k..i])| + |Flatten(bs[i..])|
    ensures k == 0 ==> Flatten(bs[k..]) == Flatten(bs)
  {
    assert bs[k..] == bs[k..i] + bs[i..];
    FlattenConcat(bs[k..i], bs[i..]);
    assert k == 0 ==> bs[k..] == bs;
  }

  ghost predicate TokensFall(est: Estimator, bs: seq<seq<Message>>) {
    forall i, j :: 0 <= i < j <= |bs| ==> Tokens(est, bs, i) > Tokens(est, bs, j)
  }

  lemma CountsFall(est: Estimator, bs: seq<seq<Message>>)
    requires CountsMessages(est) && |Flatten(bs)| < MAX_U64 && forall j :: 0 <= j < |bs| ==> bs[j] != []
    ensures TokensFall(est, bs)
  {
    forall i, j | 0 <= i < j <= |bs|
      ensures Tokens(est, bs, i) > Tokens(est, bs, j)
    {
      TokensCount(est, bs, i);
      TokensCount(est, bs, j);
      FlattenSplit(bs, i, j);
      assert bs[i..j][0] == bs[i];
    }
  }

  lemma {:induction false} OldestKeptIs(est: Estimator, bs: seq<seq<Message>>, k: nat, i: nat)
    requires k <= i <= |bs| && TokensFall(est, bs)
    ensures OldestKept(est, bs, Tokens(est, bs, k), i) == k
    decreases i
  {
    if i > k {
      assert Tokens(est, bs, i - 1) <= Tokens(est, bs, k);
      OldestKeptIs(est, bs, k, i - 1);
    }
  }

  lemma SelectCounts(cfg: Config, bs: seq<seq<Message>>, k: nat)
    requires TokensFall(cfg.estimate, bs) && k < |bs|
    ensures var n := Tokens(cfg.estimate, bs, k);
            n > 0 && Select(cfg, bs, n, n) == Ok(Selection(Flatten(bs[k..]), n, k))
  {
    OldestKeptIs(cfg.estimate, bs, k, |bs| - 1);
    assert Tokens(cfg.estimate, bs, |bs| - 1) <= Tokens(cfg.estimate, bs, k);
    assert Tokens(cfg.estimate, bs, |bs|) == 0;
  }

  /** Whatever the cut between two blocks, counting messages cuts there. */
  lemma CutsThere(cfg: Config, ms: seq<Message>, k: nat)
    requires |ms| < MAX_U64 && k < |Blocks(ms)| && CountsMessages(cfg.estimate) && !cfg.hasCompactor
    requires cfg.maxTokens == 1 + |From(ms, k)|
    ensures Build(cfg, Input(0, ms, 0, None), Err(0)) == Ok(Output([System(0)] + From(ms, k), None))
  {
    BlocksConcat(ms);
    forall j | 0 <= j < |Blocks(ms)| ensures Blocks(ms)[j] != [] { assert Blocks(ms)[j] in Blocks(ms); }
    CountsFall(cfg.estimate, Blocks(ms));
    TokensCount(cfg.estimate, Blocks(ms), k);
    SelectCounts(cfg, Blocks(ms), k);
    SendsSelection(cfg, ms, Selection(From(ms, k), |From(ms, k)|, k));
  }

  lemma SendsSelection(cfg: Config, ms: seq<Message>, sel: Selection)
    requires CountsMessages(cfg.estimate) && !cfg.hasCompactor && cfg.maxTokens > 1
    requires Select(cfg, Blocks(ms), cfg.maxTokens - 1, cfg.maxTokens - 1) == Ok(sel)
    ensures Build(cfg, Input(0, ms, 0, None), Err(0)) == Ok(Output([System(0)] + sel.kept, None))
  {
    assert cfg.estimate([System(0)]) == 1;
  }

  ghost predicate SendsCalls(cfg: Config, input: Input, answer: Result<Text, nat>) {
    Build(cfg, input, answer).Ok? ==> Called(Build(cfg, input, answer).value.messages)
  }

  ghost predicate AlwaysSendsCalls(ms: seq<Message>) {
    forall cfg, input: Input, answer :: input.conversation == ms ==> SendsCalls(cfg, input, answer)
  }

  /** Under every configuration builds send no tool output without its call, exactly if all outputs are in place. */
  lemma BuildsSendCallsIff(ms: seq<Message>)
    requires |ms| < MAX_U64
    ensures AlwaysSendsCalls(ms) <==> InPlace(ms)
  {
    if InPlace(ms) {
      forall cfg, input: Input, answer | input.conversation == ms
        ensures SendsCalls(cfg, input, answer)
      {
        if Build(cfg, input, answer).Ok? {
          BuildShape(cfg, input, answer);
          KeptPart(cfg, input, answer, SelectFor(cfg, input).value.kept);
        }
      }
    } else {
      CutsKeepCallsIff(ms);
      var k: nat :| k <= |Blocks(ms)| && !Called(From(ms, k));
      assert Called(From(ms, |Blocks(ms)|));
      LosesCall(ms, k);
    }
  }

  lemma LosesCall(ms: seq<Message>, k: nat)
    requires |ms| < MAX_U64 && k < |Blocks(ms)| && !Called(From(ms, k))
    ensures !AlwaysSendsCalls(ms)
  {
    BlocksConcat(ms);
    FlattenSplit(Blocks(ms), 0, k);
    var cfg := Counting(1 + |From(ms, k)|);
    CutsThere(cfg, ms, k);
    if Called([System(0)] + From(ms, k)) { WithoutFront([System(0)], From(ms, k)); }
    assert !SendsCalls(cfg, Input(0, ms, 0, None), Err(0));
  }

  lemma WithoutFront(front: seq<Message>, ms: seq<Message>)
    requires Called(front + ms) && forall i :: 0 <= i < |front| ==> front[i].System?
    ensures Called(ms)
  {
    var n := |front|;
    forall i | 0 <= i < |ms| && ms[i].Tool?
      ensures CalledBefore(ms, i, ms[i].callId)
    {
      assert (front + ms)[n + i] == ms[i] && CalledBefore(front + ms, n + i, ms[i].callId);
      var q :| 0 <= q < n + i && Calls((front + ms)[q], ms[i].callId);
      assert Calls(ms[q - n], ms[i].callId);
    }
  }

  lemma CutAtBlock(ms: seq<Message>, e: nat)
    requires e <= |Blocks(ms)|
    ensures var n := |Flatten(Blocks(ms)[..e])|;
            n <= |ms| && CleanCut(ms, n) && ms[n..] == Flatten(Blocks(ms)[e..])
  {
    var bs := Blocks(ms);
    BlocksConcat(ms);
    assert bs == bs[..e] + bs[e..];
    FlattenConcat(bs[..e], bs[e..]);
    BlockCutsAreClean(ms, e);
  }

  lemma SelectionKeeps(cfg: Config, bs: seq<seq<Message>>, budget: nat, historyBudget: nat)
    requires Select(cfg, bs, budget, historyBudget).Ok?
    ensures var s := Select(cfg, bs, budget, historyBudget).value;
            s.kept == Flatten(bs[s.omittedEnd..])
            || (bs != [] && s.omittedEnd == |bs| - 1 && ReducedBlock(bs[|bs| - 1], s.kept) && Flatten(bs[s.omittedEnd..]) == bs[|bs| - 1])
  {
    if bs != [] {
      var n := |bs| - 1;
      assert bs[n..] == [bs[n]] && Flatten([bs[n]]) == bs[n] + Flatten([bs[n]][1..]);
    }
  }

  // --- The budget -----------------------------------------------------------------------------------------

  /** Estimates never grow by more than the parts when messages are put together. */
  ghost predicate Subadditive(est: Estimator) {
    forall a, b :: NoMoreThanParts(est, a, b)
  }

  predicate NoMoreThanParts(est: Estimator, a: seq<Message>, b: seq<Message>) {
    est(a + b) <= est(a) + est(b)
  }

  lemma SubadditiveUse(est: Estimator, a: seq<Message>, b: seq<Message>)
    requires Subadditive(est)
    ensures est(a + b) <= est(a) + est(b)
  {
    assert NoMoreThanParts(est, a, b);
  }

  /** While sums stay below the largest integer they are not saturated. */
  lemma {:induction false} TokensBound(est: Estimator, bs: seq<seq<Message>>, i: nat)
    requires Subadditive(est) && i < |bs| && Tokens(est, bs, i) < MAX_U64
    ensures est(Flatten(bs[i..])) <= Tokens(est, bs, i)
    decreases |bs| - i
  {
    assert bs[i..][1..] == bs[i + 1..];
    if i + 1 < |bs| {
      TokensBound(est, bs, i + 1);
      SubadditiveUse(est, bs[i], Flatten(bs[i + 1..]));
    } else {
      assert Flatten(bs[i..]) == bs[i] + [];
      assert bs[i] + [] == bs[i];
    }
  }

  /** The tokens counted for a selection bound its estimate. */
  lemma SelectionFits(cfg: Config, bs: seq<seq<Message>>, budget: nat, historyBudget: nat)
    requires Subadditive(cfg.estimate) && historyBudget <= budget < MAX_U64
    requires Select(cfg, bs, budget, historyBudget).Ok?
    ensures var s := Select(cfg, bs, budget, historyBudget).value;
            s.kept != [] ==> cfg.estimate(s.kept) <= s.tokens <= budget
  {
    if bs != [] && Tokens(cfg.estimate, bs, |bs| - 1) <= budget {
      TokensBound(cfg.estimate, bs, EndOf(cfg.estimate, bs, budget, historyBudget));
    }
  }

  /** Every successful build stays within the context window. */
  lemma BuildWithinBudget(cfg: Config, input: Input, answer: Result<Text, nat>)
    requires Subadditive(cfg.estimate) && Build(cfg, input, answer).Ok?
    ensures cfg.estimate(Build(cfg, input, answer).value.messages) <= cfg.maxTokens
  {
    if cfg.maxTokens < MAX_U64 {
      BuildShape(cfg, input, answer);
      SelectionWithinBudget(cfg, input);
      var sel := SelectFor(cfg, input).value;
      var summary := SummaryPart(Build(cfg, input, answer).value.cache);
      PartsFit(cfg, [System(input.system)], summary, sel.kept, sel.tokens, Budget(cfg, input.system));
    }
  }

  lemma SelectionWithinBudget(cfg: Config, input: Input)
    requires Subadditive(cfg.estimate) && Budget(cfg, input.system) < MAX_U64 && SelectFor(cfg, input).Ok?
    ensures var sel := SelectFor(cfg, input).value;
            sel.kept != [] ==> cfg.estimate(sel.kept) <= sel.tokens <= Budget(cfg, input.system)
  {
    var budget := Budget(cfg, input.system);
    SelectionFits(cfg, Blocks(input.conversation), budget, budget - Reserved(cfg, budget));
  }

  lemma PartsFit(cfg: Config, system: seq<Message>, summary: seq<Message>, kept: seq<Message>, tokens: nat, budget: nat)
    requires Subadditive(cfg.estimate) && cfg.estimate(system) + budget <= cfg.maxTokens && budget < MAX_U64
    requires summary != [] ==> SatAdd(tokens, cfg.estimate(summary)) <= budget
    requires kept != [] ==> cfg.estimate(kept) <= tokens <= budget
    ensures cfg.estimate(system + summary + kept) <= cfg.maxTokens
  {
    assert summary == [] ==> system + summary == system;
    assert kept == [] ==> system + summary + kept == system + summary;
    SubadditiveUse(cfg.estimate, system, summary);
    SubadditiveUse(cfg.estimate, system + summary, kept);
  }

  // --- The built-in estimator -----------------------------------------------------------------------------

  /** Length of the JSON array of some messages: brackets, the messages and commas between them. */
  function JsonLength(size: Message -> nat, ms: seq<Message>): nat {
    if ms == [] then 2
    else if |ms| == 1 then 2 + size(ms[0])
    else size(ms[0]) + 1 + JsonLength(size, ms[1..])
  }

  /** `ApproximateTokenEstimator`: a quarter of the length, rounded up, or the largest integer. */
  function Approximate(size: Message -> nat): Estimator {
    (ms: seq<Message>) => Quarter(JsonLength(size, ms))
  }

  function Quarter(n: nat): usize {
    Min((n + 3) / 4, MAX_U64)
  }

  lemma QuarterOfSum(n: nat, a: nat, b: nat)
    requires n <= a + b
    ensures Quarter(n) <= Quarter(a) + Quarter(b)
  {
  }

  lemma QuarterGrows(a: nat, b: nat)
    requires a <= b
    ensures Quarter(a) <= Quarter(b)
  {
  }

  lemma {:induction false} JsonConcat(size: Message -> nat, a: seq<Message>, b: seq<Message>)
    requires a != [] && b != []
    ensures JsonLength(size, a + b) + 1 == JsonLength(size, a) + JsonLength(size, b)
  {
    assert (a + b)[1..] == a[1..] + b;
    if |a| > 1 { JsonConcat(size, a[1..], b); } else { assert a[1..] + b == b; }
  }

  lemma ApproximateIsSubadditive(size: Message -> nat)
    ensures Subadditive(Approximate(size))
  {
    var est := Approximate(size);
    forall a, b: seq<Message>
      ensures NoMoreThanParts(est, a, b)
    {
      if a == [] {
        assert a + b == b;
      } else if b == [] {
        assert a + b == a;
      } else {
        JsonConcat(size, a, b);
        QuarterOfSum(JsonLength(size, a + b), JsonLength(size, a), JsonLength(size, b));
      }
    }
  }

  lemma ApproximateIsMonotone(size: Message -> nat)
    ensures Monotone(Approximate(size))
  {
    var est := Approximate(size);
    forall a, b: seq<Message> | a <= b
      ensures NoLessThanPrefix(est, a, b)
    {
      var more := b[|a|..];
      assert b == a + more && (more == [] ==> b == a);
      JsonAtLeastTwo(size, b);
      if a != [] && more != [] {
        JsonConcat(size, a, more);
        JsonAtLeastTwo(size, more);
      }
      QuarterGrows(JsonLength(size, a), JsonLength(size, b));
    }
  }

  lemma {:induction false} JsonAtLeastTwo(size: Message -> nat, ms: seq<Message>)
    ensures JsonLength(size, ms) >= 2
  {
    if |ms| > 1 { JsonAtLeastTwo(size, ms[1..]); }
  }

  /** With the built-in estimator no further condition is needed. */
  lemma BuiltInWithinBudget(cfg: Config, size: Message -> nat, input: Input, answer: Result<Text, nat>)
    requires cfg.estimate == Approximate(size) && Build(cfg, input, answer).Ok?
    ensures cfg.estimate(Build(cfg, input, answer).value.messages) <= cfg.maxTokens
  {
    ApproximateIsSubadditive(size);
    BuildWithinBudget(cfg, input, answer);
  }

  // --- Appending to the conversation ------------------------------------------------------------------------

  ghost predicate Monotone(est: Estimator) {
    forall a, b :: NoLessThanPrefix(est, a, b)
  }

  predicate NoLessThanPrefix(est: Estimator, a: seq<Message>, b: seq<Message>) {
    a <= b ==> est(a) <= est(b)
  }
}
