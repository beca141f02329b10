/** When a context build succeeds, and what it sends. */
module ContextOutcome {
  import opened Prelude
  import opened ContextBlocks
  import opened ContextBuilder

  // Said of a build as a whole, from the estimates of its parts.

  /** Estimate of the system prompt. */
  function SystemTokens(cfg: Config, input: Input): nat {
    cfg.estimate([System(input.system)])
  }

  /** The newest block does not fit behind the system prompt. */
  predicate Oversized(cfg: Config, input: Input) {
    Blocks(input.conversation) != [] && SystemTokens(cfg, input) + cfg.estimate(Newest(input)) > cfg.maxTokens
  }

  function Newest(input: Input): seq<Message> {
    if Blocks(input.conversation) == [] then [] else Blocks(input.conversation)[|Blocks(input.conversation)| - 1]
  }

  /** The block with the content of its tool outputs replaced, and nothing else. */
  predicate IsElided(block: seq<Message>, elided: seq<Message>) {
    |elided| == |block|
    && forall i :: 0 <= i < |block| ==> elided[i] == if block[i].Tool? then Tool(block[i].callId, block[i].name, 1) else block[i]
  }

  /** What stands for a block that does not fit: a marker if there is room for one. */
  predicate IsMarked(cfg: Config, budget: nat, kept: seq<Message>) {
    kept == if cfg.estimate([System(2)]) <= budget then [System(2)] else []
  }

  /** What a policy makes of an oversized block. */
  ghost predicate IsReduced(cfg: Config, block: seq<Message>, budget: nat, kept: seq<Message>) {
    match cfg.policy
    case Fail => false
    case DropWithMarker => IsMarked(cfg, budget, kept)
    case ElideToolOutputs =>
      exists elided :: IsElided(block, elided)
        && if cfg.estimate(elided) <= budget then kept == elided else IsMarked(cfg, budget, kept)
  }

  lemma BudgetIs(cfg: Config, input: Input)
    requires SystemTokens(cfg, input) < cfg.maxTokens
    ensures Budget(cfg, input.system) == cfg.maxTokens - SystemTokens(cfg, input)
    ensures Oversized(cfg, input) <==> Blocks(input.conversation) != []
                                        && Tokens(cfg.estimate, Blocks(input.conversation), |Blocks(input.conversation)| - 1) > Budget(cfg, input.system)
  {
    var bs := Blocks(input.conversation);
    if bs != [] { assert Tokens(cfg.estimate, bs, |bs|) == 0; }
  }

  lemma OversizedSelection(cfg: Config, input: Input)
    requires SystemTokens(cfg, input) < cfg.maxTokens && Oversized(cfg, input)
    ensures var budget := cfg.maxTokens - SystemTokens(cfg, input);
            if cfg.policy.Fail? then SelectFor(cfg, input) == Err(WindowExceeded(cfg.estimate(Newest(input)), budget))
            else SelectFor(cfg, input).Ok? && IsReduced(cfg, Newest(input), budget, SelectFor(cfg, input).value.kept)
                 && SelectFor(cfg, input).value.tokens == cfg.estimate(SelectFor(cfg, input).value.kept)
  {
    BudgetIs(cfg, input);
    if cfg.policy.ElideToolOutputs? { assert IsElided(Newest(input), ElideAll(Newest(input))); }
  }

  lemma FittingSelection(cfg: Config, input: Input)
    requires SystemTokens(cfg, input) < cfg.maxTokens && !Oversized(cfg, input)
    ensures SelectFor(cfg, input).Ok?
  {
    BudgetIs(cfg, input);
  }

  ghost predicate SendsReduced(cfg: Config, input: Input, out: Output, kept: seq<Message>)
    requires SystemTokens(cfg, input) < cfg.maxTokens
  {
    && IsReduced(cfg, Newest(input), cfg.maxTokens - SystemTokens(cfg, input), kept)
    && out.messages == [System(input.system)] + (if out.cache.None? then [] else [System(out.cache.value.summary)]) + kept
  }

  /**
   * A newest block that does not fit: the policy to fail refuses the build with that block's estimate and the
   * budget. A build under one of the others sends, behind system prompt and summary, the elided block if
   * that is the policy and it fits, or else the marker if it fits, or else nothing.
   */
  lemma OversizedOutcome(cfg: Config, input: Input, answer: Result<Text, nat>)
    requires SystemTokens(cfg, input) < cfg.maxTokens && Oversized(cfg, input)
    ensures cfg.policy.Fail? ==>
              Build(cfg, input, answer) == Err(WindowExceeded(cfg.estimate(Newest(input)), cfg.maxTokens - SystemTokens(cfg, input)))
    ensures Build(cfg, input, answer).Ok? ==>
              exists kept :: SendsReduced(cfg, input, Build(cfg, input, answer).value, kept)
  {
    OversizedSelection(cfg, input);
    if Build(cfg, input, answer).Ok? {
      BuildShape(cfg, input, answer);
      assert SendsReduced(cfg, input, Build(cfg, input, answer).value, SelectFor(cfg, input).value.kept);
    }
  }

  // --- How much is kept --------------------------------------------------------------------------------------

  /** What is reserved for a summary. */
  function Reservation(cfg: Config, input: Input): nat {
    var budget := if SystemTokens(cfg, input) < cfg.maxTokens then cfg.maxTokens - SystemTokens(cfg, input) else 0;
    if !cfg.hasCompactor then 0 else if cfg.summaryBudget <= budget then cfg.summaryBudget else budget
  }

  /** The estimates of the blocks from `i` on, added up without overflow. */
  function Total(est: Estimator, bs: seq<seq<Message>>, i: nat): nat
    requires i <= |bs|
    decreases |bs| - i
  {
    if i == |bs| then 0 else est(bs[i]) + Total(est, bs, i + 1)
  }

  lemma {:induction false} TokensAreTotal(est: Estimator, bs: seq<seq<Message>>, i: nat)
    requires i <= |bs|
    ensures Tokens(est, bs, i) == Min(Total(est, bs, i), MAX_U64)
    decreases |bs| - i
  {
    if i < |bs| { TokensAreTotal(est, bs, i + 1); }
  }

  /**
   * When the newest block fits, it is kept with as many blocks before it as leave the reservation free: those
   * kept do, unless it is the newest one alone, and one more would not.
   */
  lemma KeepsAsManyAsFit(cfg: Config, input: Input)
    requires SystemTokens(cfg, input) < cfg.maxTokens && !Oversized(cfg, input) && Blocks(input.conversation) != []
    ensures var bs, e := Blocks(input.conversation), BlocksOmitted(cfg, input);
            var room := cfg.maxTokens - SystemTokens(cfg, input) - Reservation(cfg, input);
            && e < |bs| && SelectFor(cfg, input).Ok? && SelectFor(cfg, input).value.kept == Flatten(bs[e..])
            && SelectFor(cfg, input).value.tokens == Min(Total(cfg.estimate, bs, e), MAX_U64)
            && (e < |bs| - 1 ==> Min(Total(cfg.estimate, bs, e), MAX_U64) <= room)
            && (e > 0 ==> Min(Total(cfg.estimate, bs, e - 1), MAX_U64) > room)
  {
    BudgetIs(cfg, input);
    var bs, e := Blocks(input.conversation), BlocksOmitted(cfg, input);
    TokensAreTotal(cfg.estimate, bs, e);
    if e > 0 { TokensAreTotal(cfg.estimate, bs, e - 1); }
  }

  // --- When a build succeeds ---------------------------------------------------------------------------------

  /** What the build leaves out. */
  function LeftOut(cfg: Config, input: Input): seq<Message> {
    input.conversation[..Omitted(cfg, input)]
  }

  /** The cached summary is of this revision, of this policy and of just what is left out. */
  predicate CacheFits(cfg: Config, input: Input) {
    input.cached.Some? && input.cached.value.revision == input.revision && input.cached.value.version == cfg.version
    && input.cached.value.covered == |LeftOut(cfg, input)|
  }

  /** The compactor is asked exactly when something is left out that no fitting cache stands for. */
  lemma AskedWhen(cfg: Config, input: Input)
    ensures Asked(cfg, input).Some? <==> LeftOut(cfg, input) != [] && cfg.hasCompactor && !CacheFits(cfg, input)
    ensures Asked(cfg, input).Some? ==>
              var request, omitted := Asked(cfg, input).value, LeftOut(cfg, input);
              var usable := input.cached.Some? && input.cached.value.version == cfg.version;
              && request.maxTokens == Reservation(cfg, input)
              && (!usable ==> request.messages == omitted && request.previous.None?)
              && (usable && input.cached.value.covered <= |omitted| ==>
                    request.messages == omitted[input.cached.value.covered..] && request.previous == Some(input.cached.value.summary))
              && (usable && input.cached.value.covered > |omitted| ==> request.messages == [] && request.previous.None?)
  {
  }

  /** The summary that the build would send. */
  ghost predicate Summary(cfg: Config, input: Input, answer: Result<Text, nat>, summary: Option<Text>) {
    if LeftOut(cfg, input) == [] then summary.None?
    else if CacheFits(cfg, input) then summary == Some(input.cached.value.summary)
    else if cfg.hasCompactor then answer.Ok? && summary == Some(answer.value)
    else summary.None?
  }

  /** It keeps to its reservation, and together with what is kept to the window. */
  predicate SummaryFits(cfg: Config, input: Input, tokens: nat, summary: Option<Text>) {
    summary.Some? ==>
      cfg.estimate([System(summary.value)]) <= Reservation(cfg, input)
      && SystemTokens(cfg, input) + Min(tokens + cfg.estimate([System(summary.value)]), MAX_U64) <= cfg.maxTokens
  }

  lemma SummaryIs(cfg: Config, input: Input, answer: Result<Text, nat>)
    ensures var r := SummaryOf(cfg, input, LeftOut(cfg, input), answer);
            && (r.Ok? ==> forall summary :: Summary(cfg, input, answer, summary) <==> summary == r.value)
            && (r.Err? ==> forall summary :: !Summary(cfg, input, answer, summary))
            && (r.Err? ==> answer.Err? && r.error == CompactorFailed(answer.error) && Asked(cfg, input).Some?)
  {
  }

  /**
   * A build succeeds exactly if the system prompt leaves room, the newest block fits or may be reduced, and
   * there is a summary where one is needed that keeps to its budgets. It then sends just these parts.
   */
  lemma BuildSucceedsIff(cfg: Config, input: Input, answer: Result<Text, nat>)
    ensures Build(cfg, input, answer).Ok?
       <==> && SystemTokens(cfg, input) < cfg.maxTokens
            && !(Oversized(cfg, input) && cfg.policy.Fail?)
            && SelectFor(cfg, input).Ok?
            && exists summary :: Summary(cfg, input, answer, summary)
                                 && SummaryFits(cfg, input, SelectFor(cfg, input).value.tokens, summary)
    ensures Build(cfg, input, answer).Ok? ==>
              var out := Build(cfg, input, answer).value;
              var summary := if out.cache.None? then None else Some(out.cache.value.summary);
              && Summary(cfg, input, answer, summary)
              && (out.cache.Some? ==> out.cache.value == Cache(input.revision, cfg.version, |LeftOut(cfg, input)|, summary.value))
              && SelectFor(cfg, input).Ok?
              && out.messages == [System(input.system)] + (if summary.None? then [] else [System(summary.value)]) + SelectFor(cfg, input).value.kept
  {
    if Build(cfg, input, answer).Ok? { BuildShape(cfg, input, answer); }
    if SystemTokens(cfg, input) < cfg.maxTokens {
      BudgetIs(cfg, input);
      if Oversized(cfg, input) { OversizedSelection(cfg, input); } else { FittingSelection(cfg, input); }
      if SelectFor(cfg, input).Ok? { FinishIff(cfg, input, answer, SelectFor(cfg, input).value); }
    }
  }

  lemma FinishIff(cfg: Config, input: Input, answer: Result<Text, nat>, sel: Selection)
    requires SystemTokens(cfg, input) < cfg.maxTokens && Budget(cfg, input.system) == cfg.maxTokens - SystemTokens(cfg, input)
    ensures Complete(cfg, input, sel, answer).Ok?
       <==> exists summary :: Summary(cfg, input, answer, summary) && SummaryFits(cfg, input, sel.tokens, summary)
    ensures Complete(cfg, input, sel, answer).Ok? ==>
              var out := Complete(cfg, input, sel, answer).value;
              var summary := if out.cache.None? then None else Some(out.cache.value.summary);
              && Summary(cfg, input, answer, summary)
              && (out.cache.Some? ==> out.cache.value == Cache(input.revision, cfg.version, |LeftOut(cfg, input)|, summary.value))
  {
    SummaryIs(cfg, input, answer);
    var r := SummaryOf(cfg, input, LeftOut(cfg, input), answer);
    if r.Ok? { assert Summary(cfg, input, answer, r.value); }
  }

  /** Which failure a build reports, in the order of its checks. */
  lemma BuildFailures(cfg: Config, input: Input, answer: Result<Text, nat>)
    ensures SystemTokens(cfg, input) >= cfg.maxTokens ==>
              Build(cfg, input, answer) == Err(WindowExceeded(SystemTokens(cfg, input), cfg.maxTokens))
    ensures SystemTokens(cfg, input) < cfg.maxTokens && !(Oversized(cfg, input) && cfg.policy.Fail?)
            && Asked(cfg, input).Some? && answer.Err? ==>
              Build(cfg, input, answer) == Err(CompactorFailed(answer.error))
    ensures SystemTokens(cfg, input) < cfg.maxTokens && !(Oversized(cfg, input) && cfg.policy.Fail?)
            && Asked(cfg, input).Some? && answer.Ok? && cfg.estimate([System(answer.value)]) > Reservation(cfg, input) ==>
              Build(cfg, input, answer) == Err(CompactorViolation(cfg.estimate([System(answer.value)]), Reservation(cfg, input)))
  {
    if SystemTokens(cfg, input) < cfg.maxTokens {
      BudgetIs(cfg, input);
      if Oversized(cfg, input) { OversizedSelection(cfg, input); } else { FittingSelection(cfg, input); }
      SummaryIs(cfg, input, answer);
    }
  }

  /** The summary is too long for its reservation, or does not fit the window along with what is kept. */
  ghost predicate SummaryFails(cfg: Config, input: Input, tokens: nat, summary: Text, error: BuildError) {
    var size, system := cfg.estimate([System(summary)]), SystemTokens(cfg, input);
    if size > Reservation(cfg, input) then error == CompactorViolation(size, Reservation(cfg, input))
    else system + Min(tokens + size, MAX_U64) > cfg.maxTokens && error == WindowExceeded(Min(Min(system + tokens, MAX_U64) + size, MAX_U64), cfg.maxTokens)
  }

  lemma FinishFails(cfg: Config, input: Input, sel: Selection, omitted: seq<Message>, summary: Text)
    requires SystemTokens(cfg, input) < cfg.maxTokens
    ensures var r := Finish(cfg, input, sel, omitted, Some(summary));
            r.Err? ==> SummaryFails(cfg, input, sel.tokens, summary, r.error)
  {
    BudgetIs(cfg, input);
  }

  lemma Selects(cfg: Config, input: Input)
    requires SystemTokens(cfg, input) < cfg.maxTokens && !(Oversized(cfg, input) && cfg.policy.Fail?)
    ensures SelectFor(cfg, input).Ok?
  {
    BudgetIs(cfg, input);
    if Oversized(cfg, input) { OversizedSelection(cfg, input); } else { FittingSelection(cfg, input); }
  }

  /** A build that has all parts fails only for its summary, cached or new. */
  lemma SummaryFailures(cfg: Config, input: Input, answer: Result<Text, nat>, summary: Text)
    requires SystemTokens(cfg, input) < cfg.maxTokens && !(Oversized(cfg, input) && cfg.policy.Fail?)
    requires Summary(cfg, input, answer, Some(summary))
    ensures SelectFor(cfg, input).Ok?
    ensures var r := Build(cfg, input, answer);
            r.Err? ==> SummaryFails(cfg, input, SelectFor(cfg, input).value.tokens, summary, r.error)
  {
    Selects(cfg, input);
    SummaryIs(cfg, input, answer);
    FinishFails(cfg, input, SelectFor(cfg, input).value, LeftOut(cfg, input), summary);
  }
}
