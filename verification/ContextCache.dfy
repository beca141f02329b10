/**
 * Builds along a growing conversation: the omitted part only grows, and the cached summary has taken in
 * every omitted message exactly once.
 */
module ContextCache {
  import opened Prelude
  import opened ContextBlocks
  import opened ContextBuilder

  // --- The omitted part only grows ------------------------------------------------------------------

  lemma {:induction false} TokensDecrease(est: Estimator, bs: seq<seq<Message>>, i: nat, j: nat)
    requires i <= j <= |bs|
    ensures Tokens(est, bs, j) <= Tokens(est, bs, i) || Tokens(est, bs, i) == MAX_U64
    decreases j - i
  {
    if i < j { TokensDecrease(est, bs, i + 1, j); }
  }

  lemma {:induction false} TokensAtMost(est: Estimator, bs: seq<seq<Message>>, i: nat)
    requires i <= |bs|
    ensures Tokens(est, bs, i) <= MAX_U64
  {
  }

  /** Longer blocks and further blocks count more. */
  lemma {:induction false} TokensGrow(est: Estimator, bs: seq<seq<Message>>, more: seq<seq<Message>>, i: nat)
    requires Monotone(est) && i < |bs| <= |more|
    requires more[..|bs| - 1] == bs[..|bs| - 1] && bs[|bs| - 1] <= more[|bs| - 1]
    ensures Tokens(est, bs, i) <= Tokens(est, more, i)
    decreases |bs| - i
  {
    var n := |bs| - 1;
    if i == n {
      assert NoLessThanPrefix(est, bs[n], more[n]);
    } else {
      TokensGrow(est, bs, more, i + 1);
      assert bs[i] == bs[..n][i] && more[i] == more[..n][i];
    }
  }

  lemma EndGrows(est: Estimator, bs: seq<seq<Message>>, more: seq<seq<Message>>, budget: nat, historyBudget: nat)
    requires Monotone(est) && historyBudget <= budget && 0 < |bs| <= |more|
    requires more[..|bs| - 1] == bs[..|bs| - 1] && bs[|bs| - 1] <= more[|bs| - 1]
    ensures EndOf(est, bs, budget, historyBudget) <= EndOf(est, more, budget, historyBudget)
  {
    var e, e' := EndOf(est, bs, budget, historyBudget), EndOf(est, more, budget, historyBudget);
    if e' < e {
      var stop := if Tokens(est, bs, |bs| - 1) > budget then |bs| - 1 else e - 1;
      TokensGrow(est, bs, more, stop);
      TokensDecrease(est, more, e', stop);
      TokensAtMost(est, more, stop);
    }
  }

  lemma {:induction false} FlattenMonotone(bs: seq<seq<Message>>, i: nat, j: nat)
    requires i <= j <= |bs|
    ensures |Flatten(bs[..i])| <= |Flatten(bs[..j])|
  {
    assert bs[..j] == bs[..i] + bs[i..j];
    FlattenConcat(bs[..i], bs[i..j]);
  }

  /** More blocks left out of a longer list, whose common blocks are the same, are more messages left out. */
  lemma LeftOutGrows(bs: seq<seq<Message>>, more: seq<seq<Message>>, n: nat, e: nat, e': nat)
    requires e <= n <= |bs| && n <= |more| && more[..n] == bs[..n] && e <= e' <= |more|
    ensures |Flatten(bs[..e])| <= |Flatten(more[..e'])|
  {
    assert bs[..e] == bs[..n][..e];
    assert more[..e] == more[..n][..e];
    FlattenMonotone(more, e, e');
  }

  lemma EndBlocksGrow(cfg: Config, system: Text, a: seq<Message>, rest: seq<Message>, budget: nat, historyBudget: nat)
    requires Monotone(cfg.estimate) && a != [] && historyBudget <= budget
    ensures var bs, more := Blocks(a), Blocks(a + rest);
            var e, e' := EndOf(cfg.estimate, bs, budget, historyBudget), EndOf(cfg.estimate, more, budget, historyBudget);
            |Flatten(bs[..e])| <= |Flatten(more[..e'])|
  {
    var bs, more := Blocks(a), Blocks(a + rest);
    BlocksAppend(a, rest);
    EndGrows(cfg.estimate, bs, more, budget, historyBudget);
    LeftOutGrows(bs, more, |bs| - 1, EndOf(cfg.estimate, bs, budget, historyBudget), EndOf(cfg.estimate, more, budget, historyBudget));
  }

  lemma Rejoin(a: seq<Message>, b: seq<Message>)
    requires a <= b
    ensures a + b[|a|..] == b
  {
  }

  lemma PrefixOfPrefix(a: seq<Message>, b: seq<Message>, i: nat, j: nat)
    requires a <= b && i <= |a| && i <= j <= |b|
    ensures a[..i] <= b[..j]
  {
    assert forall k :: 0 <= k < i ==> a[k] == b[k];
  }

  lemma OmittedIs(cfg: Config, input: Input, budget: nat)
    requires budget == Budget(cfg, input.system)
    ensures var bs := Blocks(input.conversation);
            Omitted(cfg, input) == |Flatten(bs[..EndOf(cfg.estimate, bs, budget, budget - Reserved(cfg, budget))])|
    ensures input.conversation == [] ==> Omitted(cfg, input) == 0
  {
  }

  /** With a fixed configuration and an estimator that grows with its input, the omitted prefix never shrinks. */
  lemma OmittedGrows(cfg: Config, before: Input, after: Input)
    requires Monotone(cfg.estimate) && before.system == after.system && before.conversation <= after.conversation
    ensures Omitted(cfg, before) <= Omitted(cfg, after)
    ensures before.conversation[..Omitted(cfg, before)] <= after.conversation[..Omitted(cfg, after)]
  {
    var rest := after.conversation[|before.conversation|..];
    var budget := Budget(cfg, before.system);
    OmittedIs(cfg, before, budget);
    OmittedIs(cfg, after, budget);
    if before.conversation != [] {
      EndBlocksGrow(cfg, before.system, before.conversation, rest, budget, budget - Reserved(cfg, budget));
      Rejoin(before.conversation, after.conversation);
    }
    PrefixOfPrefix(before.conversation, after.conversation, Omitted(cfg, before), Omitted(cfg, after));
  }

  // --- Builds in a row --------------------------------------------------------------------------------

  /** One answer of a compactor. */
  datatype Compaction = Compaction(request: Request, summary: Text)

  function Consumed(chain: seq<Compaction>): seq<Message> {
    if chain == [] then [] else Consumed(chain[..|chain| - 1]) + chain[|chain| - 1].request.messages
  }

  /** Each compaction starts from the summary of the one before, the first from nothing. */
  ghost predicate Linked(chain: seq<Compaction>) {
    forall i :: 0 <= i < |chain| ==> chain[i].request.previous == SummaryBefore(chain, i)
  }

  function SummaryBefore(chain: seq<Compaction>, i: nat): Option<Text>
    requires i <= |chain|
  {
    if i == 0 then None else Some(chain[i - 1].summary)
  }

  /** The summary was made of exactly these messages, each taken in once and in order. */
  ghost predicate Summarises(chain: seq<Compaction>, messages: seq<Message>, summary: Text) {
    chain != [] && Linked(chain) && Consumed(chain) == messages && chain[|chain| - 1].summary == summary
  }

  /** One build: the thread as it then is, and what a compactor would answer. */
  datatype Visit = Visit(revision: nat, conversation: seq<Message>, answer: Result<Text, nat>)

  /** The saved cache, and the compactions behind its summary. */
  datatype Session = Session(cache: Option<Cache>, chain: seq<Compaction>)

  function InputOf(system: Text, s: Session, v: Visit): Input {
    Input(v.revision, v.conversation, system, s.cache)
  }

  /** A build saves its cache when it has one; a failed build saves nothing. */
  function AfterBuild(cfg: Config, system: Text, s: Session, v: Visit): Session {
    var input := InputOf(system, s, v);
    var r := Build(cfg, input, v.answer);
    if r.Err? || r.value.cache.None? then s
    else Session(r.value.cache, ChainAfter(s, Asked(cfg, input), v.answer))
  }

  function ChainAfter(s: Session, asked: Option<Request>, answer: Result<Text, nat>): seq<Compaction> {
    if asked.None? || answer.Err? then s.chain
    else (if asked.value.previous.None? then [] else s.chain) + [Compaction(asked.value, answer.value)]
  }

  function AfterBuilds(cfg: Config, system: Text, visits: seq<Visit>): Session {
    if visits == [] then Session(None, [])
    else AfterBuild(cfg, system, AfterBuilds(cfg, system, visits[..|visits| - 1]), visits[|visits| - 1])
  }

  /** Every visit sees the conversation of the one before, perhaps continued. */
  predicate AppendOnly(visits: seq<Visit>) {
    forall i :: 0 < i < |visits| ==> visits[i - 1].conversation <= visits[i].conversation
  }

  /** The cache fits the conversation: it covers a prefix that is omitted, and its summary summarises it. */
  ghost predicate CacheOk(cfg: Config, system: Text, s: Session, conversation: seq<Message>) {
    s.cache.Some? ==>
      var c := s.cache.value;
      c.version == cfg.version && c.covered <= Omitted(cfg, Input(0, conversation, system, None))
      && Summarises(s.chain, conversation[..c.covered], c.summary)
  }

  lemma SameOmitted(cfg: Config, a: Input, b: Input)
    requires a.system == b.system && a.conversation == b.conversation
    ensures Omitted(cfg, a) == Omitted(cfg, b)
  {
  }

  /** A conversation that goes on keeps what the cache covers. */
  lemma CacheStaysOk(cfg: Config, system: Text, s: Session, before: seq<Message>, after: seq<Message>)
    requires Monotone(cfg.estimate) && before <= after && CacheOk(cfg, system, s, before)
    ensures CacheOk(cfg, system, s, after)
  {
    if s.cache.Some? {
      OmittedGrows(cfg, Input(0, before, system, None), Input(0, after, system, None));
      assert before[..s.cache.value.covered] == after[..s.cache.value.covered];
    }
  }

  /** What the compactor is asked for is exactly what the cache does not cover yet. */
  lemma AskedIsTheRest(cfg: Config, system: Text, s: Session, v: Visit)
    requires CacheOk(cfg, system, s, v.conversation) && Asked(cfg, InputOf(system, s, v)).Some?
    ensures var request := Asked(cfg, InputOf(system, s, v)).value;
            var omitted := v.conversation[..Omitted(cfg, InputOf(system, s, v))];
            if s.cache.Some? then request.previous == Some(s.cache.value.summary) && omitted == v.conversation[..s.cache.value.covered] + request.messages
            else request.previous.None? && request.messages == omitted
  {
    SameOmitted(cfg, InputOf(system, s, v), Input(0, v.conversation, system, None));
    var omitted := v.conversation[..Omitted(cfg, InputOf(system, s, v))];
    if s.cache.Some? {
      assert omitted == omitted[..s.cache.value.covered] + omitted[s.cache.value.covered..];
      assert omitted[..s.cache.value.covered] == v.conversation[..s.cache.value.covered];
    } else {
      assert omitted[0..] == omitted;
    }
  }

  lemma ChainGrows(chain: seq<Compaction>, prefix: seq<Message>, summary: Text, next: Compaction)
    requires Summarises(chain, prefix, summary) && next.request.previous == Some(summary)
    ensures Summarises(chain + [next], prefix + next.request.messages, next.summary)
  {
    assert (chain + [next])[..|chain|] == chain;
    forall i | 0 <= i < |chain + [next]|
      ensures (chain + [next])[i].request.previous == SummaryBefore(chain + [next], i)
    {
      if i < |chain| { assert chain[i].request.previous == SummaryBefore(chain, i); }
    }
  }

  lemma ChainStarts(next: Compaction)
    requires next.request.previous.None?
    ensures Summarises([next], next.request.messages, next.summary)
  {
    assert [next][..0] == [];
    assert Consumed([next]) == [] + next.request.messages;
  }

  /** What a successful build with a summary saves. */
  lemma SavedCache(cfg: Config, input: Input, answer: Result<Text, nat>)
    requires Build(cfg, input, answer).Ok? && Build(cfg, input, answer).value.cache.Some?
    ensures var c := Build(cfg, input, answer).value.cache.value;
            var omitted := input.conversation[..Omitted(cfg, input)];
            c.covered == |omitted| && c.version == cfg.version && omitted != []
            && (Asked(cfg, input).Some? ==> answer == Ok(c.summary))
            && (Asked(cfg, input).None? ==> IsCurrent(cfg, input, omitted) && c.summary == input.cached.value.summary)
  {
  }

  /** One build keeps the cache in step with the conversation, and brings it up to date when it saves one. */
  lemma BuildKeepsCache(cfg: Config, system: Text, s: Session, v: Visit)
    requires CacheOk(cfg, system, s, v.conversation)
    ensures CacheOk(cfg, system, AfterBuild(cfg, system, s, v), v.conversation)
  {
    var input := InputOf(system, s, v);
    var r := Build(cfg, input, v.answer);
    if r.Ok? && r.value.cache.Some? {
      SameOmitted(cfg, input, Input(0, v.conversation, system, None));
      SavedCache(cfg, input, v.answer);
      if Asked(cfg, input).Some? { CompactionKeepsCache(cfg, system, s, v); }
    }
  }

  lemma CompactionKeepsCache(cfg: Config, system: Text, s: Session, v: Visit)
    requires CacheOk(cfg, system, s, v.conversation) && Asked(cfg, InputOf(system, s, v)).Some? && v.answer.Ok?
    ensures Summarises(ChainAfter(s, Asked(cfg, InputOf(system, s, v)), v.answer),
                       v.conversation[..Omitted(cfg, InputOf(system, s, v))], v.answer.value)
  {
    AskedIsTheRest(cfg, system, s, v);
    var next := Compaction(Asked(cfg, InputOf(system, s, v)).value, v.answer.value);
    if s.cache.Some? {
      ChainGrows(s.chain, v.conversation[..s.cache.value.covered], s.cache.value.summary, next);
    } else {
      ChainStarts(next);
      assert [] + [next] == [next];
    }
  }

  /** Along any builds of a growing conversation the cache covers an omitted prefix, each message once. */
  lemma {:induction false} CacheCoversOmitted(cfg: Config, system: Text, visits: seq<Visit>)
    requires Monotone(cfg.estimate) && AppendOnly(visits) && visits != []
    ensures CacheOk(cfg, system, AfterBuilds(cfg, system, visits), visits[|visits| - 1].conversation)
    decreases |visits|
  {
    var n := |visits| - 1;
    var before := AfterBuilds(cfg, system, visits[..n]);
    if n > 0 {
      CacheCoversOmitted(cfg, system, visits[..n]);
      CacheStaysOk(cfg, system, before, visits[n - 1].conversation, visits[n].conversation);
    }
    BuildKeepsCache(cfg, system, before, visits[n]);
  }

  /** So it does with the built-in estimator, whatever the messages and their lengths are. */
  lemma BuiltInCacheCoversOmitted(cfg: Config, size: Message -> nat, system: Text, visits: seq<Visit>)
    requires cfg.estimate == Approximate(size) && AppendOnly(visits) && visits != []
    ensures CacheOk(cfg, system, AfterBuilds(cfg, system, visits), visits[|visits| - 1].conversation)
  {
    ApproximateIsMonotone(size);
    CacheCoversOmitted(cfg, system, visits);
  }

  /** The summary a build puts into its messages stands for exactly the messages it omits. */
  lemma SummaryStandsForOmitted(cfg: Config, system: Text, visits: seq<Visit>)
    requires Monotone(cfg.estimate) && AppendOnly(visits) && visits != []
    ensures var n := |visits| - 1;
            var input := InputOf(system, AfterBuilds(cfg, system, visits[..n]), visits[n]);
            var r := Build(cfg, input, visits[n].answer);
            r.Ok? && r.value.cache.Some? ==>
              Summarises(AfterBuilds(cfg, system, visits).chain, input.conversation[..Omitted(cfg, input)], r.value.cache.value.summary)
  {
    CacheCoversOmitted(cfg, system, visits);
    var n := |visits| - 1;
    var input := InputOf(system, AfterBuilds(cfg, system, visits[..n]), visits[n]);
    if Build(cfg, input, visits[n].answer).Ok? && Build(cfg, input, visits[n].answer).value.cache.Some? {
      SavedCache(cfg, input, visits[n].answer);
    }
  }

  // --- As if from scratch ---------------------------------------------------------------------------------

  type Compactor = (Option<Text>, seq<Message>) -> Text

  /** Summarising in two steps is summarising at once. */
  ghost predicate ChunkInsensitive(f: Compactor) {
    forall p, a, b :: TwoStepsAsOne(f, p, a, b)
  }

  predicate TwoStepsAsOne(f: Compactor, p: Option<Text>, a: seq<Message>, b: seq<Message>) {
    f(Some(f(p, a)), b) == f(p, a + b)
  }

  ghost predicate Obeys(f: Compactor, chain: seq<Compaction>) {
    forall i :: 0 <= i < |chain| ==> chain[i].summary == f(chain[i].request.previous, chain[i].request.messages)
  }

  /** Then the summary at the end of a chain is the one made from scratch. */
  lemma {:induction false} ChainFromScratch(f: Compactor, chain: seq<Compaction>, messages: seq<Message>, summary: Text)
    requires ChunkInsensitive(f) && Obeys(f, chain) && Summarises(chain, messages, summary)
    ensures summary == f(None, messages)
    decreases |chain|
  {
    var n := |chain| - 1;
    var before := chain[..n];
    assert chain[n].request.previous == SummaryBefore(chain, n);
    if n == 0 {
      assert Consumed(before) == [] && [] + chain[0].request.messages == chain[0].request.messages;
      assert messages == chain[0].request.messages;
    } else {
      forall i | 0 <= i < n
        ensures before[i].request.previous == SummaryBefore(before, i)
      {
        assert chain[i].request.previous == SummaryBefore(chain, i);
      }
      ChainFromScratch(f, before, Consumed(before), chain[n - 1].summary);
      assert TwoStepsAsOne(f, None, Consumed(before), chain[n].request.messages);
      assert messages == Consumed(before) + chain[n].request.messages;
    }
  }

  /** When the compactor is asked at visit `i`, it fails or answers as `f`. */
  ghost predicate AnswersAs(f: Compactor, cfg: Config, system: Text, visits: seq<Visit>, i: nat)
    requires i < |visits|
  {
    var asked := Asked(cfg, InputOf(system, AfterBuilds(cfg, system, visits[..i]), visits[i]));
    asked.Some? && visits[i].answer.Ok? ==> visits[i].answer.value == f(asked.value.previous, asked.value.messages)
  }

  ghost predicate AlwaysAnswersAs(f: Compactor, cfg: Config, system: Text, visits: seq<Visit>) {
    forall i :: 0 <= i < |visits| ==> AnswersAs(f, cfg, system, visits, i)
  }

  lemma {:induction false} ChainObeys(f: Compactor, cfg: Config, system: Text, visits: seq<Visit>)
    requires AlwaysAnswersAs(f, cfg, system, visits)
    ensures Obeys(f, AfterBuilds(cfg, system, visits).chain)
    decreases |visits|
  {
    if visits != [] {
      var n := |visits| - 1;
      forall i | 0 <= i < n
        ensures AnswersAs(f, cfg, system, visits[..n], i)
      {
        assert AnswersAs(f, cfg, system, visits, i) && visits[..n][..i] == visits[..i];
      }
      ChainObeys(f, cfg, system, visits[..n]);
      assert AnswersAs(f, cfg, system, visits, n);
    }
  }

  /**
   * Along any builds of a growing conversation the cached summary, and the one that a build sends, is what the
   * compactor makes of all omitted messages at once.
   */
  lemma AsIfFromScratch(f: Compactor, cfg: Config, system: Text, visits: seq<Visit>)
    requires Monotone(cfg.estimate) && AppendOnly(visits) && visits != []
    requires ChunkInsensitive(f) && AlwaysAnswersAs(f, cfg, system, visits)
    ensures var cache, conversation := AfterBuilds(cfg, system, visits).cache, visits[|visits| - 1].conversation;
            cache.Some? ==> cache.value.covered <= |conversation| && cache.value.summary == f(None, conversation[..cache.value.covered])
    ensures var n := |visits| - 1;
            var input := InputOf(system, AfterBuilds(cfg, system, visits[..n]), visits[n]);
            var r := Build(cfg, input, visits[n].answer);
            r.Ok? && r.value.cache.Some? ==> r.value.cache.value.summary == f(None, input.conversation[..Omitted(cfg, input)])
  {
    var after, n := AfterBuilds(cfg, system, visits), |visits| - 1;
    CacheCoversOmitted(cfg, system, visits);
    SummaryStandsForOmitted(cfg, system, visits);
    ChainObeys(f, cfg, system, visits);
    if after.cache.Some? {
      ChainFromScratch(f, after.chain, visits[n].conversation[..after.cache.value.covered], after.cache.value.summary);
    }
    var input := InputOf(system, AfterBuilds(cfg, system, visits[..n]), visits[n]);
    var r := Build(cfg, input, visits[n].answer);
    if r.Ok? && r.value.cache.Some? {
      ChainFromScratch(f, after.chain, input.conversation[..Omitted(cfg, input)], r.value.cache.value.summary);
    }
  }
}
