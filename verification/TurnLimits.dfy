/** What the limit on function calls guarantees: it binds the loop between two recoveries. */
module TurnLimits {
  import opened Prelude
  import opened TurnItems
  import opened TurnMachine
  import opened TurnSafety
  import opened TurnTheorems
  import opened TurnExamples

  /** The event is an execution of a registered function in turn `t` that nobody approved. */
  ghost predicate Counts(cfg: Config, e: Event, t: nat) {
    e.Invoked? && e.turn == t && !e.approved && e.call.name in cfg.policy
  }

  /** How many calls of turn `t` were executed without an approval. */
  ghost function Executed(cfg: Config, log: seq<Event>, t: nat): nat {
    if log == [] then 0
    else Executed(cfg, log[..|log| - 1], t) + if Counts(cfg, log[|log| - 1], t) then 1 else 0
  }

  /** What recoveries add to the limit: the calls each found pending, and the limit once more. */
  ghost function Allowance(cfg: Config, log: seq<Event>, t: nat): nat {
    if log == [] then 0
    else
      var e := log[|log| - 1];
      Allowance(cfg, log[..|log| - 1], t) + if e.Recovered? && e.turn == t then e.pending + cfg.maxCalls else 0
  }

  lemma PushLog(cfg: Config, log: seq<Event>, e: Event, t: nat)
    ensures Executed(cfg, log + [e], t) == Executed(cfg, log, t) + if Counts(cfg, e, t) then 1 else 0
    ensures Allowance(cfg, log + [e], t) == Allowance(cfg, log, t) + if e.Recovered? && e.turn == t then e.pending + cfg.maxCalls else 0
  {
    assert (log + [e])[..|log|] == log;
  }

  // --- The bound -------------------------------------------------------------------------------------------

  ghost predicate WithinAllowance(cfg: Config, log: seq<Event>, t: nat) {
    Executed(cfg, log, t) <= cfg.maxCalls + Allowance(cfg, log, t)
  }

  /** What the loop may still execute, given what was executed and allowed so far. */
  ghost predicate PcWithin(cfg: Config, pc: Pc, executed: nat, allowed: nat) {
    match pc
    case AskModel(_, count) => executed <= allowed + count && count <= cfg.maxCalls
    case AtCall(r, i) => executed + (r.admitted - i) <= allowed + r.count && i <= r.admitted && r.count <= cfg.maxCalls
    case CallBegun(r, i) => executed + (r.admitted - i) <= allowed + r.count && i < r.admitted && r.count <= cfg.maxCalls
    case CallRunning(r, i) => executed + (r.admitted - i - 1) <= allowed + r.count && i < r.admitted && r.count <= cfg.maxCalls
    case AtPending(p, i) => executed + (|p| - i) <= allowed && i <= |p|
    case PendingBegun(p, i) => executed + (|p| - i) <= allowed && i < |p|
    case PendingRunning(p, i) => executed + (|p| - i - 1) <= allowed && i < |p|
    case _ => true
  }

  ghost predicate LimitOk(cfg: Config, s: State) {
    && (forall t: nat :: WithinAllowance(cfg, s.log, t))
    && (forall t: nat :: |s.disk| <= t ==> Executed(cfg, s.log, t) == 0)
    && (!s.pc.Idle? ==> s.turn < |s.disk|)
    && PcWithin(cfg, s.pc, Executed(cfg, s.log, s.turn), Allowance(cfg, s.log, s.turn))
  }

  /** An event that is neither an execution nor a recovery changes no count. */
  lemma QuietEvent(cfg: Config, s: State, e: Event)
    requires LimitOk(cfg, s) && !e.Recovered? && (e.Invoked? ==> e.approved)
    ensures forall t: nat :: WithinAllowance(cfg, s.log + [e], t)
    ensures forall t: nat :: Executed(cfg, s.log + [e], t) == Executed(cfg, s.log, t)
    ensures forall t: nat :: Allowance(cfg, s.log + [e], t) == Allowance(cfg, s.log, t)
  {
    forall t: nat
      ensures Executed(cfg, s.log + [e], t) == Executed(cfg, s.log, t)
      ensures Allowance(cfg, s.log + [e], t) == Allowance(cfg, s.log, t)
      ensures WithinAllowance(cfg, s.log + [e], t)
    {
      PushLog(cfg, s.log, e, t);
      assert WithinAllowance(cfg, s.log, t);
    }
  }

  /** The logs of actions other than recovery and execution. */
  lemma QuietLimitLog(cfg: Config, s: State, a: Action)
    requires Enabled(cfg, s, a) && !a.Invoke? && !a.Recover?
    ensures var log' := Next(cfg, s, a).log;
            log' == s.log
            || (|log'| == |s.log| + 1 && log' == s.log + [log'[|s.log|]] && !log'[|s.log|].Recovered? && !log'[|s.log|].Invoked?)
  {
  }

  lemma QuietPc(cfg: Config, s: State, a: Action, executed: nat, allowed: nat)
    requires Enabled(cfg, s, a) && !a.Invoke? && !a.Recover? && !a.NewTurn? && PcWithin(cfg, s.pc, executed, allowed)
    ensures PcWithin(cfg, Next(cfg, s, a).pc, executed, allowed)
    ensures !Next(cfg, s, a).pc.Idle? ==> Next(cfg, s, a).turn == s.turn || Next(cfg, s, a).pc.ResumeBegun?
  {
  }

  lemma QuietTurns(cfg: Config, s: State, a: Action)
    requires Enabled(cfg, s, a)
    ensures var s' := Next(cfg, s, a);
            |s.disk| <= |s'.disk| && (!s'.pc.Idle? ==> s'.turn < |s'.disk|)
  {
    ActiveBounds(s.disk);
  }

  lemma QuietKeepsLimit(cfg: Config, s: State, a: Action)
    requires LimitOk(cfg, s) && Enabled(cfg, s, a) && !a.Invoke? && !a.Recover?
    ensures LimitOk(cfg, Next(cfg, s, a))
  {
    var s' := Next(cfg, s, a);
    QuietLimitLog(cfg, s, a);
    QuietTurns(cfg, s, a);
    if s'.log != s.log { QuietEvent(cfg, s, s'.log[|s.log|]); }
    if !a.NewTurn? { QuietPc(cfg, s, a, Executed(cfg, s.log, s.turn), Allowance(cfg, s.log, s.turn)); }
  }

  lemma InvokeKeepsLimit(cfg: Config, s: State)
    requires LimitOk(cfg, s) && Enabled(cfg, s, Invoke)
    ensures LimitOk(cfg, Next(cfg, s, Invoke))
  {
    var e := Next(cfg, s, Invoke).log[|s.log|];
    forall t: nat
      ensures WithinAllowance(cfg, s.log + [e], t) && (|s.disk| <= t ==> Executed(cfg, s.log + [e], t) == 0)
    {
      PushLog(cfg, s.log, e, t);
      assert WithinAllowance(cfg, s.log, t);
    }
    PushLog(cfg, s.log, e, s.turn);
  }

  lemma RecoverKeepsLimit(cfg: Config, s: State)
    requires LimitOk(cfg, s) && Enabled(cfg, s, Recover)
    ensures LimitOk(cfg, Next(cfg, s, Recover))
  {
    ActiveBounds(s.disk);
    var s' := Next(cfg, s, Recover);
    var e := s'.log[|s.log|];
    forall t: nat
      ensures WithinAllowance(cfg, s'.log, t) && (|s.disk| <= t ==> Executed(cfg, s'.log, t) == 0)
    {
      PushLog(cfg, s.log, e, t);
      assert WithinAllowance(cfg, s.log, t);
    }
    PushLog(cfg, s.log, e, s'.turn);
    assert WithinAllowance(cfg, s.log, s'.turn);
  }

  lemma {:induction false} EveryRunIsLimited(cfg: Config, actions: seq<Action>, s: State)
    requires Reaches(cfg, actions, s)
    ensures LimitOk(cfg, s)
    decreases |actions|
  {
    if actions != [] {
      var n := |actions| - 1;
      var before := LastStep(cfg, actions, s);
      EveryRunIsLimited(cfg, actions[..n], before);
      if actions[n].Invoke? {
        InvokeKeepsLimit(cfg, before);
      } else if actions[n].Recover? {
        RecoverKeepsLimit(cfg, before);
      } else {
        QuietKeepsLimit(cfg, before, actions[n]);
      }
    }
  }

  /** Each recovery of a turn adds the calls it found pending and the limit once more, and nothing else does. */
  lemma RecoveryRaisesLimit(cfg: Config, actions: seq<Action>, s: State, t: nat)
    requires Reaches(cfg, actions, s)
    ensures Executed(cfg, s.log, t) <= cfg.maxCalls + Allowance(cfg, s.log, t)
  {
    EveryRunIsLimited(cfg, actions, s);
    assert WithinAllowance(cfg, s.log, t);
  }

  /** In a turn that was never recovered the limit holds. */
  lemma LimitHoldsUntilRecovery(cfg: Config, actions: seq<Action>, s: State, t: nat)
    requires Reaches(cfg, actions, s) && forall n :: Recovered(t, n) !in s.log
    ensures Executed(cfg, s.log, t) <= cfg.maxCalls
  {
    RecoveryRaisesLimit(cfg, actions, s, t);
    NothingAllowed(cfg, s.log, t);
  }

  lemma {:induction false} NothingAllowed(cfg: Config, log: seq<Event>, t: nat)
    requires forall n :: Recovered(t, n) !in log
    ensures Allowance(cfg, log, t) == 0
  {
    if log != [] {
      var e := log[|log| - 1];
      assert e in log && forall x :: x in log[..|log| - 1] ==> x in log;
      NothingAllowed(cfg, log[..|log| - 1], t);
    }
  }

  // --- For which configurations the limit is kept ---------------------------------------------------------

  /** No run executes more calls in a turn than the limit says. */
  ghost predicate LimitIsKept(cfg: Config) {
    forall actions, s, t: nat :: Reaches(cfg, actions, s) ==> WithinLimit(cfg, s, t)
  }

  ghost predicate WithinLimit(cfg: Config, s: State, t: nat) {
    Executed(cfg, s.log, t) <= cfg.maxCalls
  }

  /** More calls than the limit, all of the same function. */
  function TooMany(cfg: Config, name: nat): seq<Call> {
    seq(cfg.maxCalls + 1, i requires 0 <= i => Call(i, name, 0))
  }

  /** Recovery runs them all, whatever the limit. */
  lemma {:induction false} RecoverOneMore(cfg: Config, name: nat, i: nat) returns (actions: seq<Action>, s: State)
    requires cfg.maxIterations > 0 && name in cfg.policy && i <= cfg.maxCalls + 1
    ensures Reaches(cfg, actions, s) && |s.disk| == 1 && s.turn == 0 && s.disk[0].status.Running?
    ensures s.pc == AtPending(Untouched(TooMany(cfg, name)), i) && Executed(cfg, s.log, 0) == i
    decreases i
  {
    var p := Untouched(TooMany(cfg, name));
    if i == 0 {
      actions := RunToRecovery(cfg, TooMany(cfg, name));
      s := State([Turn(Running, Asked(TooMany(cfg, name)))], 0, AtPending(p, 0), [Recovered(0, |TooMany(cfg, name)|)]);
      PushLog(cfg, [], Recovered(0, |TooMany(cfg, name)|), 0);
      assert [] + [Recovered(0, |TooMany(cfg, name)|)] == s.log;
    } else {
      actions, s := RecoverOneMore(cfg, name, i - 1);
      var items, log := s.disk[0].items, s.log;
      assert s == State([Turn(Running, items)], 0, AtPending(p, i - 1), log);
      actions := StartAndInvoke(cfg, actions, items, p, i - 1, log);
      var call := p[i - 1].call;
      s := State([Turn(Running, items + [CallStarted(call.id, 1)])], 0, PendingRunning(p, i - 1), log + [Invoked(0, call, false)]);
      PushLog(cfg, log, Invoked(0, call, false), 0);
      ReachStep(cfg, actions, s, Finish(Returned(0)));
      s, actions := Next(cfg, s, Finish(Returned(0))), actions + [Finish(Returned(0))];
    }
  }

  lemma {:induction false} NothingRegistered(cfg: Config, log: seq<Event>, t: nat)
    requires cfg.policy == map[]
    ensures Executed(cfg, log, t) == 0
  {
    if log != [] { NothingRegistered(cfg, log[..|log| - 1], t); }
  }

  // Without model requests there are no calls at all.

  ghost predicate NoCallsIn(items: seq<Item>) {
    forall i :: 0 <= i < |items| ==> !items[i].ModelResponse?
  }

  ghost predicate Silent(s: State) {
    && (forall k :: 0 <= k < |s.disk| ==> NoCallsIn(s.disk[k].items))
    && (forall e :: e in s.log ==> !e.Invoked?)
    && (match s.pc
        case Idle => true
        case AskModel(_, _) => true
        case AtPending(p, _) => p == []
        case Closing(mem) => NoCallsIn(mem.items)
        case _ => false)
  }

  lemma {:induction false} NoCallFound(items: seq<Item>, id: nat)
    requires NoCallsIn(items)
    ensures FindCall(items, id).None? && ViewOf(items).last == []
    decreases |items|
  {
    if items != [] { NoCallFound(items[..|items| - 1], id); }
  }

  lemma ActionKeepsSilence(cfg: Config, s: State, a: Action)
    requires cfg.maxIterations == 0 && Silent(s) && Enabled(cfg, s, a)
    ensures Silent(Next(cfg, s, a))
  {
    forall k, id: nat | 0 <= k < |s.disk|
      ensures FindCall(s.disk[k].items, id).None? && ViewOf(s.disk[k].items).last == []
    {
      NoCallFound(s.disk[k].items, id);
    }
    if a.Recover? {
      ActiveBounds(s.disk);
      assert FindCall(s.disk[ActiveTurn(s.disk).value].items, 0).None?;
    }
  }

  lemma {:induction false} EveryRunIsSilent(cfg: Config, actions: seq<Action>, s: State)
    requires cfg.maxIterations == 0 && Reaches(cfg, actions, s)
    ensures Silent(s)
    decreases |actions|
  {
    if actions != [] {
      var n := |actions| - 1;
      var before := LastStep(cfg, actions, s);
      EveryRunIsSilent(cfg, actions[..n], before);
      ActionKeepsSilence(cfg, before, actions[n]);
    }
  }

  lemma {:induction false} SilentExecutesNothing(cfg: Config, log: seq<Event>, t: nat)
    requires forall e :: e in log ==> !e.Invoked?
    ensures Executed(cfg, log, t) == 0
  {
    if log != [] {
      assert log[|log| - 1] in log && forall e :: e in log[..|log| - 1] ==> e in log;
      SilentExecutesNothing(cfg, log[..|log| - 1], t);
    }
  }

  /**
   * The limit is kept by every run exactly when nothing can be executed at all: whatever the limit, a
   * process that dies after a response with one call too many lets recovery run them all.
   */
  lemma LimitIsKeptOnlyTrivially(cfg: Config)
    ensures LimitIsKept(cfg) <==> cfg.maxIterations == 0 || cfg.policy == map[]
  {
    if cfg.maxIterations > 0 && cfg.policy != map[] {
      var name :| name in cfg.policy;
      var actions, s := RecoverOneMore(cfg, name, cfg.maxCalls + 1);
      assert !WithinLimit(cfg, s, 0);
    } else {
      forall actions, s, t: nat | Reaches(cfg, actions, s)
        ensures WithinLimit(cfg, s, t)
      {
        if cfg.policy == map[] {
          NothingRegistered(cfg, s.log, t);
        } else {
          EveryRunIsSilent(cfg, actions, s);
          SilentExecutesNothing(cfg, s.log, t);
        }
      }
    }
  }
}
