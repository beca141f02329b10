/** How often a function runs. */
module TurnOnce {
  import opened Prelude
  import opened TurnItems
  import opened TurnMachine
  import opened TurnSafety

  // Automatically at most once for a call that must not be repeated, and otherwise only right after an
  // approval of its own.

  /** How often call `c` of turn `t` was executed without an approval. */
  ghost function Automatic(log: seq<Event>, t: nat, c: Call): nat {
    if log == [] then 0
    else Automatic(log[..|log| - 1], t, c) + if log[|log| - 1] == Invoked(t, c, false) then 1 else 0
  }

  /** The function of the call is not registered as safe to repeat. */
  predicate OnlyOnce(cfg: Config, c: Call) {
    c.name !in cfg.policy || cfg.policy[c.name].NonIdempotent?
  }

  /** A call that ran was requested, and while its round lasts its start is on record. */
  ghost predicate Recorded(s: State, t: nat, c: Call) {
    t < |s.disk| && var v := ViewOf(s.disk[t].items);
    c.id in v.requested && (c.id in Ids(v.last) ==> c.id in v.started)
  }

  ghost predicate CallOk(cfg: Config, s: State, t: nat, c: Call) {
    && (Automatic(s.log, t, c) > 0 ==> Recorded(s, t, c))
    && (OnlyOnce(cfg, c) ==> Automatic(s.log, t, c) <= 1)
  }

  ghost predicate LogOk(cfg: Config, s: State) {
    forall t: nat, c :: CallOk(cfg, s, t, c)
  }

  /** Every approved execution directly follows the approval of that call. */
  ghost predicate ApprovalsOk(log: seq<Event>) {
    forall k :: 0 <= k < |log| && log[k].Invoked? && log[k].approved ==> k > 0 && log[k - 1] == Approval(log[k].turn, log[k].call.id)
  }

  /** What a call about to run has behind it. */
  ghost predicate AboutToRun(cfg: Config, s: State)
    requires s.turn < |s.disk|
  {
    match s.pc
    case CallBegun(r, i) => i < |r.calls| && Automatic(s.log, s.turn, r.calls[i]) == 0 && r.calls[i].id in V(s).started
    case PendingBegun(p, i) =>
      i < |p| && (OnlyOnce(cfg, p[i].call) ==> Automatic(s.log, s.turn, p[i].call) == 0) && p[i].call.id in V(s).started
    case ResumeBegun(c) => s.log != [] && s.log[|s.log| - 1] == Approval(s.turn, c.id)
    case _ => true
  }

  ghost predicate OnceOk(cfg: Config, s: State) {
    && LogOk(cfg, s) && ApprovalsOk(s.log)
    && (!s.pc.Idle? ==> s.turn < |s.disk| && AboutToRun(cfg, s))
  }

  ghost predicate RecordedIn(v: View, id: nat) {
    id in v.requested && (id in Ids(v.last) ==> id in v.started)
  }

  /** Later items keep what was recorded. */
  lemma {:induction false} GrowthKeepsRecord(items: seq<Item>, more: seq<Item>, id: nat)
    requires RecordedIn(ViewOf(items), id) && ViewOf(items + more).ordered
    ensures RecordedIn(ViewOf(items + more), id)
    decreases |more|
  {
    if more == [] {
      assert items + more == items;
    } else {
      var n := |more| - 1;
      assert (items + more)[..|items + more| - 1] == items + more[..n];
      assert ViewOf(items + more) == Observe(ViewOf(items + more[..n]), more[n]);
      GrowthKeepsRecord(items, more[..n], id);
    }
  }

  lemma QuietLog(cfg: Config, s: State, s': State, e: Event)
    requires LogOk(cfg, s) && DiskGrows(s.disk, s'.disk) && DiskOk(s') && ApprovalsOk(s.log)
    requires s'.log == s.log || (s'.log == s.log + [e] && !e.Invoked?)
    ensures LogOk(cfg, s') && ApprovalsOk(s'.log)
    ensures forall t: nat, c :: Automatic(s'.log, t, c) == Automatic(s.log, t, c)
  {
    assert (s.log + [e])[..|s.log|] == s.log;
    forall t: nat, c
      ensures Automatic(s'.log, t, c) == Automatic(s.log, t, c)
    {
    }
    forall t: nat, c
      ensures CallOk(cfg, s', t, c)
    {
      assert CallOk(cfg, s, t, c);
      if Recorded(s, t, c) { RecordSurvives(s, s', t, c); }
    }
  }

  lemma RecordSurvives(s: State, s': State, t: nat, c: Call)
    requires DiskGrows(s.disk, s'.disk) && DiskOk(s') && Recorded(s, t, c)
    ensures Recorded(s', t, c)
  {
    var before, after := s.disk[t].items, s'.disk[t].items;
    assert TurnOk(s'.disk[t], t, s'.log);
    assert after == before + after[|before|..];
    GrowthKeepsRecord(before, after[|before|..], c.id);
  }

  lemma InvokeLogged(cfg: Config, s: State, c: Call, approved: bool, pc: Pc)
    requires LogOk(cfg, s) && ApprovalsOk(s.log)
    requires approved ==> s.log != [] && s.log[|s.log| - 1] == Approval(s.turn, c.id)
    requires !approved ==> Recorded(s, s.turn, c) && (OnlyOnce(cfg, c) ==> Automatic(s.log, s.turn, c) == 0)
    ensures var s' := s.(pc := pc, log := s.log + [Invoked(s.turn, c, approved)]);
            LogOk(cfg, s') && ApprovalsOk(s'.log)
  {
    var e := Invoked(s.turn, c, approved);
    var s' := s.(pc := pc, log := s.log + [e]);
    assert (s.log + [e])[..|s.log|] == s.log;
    forall t: nat, d
      ensures Automatic(s'.log, t, d) == Automatic(s.log, t, d) + if e == Invoked(t, d, false) then 1 else 0
    {
    }
    forall t: nat, d
      ensures CallOk(cfg, s', t, d)
    {
      assert CallOk(cfg, s, t, d);
    }
  }

  // --- Every action ------------------------------------------------------------------------------

  lemma InvokeIsOnce(cfg: Config, s: State)
    requires StateOk(s) && OnceOk(cfg, s) && Enabled(cfg, s, Invoke)
    ensures OnceOk(cfg, Next(cfg, s, Invoke))
  {
    var c := match s.pc case CallBegun(r, i) => r.calls[i] case PendingBegun(p, i) => p[i].call case ResumeBegun(c) => c;
    if s.pc.CallBegun? {
      assert Waiting(V(s), s.pc.round.calls[s.pc.i].id);
    } else if s.pc.PendingBegun? {
      assert Waiting(V(s), CallsOf(s.pc.pending)[s.pc.i].id);
    }
    InvokeLogged(cfg, s, c, s.pc.ResumeBegun?, Next(cfg, s, Invoke).pc);
  }

  lemma StartIsOnce(cfg: Config, s: State, newId: nat)
    requires StateOk(s) && OnceOk(cfg, s) && Enabled(cfg, s, StartCall(newId))
    ensures AboutToRun(cfg, Next(cfg, s, StartCall(newId)))
  {
    if s.pc.AtCall? {
      var c := s.pc.round.calls[s.pc.i];
      assert Waiting(V(s), c.id) && c.id !in V(s).started;
      assert !Recorded(s, s.turn, c) && CallOk(cfg, s, s.turn, c);
      View1(s.disk[s.turn].items, CallStarted(c.id, 1));
    } else {
      PendingStartIsOnce(cfg, s, newId, s.pc.pending, s.pc.i);
    }
  }

  lemma PendingStartIsOnce(cfg: Config, s: State, newId: nat, pending: seq<PendingCall>, i: nat)
    requires Active(s) && s.pc == AtPending(pending, i) && i < |pending| && LogOk(cfg, s)
    requires Open(V(s), CallsOf(pending), i) && AttemptsOk(V(s), pending, i)
    ensures AboutToRun(cfg, AfterPendingStart(cfg, s, newId))
  {
    var p := pending[i];
    assert CallsOf(pending)[i] == p.call && Waiting(V(s), p.call.id);
    if p.attempt.None? {
      assert !Recorded(s, s.turn, p.call) && CallOk(cfg, s, s.turn, p.call);
    }
    View1(s.disk[s.turn].items, CallStarted(p.call.id, NextAttempt(p.attempt)));
  }

  /** No action repeats a call automatically or runs an unapproved repetition. */
  lemma ActionKeepsOnce(cfg: Config, s: State, a: Action)
    requires StateOk(s) && MemoryGrows(s) && OnceOk(cfg, s) && Enabled(cfg, s, a)
    ensures OnceOk(cfg, Next(cfg, s, a))
  {
    ActionKeepsState(cfg, s, a);
    ActionGrowsDisk(cfg, s, a);
    if a.Invoke? {
      InvokeIsOnce(cfg, s);
    } else {
      LogOfAction(cfg, s, a);
      QuietActionIsOnce(cfg, s, a, Next(cfg, s, a));
    }
  }

  lemma QuietActionIsOnce(cfg: Config, s: State, a: Action, s': State)
    requires StateOk(s) && OnceOk(cfg, s) && Enabled(cfg, s, a) && s' == Next(cfg, s, a) && !a.Invoke?
    requires DiskGrows(s.disk, s'.disk) && DiskOk(s')
    requires s'.log == s.log || (|s'.log| == |s.log| + 1 && s'.log == s.log + [s'.log[|s.log|]] && !s'.log[|s.log|].Invoked?)
    ensures OnceOk(cfg, s')
  {
    QuietLog(cfg, s, s', if |s'.log| == 0 then ResumeAborted(0) else s'.log[|s'.log| - 1]);
    if a.StartCall? {
      StartIsOnce(cfg, s, a.newId);
    } else {
      OthersStartNothing(cfg, s, a);
    }
  }

  lemma OthersStartNothing(cfg: Config, s: State, a: Action)
    requires Enabled(cfg, s, a) && !a.Invoke? && !a.StartCall?
    ensures var s' := Next(cfg, s, a);
            !s'.pc.Idle? ==> s'.turn < |s'.disk| && AboutToRun(cfg, s')
  {
    ActiveBounds(s.disk);
  }

  /** Only `Invoke` reports an execution. */
  lemma LogOfAction(cfg: Config, s: State, a: Action)
    requires Enabled(cfg, s, a) && !a.Invoke?
    ensures var log' := Next(cfg, s, a).log;
            log' == s.log || (|log'| == |s.log| + 1 && log' == s.log + [log'[|s.log|]] && !log'[|s.log|].Invoked?)
  {
  }

  lemma {:induction false} EveryRunIsOnce(cfg: Config, actions: seq<Action>, s: State)
    requires Reaches(cfg, actions, s)
    ensures OnceOk(cfg, s) && MemoryGrows(s)
    decreases |actions|
  {
    if actions != [] {
      var n := |actions| - 1;
      var before := LastStep(cfg, actions, s);
      EveryRunIsOnce(cfg, actions[..n], before);
      EveryRunIsOk(cfg, actions[..n], before);
      ActionGrowsDisk(cfg, before, actions[n]);
      ActionKeepsOnce(cfg, before, actions[n]);
    }
  }

  /**
   * At most once: whatever crashes and recoveries a run contains, a call whose function is not
   * idempotent is executed at most once without an approval.
   */
  lemma AutomaticallyAtMostOnce(cfg: Config, actions: seq<Action>, s: State, t: nat, c: Call)
    requires Reaches(cfg, actions, s) && OnlyOnce(cfg, c)
    ensures Automatic(s.log, t, c) <= 1
  {
    EveryRunIsOnce(cfg, actions, s);
    assert CallOk(cfg, s, t, c);
  }

  /** Every other execution directly follows an approval of that very call, so no approval is used twice. */
  lemma EveryRepetitionIsApproved(cfg: Config, actions: seq<Action>, s: State, k: nat)
    requires Reaches(cfg, actions, s) && k < |s.log| && s.log[k].Invoked? && s.log[k].approved
    ensures k > 0 && s.log[k - 1] == Approval(s.log[k].turn, s.log[k].call.id)
  {
    EveryRunIsOnce(cfg, actions, s);
  }
}
