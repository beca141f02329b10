/** Leases, fences, compare-and-commit and running turns. */
module SessionProtocol {
  import opened Prelude

  // Tasks of several agents register for a thread, wait for its lease, load it, append to their copy, commit
  // and let go, in any interleaving, while anybody may delete a thread. Item contents are opaque.

  // --- The store -------------------------------------------------------------------------------------

  /** A revision token: that of a thread never stored, a number, or bytes that are neither. */
  datatype Token = Fresh | Number(n: nat) | Malformed(bytes: nat)

  datatype Stored = Stored(revision: Token, items: seq<nat>)

  datatype StoreError = Conflict(expected: Token, actual: Token) | InvalidRevision | ThreadNotFound

  type Threads = map<nat, Stored>

  function Current(threads: Threads, id: nat): Stored {
    if id in threads then threads[id] else Stored(Fresh, [])
  }

  /** The token after a commit; the number sticks at the largest integer. */
  function NextToken(t: Token): Token
    requires !t.Malformed?
  {
    Number(SatAdd(if t.Fresh? then 0 else t.n, 1))
  }

  /** What a commit stores, or why it is refused. */
  function Commits(threads: Threads, id: nat, thread: Stored): Result<Stored, StoreError> {
    var current := Current(threads, id);
    if current.revision != thread.revision then Err(Conflict(thread.revision, current.revision))
    else if thread.revision.Malformed? then Err(InvalidRevision)
    else Ok(Stored(NextToken(thread.revision), thread.items))
  }

  class ThreadStore {
    var threads: Threads

    constructor ()
      ensures threads == map[]
    {
      threads := map[];
    }

    /** `commit_thread`, under the write lock. */
    method CommitThread(id: nat, thread: Stored) returns (r: Result<Stored, StoreError>)
      modifies this
      ensures r == Commits(old(threads), id, thread)
      ensures threads == if r.Ok? then old(threads)[id := r.value] else old(threads)
      ensures var token := if id in old(threads) then old(threads)[id].revision else Fresh;
              && (token != thread.revision ==> r == Err(Conflict(thread.revision, token)))
              && (token == thread.revision && thread.revision.Malformed? ==> r == Err(InvalidRevision))
              && (token == thread.revision && thread.revision.Fresh? ==> r == Ok(Stored(Number(1), thread.items)))
              && (token == thread.revision && thread.revision.Number? ==>
                    r == Ok(Stored(Number(if thread.revision.n < 0xFFFF_FFFF_FFFF_FFFF then thread.revision.n + 1 else 0xFFFF_FFFF_FFFF_FFFF), thread.items)))
    {
      var current := Current(threads, id);
      if current.revision != thread.revision {
        return Err(Conflict(thread.revision, current.revision));
      }
      if thread.revision.Malformed? {
        return Err(InvalidRevision);
      }
      var stored := Stored(NextToken(thread.revision), thread.items);
      threads := threads[id := stored];
      r := Ok(stored);
    }

    method Delete(id: nat) returns (r: Result<(), StoreError>)
      modifies this
      ensures r == (if id in old(threads) then Ok(()) else Err(ThreadNotFound)) && threads == old(threads) - {id}
    {
      if id !in threads { return Err(ThreadNotFound); }
      threads := threads - {id};
      r := Ok(());
    }
  }

  // --- The coordinator -------------------------------------------------------------------------------

  /** The locked threads and the fence counter. */
  datatype Leases = Leases(locked: set<nat>, counter: nat)

  /** The fence given out when the counter stands at `counter`. */
  function FenceFor(counter: nat): nat {
    SatAdd(counter, 1)
  }

  /** `fetch_add` wraps around. */
  function NextCounter(counter: nat): nat {
    if counter == MAX_U64 then 0 else counter + 1
  }

  function Acquired(l: Leases, id: nat): Leases {
    Leases(l.locked + {id}, NextCounter(l.counter))
  }

  function Released(l: Leases, id: nat): Leases {
    l.(locked := l.locked - {id})
  }

  class LocalCoordinator {
    /** Which threads have a slot, and whether it is locked. */
    var slots: map<nat, bool>
    var nextFence: nat

    constructor ()
      ensures Now() == Leases({}, 0)
    {
      slots, nextFence := map[], 0;
    }

    function Now(): Leases
      reads this
    {
      Leases((set id | id in slots && slots[id]), nextFence)
    }

    /** The slot of a thread, made on demand. */
    method Slot(id: nat)
      modifies this`slots
      ensures id in slots && Now() == old(Now())
      ensures slots[id] <==> id in Now().locked
    {
      if id !in slots { slots := slots[id := false]; }
    }

    /** `acquire` once the slot is free; the 64-bit counter wraps. */
    method Acquire(id: nat) returns (fence: Option<nat>)
      modifies this
      ensures fence.Some? <==> id !in old(Now()).locked
      ensures fence.Some? ==> fence.value == FenceFor(old(Now()).counter) && Now() == Acquired(old(Now()), id)
      ensures fence.Some? ==>
                && Now().locked == old(Now()).locked + {id}
                && (old(nextFence) < 0xFFFF_FFFF_FFFF_FFFF ==> fence.value == nextFence == old(nextFence) + 1)
                && (old(nextFence) == 0xFFFF_FFFF_FFFF_FFFF ==> fence.value == 0xFFFF_FFFF_FFFF_FFFF && nextFence == 0)
      ensures fence.None? ==> Now() == old(Now())
    {
      Slot(id);
      if slots[id] { return None; }
      slots := slots[id := true];
      fence := Some(FenceFor(nextFence));
      nextFence := NextCounter(nextFence);
    }

    method Release(id: nat)
      modifies this`slots
      ensures Now() == Released(old(Now()), id)
      ensures Now().locked == old(Now()).locked - {id}
    {
      slots := slots[id := false];
    }
  }

  // --- The registry of running turns -------------------------------------------------------------------

  /** The guard of the running turn of each thread, and the next guard's id. */
  datatype Registry = Registry(active: map<nat, nat>, nextId: nat)

  const EMPTY := Registry(map[], 1)

  /** The id is used up even when the thread is taken. */
  function Registering(r: Registry, thread: nat): Registry {
    Registry(if thread in r.active then r.active else r.active[thread := r.nextId], NextCounter(r.nextId))
  }

  /** Only the guard's own entry is removed. */
  function Dropping(r: Registry, thread: nat, id: nat): Registry {
    if thread in r.active && r.active[thread] == id then r.(active := r.active - {thread}) else r
  }

  /** `active_turns`: one running turn per thread and agent. */
  class ActiveTurns {
    var active: map<nat, nat>
    var nextId: nat

    constructor ()
      ensures Now() == EMPTY
    {
      active, nextId := map[], 1;
    }

    function Now(): Registry
      reads this
    {
      Registry(active, nextId)
    }

    /** `register_active_turn`; the 64-bit id wraps. */
    method Register(thread: nat) returns (id: Option<nat>)
      modifies this
      ensures Now() == Registering(old(Now()), thread)
      ensures thread in old(active) ==> id == None && active == old(active)
      ensures thread !in old(active) ==> id == Some(old(nextId)) && active == old(active)[thread := old(nextId)]
      ensures nextId == if old(nextId) == 0xFFFF_FFFF_FFFF_FFFF then 0 else old(nextId) + 1
    {
      var mine := nextId;
      nextId := NextCounter(nextId);
      if thread in active { return None; }
      active := active[thread := mine];
      id := Some(mine);
    }

    /** Dropping the guard. */
    method Drop(thread: nat, id: nat)
      modifies this`active
      ensures Now() == Dropping(old(Now()), thread, id)
      ensures active == if thread in old(active) && old(active)[thread] == id then old(active) - {thread} else old(active)
    {
      if thread in active && active[thread] == id { active := active - {thread}; }
    }
  }

  // --- The protocol ----------------------------------------------------------------------------------

  /** A holder remembers how many writes there were when its copy was the stored thread. */
  datatype Task =
    | Away
    | Waiting(agent: nat, thread: nat, guard: nat)
    | Holding(agent: nat, thread: nat, guard: nat, fence: nat, copy: Option<Stored>, seen: nat)
    | Leaving(agent: nat, thread: nat, guard: nat)

  datatype Grant = Grant(thread: nat, fence: nat)

  datatype Write = Committed(thread: nat) | Deleted(thread: nat)

  datatype System = System(threads: Threads, leases: Leases, issued: seq<Grant>, written: seq<Write>,
                           registries: map<nat, Registry>, tasks: map<nat, Task>)

  datatype Action =
    | Register(agent: nat, thread: nat)
    | Acquire
    | Load
    | Append(item: nat)
    | Commit
    | Release
    | Unregister
    | Delete(thread: nat)

  function TaskOf(s: System, k: nat): Task {
    if k in s.tasks then s.tasks[k] else Away
  }

  function RegistryOf(s: System, agent: nat): Registry {
    if agent in s.registries then s.registries[agent] else EMPTY
  }

  predicate Enabled(s: System, k: nat, a: Action) {
    var t := TaskOf(s, k);
    match a
    case Register(_, _) => t.Away?
    case Acquire => t.Waiting? && t.thread !in s.leases.locked
    case Load => t.Holding? && t.copy.None?
    case Append(_) => t.Holding? && t.copy.Some?
    case Commit => t.Holding? && t.copy.Some?
    case Release => t.Holding?
    case Unregister => t.Leaving?
    case Delete(_) => true
  }

  /** A refused commit changes nothing. */
  function AfterCommit(s: System, k: nat, t: Task): System
    requires t.Holding? && t.copy.Some?
  {
    var r := Commits(s.threads, t.thread, t.copy.value);
    if r.Err? then s
    else s.(threads := s.threads[t.thread := r.value], written := s.written + [Committed(t.thread)],
            tasks := s.tasks[k := t.(copy := Some(r.value), seen := |s.written| + 1)])
  }

  /** A task that finds the thread taken stays away. */
  function AfterRegister(s: System, k: nat, agent: nat, thread: nat): System {
    var r := RegistryOf(s, agent);
    s.(registries := s.registries[agent := Registering(r, thread)],
       tasks := if thread in r.active then s.tasks else s.tasks[k := Waiting(agent, thread, r.nextId)])
  }

  function Next(s: System, k: nat, a: Action): System
    requires Enabled(s, k, a)
  {
    var t := TaskOf(s, k);
    match a
    case Register(agent, thread) => AfterRegister(s, k, agent, thread)
    case Acquire =>
      var fence := FenceFor(s.leases.counter);
      s.(leases := Acquired(s.leases, t.thread), issued := s.issued + [Grant(t.thread, fence)],
         tasks := s.tasks[k := Holding(t.agent, t.thread, t.guard, fence, None, 0)])
    case Load => s.(tasks := s.tasks[k := t.(copy := Some(Current(s.threads, t.thread)), seen := |s.written|)])
    case Append(item) => s.(tasks := s.tasks[k := t.(copy := Some(t.copy.value.(items := t.copy.value.items + [item])))])
    case Commit => AfterCommit(s, k, t)
    case Release => s.(leases := Released(s.leases, t.thread), tasks := s.tasks[k := Leaving(t.agent, t.thread, t.guard)])
    case Unregister =>
      s.(registries := s.registries[t.agent := Dropping(RegistryOf(s, t.agent), t.thread, t.guard)], tasks := s.tasks[k := Away])
    case Delete(thread) =>
      if thread in s.threads then s.(threads := s.threads - {thread}, written := s.written + [Deleted(thread)]) else s
  }

  const INITIAL := System(map[], Leases({}, 0), [], [], map[], map[])

  ghost predicate Reaches(actions: seq<(nat, Action)>, s: System) {
    if actions == [] then s == INITIAL
    else
      var n := |actions| - 1;
      exists before :: Reaches(actions[..n], before) && Enabled(before, actions[n].0, actions[n].1)
                       && s == Next(before, actions[n].0, actions[n].1)
  }

  lemma ReachStep(actions: seq<(nat, Action)>, s: System, k: nat, a: Action)
    requires Reaches(actions, s) && Enabled(s, k, a)
    ensures Reaches(actions + [(k, a)], Next(s, k, a))
  {
    assert (actions + [(k, a)])[..|actions|] == actions;
  }

  // --- Invariants ------------------------------------------------------------------------------------------

  ghost predicate LocksOk(s: System) {
    && (forall k :: TaskOf(s, k).Holding? ==> TaskOf(s, k).thread in s.leases.locked)
    && (forall j, k :: TaskOf(s, j).Holding? && TaskOf(s, k).Holding? && TaskOf(s, j).thread == TaskOf(s, k).thread ==> j == k)
  }

  /** The writes to a thread since it was deleted last, or since the beginning. */
  function CommitsSince(written: seq<Write>, th: nat): nat {
    if written == [] then 0
    else
      var last, before := written[|written| - 1], CommitsSince(written[..|written| - 1], th);
      if last == Committed(th) then before + 1 else if last == Deleted(th) then 0 else before
  }

  function TokenAfter(commits: nat): Token {
    if commits == 0 then Fresh else Number(Min(commits, MAX_U64))
  }

  ghost predicate TokenOk(s: System, th: nat) {
    && Current(s.threads, th).revision == TokenAfter(CommitsSince(s.written, th))
    && (th in s.threads ==> s.threads[th].revision.Number?)
  }

  ghost predicate TokensOk(s: System) {
    forall th :: TokenOk(s, th)
  }

  ghost predicate DeletedSince(s: System, seen: nat, th: nat) {
    seen <= |s.written| && Deleted(th) in s.written[seen..]
  }

  /** A holder's copy continues the stored thread and carries its token, unless the thread was deleted. */
  ghost predicate CopyOk(s: System, k: nat) {
    var t := TaskOf(s, k);
    t.Holding? && t.copy.Some? ==>
      && t.seen <= |s.written| && !t.copy.value.revision.Malformed?
      && if DeletedSince(s, t.seen, t.thread) then t.thread !in s.threads && !t.copy.value.revision.Fresh?
         else t.copy.value.revision == Current(s.threads, t.thread).revision
              && Current(s.threads, t.thread).items <= t.copy.value.items
  }

  ghost predicate CopiesOk(s: System) {
    forall k :: CopyOk(s, k)
  }

  /** A task's entry in its agent's registry carries its own guard, and no other task has that entry. */
  ghost predicate Registered(s: System, k: nat) {
    var t := TaskOf(s, k);
    !t.Away? ==> t.thread in RegistryOf(s, t.agent).active && RegistryOf(s, t.agent).active[t.thread] == t.guard
  }

  ghost predicate RegisteredAlone(s: System, j: nat, k: nat) {
    !TaskOf(s, j).Away? && !TaskOf(s, k).Away? && SameTurn(TaskOf(s, j), TaskOf(s, k)) ==> j == k
  }

  ghost predicate ActiveOk(s: System) {
    (forall k :: Registered(s, k)) && forall j, k :: RegisteredAlone(s, j, k)
  }

  /** The counter after `n` leases. */
  function Wrapped(n: nat): (r: nat)
    ensures r <= MAX_U64 && (n <= MAX_U64 ==> r == n)
  {
    n % (MAX_U64 + 1)
  }

  lemma WrapsNext(n: nat)
    ensures NextCounter(Wrapped(n)) == Wrapped(n + 1)
  {
  }

  ghost predicate FencesOk(s: System) {
    && s.leases.counter == Wrapped(|s.issued|)
    && (forall i :: 0 <= i < |s.issued| ==> s.issued[i].fence == FenceFor(Wrapped(i)))
  }

  ghost predicate SystemOk(s: System) {
    LocksOk(s) && TokensOk(s) && CopiesOk(s) && ActiveOk(s) && FencesOk(s)
  }

  lemma LocksKept(s: System, k: nat, a: Action)
    requires LocksOk(s) && Enabled(s, k, a)
    ensures LocksOk(Next(s, k, a))
  {
    var s' := Next(s, k, a);
    assert forall j :: j != k ==> TaskOf(s', j) == TaskOf(s, j);
  }

  lemma TokensKept(s: System, k: nat, a: Action)
    requires TokensOk(s) && Enabled(s, k, a)
    ensures TokensOk(Next(s, k, a))
  {
    var s' := Next(s, k, a);
    forall th
      ensures TokenOk(s', th)
    {
      assert TokenOk(s, th);
      if s'.written != s.written {
        assert s'.written[..|s'.written| - 1] == s.written;
      }
    }
  }

  lemma CopiesKept(s: System, k: nat, a: Action)
    requires LocksOk(s) && TokensOk(s) && CopiesOk(s) && Enabled(s, k, a)
    ensures CopiesOk(Next(s, k, a))
  {
    forall j
      ensures CopyOk(Next(s, k, a), j)
    {
      CopyKept(s, k, a, j);
    }
  }

  lemma CopyKept(s: System, k: nat, a: Action, j: nat)
    requires LocksOk(s) && TokensOk(s) && CopyOk(s, j) && Enabled(s, k, a)
    ensures CopyOk(Next(s, k, a), j)
  {
    var s', t := Next(s, k, a), TaskOf(s, j);
    assert j != k ==> TaskOf(s', j) == t;
    if t.Holding? {
      assert TokenOk(s, t.thread);
      if s'.written != s.written && t.seen <= |s.written| {
        assert s'.written[t.seen..] == s.written[t.seen..] + [s'.written[|s.written|]];
      }
    }
  }

  lemma ActiveKept(s: System, k: nat, a: Action)
    requires ActiveOk(s) && Enabled(s, k, a)
    ensures ActiveOk(Next(s, k, a))
  {
    var s' := Next(s, k, a);
    assert forall j :: j != k ==> TaskOf(s', j) == TaskOf(s, j);
    forall j
      ensures Registered(s', j)
    {
      assert Registered(s, j) && Registered(s, k) && RegisteredAlone(s, j, k);
    }
    forall i, j
      ensures RegisteredAlone(s', i, j)
    {
      assert RegisteredAlone(s, i, j) && Registered(s, i) && Registered(s, j);
    }
  }

  lemma FencesKept(s: System, k: nat, a: Action)
    requires FencesOk(s) && Enabled(s, k, a)
    ensures FencesOk(Next(s, k, a))
  {
    WrapsNext(|s.issued|);
  }

  lemma {:induction false} EveryRunIsOk(actions: seq<(nat, Action)>, s: System)
    requires Reaches(actions, s)
    ensures SystemOk(s)
    decreases |actions|
  {
    if actions != [] {
      var n := |actions| - 1;
      var before :| Reaches(actions[..n], before) && Enabled(before, actions[n].0, actions[n].1)
                    && s == Next(before, actions[n].0, actions[n].1);
      EveryRunIsOk(actions[..n], before);
      LocksKept(before, actions[n].0, actions[n].1);
      TokensKept(before, actions[n].0, actions[n].1);
      CopiesKept(before, actions[n].0, actions[n].1);
      ActiveKept(before, actions[n].0, actions[n].1);
      FencesKept(before, actions[n].0, actions[n].1);
    }
  }

  // --- What the protocol guarantees ----------------------------------------------------------------------

  predicate SameTurn(a: Task, b: Task)
    requires !a.Away? && !b.Away?
  {
    a.agent == b.agent && a.thread == b.thread
  }

  /** At most one task holds the lease of a thread, and at most one per agent is registered for it. */
  lemma OneHolder(actions: seq<(nat, Action)>, s: System, j: nat, k: nat)
    requires Reaches(actions, s)
    ensures TaskOf(s, j).Holding? && TaskOf(s, k).Holding? && TaskOf(s, j).thread == TaskOf(s, k).thread ==> j == k
    ensures !TaskOf(s, j).Away? && !TaskOf(s, k).Away? && SameTurn(TaskOf(s, j), TaskOf(s, k)) ==> j == k
  {
    EveryRunIsOk(actions, s);
    assert RegisteredAlone(s, j, k);
  }

  /** A guard dropped at the end of a turn finds its own entry and frees the thread, and no other guard's. */
  lemma DropFindsOwnEntry(actions: seq<(nat, Action)>, s: System, k: nat)
    requires Reaches(actions, s) && Enabled(s, k, Unregister)
    ensures var t := TaskOf(s, k);
            t.thread in RegistryOf(s, t.agent).active
            && RegistryOf(Next(s, k, Unregister), t.agent).active == RegistryOf(s, t.agent).active - {t.thread}
  {
    EveryRunIsOk(actions, s);
    assert Registered(s, k);
  }

  /**
   * The commit of a lease's holder goes through exactly if the thread was not deleted since the holder
   * loaded or last stored it.
   */
  lemma HolderCommits(actions: seq<(nat, Action)>, s: System, k: nat)
    requires Reaches(actions, s) && Enabled(s, k, Commit)
    ensures var t := TaskOf(s, k);
            if DeletedSince(s, t.seen, t.thread) then
              Commits(s.threads, t.thread, t.copy.value) == Err(Conflict(t.copy.value.revision, Fresh)) && Next(s, k, Commit) == s
            else
              !t.copy.value.revision.Malformed?
              && Next(s, k, Commit).threads == s.threads[t.thread := Stored(NextToken(t.copy.value.revision), t.copy.value.items)]
  {
    EveryRunIsOk(actions, s);
    assert CopyOk(s, k);
  }

  /** Only a deletion loses items: by any other step each stored thread continues the one before it. */
  lemma ThreadsOnlyGrow(actions: seq<(nat, Action)>, s: System, k: nat, a: Action, th: nat)
    requires Reaches(actions, s) && Enabled(s, k, a) && a != Delete(th)
    ensures Current(s.threads, th).items <= Current(Next(s, k, a).threads, th).items
  {
    EveryRunIsOk(actions, s);
    assert CopyOk(s, k);
  }

  ghost predicate Increasing(issued: seq<Grant>) {
    forall i, j :: 0 <= i < j < |issued| ==> issued[i].fence < issued[j].fence
  }

  /** Fences strictly increase exactly as long as the 64-bit counter has not run out. */
  lemma FencesIncrease(actions: seq<(nat, Action)>, s: System)
    requires Reaches(actions, s)
    ensures Increasing(s.issued) <==> |s.issued| <= MAX_U64
  {
    EveryRunIsOk(actions, s);
    FencesRun(s.issued);
  }

  ghost predicate Numbered(issued: seq<Grant>) {
    forall i :: 0 <= i < |issued| ==> issued[i].fence == FenceFor(Wrapped(i))
  }

  lemma FencesRun(issued: seq<Grant>)
    requires Numbered(issued)
    ensures Increasing(issued) <==> |issued| <= MAX_U64
  {
    forall i | 0 <= i < |issued| && i <= MAX_U64
      ensures issued[i].fence == Min(i + 1, MAX_U64)
    {
    }
    if |issued| > MAX_U64 {
      assert issued[MAX_U64 - 1].fence == MAX_U64;
      assert issued[MAX_U64].fence == MAX_U64;
    }
  }

  ghost predicate IncreasingFor(issued: seq<Grant>, th: nat) {
    forall i, j :: 0 <= i < j < |issued| && issued[i].thread == th && issued[j].thread == th ==> issued[i].fence < issued[j].fence
  }

  /** The counter did not wrap between two leases, or had come past the first of them again. */
  predicate InStep(i: nat, j: nat) {
    Wrapped(i) < Wrapped(j) && Wrapped(i) != MAX_U64 - 1
  }

  ghost predicate LeasesInStep(issued: seq<Grant>, th: nat) {
    forall i, j :: 0 <= i < j < |issued| && issued[i].thread == th && issued[j].thread == th ==> InStep(i, j)
  }

  /** The fences of one thread increase exactly if the counter was in step for every two of its leases. */
  lemma ThreadFencesIncrease(actions: seq<(nat, Action)>, s: System, th: nat)
    requires Reaches(actions, s)
    ensures IncreasingFor(s.issued, th) <==> LeasesInStep(s.issued, th)
    ensures |s.issued| <= MAX_U64 ==> IncreasingFor(s.issued, th)
  {
    EveryRunIsOk(actions, s);
    FencesIncrease(actions, s);
    StepByStep(s.issued, th);
  }

  lemma StepByStep(issued: seq<Grant>, th: nat)
    requires Numbered(issued)
    ensures IncreasingFor(issued, th) <==> LeasesInStep(issued, th)
  {
    forall i, j | 0 <= i < j < |issued|
      ensures issued[i].fence < issued[j].fence <==> InStep(i, j)
    {
      InStepIs(i, j);
    }
  }

  lemma InStepIs(i: nat, j: nat)
    ensures FenceFor(Wrapped(i)) < FenceFor(Wrapped(j)) <==> InStep(i, j)
  {
  }

  // --- Tokens along a run ----------------------------------------------------------------------------------

  /** What is written stays written. */
  lemma {:induction false} WrittenGrows(actions: seq<(nat, Action)>, i: nat, s: System, t: System)
    requires i <= |actions| && Reaches(actions[..i], s) && Reaches(actions, t)
    ensures s.written <= t.written
    decreases |actions|
  {
    if i < |actions| {
      var n := |actions| - 1;
      var before :| Reaches(actions[..n], before) && Enabled(before, actions[n].0, actions[n].1)
                    && t == Next(before, actions[n].0, actions[n].1);
      assert actions[..n][..i] == actions[..i];
      WrittenGrows(actions[..n], i, s, before);
      WrittenByStep(before, actions[n].0, actions[n].1);
    } else {
      assert actions[..i] == actions;
      SameState(actions, s, t);
    }
  }

  lemma WrittenByStep(s: System, k: nat, a: Action)
    requires Enabled(s, k, a)
    ensures s.written <= Next(s, k, a).written
  {
  }

  lemma {:induction false} SameState(actions: seq<(nat, Action)>, s: System, t: System)
    requires Reaches(actions, s) && Reaches(actions, t)
    ensures s == t
    decreases |actions|
  {
    if actions != [] {
      var n := |actions| - 1;
      var a :| Reaches(actions[..n], a) && Enabled(a, actions[n].0, actions[n].1) && s == Next(a, actions[n].0, actions[n].1);
      var b :| Reaches(actions[..n], b) && Enabled(b, actions[n].0, actions[n].1) && t == Next(b, actions[n].0, actions[n].1);
      SameState(actions[..n], a, b);
    }
  }

  lemma {:induction false} CommitsBetween(a: seq<Write>, b: seq<Write>, th: nat)
    requires a <= b && Deleted(th) !in b[|a|..]
    ensures CommitsSince(a, th) <= CommitsSince(b, th)
    ensures CommitsSince(a, th) == CommitsSince(b, th) <==> Committed(th) !in b[|a|..]
    decreases |b|
  {
    if |a| == |b| {
      assert a == b;
    } else {
      var n := |b| - 1;
      assert b[..n][|a|..] == b[|a|..][..n - |a|] && b[|a|..] == b[..n][|a|..] + [b[n]];
      CommitsBetween(a, b[..n], th);
    }
  }

  lemma SameTokenIff(a: nat, b: nat)
    ensures TokenAfter(a) == TokenAfter(b) <==> Min(a, MAX_U64) == Min(b, MAX_U64)
    ensures a <= b ==> (TokenAfter(a) == TokenAfter(b) <==> a == b || a >= MAX_U64)
  {
  }

  /**
   * At two moments of a run a thread has the same token exactly if equally many commits, up to the largest
   * number, were made since it was deleted last. Without a deletion in between, that is exactly if nothing
   * was committed in between or the number had reached the largest one.
   */
  lemma TokenIdentifiesVersion(actions: seq<(nat, Action)>, i: nat, s: System, t: System, th: nat)
    requires i <= |actions| && Reaches(actions[..i], s) && Reaches(actions, t)
    ensures s.written <= t.written
    ensures Current(s.threads, th).revision == Current(t.threads, th).revision
       <==> Min(CommitsSince(s.written, th), MAX_U64) == Min(CommitsSince(t.written, th), MAX_U64)
    ensures Deleted(th) !in t.written[|s.written|..] ==>
              (Current(s.threads, th).revision == Current(t.threads, th).revision
               <==> Committed(th) !in t.written[|s.written|..] || CommitsSince(s.written, th) >= MAX_U64)
  {
    WrittenGrows(actions, i, s, t);
    SameTokenIff(CommitsSince(s.written, th), CommitsSince(t.written, th));
    EveryRunIsOk(actions[..i], s);
    EveryRunIsOk(actions, t);
    assert TokenOk(s, th) && TokenOk(t, th);
    if Deleted(th) !in t.written[|s.written|..] {
      CommitsBetween(s.written, t.written, th);
    }
  }

  /** A task writes one item to a thread that is not stored, and leaves. */
  lemma WriteOnce(actions: seq<(nat, Action)>, s: System, k: nat, agent: nat, th: nat, item: nat) returns (more: seq<(nat, Action)>, t: System)
    requires Reaches(actions, s) && TaskOf(s, k).Away?
    requires th !in RegistryOf(s, agent).active && th !in s.leases.locked && th !in s.threads
    ensures Reaches(more, t) && actions <= more && TaskOf(t, k).Away?
    ensures th !in RegistryOf(t, agent).active && th !in t.leases.locked
    ensures th in t.threads && t.threads[th] == Stored(Number(1), [item])
  {
    more, t := WriteAndHold(actions, s, k, agent, th, item);
    ReachStep(more, t, k, Release);
    more, t := more + [(k, Release)], Next(t, k, Release);
    EveryRunIsOk(more, t);
    assert Registered(t, k);
    ReachStep(more, t, k, Unregister);
    more, t := more + [(k, Unregister)], Next(t, k, Unregister);
  }

  lemma WriteAndHold(actions: seq<(nat, Action)>, s: System, k: nat, agent: nat, th: nat, item: nat) returns (more: seq<(nat, Action)>, t: System)
    requires Reaches(actions, s) && TaskOf(s, k).Away?
    requires th !in RegistryOf(s, agent).active && th !in s.leases.locked && th !in s.threads
    ensures Reaches(more, t) && actions <= more
    ensures TaskOf(t, k).Holding? && TaskOf(t, k).thread == th && TaskOf(t, k).agent == agent
    ensures th in t.threads && t.threads[th] == Stored(Number(1), [item])
  {
    more, t := LoadAndHold(actions, s, k, agent, th);
    ReachStep(more, t, k, Append(item));
    more, t := more + [(k, Append(item))], Next(t, k, Append(item));
    ReachStep(more, t, k, Commit);
    more, t := more + [(k, Commit)], Next(t, k, Commit);
  }

  lemma LoadAndHold(actions: seq<(nat, Action)>, s: System, k: nat, agent: nat, th: nat) returns (more: seq<(nat, Action)>, t: System)
    requires Reaches(actions, s) && TaskOf(s, k).Away?
    requires th !in RegistryOf(s, agent).active && th !in s.leases.locked
    ensures Reaches(more, t) && actions <= more && t.threads == s.threads
    ensures TaskOf(t, k).Holding? && TaskOf(t, k).thread == th && TaskOf(t, k).agent == agent
    ensures TaskOf(t, k).copy == Some(Current(s.threads, th))
  {
    more, t := actions + [(k, Register(agent, th))], Next(s, k, Register(agent, th));
    ReachStep(actions, s, k, Register(agent, th));
    ReachStep(more, t, k, Acquire);
    more, t := more + [(k, Acquire)], Next(t, k, Acquire);
    ReachStep(more, t, k, Load);
    more, t := more + [(k, Load)], Next(t, k, Load);
  }

  /**
   * A deletion lets tokens come back: in this run the copy of a deleted thread is accepted in place of
   * the thread that was stored anew.
   */
  lemma DeletedThreadReusesToken() returns (actions: seq<(nat, Action)>, s: System, more: seq<(nat, Action)>, t: System)
    ensures Reaches(actions, s) && Reaches(more, t) && actions <= more
    ensures Current(s.threads, 0).items == [1] && Current(t.threads, 0).items == [2]
    ensures Commits(t.threads, 0, Current(s.threads, 0)).Ok?
  {
    assert Reaches([], INITIAL);
    actions, s := WriteOnce([], INITIAL, 0, 0, 0, 1);
    ReachStep(actions, s, 0, Delete(0));
    more, t := actions + [(0, Delete(0))], Next(s, 0, Delete(0));
    more, t := WriteOnce(more, t, 0, 0, 0, 2);
  }
}
