/** Concurrent use of one revision store. */
module RevisionProtocol {
  import opened Prelude
  import opened Merge
  import opened Ancestors

  // `commit`, `create_branch` and `merge` are tasks whose steps are the single store operations, interleaved
  // in any way. The store is a map of immutable revisions and a map of branch heads. Content addressing is an
  // arbitrary function from revisions to ids; nothing below assumes it to be injective, because
  // saving refuses a different revision under a used id.

  datatype Branch = Branch(agent: nat, name: nat)

  datatype Op =
    | Commit(branch: Branch, spec: Json, message: nat)
    | CreateBranch(source: Branch, target: Branch)
    | MergeInto(source: Branch, target: Branch, message: nat)

  /** A clean merge computed from the two heads that were read. */
  datatype Prepared = Prepared(ours: Id, theirs: Id, base: Id, spec: Json)

  /** Where a task stands between two store operations. */
  datatype Task =
    | Start(op: Op)
    | CommitRead(branch: Branch, spec: Json, message: nat, head: Option<Id>)
    | BranchRead(branch: Branch, id: Id)
    | BranchFree(branch: Branch, id: Id)
    | MergeSource(branch: Branch, message: nat, theirs: Id)
    | MergeHeads(branch: Branch, message: nat, theirs: Id, ours: Id)
    | MergeReady(branch: Branch, message: nat, merge: Prepared)
    | MergeParent(branch: Branch, message: nat, merge: Prepared, parent: Id)
    | Saved(branch: Branch, head: Option<Id>, id: Id, merged: Option<Prepared>)
    | Done(id: Id)
    | Failed

  /** `saves` and `rank` are history: how many saves there were, and before which of them each revision came. */
  datatype System = System(objects: Objects, saves: nat, rank: map<Id, nat>, heads: map<Branch, Id>, tasks: map<nat, Task>)

  /** The agent named inside a specification document. */
  function AgentOf(spec: Json): Option<nat> {
    if spec.Obj? && "agent_id" in spec.fields && spec.fields["agent_id"].Num? && spec.fields["agent_id"].n >= 0
    then Some(spec.fields["agent_id"].n) else None
  }

  function Head(s: System, b: Branch): Option<Id> {
    if b in s.heads then Some(s.heads[b]) else None
  }

  function ParentsOf(head: Option<Id>): seq<Id> {
    if head.Some? then [head.value] else []
  }

  /** `save_revision`: idempotent, and an error when the id already names something else. */
  function Save(s: System, id: Id, r: Revision): Option<System> {
    if id in s.objects then
      if s.objects[id] == r then Some(s) else None
    else
      Some(s.(objects := s.objects[id := r], saves := s.saves + 1, rank := s.rank[id := s.saves]))
  }

  /** Saving a new revision, after which the task goes on to the compare-and-set. */
  ghost predicate SaveStep(hash: Revision -> Id, s: System, r: Revision, b: Branch, head: Option<Id>, merge: Option<Prepared>, s': System, t': Task) {
    var saved := Save(s, hash(r), r);
    if saved.None? then s' == s && t' == Failed
    else s' == saved.value && t' == Saved(b, head, hash(r), merge)
  }

  /** `compare_and_set_branch`. */
  ghost predicate CasStep(s: System, b: Branch, expected: Option<Id>, id: Id, s': System, t': Task) {
    if Head(s, b) == expected then s' == s.(heads := s.heads[b := id]) && t' == Done(id)
    else s' == s && t' == Failed
  }

  ghost predicate IsStoredBase(s: System, ours: Id, theirs: Id, base: Id) {
    base in s.objects && IsMergeBase(s.objects, ours, theirs, base)
  }

  /** The merge over this base is ready, or fails because there is no clean one. */
  ghost predicate PreparesOver(s: System, t: Task, base: Id, t': Task)
    requires t.MergeHeads? && t.ours in s.objects && t.theirs in s.objects && base in s.objects
  {
    var b, o, u := s.objects[base].spec, s.objects[t.ours].spec, s.objects[t.theirs].spec;
    if t'.MergeReady? then t' == MergeReady(t.branch, t.message, Prepared(t.ours, t.theirs, base, t'.merge.spec)) && CleanMerge(b, o, u, t'.merge.spec)
    else t' == Failed && forall merged :: !CleanMerge(b, o, u, merged)
  }

  ghost predicate PrepareStep(s: System, t: Task, t': Task)
    requires t.MergeHeads?
  {
    if t.ours in s.objects && t.theirs in s.objects && exists base :: IsStoredBase(s, t.ours, t.theirs, base) then
      exists base :: IsStoredBase(s, t.ours, t.theirs, base) && PreparesOver(s, t, base, t')
    else t' == Failed
  }

  /** One store operation of one task; the task map itself is left to `Next`. */
  ghost predicate TaskStep(hash: Revision -> Id, s: System, t: Task, s': System, t': Task) {
    match t
    case Start(Commit(b, spec, message)) =>
      s' == s && t' == if AgentOf(spec) == Some(b.agent) then CommitRead(b, spec, message, Head(s, b)) else Failed
    case CommitRead(b, spec, message, head) =>
      SaveStep(hash, s, Revision(b.agent, spec, ParentsOf(head), message), b, head, None, s', t')
    case Start(CreateBranch(source, target)) =>
      s' == s && t' == if source.agent == target.agent && source in s.heads then BranchRead(target, s.heads[source]) else Failed
    case BranchRead(b, id) =>
      s' == s && t' == if b in s.heads then Failed else BranchFree(b, id)
    case BranchFree(b, id) =>
      CasStep(s, b, None, id, s', t')
    case Start(MergeInto(source, target, message)) =>
      s' == s && t' == if source.agent == target.agent && source in s.heads then MergeSource(target, message, s.heads[source]) else Failed
    case MergeSource(b, message, theirs) =>
      s' == s && t' == if b in s.heads && s.heads[b] != theirs then MergeHeads(b, message, theirs, s.heads[b]) else Failed
    case MergeHeads(_, _, _, _) =>
      s' == s && PrepareStep(s, t, t')
    case MergeReady(b, message, merge) =>
      s' == s &&
      t' == if b in s.heads && AgentOf(merge.spec) == Some(b.agent) && merge.theirs in s.objects
               && s.objects[merge.theirs].agent == b.agent && s.heads[b] != merge.theirs
            then MergeParent(b, message, merge, s.heads[b]) else Failed
    case MergeParent(b, message, merge, parent) =>
      SaveStep(hash, s, Revision(b.agent, merge.spec, [parent, merge.theirs], message), b, Some(parent), Some(merge), s', t')
    case Saved(b, head, id, _) =>
      CasStep(s, b, head, id, s', t')
    case Done(_) => false
    case Failed => false
  }

  ghost predicate Moves(hash: Revision -> Id, s: System, tid: nat, s': System) {
    tid in s.tasks && tid in s'.tasks
    && TaskStep(hash, s, s.tasks[tid], s'.(tasks := s.tasks), s'.tasks[tid])
    && s'.tasks == s.tasks[tid := s'.tasks[tid]]
  }

  ghost predicate Spawns(s: System, tid: nat, op: Op, s': System) {
    tid !in s.tasks && s' == s.(tasks := s.tasks[tid := Start(op)])
  }

  ghost predicate Next(hash: Revision -> Id, s: System, s': System) {
    (exists tid :: Moves(hash, s, tid, s')) || (exists tid, op :: Spawns(s, tid, op, s'))
  }

  const EMPTY := System(map[], 0, map[], map[], map[])

  ghost predicate IsRun(hash: Revision -> Id, run: seq<System>) {
    run != [] && run[0] == EMPTY && forall i :: 0 <= i < |run| - 1 ==> Next(hash, run[i], run[i + 1])
  }

  // --- The invariant ------------------------------------------------------------------------

  ghost predicate StoredFor(s: System, id: Id, agent: nat) {
    id in s.objects && s.objects[id].agent == agent
  }

  /** Parents are stored, older and of the same agent. */
  ghost predicate Ranked(s: System) {
    && s.rank.Keys == s.objects.Keys
    && (forall id :: id in s.objects ==> s.rank[id] < s.saves)
    && (forall id, p :: id in s.objects && p in s.objects[id].parents ==>
          p in s.objects && s.rank[p] < s.rank[id] && s.objects[p].agent == s.objects[id].agent)
  }

  ghost predicate HeadsStored(s: System) {
    forall b :: b in s.heads ==> StoredFor(s, s.heads[b], b.agent)
  }

  /** Where the two heads and the base of a prepared merge live. */
  ghost predicate PreparedStored(s: System, agent: nat, m: Prepared) {
    StoredFor(s, m.ours, agent) && StoredFor(s, m.theirs, agent) && m.base in s.objects
  }

  /** A prepared merge is the clean merge of its two heads over their merge base. */
  ghost predicate PreparedOk(s: System, m: Prepared) {
    && m.ours in s.objects && m.theirs in s.objects && m.base in s.objects
    && IsMergeBase(s.objects, m.ours, m.theirs, m.base)
    && CleanMerge(s.objects[m.base].spec, s.objects[m.ours].spec, s.objects[m.theirs].spec, m.spec)
  }

  ghost predicate CleanMerge(b: Json, o: Json, u: Json, merged: Json) {
    Conflicts(Some(b), Some(o), Some(u), "$") == [] && Merged(Some(b), Some(o), Some(u)) == Some(merged)
  }

  function MergeOf(t: Task): Option<Prepared> {
    if t.MergeReady? || t.MergeParent? then Some(t.merge) else if t.Saved? then t.merged else None
  }

  ghost predicate MergesOk(s: System) {
    forall tid :: tid in s.tasks && MergeOf(s.tasks[tid]).Some? ==> PreparedOk(s, MergeOf(s.tasks[tid]).value)
  }

  ghost predicate TaskOk(s: System, t: Task) {
    match t
    case Start(_) => true
    case CommitRead(b, spec, _, head) => AgentOf(spec) == Some(b.agent) && (head.Some? ==> StoredFor(s, head.value, b.agent))
    case BranchRead(b, id) => StoredFor(s, id, b.agent)
    case BranchFree(b, id) => StoredFor(s, id, b.agent)
    case MergeSource(b, _, theirs) => StoredFor(s, theirs, b.agent)
    case MergeHeads(b, _, theirs, ours) => StoredFor(s, theirs, b.agent) && StoredFor(s, ours, b.agent)
    case MergeReady(b, _, m) => PreparedStored(s, b.agent, m)
    case MergeParent(b, _, m, parent) => PreparedStored(s, b.agent, m) && StoredFor(s, parent, b.agent)
    case Saved(b, head, id, merge) =>
      && StoredFor(s, id, b.agent) && (head.Some? ==> StoredFor(s, head.value, b.agent))
      && (merge.None? ==> s.objects[id].parents == ParentsOf(head))
      && (merge.Some? ==>
            && head.Some? && PreparedStored(s, b.agent, merge.value)
            && s.objects[id].parents == [head.value, merge.value.theirs] && s.objects[id].spec == merge.value.spec)
    case Done(_) => true
    case Failed => true
  }

  ghost predicate TasksOk(s: System) {
    forall tid :: tid in s.tasks ==> TaskOk(s, s.tasks[tid])
  }

  ghost predicate GraphOk(s: System) {
    Ranked(s) && HeadsStored(s)
  }

  ghost predicate Inv(s: System) {
    GraphOk(s) && TasksOk(s) && MergesOk(s)
  }

  /** A branch keeps its head or moves it to a revision whose first parent is the old head. */
  ghost predicate HeadsAdvance(s: System, s': System) {
    forall b :: b in s.heads ==>
      b in s'.heads &&
      (s'.heads[b] == s.heads[b]
       || (s'.heads[b] in s'.objects && s'.objects[s'.heads[b]].parents != []
           && s'.objects[s'.heads[b]].parents[0] == s.heads[b]))
  }

  ghost predicate Advances(s: System, s': System) {
    GraphOk(s') && Grows(s, s') && HeadsAdvance(s, s')
  }

  /** Stored revisions never change and ranks stay. */
  ghost predicate Grows(s: System, s': System) {
    && (forall id :: id in s.objects ==> id in s'.objects && s'.objects[id] == s.objects[id])
    && (forall id :: id in s.rank ==> id in s'.rank && s'.rank[id] == s.rank[id])
  }

  lemma {:induction false} LevelsAreStored(s: System, start: Id, n: nat, id: Id)
    requires Ranked(s) && start in s.objects && id in Level(s.objects, start, n)
    ensures id in s.objects && s.objects[id].agent == s.objects[start].agent
    decreases n
  {
    if n > 0 {
      var y :| y in Level(s.objects, start, n - 1) && y in s.objects && id in s.objects[y].parents;
      LevelsAreStored(s, start, n - 1, y);
    }
  }

  lemma {:induction false} LevelsStay(s: System, s': System, start: Id, n: nat)
    requires Ranked(s) && Grows(s, s') && start in s.objects
    ensures Level(s'.objects, start, n) == Level(s.objects, start, n)
    decreases n
  {
    if n > 0 {
      LevelsStay(s, s', start, n - 1);
      forall id | id in Level(s.objects, start, n - 1) {
        LevelsAreStored(s, start, n - 1, id);
      }
    }
  }

  lemma DistancesStay(s: System, s': System, start: Id, a: map<Id, nat>)
    requires Ranked(s) && Grows(s, s') && start in s.objects
    requires AreDistances(s.objects, start, a)
    ensures AreDistances(s'.objects, start, a)
  {
    forall n: nat { LevelsStay(s, s', start, n); }
    forall id
      ensures IsAncestor(s'.objects, start, id) <==> IsAncestor(s.objects, start, id)
    {
      if n: nat :| id in Level(s'.objects, start, n) { assert id in Level(s.objects, start, n); }
      if n: nat :| id in Level(s.objects, start, n) { assert id in Level(s'.objects, start, n); }
    }
    forall id | id in a
      ensures IsDistance(s'.objects, start, id, a[id])
    {
      assert IsDistance(s.objects, start, id, a[id]);
    }
  }

  lemma MergeBaseStays(s: System, s': System, ours: Id, theirs: Id, base: Id)
    requires Ranked(s) && Grows(s, s') && ours in s.objects && theirs in s.objects
    requires IsMergeBase(s.objects, ours, theirs, base)
    ensures IsMergeBase(s'.objects, ours, theirs, base)
  {
    var a, b :| AreDistances(s.objects, ours, a) && AreDistances(s.objects, theirs, b) && IsBest(a, b, base);
    DistancesStay(s, s', ours, a);
    DistancesStay(s, s', theirs, b);
  }

  lemma PreparedStays(s: System, s': System, m: Prepared)
    requires Ranked(s) && Grows(s, s') && PreparedOk(s, m)
    ensures PreparedOk(s', m)
  {
    MergeBaseStays(s, s', m.ours, m.theirs, m.base);
  }

  lemma TaskStaysOk(s: System, s': System, t: Task)
    requires Grows(s, s') && TaskOk(s, t)
    ensures TaskOk(s', t)
  {
  }

  lemma NewRank(s: System, id: Id, r: Revision, x: Id, p: Id)
    requires Ranked(s) && id !in s.objects && (forall q :: q in r.parents ==> StoredFor(s, q, r.agent))
    requires x == id || x in s.objects
    requires p in (if x == id then r.parents else s.objects[x].parents)
    ensures p in s.objects && s.rank[p] < (if x == id then s.saves else s.rank[x])
    ensures s.objects[p].agent == (if x == id then r.agent else s.objects[x].agent)
  {
    if x == id { assert StoredFor(s, p, r.agent); }
  }

  lemma FreshSaveRanked(s: System, id: Id, r: Revision)
    requires Ranked(s) && id !in s.objects && forall p :: p in r.parents ==> StoredFor(s, p, r.agent)
    ensures Ranked(Save(s, id, r).value)
  {
    var s' := Save(s, id, r).value;
    assert s'.rank.Keys == s'.objects.Keys;
    forall x, p | x in s'.objects && p in s'.objects[x].parents
      ensures p in s'.objects && s'.rank[p] < s'.rank[x] && s'.objects[p].agent == s'.objects[x].agent
    {
      NewRank(s, id, r, x, p);
    }
  }

  lemma SaveKeepsRanks(s: System, id: Id, r: Revision)
    requires Ranked(s)
    requires forall p :: p in r.parents ==> StoredFor(s, p, r.agent)
    requires Save(s, id, r).Some?
    ensures var s' := Save(s, id, r).value;
            Ranked(s') && Grows(s, s') && StoredFor(s', id, r.agent) && s'.objects[id] == r
  {
    if id !in s.objects { FreshSaveRanked(s, id, r); }
  }

  lemma SaveStepAdvances(hash: Revision -> Id, s: System, r: Revision, b: Branch, head: Option<Id>, merge: Option<Prepared>, s': System, t': Task)
    requires GraphOk(s) && SaveStep(hash, s, r, b, head, merge, s', t')
    requires r.agent == b.agent && (forall p :: p in r.parents ==> StoredFor(s, p, r.agent))
    ensures Advances(s, s')
    ensures t' == Failed || (t' == Saved(b, head, hash(r), merge) && StoredFor(s', hash(r), b.agent) && s'.objects[hash(r)] == r)
  {
    if Save(s, hash(r), r).Some? { SaveKeepsRanks(s, hash(r), r); }
    forall c | c in s'.heads ensures StoredFor(s', s'.heads[c], c.agent) {
      assert StoredFor(s, s.heads[c], c.agent);
    }
  }

  lemma CasStepAdvances(s: System, b: Branch, expected: Option<Id>, id: Id, s': System, t': Task)
    requires GraphOk(s) && CasStep(s, b, expected, id, s', t') && StoredFor(s, id, b.agent)
    requires expected.Some? ==> s.objects[id].parents != [] && s.objects[id].parents[0] == expected.value
    ensures Advances(s, s') && TaskOk(s', t')
  {
    CasStepKeepsHeads(s, b, expected, id, s', t');
  }

  lemma CasStepKeepsHeads(s: System, b: Branch, expected: Option<Id>, id: Id, s': System, t': Task)
    requires HeadsStored(s) && CasStep(s, b, expected, id, s', t') && StoredFor(s, id, b.agent)
    ensures HeadsStored(s') && s'.objects == s.objects
  {
    forall c | c in s'.heads ensures StoredFor(s', s'.heads[c], c.agent) {
      assert c in s.heads ==> StoredFor(s, s.heads[c], c.agent);
    }
  }

  lemma CommitSaves(hash: Revision -> Id, s: System, t: Task, s': System, t': Task)
    requires GraphOk(s) && t.CommitRead? && TaskOk(s, t) && TaskStep(hash, s, t, s', t')
    ensures Advances(s, s') && TaskOk(s', t')
  {
    var r := Revision(t.branch.agent, t.spec, ParentsOf(t.head), t.message);
    SaveStepAdvances(hash, s, r, t.branch, t.head, None, s', t');
    TaskStaysOk(s, s', t);
  }

  lemma MergeSaves(hash: Revision -> Id, s: System, t: Task, s': System, t': Task)
    requires GraphOk(s) && t.MergeParent? && TaskOk(s, t) && TaskStep(hash, s, t, s', t')
    ensures Advances(s, s') && TaskOk(s', t')
  {
    var r := Revision(t.branch.agent, t.merge.spec, [t.parent, t.merge.theirs], t.message);
    SaveStepAdvances(hash, s, r, t.branch, Some(t.parent), Some(t.merge), s', t');
    TaskStaysOk(s, s', t);
  }

  lemma BranchLands(hash: Revision -> Id, s: System, t: Task, s': System, t': Task)
    requires GraphOk(s) && (t.Saved? || t.BranchFree?) && TaskOk(s, t) && TaskStep(hash, s, t, s', t')
    ensures Advances(s, s') && TaskOk(s', t')
  {
    if t.Saved? {
      assert s.objects[t.id].parents == ParentsOf(t.head) || (t.merged.Some? && s.objects[t.id].parents == [t.head.value, t.merged.value.theirs]);
      CasStepAdvances(s, t.branch, t.head, t.id, s', t');
    } else {
      CasStepAdvances(s, t.branch, None, t.id, s', t');
    }
  }

  lemma HeadsRead(hash: Revision -> Id, s: System, t: Task, s': System, t': Task)
    requires HeadsStored(s) && (t.Start? || t.BranchRead? || t.MergeSource? || t.Done? || t.Failed?)
    requires TaskOk(s, t) && TaskStep(hash, s, t, s', t')
    ensures s' == s && TaskOk(s', t')
  {
    assert forall b :: b in s.heads ==> StoredFor(s, s.heads[b], b.agent);
  }

  lemma MergePrepares(hash: Revision -> Id, s: System, t: Task, s': System, t': Task)
    requires t.MergeHeads? && TaskOk(s, t) && TaskStep(hash, s, t, s', t')
    ensures s' == s && TaskOk(s', t')
  {
  }

  lemma MergeRereads(hash: Revision -> Id, s: System, t: Task, s': System, t': Task)
    requires HeadsStored(s) && t.MergeReady? && TaskOk(s, t) && TaskStep(hash, s, t, s', t')
    ensures s' == s && TaskOk(s', t')
  {
  }

  /** One store operation keeps the graph sound, and the task that made it consistent. */
  lemma StepAdvances(hash: Revision -> Id, s: System, t: Task, s': System, t': Task)
    requires GraphOk(s) && TaskOk(s, t) && TaskStep(hash, s, t, s', t')
    ensures Advances(s, s') && TaskOk(s', t')
  {
    if t.CommitRead? { CommitSaves(hash, s, t, s', t'); }
    else if t.MergeParent? { MergeSaves(hash, s, t, s', t'); }
    else if t.Saved? || t.BranchFree? { BranchLands(hash, s, t, s', t'); }
    else {
      if t.MergeHeads? { MergePrepares(hash, s, t, s', t'); }
      else if t.MergeReady? { MergeRereads(hash, s, t, s', t'); }
      else { HeadsRead(hash, s, t, s', t'); }
      assert forall b :: b in s.heads ==> StoredFor(s, s.heads[b], b.agent);
    }
  }

  lemma NextKeepsInv(hash: Revision -> Id, s: System, s': System)
    requires Inv(s) && Next(hash, s, s')
    ensures Inv(s') && Advances(s, s')
  {
    if tid :| Moves(hash, s, tid, s') {
      MoveKeepsTasks(hash, s, tid, s');
      MoveKeepsMerges(hash, s, tid, s');
    } else {
      var tid, op :| Spawns(s, tid, op, s');
      SpawnKeepsInv(s, tid, op, s');
    }
  }

  lemma SpawnKeepsInv(s: System, tid: nat, op: Op, s': System)
    requires Inv(s) && Spawns(s, tid, op, s')
    ensures Inv(s') && Advances(s, s')
  {
    forall other | other in s.tasks { TaskStaysOk(s, s', s.tasks[other]); }
    forall other | other in s.tasks && MergeOf(s.tasks[other]).Some? { PreparedStays(s, s', MergeOf(s.tasks[other]).value); }
    assert forall b :: b in s.heads ==> StoredFor(s, s.heads[b], b.agent);
  }

  lemma MoveKeepsTasks(hash: Revision -> Id, s: System, tid: nat, s': System)
    requires GraphOk(s) && TasksOk(s) && Moves(hash, s, tid, s')
    ensures GraphOk(s') && TasksOk(s') && Advances(s, s')
  {
    var mid := s'.(tasks := s.tasks);
    StepAdvances(hash, s, s.tasks[tid], mid, s'.tasks[tid]);
    TasksAside(s, mid, s');
    TaskStaysOk(mid, s', s'.tasks[tid]);
    OthersStayOk(s, tid, s');
  }

  /** What is said of the store does not depend on the tasks. */
  lemma TasksAside(s: System, mid: System, s': System)
    requires Advances(s, mid) && mid == s'.(tasks := mid.tasks)
    ensures Advances(s, s') && Grows(mid, s')
  {
    assert forall b :: b in mid.heads ==> StoredFor(mid, mid.heads[b], b.agent);
  }

  lemma OthersStayOk(s: System, tid: nat, s': System)
    requires TasksOk(s) && Grows(s, s') && tid in s'.tasks && TaskOk(s', s'.tasks[tid]) && s'.tasks == s.tasks[tid := s'.tasks[tid]]
    ensures TasksOk(s')
  {
    forall other | other in s'.tasks
      ensures TaskOk(s', s'.tasks[other])
    {
      if other != tid { TaskStaysOk(s, s', s.tasks[other]); }
    }
  }

  /** A merge in progress keeps its prepared content; only `MergeHeads` makes one. */
  lemma StepKeepsMerge(hash: Revision -> Id, s: System, t: Task, s': System, t': Task)
    requires TaskStep(hash, s, t, s', t') && MergeOf(t').Some?
    ensures if t.MergeHeads? then s' == s && PreparedOk(s, MergeOf(t').value) else MergeOf(t') == MergeOf(t)
  {
  }

  lemma MoveKeepsMerges(hash: Revision -> Id, s: System, tid: nat, s': System)
    requires Ranked(s) && MergesOk(s) && Moves(hash, s, tid, s') && Grows(s, s')
    ensures MergesOk(s')
  {
    forall other | other in s'.tasks && MergeOf(s'.tasks[other]).Some?
      ensures PreparedOk(s', MergeOf(s'.tasks[other]).value)
    {
      if other == tid {
        StepKeepsMerge(hash, s, s.tasks[tid], s'.(tasks := s.tasks), s'.tasks[tid]);
      }
      PreparedStays(s, s', MergeOf(s'.tasks[other]).value);
    }
  }

  lemma {:induction false} RunKeepsInv(hash: Revision -> Id, run: seq<System>, i: nat)
    requires IsRun(hash, run) && i < |run|
    ensures Inv(run[i])
  {
    if i > 0 {
      RunKeepsInv(hash, run, i - 1);
      NextKeepsInv(hash, run[i - 1], run[i]);
    }
  }

  /** In every run every ancestor of a branch head is stored and belongs to the branch's agent. */
  lemma AncestorsShareAgent(hash: Revision -> Id, run: seq<System>, i: nat, b: Branch, id: Id)
    requires IsRun(hash, run) && i < |run| && b in run[i].heads
    requires IsAncestor(run[i].objects, run[i].heads[b], id)
    ensures StoredFor(run[i], id, b.agent)
  {
    RunKeepsInv(hash, run, i);
    var n: nat :| id in Level(run[i].objects, run[i].heads[b], n);
    LevelsAreStored(run[i], run[i].heads[b], n, id);
  }

  // --- First-parent histories ---------------------------------------------------------------

  ghost function FirstParents(s: System, id: Id): seq<Id>
    requires Ranked(s) && id in s.objects
    decreases s.rank[id]
  {
    if s.objects[id].parents == [] then [id]
    else
      assert s.objects[id].parents[0] in s.objects[id].parents;
      [id] + FirstParents(s, s.objects[id].parents[0])
  }

  ghost function FirstParent(s: System, id: Id): Option<Id> {
    if id in s.objects && s.objects[id].parents != [] then Some(s.objects[id].parents[0]) else None
  }

  /** `log`: the first-parent chain, newest first. It ends because ranks fall along parents. */
  method Log(s: System, b: Branch) returns (history: seq<Id>)
    requires GraphOk(s) && b in s.heads
    ensures s.heads[b] in s.objects && history == FirstParents(s, s.heads[b])
    ensures history != [] && history[0] == s.heads[b]
    ensures forall i :: 0 <= i < |history| ==> history[i] in s.objects
    ensures forall i :: 0 <= i < |history| - 1 ==> s.objects[history[i]].parents != [] && history[i + 1] == s.objects[history[i]].parents[0]
    ensures s.objects[history[|history| - 1]].parents == []
  {
    var current := Some(s.heads[b]);
    history := [];
    assert StoredFor(s, s.heads[b], b.agent);
    ghost var whole := FirstParents(s, s.heads[b]);
    while current.Some?
      invariant current.Some? ==> current.value in s.objects
      invariant whole == history + if current.Some? then FirstParents(s, current.value) else []
      invariant history == [] ==> current == Some(s.heads[b])
      invariant history != [] ==> history[0] == s.heads[b] && current == FirstParent(s, history[|history| - 1])
      invariant forall i :: 0 <= i < |history| ==> history[i] in s.objects
      invariant forall i :: 0 <= i < |history| - 1 ==> FirstParent(s, history[i]) == Some(history[i + 1])
      decreases if current.Some? then s.rank[current.value] + 1 else 0
    {
      var id := current.value;
      var parents := s.objects[id].parents;
      assert parents != [] ==> parents[0] in parents;
      current := if parents == [] then None else Some(parents[0]);
      history := history + [id];
    }
    forall i | 0 <= i < |history| - 1
      ensures s.objects[history[i]].parents != [] && history[i + 1] == s.objects[history[i]].parents[0]
    {
      assert FirstParent(s, history[i]) == Some(history[i + 1]);
    }
  }

  lemma {:induction false} HistoryStays(s: System, s': System, id: Id)
    requires Ranked(s) && Ranked(s') && Grows(s, s') && id in s.objects
    ensures id in s'.objects && FirstParents(s', id) == FirstParents(s, id)
    decreases s.rank[id]
  {
    if s.objects[id].parents != [] {
      assert s.objects[id].parents[0] in s.objects[id].parents;
      HistoryStays(s, s', s.objects[id].parents[0]);
    }
  }

  ghost function History(s: System, b: Branch): seq<Id>
    requires GraphOk(s) && b in s.heads
  {
    assert StoredFor(s, s.heads[b], b.agent);
    FirstParents(s, s.heads[b])
  }

  /** A branch keeps its history or puts one revision in front of it. */
  lemma HistoryOnlyGrows(s: System, s': System, b: Branch)
    requires GraphOk(s) && Advances(s, s') && b in s.heads
    ensures b in s'.heads
    ensures if s'.heads[b] == s.heads[b] then History(s', b) == History(s, b)
            else History(s', b) == [s'.heads[b]] + History(s, b)
  {
    assert StoredFor(s, s.heads[b], b.agent);
    HistoryStays(s, s', s.heads[b]);
  }

  /** What is needed of a run to follow histories along it. */
  ghost predicate SoundRun(run: seq<System>) {
    && (forall i :: 0 <= i < |run| ==> GraphOk(run[i]))
    && (forall i, j :: 0 <= i && j == i + 1 && j < |run| ==> Advances(run[i], run[j]))
  }

  lemma RunIsSound(hash: Revision -> Id, run: seq<System>)
    requires IsRun(hash, run)
    ensures SoundRun(run)
  {
    forall i | 0 <= i < |run| ensures GraphOk(run[i]) {
      RunKeepsInv(hash, run, i);
    }
    forall i, j | 0 <= i && j == i + 1 && j < |run| ensures Advances(run[i], run[j]) {
      RunKeepsInv(hash, run, i);
      NextKeepsInv(hash, run[i], run[j]);
    }
  }

  ghost predicate NoShorter(s: System, s': System, b: Branch)
    requires GraphOk(s) && GraphOk(s') && b in s.heads && b in s'.heads
  {
    |History(s, b)| < |History(s', b)| || (|History(s, b)| == |History(s', b)| && s.heads[b] == s'.heads[b])
  }

  lemma NoShorterThen(s: System, s': System, s'': System, b: Branch)
    requires GraphOk(s) && GraphOk(s') && b in s.heads && b in s'.heads
    requires NoShorter(s, s', b) && Advances(s', s'')
    ensures b in s''.heads && NoShorter(s, s'', b)
  {
    HistoryOnlyGrows(s', s'', b);
  }

  lemma {:induction false} HistoryNeverShrinks(run: seq<System>, b: Branch, i: nat, j: nat)
    requires SoundRun(run) && i <= j < |run| && b in run[i].heads
    ensures b in run[j].heads
    ensures NoShorter(run[i], run[j], b)
    decreases j
  {
    if i < j {
      HistoryNeverShrinks(run, b, i, j - 1);
      assert Advances(run[j - 1], run[j]);
      NoShorterThen(run[i], run[j - 1], run[j], b);
    }
  }

  lemma {:induction false} HistoryStaysAlong(run: seq<System>, i: nat, j: nat, id: Id)
    requires SoundRun(run) && i <= j < |run| && id in run[i].objects
    ensures id in run[j].objects && FirstParents(run[j], id) == FirstParents(run[i], id)
    decreases j
  {
    if i < j {
      HistoryStaysAlong(run, i, j - 1, id);
      assert Advances(run[j - 1], run[j]);
      HistoryStays(run[j - 1], run[j], id);
    }
  }

  /**
   * No ABA: a branch that has the same head at two moments had it at every moment in between.
   * So a compare-and-set that succeeds acts on a branch nobody touched since its head was read.
   */
  lemma HeadNeverReturns(hash: Revision -> Id, run: seq<System>, b: Branch, i: nat, k: nat, j: nat)
    requires IsRun(hash, run) && i <= k <= j < |run|
    requires b in run[i].heads && b in run[j].heads && run[i].heads[b] == run[j].heads[b]
    ensures b in run[k].heads && run[k].heads[b] == run[i].heads[b]
  {
    RunIsSound(hash, run);
    SameHeadSameHistory(run, b, i, j);
    HistoryNeverShrinks(run, b, i, k);
    HistoryNeverShrinks(run, b, k, j);
  }

  lemma SameHeadSameHistory(run: seq<System>, b: Branch, i: nat, j: nat)
    requires SoundRun(run) && i <= j < |run|
    requires b in run[i].heads && b in run[j].heads && run[i].heads[b] == run[j].heads[b]
    ensures History(run[i], b) == History(run[j], b)
  {
    assert StoredFor(run[i], run[i].heads[b], b.agent);
    HistoryStaysAlong(run, i, j, run[i].heads[b]);
  }

  // --- What a merge records -----------------------------------------------------------------

  /**
   * A merge that lands records the target head as it was at commit time, and the specification
   * merged from the heads as they were when the merge was prepared. When no commit landed in
   * between, the new head is the clean merge of its two recorded parents over their merge base.
   */
  lemma MergeLands(hash: Revision -> Id, s: System, tid: nat, s': System)
    requires Inv(s) && Moves(hash, s, tid, s') && s.tasks[tid].Saved? && s.tasks[tid].merged.Some?
    requires s'.tasks[tid].Done?
    ensures var t := s.tasks[tid];
            && t.head.Some? && Head(s, t.branch) == t.head && Head(s', t.branch) == Some(t.id) && t.id in s'.objects
            && s'.objects[t.id].parents == [t.head.value, t.merged.value.theirs]
            && PreparedOk(s', t.merged.value) && s'.objects[t.id].spec == t.merged.value.spec
            && (t.head.value == t.merged.value.ours ==> IsMergeOfParents(s', t.id))
  {
    var t := s.tasks[tid];
    SavedLands(hash, s, t, s'.(tasks := s.tasks), s'.tasks[tid]);
    PreparedStays(s, s', t.merged.value);
    if t.head.value == t.merged.value.ours { RecordsItsParents(s', t.id, t.merged.value); }
  }

  lemma SavedLands(hash: Revision -> Id, s: System, t: Task, s': System, t': Task)
    requires t.Saved? && t.merged.Some? && TaskOk(s, t) && TaskStep(hash, s, t, s', t') && t'.Done?
    ensures t.head.Some? && Head(s, t.branch) == t.head && Head(s', t.branch) == Some(t.id) && t.id in s'.objects
    ensures s'.objects == s.objects && s'.rank == s.rank
    ensures s'.objects[t.id].parents == [t.head.value, t.merged.value.theirs] && s'.objects[t.id].spec == t.merged.value.spec
  {
  }

  lemma RecordsItsParents(s: System, id: Id, m: Prepared)
    requires PreparedOk(s, m) && id in s.objects && s.objects[id].parents == [m.ours, m.theirs] && s.objects[id].spec == m.spec
    ensures IsMergeOfParents(s, id)
  {
    assert MergedOver(s, id, m.base);
  }

  /** The specification of a two-parent revision is the clean merge of its parents over this base. */
  ghost predicate MergedOver(s: System, id: Id, base: Id)
    requires id in s.objects && |s.objects[id].parents| == 2
  {
    PreparedOk(s, Prepared(s.objects[id].parents[0], s.objects[id].parents[1], base, s.objects[id].spec))
  }

  /** The specification of a two-parent revision is the clean merge of its parents over their merge base. */
  ghost predicate IsMergeOfParents(s: System, id: Id) {
    id in s.objects && |s.objects[id].parents| == 2 && exists base :: MergedOver(s, id, base)
  }

  /**
   * Exactly when a merge that lands is the merge of its recorded parents, given that its base still is
   * their merge base: when the head found at commit time clashes nowhere with the source, and differs from
   * the head the merge was prepared with only where the source changed the base.
   */
  lemma MergeOfParentsIff(hash: Revision -> Id, s: System, tid: nat, s': System)
    requires Inv(s) && Moves(hash, s, tid, s') && s.tasks[tid].Saved? && s.tasks[tid].merged.Some?
    requires s'.tasks[tid].Done? && s.tasks[tid].head.Some? && s.tasks[tid].head.value in s.objects
    requires IsMergeBase(s'.objects, s.tasks[tid].head.value, s.tasks[tid].merged.value.theirs, s.tasks[tid].merged.value.base)
    ensures var m, head := s.tasks[tid].merged.value, s.tasks[tid].head.value;
            m.base in s.objects && m.ours in s.objects && m.theirs in s.objects
            && var b, o, p, u := Some(s.objects[m.base].spec), Some(s.objects[m.ours].spec), Some(s.objects[head].spec), Some(s.objects[m.theirs].spec);
               (IsMergeOfParents(s', s.tasks[tid].id) <==> (forall keys :: !Clash(b, p, u, keys)) && AgreeWhereUntouched(b, o, p, u))
  {
    var t := s.tasks[tid];
    var m, head := t.merged.value, t.head.value;
    MergeLands(hash, s, tid, s');
    SavedLands(hash, s, t, s'.(tasks := s.tasks), s'.tasks[tid]);
    assert PreparedOk(s, m);
    ParentsOverBase(s', t.id, head, m);
    SpecIsMergeIff(s.objects[m.base].spec, s.objects[m.ours].spec, s.objects[head].spec, s.objects[m.theirs].spec, m.spec);
  }

  /** So it is when nothing but plain commits came in between that the source does not contain. */
  lemma MergeAfterCommits(hash: Revision -> Id, s: System, tid: nat, s': System, path: seq<Id>)
    requires Inv(s) && Moves(hash, s, tid, s') && s.tasks[tid].Saved? && s.tasks[tid].merged.Some?
    requires s'.tasks[tid].Done? && s.tasks[tid].head.Some? && s.tasks[tid].head.value in s.objects
    requires PlainCommits(s'.objects, s.tasks[tid].merged.value.ours, s.tasks[tid].merged.value.theirs, path)
    requires path[|path| - 1] == s.tasks[tid].head.value
    ensures var m, head := s.tasks[tid].merged.value, s.tasks[tid].head.value;
            m.base in s.objects && m.ours in s.objects && m.theirs in s.objects
            && var b, o, p, u := Some(s.objects[m.base].spec), Some(s.objects[m.ours].spec), Some(s.objects[head].spec), Some(s.objects[m.theirs].spec);
               (IsMergeOfParents(s', s.tasks[tid].id) <==> (forall keys :: !Clash(b, p, u, keys)) && AgreeWhereUntouched(b, o, p, u))
  {
    var m := s.tasks[tid].merged.value;
    MergeLands(hash, s, tid, s');
    PlainCommitsKeepBase(s'.objects, m.ours, m.theirs, path, m.base);
    MergeOfParentsIff(hash, s, tid, s');
  }

  /** With the merge base known, being the merge of the parents is a matter of the specifications. */
  lemma ParentsOverBase(s: System, id: Id, head: Id, m: Prepared)
    requires id in s.objects && s.objects[id].parents == [head, m.theirs] && s.objects[id].spec == m.spec
    requires head in s.objects && m.theirs in s.objects && m.base in s.objects && IsMergeBase(s.objects, head, m.theirs, m.base)
    ensures IsMergeOfParents(s, id) <==> CleanMerge(s.objects[m.base].spec, s.objects[head].spec, s.objects[m.theirs].spec, m.spec)
  {
    if IsMergeOfParents(s, id) {
      var base :| MergedOver(s, id, base);
      MergedOverBase(s, id, head, m, base);
    }
    if CleanMerge(s.objects[m.base].spec, s.objects[head].spec, s.objects[m.theirs].spec, m.spec) {
      assert MergedOver(s, id, m.base);
    }
  }

  lemma MergedOverBase(s: System, id: Id, head: Id, m: Prepared, base: Id)
    requires id in s.objects && s.objects[id].parents == [head, m.theirs] && s.objects[id].spec == m.spec && MergedOver(s, id, base)
    requires IsMergeBase(s.objects, head, m.theirs, m.base)
    ensures base == m.base && head in s.objects && m.theirs in s.objects && m.base in s.objects
    ensures CleanMerge(s.objects[m.base].spec, s.objects[head].spec, s.objects[m.theirs].spec, m.spec)
  {
    OnlyMergeBase(s.objects, head, m.theirs, m.base, base);
  }

  lemma SpecIsMergeIff(b: Json, o: Json, p: Json, u: Json, spec: Json)
    requires CleanMerge(b, o, u, spec)
    ensures CleanMerge(b, p, u, spec) <==> (forall keys :: !Clash(Some(b), Some(p), Some(u), keys)) && AgreeWhereUntouched(Some(b), Some(o), Some(p), Some(u))
  {
    ConflictsIffClash(Some(b), Some(p), Some(u), "$");
    if Conflicts(Some(b), Some(p), Some(u), "$") == [] {
      MergesAlikeIffAgree(Some(b), Some(o), Some(p), Some(u), "$");
    }
  }

  /** Only one revision can be the merge base. */
  lemma OnlyMergeBase(objects: Objects, ours: Id, theirs: Id, x: Id, y: Id)
    requires IsMergeBase(objects, ours, theirs, x) && IsMergeBase(objects, ours, theirs, y)
    ensures x == y
  {
    var a, b :| AreDistances(objects, ours, a) && AreDistances(objects, theirs, b) && IsBest(a, b, x);
    var c, d :| AreDistances(objects, ours, c) && AreDistances(objects, theirs, d) && IsBest(c, d, y);
    DistancesUnique(objects, ours, a, c);
    DistancesUnique(objects, theirs, b, d);
  }
}
