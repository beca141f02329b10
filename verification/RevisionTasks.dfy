/** What commits, new branches and merges record. */
module RevisionTasks {
  import opened Prelude
  import opened Merge
  import opened Ancestors
  import opened RevisionProtocol

  // A task that is done has recorded what its operation said, whatever else ran in between.

  /** The revision stored under the id. */
  ghost predicate Records(s: System, id: Id, agent: nat, spec: Json, message: nat, parents: seq<Id>) {
    id in s.objects && s.objects[id].agent == agent && s.objects[id].spec == spec
    && s.objects[id].message == message && s.objects[id].parents == parents
  }

  ghost predicate RecordsSpec(s: System, id: Id, agent: nat, spec: Json, message: nat) {
    exists parents :: Records(s, id, agent, spec, message, parents)
  }

  /** What a task still knows of its commit. */
  ghost predicate KnowsCommit(s: System, t: Task, b: Branch, spec: Json, message: nat) {
    match t
    case Start(op) => op == Commit(b, spec, message)
    case CommitRead(b', spec', message', _) => b' == b && spec' == spec && message' == message
    case Saved(b', head, id, merged) =>
      b' == b && merged.None? && Records(s, id, b.agent, spec, message, if head.None? then [] else [head.value])
    case Done(id) => RecordsSpec(s, id, b.agent, spec, message)
    case Failed => true
    case _ => false
  }

  lemma SavedKnowsCommit(hash: Revision -> Id, s: System, s': System, t: Task, t': Task, b: Branch, spec: Json, message: nat)
    requires TaskStep(hash, s, t, s', t') && t.CommitRead? && KnowsCommit(s, t, b, spec, message)
    ensures KnowsCommit(s', t', b, spec, message)
  {
  }

  lemma CommitStep(hash: Revision -> Id, s: System, s': System, t: Task, t': Task, b: Branch, spec: Json, message: nat)
    requires TaskStep(hash, s, t, s', t') && KnowsCommit(s, t, b, spec, message)
    ensures KnowsCommit(s', t', b, spec, message)
  {
    match t
    case Start(_) =>
    case CommitRead(_, _, _, _) => SavedKnowsCommit(hash, s, s', t, t', b, spec, message);
    case Saved(_, head, id, _) =>
      if t'.Done? { assert Records(s', id, b.agent, spec, message, if head.None? then [] else [head.value]); }
    case _ =>
  }

  lemma CommitStays(s: System, s': System, t: Task, b: Branch, spec: Json, message: nat)
    requires Grows(s, s') && KnowsCommit(s, t, b, spec, message)
    ensures KnowsCommit(s', t, b, spec, message)
  {
    if t.Done? {
      var parents :| Records(s, t.id, b.agent, spec, message, parents);
      assert Records(s', t.id, b.agent, spec, message, parents);
    }
  }

  /** What a task still knows of its merge. */
  ghost predicate KnowsMerge(s: System, t: Task, target: Branch, message: nat) {
    match t
    case Start(op) => op.MergeInto? && op.target == target && op.message == message
    case MergeSource(b, m, _) => b == target && m == message
    case MergeHeads(b, m, _, _) => b == target && m == message
    case MergeReady(b, m, _) => b == target && m == message
    case MergeParent(b, m, _, _) => b == target && m == message
    case Saved(b, head, id, merged) =>
      b == target && merged.Some? && head.Some?
      && Records(s, id, target.agent, merged.value.spec, message, [head.value, merged.value.theirs])
    case Done(id) => exists spec :: RecordsSpec(s, id, target.agent, spec, message)
    case Failed => true
    case _ => false
  }

  lemma MergeStep(hash: Revision -> Id, s: System, s': System, t: Task, t': Task, target: Branch, message: nat)
    requires TaskStep(hash, s, t, s', t') && KnowsMerge(s, t, target, message)
    ensures KnowsMerge(s', t', target, message)
  {
    match t
    case MergeHeads(_, _, _, _) => PreparedKnows(s, t, t');
    case MergeParent(_, _, _, _) => MergeSaves(hash, s, s', t, t', target, message);
    case Saved(_, head, id, merged) =>
      if t'.Done? {
        assert Records(s', id, target.agent, merged.value.spec, message, [head.value, merged.value.theirs]);
        assert RecordsSpec(s', id, target.agent, merged.value.spec, message);
      }
    case _ =>
  }

  lemma PreparedKnows(s: System, t: Task, t': Task)
    requires t.MergeHeads? && PrepareStep(s, t, t')
    ensures t'.Failed? || (t'.MergeReady? && t'.branch == t.branch && t'.message == t.message)
  {
  }

  lemma MergeSaves(hash: Revision -> Id, s: System, s': System, t: Task, t': Task, target: Branch, message: nat)
    requires TaskStep(hash, s, t, s', t') && t.MergeParent? && KnowsMerge(s, t, target, message)
    ensures KnowsMerge(s', t', target, message)
  {
  }

  lemma MergeStays(s: System, s': System, t: Task, target: Branch, message: nat)
    requires Grows(s, s') && KnowsMerge(s, t, target, message)
    ensures KnowsMerge(s', t, target, message)
  {
    if t.Done? {
      var spec :| RecordsSpec(s, t.id, target.agent, spec, message);
      var parents :| Records(s, t.id, target.agent, spec, message, parents);
      assert Records(s', t.id, target.agent, spec, message, parents);
      assert RecordsSpec(s', t.id, target.agent, spec, message);
    }
  }

  // --- Along a run --------------------------------------------------------------------------------------------

  /** The store grows and a task goes on or stays where it is. */
  ghost predicate Onward(hash: Revision -> Id, s: System, s': System, tid: nat) {
    tid in s.tasks ==>
      tid in s'.tasks && Grows(s, s')
      && (s'.tasks[tid] == s.tasks[tid] || TaskStep(hash, s, s.tasks[tid], s'.(tasks := s.tasks), s'.tasks[tid]))
  }

  lemma StepsOnward(hash: Revision -> Id, s: System, s': System, tid: nat)
    requires Inv(s) && Next(hash, s, s')
    ensures Onward(hash, s, s', tid)
  {
    NextKeepsInv(hash, s, s');
    if mover :| Moves(hash, s, mover, s') {
      assert tid in s.tasks && mover != tid ==> s'.tasks[tid] == s.tasks[tid];
    } else {
      var other, op :| Spawns(s, other, op, s');
    }
  }

  lemma RunsOnward(hash: Revision -> Id, run: seq<System>, tid: nat, j: nat)
    requires IsRun(hash, run) && 0 < j < |run|
    ensures Onward(hash, run[j - 1], run[j], tid)
  {
    var i := j - 1;
    RunKeepsInv(hash, run, i);
    StepsOnward(hash, run[i], run[j], tid);
  }

  lemma {:induction false} CommitIsKnown(hash: Revision -> Id, run: seq<System>, tid: nat, i: nat, j: nat, b: Branch, spec: Json, message: nat)
    requires IsRun(hash, run) && i <= j < |run| && tid in run[i].tasks && run[i].tasks[tid] == Start(Commit(b, spec, message))
    ensures tid in run[j].tasks && KnowsCommit(run[j], run[j].tasks[tid], b, spec, message)
    decreases j
  {
    if i < j {
      CommitIsKnown(hash, run, tid, i, j - 1, b, spec, message);
      RunsOnward(hash, run, tid, j);
      CommitMoves(hash, run[j - 1], run[j], tid, b, spec, message);
    }
  }

  lemma CommitMoves(hash: Revision -> Id, s: System, s': System, tid: nat, b: Branch, spec: Json, message: nat)
    requires Onward(hash, s, s', tid) && tid in s.tasks && KnowsCommit(s, s.tasks[tid], b, spec, message)
    ensures tid in s'.tasks && KnowsCommit(s', s'.tasks[tid], b, spec, message)
  {
    var t, t' := s.tasks[tid], s'.tasks[tid];
    if t' == t {
      CommitStays(s, s', t', b, spec, message);
    } else {
      CommitStep(hash, s, s'.(tasks := s.tasks), t, t', b, spec, message);
      CommitStays(s'.(tasks := s.tasks), s', t', b, spec, message);
    }
  }

  lemma {:induction false} MergeIsKnown(hash: Revision -> Id, run: seq<System>, tid: nat, i: nat, j: nat, source: Branch, target: Branch, message: nat)
    requires IsRun(hash, run) && i <= j < |run| && tid in run[i].tasks && run[i].tasks[tid] == Start(MergeInto(source, target, message))
    ensures tid in run[j].tasks && KnowsMerge(run[j], run[j].tasks[tid], target, message)
    decreases j
  {
    if i < j {
      MergeIsKnown(hash, run, tid, i, j - 1, source, target, message);
      RunsOnward(hash, run, tid, j);
      MergeMoves(hash, run[j - 1], run[j], tid, target, message);
    }
  }

  lemma MergeMoves(hash: Revision -> Id, s: System, s': System, tid: nat, target: Branch, message: nat)
    requires Onward(hash, s, s', tid) && tid in s.tasks && KnowsMerge(s, s.tasks[tid], target, message)
    ensures tid in s'.tasks && KnowsMerge(s', s'.tasks[tid], target, message)
  {
    var t, t' := s.tasks[tid], s'.tasks[tid];
    if t' == t {
      MergeStays(s, s', t', target, message);
    } else {
      MergeStep(hash, s, s'.(tasks := s.tasks), t, t', target, message);
      MergeStays(s'.(tasks := s.tasks), s', t', target, message);
    }
  }

  /** The commit that a task was started with is what is stored once it is done. */
  lemma CommitRecordsSpec(hash: Revision -> Id, run: seq<System>, tid: nat, i: nat, j: nat, b: Branch, spec: Json, message: nat)
    requires IsRun(hash, run) && i <= j < |run| && tid in run[i].tasks && run[i].tasks[tid] == Start(Commit(b, spec, message))
    requires tid in run[j].tasks && run[j].tasks[tid].Done?
    ensures var id := run[j].tasks[tid].id;
            id in run[j].objects && run[j].objects[id].spec == spec && run[j].objects[id].message == message && run[j].objects[id].agent == b.agent
  {
    CommitIsKnown(hash, run, tid, i, j, b, spec, message);
    var id := run[j].tasks[tid].id;
    var parents :| Records(run[j], id, b.agent, spec, message, parents);
  }

  /** So is a merge's message, for the target's agent. */
  lemma MergeRecordsMessage(hash: Revision -> Id, run: seq<System>, tid: nat, i: nat, j: nat, source: Branch, target: Branch, message: nat)
    requires IsRun(hash, run) && i <= j < |run| && tid in run[i].tasks && run[i].tasks[tid] == Start(MergeInto(source, target, message))
    requires tid in run[j].tasks && run[j].tasks[tid].Done?
    ensures var id := run[j].tasks[tid].id;
            id in run[j].objects && run[j].objects[id].message == message && run[j].objects[id].agent == target.agent
  {
    MergeIsKnown(hash, run, tid, i, j, source, target, message);
    var id := run[j].tasks[tid].id;
    var spec :| RecordsSpec(run[j], id, target.agent, spec, message);
    var parents :| Records(run[j], id, target.agent, spec, message, parents);
  }

  /** A merge is prepared exactly if the two heads have a merge base and no conflicts over it. */
  lemma PreparedIffClean(s: System, t: Task, t': Task, base: Id)
    requires t.MergeHeads? && t.ours in s.objects && t.theirs in s.objects && IsStoredBase(s, t.ours, t.theirs, base) && PrepareStep(s, t, t')
    ensures var b, o, u := Some(s.objects[base].spec), Some(s.objects[t.ours].spec), Some(s.objects[t.theirs].spec);
            && (t'.MergeReady? || t'.Failed?) && (t'.MergeReady? <==> Conflicts(b, o, u, "$") == [])
            && (t'.MergeReady? ==> t'.merge.ours == t.ours && t'.merge.theirs == t.theirs && t'.merge.base == base
                                   && Merged(b, o, u) == Some(t'.merge.spec))
  {
    var other :| IsStoredBase(s, t.ours, t.theirs, other) && PreparesOver(s, t, other, t');
    OnlyMergeBase(s.objects, t.ours, t.theirs, base, other);
    var b, o, u := s.objects[base].spec, s.objects[t.ours].spec, s.objects[t.theirs].spec;
    if Conflicts(Some(b), Some(o), Some(u), "$") == [] {
      CleanMergeKeepsDocument(b, o, u, "$");
      assert CleanMerge(b, o, u, Merged(Some(b), Some(o), Some(u)).value);
    }
  }

  // --- Branch heads --------------------------------------------------------------------------------------------

  /** No head but this branch's changed. */
  ghost predicate OnlyMoves(s: System, s': System, b: Branch) {
    forall c :: c != b ==> Head(s', c) == Head(s, c)
  }

  /** A commit lands if its branch still has the head that it read, on top of that one, and fails otherwise. */
  lemma CommitLands(hash: Revision -> Id, s: System, tid: nat, s': System)
    requires Inv(s) && Moves(hash, s, tid, s') && s.tasks[tid].Saved? && s.tasks[tid].merged.None?
    ensures var t := s.tasks[tid];
            && t.id in s'.objects && s'.objects[t.id].parents == (if t.head.None? then [] else [t.head.value])
            && OnlyMoves(s, s', t.branch) && s'.objects == s.objects
            && (if Head(s, t.branch) == t.head then Head(s', t.branch) == Some(t.id) && s'.tasks[tid] == Done(t.id)
                else s'.heads == s.heads && s'.tasks[tid] == Failed)
  {
    assert TaskOk(s, s.tasks[tid]);
  }

  /** A new branch starts at the source head that was read, if there still is no such branch. */
  lemma BranchLands(hash: Revision -> Id, s: System, tid: nat, s': System)
    requires Moves(hash, s, tid, s') && s.tasks[tid].BranchFree?
    ensures var t := s.tasks[tid];
            && OnlyMoves(s, s', t.branch) && s'.objects == s.objects
            && (if Head(s, t.branch).None? then Head(s', t.branch) == Some(t.id) && s'.tasks[tid] == Done(t.id)
                else s'.heads == s.heads && s'.tasks[tid] == Failed)
  {
  }

  /** A step that is no landing moves no head, and a failed task never does. */
  lemma OthersMoveNothing(hash: Revision -> Id, s: System, tid: nat, s': System)
    requires Moves(hash, s, tid, s') && !s'.tasks[tid].Done?
    ensures s'.heads == s.heads
  {
    match s.tasks[tid]
    case Start(op) =>
    case _ =>
  }

  /** What a task still knows of a new branch. */
  ghost predicate KnowsBranch(run: seq<System>, i: nat, j: nat, t: Task, source: Branch, target: Branch) {
    match t
    case Start(op) => op == CreateBranch(source, target)
    case BranchRead(b, id) => b == target && WasHead(run, i, j, source, id)
    case BranchFree(b, id) => b == target && WasHead(run, i, j, source, id)
    case Done(id) => WasHead(run, i, j, source, id)
    case Failed => true
    case _ => false
  }

  ghost predicate WasHead(run: seq<System>, i: nat, j: nat, b: Branch, id: Id) {
    exists k :: i <= k <= j && k < |run| && Head(run[k], b) == Some(id)
  }

  lemma {:induction false} NewBranchHasHead(hash: Revision -> Id, run: seq<System>, tid: nat, i: nat, j: nat, source: Branch, target: Branch)
    requires IsRun(hash, run) && i <= j < |run| && tid in run[i].tasks && run[i].tasks[tid] == Start(CreateBranch(source, target))
    ensures tid in run[j].tasks && KnowsBranch(run, i, j, run[j].tasks[tid], source, target)
    decreases j
  {
    if i < j {
      NewBranchHasHead(hash, run, tid, i, j - 1, source, target);
      RunsOnward(hash, run, tid, j);
      BranchMoves(hash, run, tid, i, j, source, target);
    }
  }

  lemma BranchMoves(hash: Revision -> Id, run: seq<System>, tid: nat, i: nat, j: nat, source: Branch, target: Branch)
    requires i < j < |run| && Onward(hash, run[j - 1], run[j], tid) && tid in run[j - 1].tasks
    requires KnowsBranch(run, i, j - 1, run[j - 1].tasks[tid], source, target)
    ensures tid in run[j].tasks && KnowsBranch(run, i, j, run[j].tasks[tid], source, target)
  {
    var s, t := run[j - 1], run[j - 1].tasks[tid];
    if t.Start? { assert source in s.heads ==> Head(s, source) == Some(s.heads[source]); }
  }

  /** A new branch starts at a head that its source had while the task ran. */
  lemma BranchRecordsHead(hash: Revision -> Id, run: seq<System>, tid: nat, i: nat, j: nat, source: Branch, target: Branch)
    requires IsRun(hash, run) && i <= j < |run| && tid in run[i].tasks && run[i].tasks[tid] == Start(CreateBranch(source, target))
    requires tid in run[j].tasks && run[j].tasks[tid].Done?
    ensures exists k :: i <= k <= j && Head(run[k], source) == Some(run[j].tasks[tid].id)
  {
    NewBranchHasHead(hash, run, tid, i, j, source, target);
  }
}
