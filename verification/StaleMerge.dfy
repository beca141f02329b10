/**
 * A merge that lands without being the merge of its recorded parents, as a run from the empty store: the
 * merge is prepared, another commit lands on its target, and the merge's commit reads the head again. Each
 * operation is first run in general, then put together.
 */
module StaleMerges {
  import opened Prelude
  import opened Merge
  import opened Ancestors
  import opened RevisionProtocol

  // --- Whole operations as runs --------------------------------------------------------------------------

  ghost predicate Arrives(hash: Revision -> Id, run: seq<System>, s: System) {
    IsRun(hash, run) && run[|run| - 1] == s
  }

  lemma RunMore(hash: Revision -> Id, run: seq<System>, s: System, s': System)
    requires Arrives(hash, run, s) && Next(hash, s, s')
    ensures Arrives(hash, run + [s'], s')
  {
    var more := run + [s'];
    forall i | 0 <= i < |more| - 1
      ensures Next(hash, more[i], more[i + 1])
    {
      if i < |run| - 1 {
        assert Next(hash, run[i], run[i + 1]) && more[i] == run[i] && more[i + 1] == run[i + 1];
      } else {
        assert more[i] == s && more[i + 1] == s';
      }
    }
  }

  function WithTask(s: System, tid: nat, t: Task): System {
    s.(tasks := s.tasks[tid := t])
  }

  lemma Spawn(hash: Revision -> Id, run: seq<System>, s: System, tid: nat, op: Op) returns (more: seq<System>)
    requires Arrives(hash, run, s) && tid !in s.tasks
    ensures Arrives(hash, more, WithTask(s, tid, Start(op)))
  {
    assert Spawns(s, tid, op, WithTask(s, tid, Start(op)));
    RunMore(hash, run, s, WithTask(s, tid, Start(op)));
    more := run + [WithTask(s, tid, Start(op))];
  }

  /** One store operation of task `tid`, which stood at `t` over the store of `s`. */
  lemma Move(hash: Revision -> Id, run: seq<System>, s: System, tid: nat, t: Task, s': System, t': Task) returns (more: seq<System>)
    requires Arrives(hash, run, WithTask(s, tid, t))
    requires s'.tasks == s.tasks && TaskStep(hash, WithTask(s, tid, t), t, WithTask(s', tid, t), t')
    ensures Arrives(hash, more, WithTask(s', tid, t'))
  {
    var before, after := WithTask(s, tid, t), WithTask(s', tid, t');
    assert before.tasks[tid := t'] == after.tasks;
    assert after.(tasks := before.tasks) == WithTask(s', tid, t);
    assert Moves(hash, before, tid, after);
    RunMore(hash, run, before, after);
    more := run + [after];
  }

  function Stored(s: System, id: Id, r: Revision): System {
    s.(objects := s.objects[id := r], saves := s.saves + 1, rank := s.rank[id := s.saves])
  }

  function Committed(s: System, b: Branch, id: Id, r: Revision): System {
    Stored(s, id, r).(heads := s.heads[b := id])
  }

  lemma CommitRuns(hash: Revision -> Id, run: seq<System>, s: System, tid: nat, b: Branch, spec: Json, message: nat) returns (more: seq<System>)
    requires Arrives(hash, run, s) && tid !in s.tasks && AgentOf(spec) == Some(b.agent)
    requires hash(Revision(b.agent, spec, ParentsOf(Head(s, b)), message)) !in s.objects
    ensures var r := Revision(b.agent, spec, ParentsOf(Head(s, b)), message);
            Arrives(hash, more, WithTask(Committed(s, b, hash(r), r), tid, Done(hash(r))))
  {
    var head := Head(s, b);
    var r := Revision(b.agent, spec, ParentsOf(head), message);
    var start, read, saved := Start(Commit(b, spec, message)), CommitRead(b, spec, message, head), Saved(b, head, hash(r), None);
    more := Spawn(hash, run, s, tid, Commit(b, spec, message));
    more := Move(hash, more, s, tid, start, s, read);
    more := Move(hash, more, s, tid, read, Stored(s, hash(r), r), saved);
    more := Move(hash, more, Stored(s, hash(r), r), tid, saved, Committed(s, b, hash(r), r), Done(hash(r)));
  }

  lemma BranchRuns(hash: Revision -> Id, run: seq<System>, s: System, tid: nat, source: Branch, target: Branch) returns (more: seq<System>)
    requires Arrives(hash, run, s) && tid !in s.tasks && source.agent == target.agent && source in s.heads && target !in s.heads
    ensures Arrives(hash, more, WithTask(s.(heads := s.heads[target := s.heads[source]]), tid, Done(s.heads[source])))
  {
    var id := s.heads[source];
    more := Spawn(hash, run, s, tid, CreateBranch(source, target));
    more := Move(hash, more, s, tid, Start(CreateBranch(source, target)), s, BranchRead(target, id));
    more := Move(hash, more, s, tid, BranchRead(target, id), s, BranchFree(target, id));
    more := Move(hash, more, s, tid, BranchFree(target, id), s.(heads := s.heads[target := id]), Done(id));
  }

  lemma PrepareRuns(hash: Revision -> Id, run: seq<System>, s: System, tid: nat, source: Branch, target: Branch, message: nat, m: Prepared)
      returns (more: seq<System>)
    requires Arrives(hash, run, s) && tid !in s.tasks && source.agent == target.agent
    requires source in s.heads && target in s.heads && s.heads[source] == m.theirs && s.heads[target] == m.ours && m.ours != m.theirs
    requires PreparedOk(s, m)
    ensures Arrives(hash, more, WithTask(s, tid, MergeReady(target, message, m)))
  {
    var op := MergeInto(source, target, message);
    more := Spawn(hash, run, s, tid, op);
    more := Move(hash, more, s, tid, Start(op), s, MergeSource(target, message, m.theirs));
    more := Move(hash, more, s, tid, MergeSource(target, message, m.theirs), s, MergeHeads(target, message, m.theirs, m.ours));
    Prepares(WithTask(s, tid, MergeHeads(target, message, m.theirs, m.ours)), MergeHeads(target, message, m.theirs, m.ours), m);
    more := Move(hash, more, s, tid, MergeHeads(target, message, m.theirs, m.ours), s, MergeReady(target, message, m));
  }

  lemma Prepares(s: System, t: Task, m: Prepared)
    requires t.MergeHeads? && PreparedOk(s, m) && t.ours == m.ours && t.theirs == m.theirs
    ensures PrepareStep(s, t, MergeReady(t.branch, t.message, m))
  {
    assert IsStoredBase(s, t.ours, t.theirs, m.base) && PreparesOver(s, t, m.base, MergeReady(t.branch, t.message, m));
  }

  /** A prepared merge reads the head `p` of its target, which may have moved, and lands on it. */
  lemma LandRuns(hash: Revision -> Id, run: seq<System>, s: System, tid: nat, b: Branch, message: nat, m: Prepared) returns (more: seq<System>)
    requires Arrives(hash, run, WithTask(s, tid, MergeReady(b, message, m)))
    requires b in s.heads && s.heads[b] != m.theirs && AgentOf(m.spec) == Some(b.agent)
    requires m.theirs in s.objects && s.objects[m.theirs].agent == b.agent
    requires hash(Revision(b.agent, m.spec, [s.heads[b], m.theirs], message)) !in s.objects
    ensures var r := Revision(b.agent, m.spec, [s.heads[b], m.theirs], message);
            Arrives(hash, more, WithTask(Committed(s, b, hash(r), r), tid, Done(hash(r))))
  {
    var p := s.heads[b];
    var r := Revision(b.agent, m.spec, [p, m.theirs], message);
    var saved := Saved(b, Some(p), hash(r), Some(m));
    more := Move(hash, run, s, tid, MergeReady(b, message, m), s, MergeParent(b, message, m, p));
    more := Move(hash, more, s, tid, MergeParent(b, message, m, p), Stored(s, hash(r), r), saved);
    more := Move(hash, more, Stored(s, hash(r), r), tid, saved, Committed(s, b, hash(r), r), Done(hash(r)));
  }

  // --- The run -----------------------------------------------------------------------------------------------

  // Base 0, source head 1, and commit 2 landing on the target while the merge of 0 and 1 is prepared.
  // Revision 3 is the merge's revision, with parents 2 and 1.

  const BY_MESSAGE: Revision -> Id := (r: Revision) => r.message
  const TARGET := Branch(0, 0)
  const SOURCE := Branch(0, 1)
  const BASE_DOC: Json := Doc("z")
  const SOURCE_DOC: Json := Doc("x")
  const LANDED_DOC: Json := Doc("y")
  const PREPARED := Prepared(0, 1, 0, SOURCE_DOC)

  function Doc(key: string): Json {
    Obj(map["agent_id" := Num(0), key := Num(1)])
  }

  lemma DocAgent(key: string)
    requires key != "agent_id"
    ensures AgentOf(Doc(key)) == Some(0)
  {
  }

  lemma EditOfFirstParent(b: Json, o: Json, u: Json)
    requires b == Doc("z") && o == Doc("y") && u == Doc("x")
    ensures Merged(Some(b), Some(o), Some(u)) != Some(u)
  {
    assert "y" !in b.fields && "y" in o.fields && "y" !in u.fields;
    assert "x" !in b.fields && "x" !in o.fields && "x" in u.fields;
    assert b != o && b != u && o != u;
    assert Merged(Some(b), Some(o), Some(u)).value.fields.Keys >= {"y"} by {
      assert Merged(None, Some(o.fields["y"]), None) == Some(o.fields["y"]);
    }
  }

  lemma RootDistances(objects: Objects, root: Id)
    requires root in objects && objects[root].parents == []
    ensures AreDistances(objects, root, map[root := 0])
  {
    var q := [QueueEntry(root, 0)];
    assert q[1..] + Entries([], 1) == [];
    assert Traverse(objects, map[root := 0], []) == Ok(map[root := 0]);
    assert Traverse(objects, map[], q) == Ok(map[root := 0]);
    StartSearching(objects, root);
    TraverseFinds(objects, root, map[], q);
  }

  lemma ChildDistances(objects: Objects, child: Id, root: Id)
    requires root in objects && objects[root].parents == []
    requires child in objects && objects[child].parents == [root] && child != root
    ensures AreDistances(objects, child, map[child := 0, root := 1])
  {
    RootDistances(objects, root);
    DistancesOfChild(objects, child, root, map[root := 0]);
    assert FurtherOut(map[root := 0])[child := 0] == map[child := 0, root := 1];
  }

  lemma SiblingsShareRoot(objects: Objects, x: Id, y: Id, root: Id)
    requires root in objects && objects[root].parents == []
    requires x in objects && objects[x].parents == [root] && x != root
    requires y in objects && objects[y].parents == [root] && y != root && x != y
    ensures IsMergeBase(objects, x, y, root)
  {
    ChildDistances(objects, x, root);
    ChildDistances(objects, y, root);
    assert IsBest(map[x := 0, root := 1], map[y := 0, root := 1], root);
  }

  /** With an unchanged target, the merge of 0 and 1 is the source. */
  lemma MergeIsPrepared(s: System, m: Prepared)
    requires 0 in s.objects && 1 in s.objects && s.objects[0].parents == [] && s.objects[1].parents == [0]
    requires m == Prepared(0, 1, 0, s.objects[1].spec)
    ensures PreparedOk(s, m)
  {
    RootDistances(s.objects, 0);
    ChildDistances(s.objects, 1, 0);
    assert IsBest(map[0 := 0], map[1 := 0, 0 := 1], 0);
    NothingOnOurs(s.objects[0].spec, s.objects[1].spec);
  }

  lemma NothingOnOurs(b: Json, u: Json)
    ensures CleanMerge(b, b, u, u)
  {
  }

  /** The store has a source one commit ahead of its target. */
  ghost predicate Branched(s: System) {
    && s.objects.Keys == {0, 1} && s.objects[0] == Revision(0, BASE_DOC, [], 0) && s.objects[1] == Revision(0, SOURCE_DOC, [0], 1)
    && TARGET in s.heads && s.heads[TARGET] == 0 && SOURCE in s.heads && s.heads[SOURCE] == 1
    && s.tasks.Keys == {1, 2, 3}
  }

  lemma RunToBranched() returns (run: seq<System>, s: System)
    ensures Arrives(BY_MESSAGE, run, s) && Branched(s)
  {
    DocAgent("z");
    DocAgent("x");
    assert Arrives(BY_MESSAGE, [EMPTY], EMPTY);
    run := CommitRuns(BY_MESSAGE, [EMPTY], EMPTY, 1, TARGET, BASE_DOC, 0);
    s := WithTask(Committed(EMPTY, TARGET, 0, Revision(0, BASE_DOC, [], 0)), 1, Done(0));
    run := BranchRuns(BY_MESSAGE, run, s, 2, TARGET, SOURCE);
    s := WithTask(s.(heads := s.heads[SOURCE := 0]), 2, Done(0));
    run := CommitRuns(BY_MESSAGE, run, s, 3, SOURCE, SOURCE_DOC, 1);
    s := WithTask(Committed(s, SOURCE, 1, Revision(0, SOURCE_DOC, [0], 1)), 3, Done(1));
  }

  lemma RunToPrepared() returns (run: seq<System>, s: System)
    ensures Arrives(BY_MESSAGE, run, WithTask(s, 0, MergeReady(TARGET, 3, PREPARED))) && Branched(s)
  {
    run, s := RunToBranched();
    run := PrepareBranched(run, s);
  }

  lemma PrepareBranched(run: seq<System>, s: System) returns (more: seq<System>)
    requires Branched(s) && Arrives(BY_MESSAGE, run, s)
    ensures Arrives(BY_MESSAGE, more, WithTask(s, 0, MergeReady(TARGET, 3, PREPARED)))
  {
    more := PrepareFirst(run, s, PREPARED);
  }

  lemma PrepareFirst(run: seq<System>, s: System, m: Prepared) returns (more: seq<System>)
    requires Arrives(BY_MESSAGE, run, s) && 0 !in s.tasks
    requires TARGET in s.heads && s.heads[TARGET] == 0 && SOURCE in s.heads && s.heads[SOURCE] == 1
    requires 0 in s.objects && 1 in s.objects && s.objects[0].parents == [] && s.objects[1].parents == [0]
    requires m == Prepared(0, 1, 0, s.objects[1].spec)
    ensures Arrives(BY_MESSAGE, more, WithTask(s, 0, MergeReady(TARGET, 3, m)))
  {
    MergeIsPrepared(s, m);
    more := PrepareRuns(BY_MESSAGE, run, s, 0, SOURCE, TARGET, 3, m);
  }

  /** The merge is prepared, and a commit has landed on its target. */
  ghost predicate Overtaken(s: System) {
    && s.objects.Keys == {0, 1, 2} && s.objects[0] == Revision(0, BASE_DOC, [], 0)
    && s.objects[1] == Revision(0, SOURCE_DOC, [0], 1) && s.objects[2] == Revision(0, LANDED_DOC, [0], 2)
    && TARGET in s.heads && s.heads[TARGET] == 2
    && 0 in s.tasks && s.tasks[0] == MergeReady(TARGET, 3, PREPARED)
  }

  lemma RunToOvertaken() returns (run: seq<System>, s: System)
    ensures Arrives(BY_MESSAGE, run, s) && Overtaken(s)
  {
    run, s := RunToPrepared();
    DocAgent("y");
    run := Overtake(run, s, WithTask(s, 0, MergeReady(TARGET, 3, PREPARED)));
    s := WithTask(Committed(WithTask(s, 0, MergeReady(TARGET, 3, PREPARED)), TARGET, 2, Revision(0, LANDED_DOC, [0], 2)), 4, Done(2));
  }

  lemma Overtake(run: seq<System>, s: System, ready: System) returns (more: seq<System>)
    requires Branched(s) && ready == WithTask(s, 0, MergeReady(TARGET, 3, PREPARED)) && Arrives(BY_MESSAGE, run, ready)
    requires AgentOf(LANDED_DOC) == Some(0)
    ensures Arrives(BY_MESSAGE, more, WithTask(Committed(ready, TARGET, 2, Revision(0, LANDED_DOC, [0], 2)), 4, Done(2)))
  {
    assert Head(ready, TARGET) == Some(0);
    more := CommitRuns(BY_MESSAGE, run, ready, 4, TARGET, LANDED_DOC, 2);
  }

  /** The merge lands on the moved head, and its specification is not the merge of its recorded parents. */
  lemma StaleMergeLosesEdit() returns (run: seq<System>, s: System)
    ensures IsRun(BY_MESSAGE, run) && run[|run| - 1] == s
    ensures Head(s, TARGET) == Some(3) && 0 in s.tasks && s.tasks[0] == Done(3)
    ensures 3 in s.objects && s.objects[3].parents == [2, 1] && !IsMergeOfParents(s, 3)
  {
    run, s := RunToOvertaken();
    DocAgent("x");
    assert WithTask(s, 0, s.tasks[0]) == s;
    run := LandRuns(BY_MESSAGE, run, s, 0, TARGET, 3, PREPARED);
    s := WithTask(Committed(s, TARGET, 3, Revision(0, SOURCE_DOC, [2, 1], 3)), 0, Done(3));
    NotTheMerge(s);
  }

  lemma NotTheMerge(s: System)
    requires {0, 1, 2, 3} <= s.objects.Keys && s.objects[0] == Revision(0, BASE_DOC, [], 0)
    requires s.objects[1] == Revision(0, SOURCE_DOC, [0], 1) && s.objects[2] == Revision(0, LANDED_DOC, [0], 2)
    requires s.objects[3] == Revision(0, SOURCE_DOC, [2, 1], 3)
    ensures !IsMergeOfParents(s, 3)
  {
    SiblingsShareRoot(s.objects, 2, 1, 0);
    ParentsOverBase(s, 3, 2, PREPARED);
    EditOfFirstParent(BASE_DOC, LANDED_DOC, SOURCE_DOC);
  }
}
