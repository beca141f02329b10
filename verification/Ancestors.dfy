/**
 * Ancestor distances in the revision graph and the choice of a merge base.
 *
 * Revision ids are opaque; only equality and order matter, so they are natural numbers here.
 */
module Ancestors {
  import opened Prelude
  import opened Merge

  type Id = nat

  datatype Revision = Revision(agent: nat, spec: Json, parents: seq<Id>, message: nat)

  type Objects = map<Id, Revision>

  datatype QueueEntry = QueueEntry(id: Id, distance: nat)

  /** The revisions that some chain of exactly `n` parent links leads to. */
  ghost function Level(objects: Objects, start: Id, n: nat): set<Id> {
    if n == 0 then {start}
    else set id, p | id in Level(objects, start, n - 1) && id in objects && p in objects[id].parents :: p
  }

  ghost predicate IsAncestor(objects: Objects, start: Id, id: Id) {
    exists n: nat :: id in Level(objects, start, n)
  }

  /** `d` is the length of a shortest parent path from `start` to `id`. */
  ghost predicate IsDistance(objects: Objects, start: Id, id: Id, d: nat) {
    id in Level(objects, start, d) && forall m: nat :: m < d ==> id !in Level(objects, start, m)
  }

  /** The distance map of a complete traversal. */
  ghost predicate AreDistances(objects: Objects, start: Id, distances: map<Id, nat>) {
    && (forall id :: id in distances <==> IsAncestor(objects, start, id))
    && (forall id :: id in distances ==> id in objects && IsDistance(objects, start, id, distances[id]))
  }

  /** Every visited revision has each parent visited or waiting one step further out. */
  ghost predicate Frontier(objects: Objects, start: Id, distances: map<Id, nat>, queue: seq<QueueEntry>) {
    && (start in distances || QueueEntry(start, 0) in queue)
    && (forall id, p :: id in distances && id in objects && p in objects[id].parents ==>
          p in distances || QueueEntry(p, distances[id] + 1) in queue)
  }

  ghost predicate Sorted(queue: seq<QueueEntry>) {
    forall i, j :: 0 <= i < j < |queue| ==> queue[i].distance <= queue[j].distance <= queue[0].distance + 1
  }

  ghost predicate Visited(objects: Objects, start: Id, distances: map<Id, nat>) {
    forall id :: id in distances ==> id in objects && IsDistance(objects, start, id, distances[id])
  }

  /** Everything nearer than the head of the queue has been visited; all of it, once the queue is empty. */
  lemma {:induction false} NearerIsVisited(objects: Objects, start: Id, distances: map<Id, nat>, queue: seq<QueueEntry>, m: nat)
    requires Visited(objects, start, distances) && Frontier(objects, start, distances, queue)
    requires forall e :: e in queue ==> m < e.distance
    ensures Level(objects, start, m) <= distances.Keys
    decreases m
  {
    if m > 0 {
      NearerIsVisited(objects, start, distances, queue, m - 1);
      forall x | x in Level(objects, start, m)
        ensures x in distances
      {
        var y :| y in Level(objects, start, m - 1) && y in objects && x in objects[y].parents;
        assert distances[y] <= m - 1;
        var e := QueueEntry(x, distances[y] + 1);
        assert x in distances || e in queue;
      }
    }
  }

  /** What the traversal keeps true between two visits. */
  ghost predicate Searching(objects: Objects, start: Id, distances: map<Id, nat>, queue: seq<QueueEntry>) {
    && Visited(objects, start, distances)
    && Frontier(objects, start, distances, queue)
    && Sorted(queue)
    && (forall e :: e in queue ==> e.id in Level(objects, start, e.distance))
    && (forall id, e :: id in distances && e in queue ==> distances[id] <= e.distance)
  }

  function Entries(parents: seq<Id>, distance: nat): (r: seq<QueueEntry>)
    ensures forall p :: p in parents ==> QueueEntry(p, distance) in r
    ensures forall e :: e in r ==> e.distance == distance && e.id in parents
  {
    if parents == [] then []
    else Entries(parents[..|parents| - 1], distance) + [QueueEntry(parents[|parents| - 1], distance)]
  }

  lemma StartSearching(objects: Objects, start: Id)
    ensures Searching(objects, start, map[], [QueueEntry(start, 0)])
  {
  }

  lemma QueuedIsAncestor(objects: Objects, start: Id, distances: map<Id, nat>, queue: seq<QueueEntry>)
    requires Searching(objects, start, distances, queue) && queue != []
    ensures IsAncestor(objects, start, queue[0].id)
  {
    assert queue[0] in queue;
  }

  lemma SkipVisited(objects: Objects, start: Id, distances: map<Id, nat>, queue: seq<QueueEntry>)
    requires Searching(objects, start, distances, queue) && queue != [] && queue[0].id in distances
    ensures Searching(objects, start, distances, queue[1..])
  {
    assert forall e :: e in queue ==> e == queue[0] || e in queue[1..];
    assert forall e :: e in queue[1..] ==> e in queue;
    var q := queue[1..];
    forall i, j | 0 <= i < j < |q|
      ensures q[i].distance <= q[j].distance <= q[0].distance + 1
    {
      assert queue[0].distance <= queue[1].distance;
    }
  }

  lemma FirstVisitIsShortest(objects: Objects, start: Id, distances: map<Id, nat>, queue: seq<QueueEntry>)
    requires Searching(objects, start, distances, queue) && queue != [] && queue[0].id !in distances
    ensures IsDistance(objects, start, queue[0].id, queue[0].distance)
  {
    forall m: nat | m < queue[0].distance
      ensures queue[0].id !in Level(objects, start, m)
    {
      NearerIsVisited(objects, start, distances, queue, m);
    }
    assert queue[0] in queue;
  }

  lemma PushKeepsSorted(queue: seq<QueueEntry>, pushed: seq<QueueEntry>)
    requires Sorted(queue) && queue != []
    requires forall e :: e in pushed ==> e.distance == queue[0].distance + 1
    ensures Sorted(queue[1..] + pushed)
  {
    var q, d := queue[1..] + pushed, queue[0].distance;
    forall k | 0 <= k < |q|
      ensures d <= q[k].distance <= d + 1
      ensures k >= |queue| - 1 ==> q[k].distance == d + 1
      ensures k < |queue| - 1 ==> q[k] == queue[k + 1]
    {
      if k >= |queue| - 1 { assert q[k] in pushed; }
    }
  }

  lemma VisitIsDistance(objects: Objects, start: Id, distances: map<Id, nat>, queue: seq<QueueEntry>)
    requires Searching(objects, start, distances, queue) && queue != []
    requires queue[0].id !in distances && queue[0].id in objects
    ensures Visited(objects, start, distances[queue[0].id := queue[0].distance])
  {
    FirstVisitIsShortest(objects, start, distances, queue);
  }

  lemma PushKeepsFrontier(objects: Objects, start: Id, before: map<Id, nat>, queue: seq<QueueEntry>, q: seq<QueueEntry>)
    requires Frontier(objects, start, before, queue) && queue != []
    requires queue[0].id !in before && queue[0].id in objects
    requires forall e :: e in queue[1..] ==> e in q
    requires forall p :: p in objects[queue[0].id].parents ==> QueueEntry(p, queue[0].distance + 1) in q
    ensures Frontier(objects, start, before[queue[0].id := queue[0].distance], q)
  {
    assert forall e :: e in queue ==> e == queue[0] || e in queue[1..];
  }

  lemma PushedAreNext(objects: Objects, start: Id, queue: seq<QueueEntry>, q: seq<QueueEntry>)
    requires queue != [] && queue[0].id in objects && Sorted(queue)
    requires forall e :: e in queue ==> e.id in Level(objects, start, e.distance)
    requires q == queue[1..] + Entries(objects[queue[0].id].parents, queue[0].distance + 1)
    ensures forall e :: e in q ==> e.id in Level(objects, start, e.distance) && queue[0].distance <= e.distance
  {
    var QueueEntry(id, d) := queue[0];
    var pushed := Entries(objects[id].parents, d + 1);
    assert queue[0] in queue;
    forall e | e in q
      ensures e.id in Level(objects, start, e.distance) && d <= e.distance
    {
      if e in pushed {
        assert id in Level(objects, start, d) && e.id in Level(objects, start, d + 1);
      } else {
        assert e in queue[1..] && e in queue;
      }
    }
  }

  lemma VisitNext(objects: Objects, start: Id, distances: map<Id, nat>, queue: seq<QueueEntry>, q: seq<QueueEntry>)
    requires Searching(objects, start, distances, queue) && queue != []
    requires queue[0].id !in distances && queue[0].id in objects
    requires q == queue[1..] + Entries(objects[queue[0].id].parents, queue[0].distance + 1)
    ensures Searching(objects, start, distances[queue[0].id := queue[0].distance], q)
  {
    PushedAreNext(objects, start, queue, q);
    VisitIsDistance(objects, start, distances, queue);
    PushKeepsSorted(queue, Entries(objects[queue[0].id].parents, queue[0].distance + 1));
    PushKeepsFrontier(objects, start, distances, queue, q);
    forall id, e | id in distances && e in q
      ensures distances[id] <= e.distance
    {
      assert queue[0] in queue;
    }
  }

  lemma EverythingVisited(objects: Objects, start: Id, distances: map<Id, nat>)
    requires Searching(objects, start, distances, [])
    ensures AreDistances(objects, start, distances)
  {
    forall id | IsAncestor(objects, start, id)
      ensures id in distances
    {
      var n: nat :| id in Level(objects, start, n);
      NearerIsVisited(objects, start, distances, [], n);
    }
  }

  method PushParents(queue: seq<QueueEntry>, parents: seq<Id>, distance: nat) returns (q: seq<QueueEntry>)
    ensures q == queue + Entries(parents, distance)
  {
    q := queue;
    for i := 0 to |parents|
      invariant q == queue + Entries(parents[..i], distance)
    {
      assert parents[..i + 1][..i] == parents[..i];
      q := q + [QueueEntry(parents[i], distance)];
    }
    assert parents[..|parents|] == parents;
  }

  /** Breadth-first traversal of the parent links, one visit per revision; fails on a missing revision. */
  function Traverse(objects: Objects, distances: map<Id, nat>, queue: seq<QueueEntry>): Result<map<Id, nat>, Id>
    decreases objects.Keys - distances.Keys, |queue|
  {
    if queue == [] then Ok(distances)
    else if queue[0].id in distances then Traverse(objects, distances, queue[1..])
    else if queue[0].id !in objects then Err(queue[0].id)
    else
      var QueueEntry(id, distance) := queue[0];
      assert id in objects.Keys - distances.Keys;
      Traverse(objects, distances[id := distance], queue[1..] + Entries(objects[id].parents, distance + 1))
  }

  lemma {:induction false} TraverseFinds(objects: Objects, start: Id, distances: map<Id, nat>, queue: seq<QueueEntry>)
    requires Searching(objects, start, distances, queue)
    ensures var r := Traverse(objects, distances, queue);
            match r
            case Ok(found) => AreDistances(objects, start, found)
            case Err(missing) => IsAncestor(objects, start, missing) && missing !in objects
    decreases objects.Keys - distances.Keys, |queue|
  {
    if queue == [] {
      EverythingVisited(objects, start, distances);
    } else if queue[0].id in distances {
      SkipVisited(objects, start, distances, queue);
      TraverseFinds(objects, start, distances, queue[1..]);
    } else if queue[0].id !in objects {
      QueuedIsAncestor(objects, start, distances, queue);
    } else {
      TraverseVisit(objects, start, distances, queue);
      var rest := queue[1..] + Entries(objects[queue[0].id].parents, queue[0].distance + 1);
      TraverseFinds(objects, start, distances[queue[0].id := queue[0].distance], rest);
    }
  }

  lemma TraverseVisit(objects: Objects, start: Id, distances: map<Id, nat>, queue: seq<QueueEntry>)
    requires Searching(objects, start, distances, queue) && queue != []
    requires queue[0].id !in distances && queue[0].id in objects
    ensures var rest := queue[1..] + Entries(objects[queue[0].id].parents, queue[0].distance + 1);
            var distances' := distances[queue[0].id := queue[0].distance];
            && Searching(objects, start, distances', rest)
            && Traverse(objects, distances, queue) == Traverse(objects, distances', rest)
            && objects.Keys - distances'.Keys < objects.Keys - distances.Keys
  {
    assert queue[0].id in objects.Keys - distances.Keys;
    VisitNext(objects, start, distances, queue, queue[1..] + Entries(objects[queue[0].id].parents, queue[0].distance + 1));
  }

  method CollectAncestors(objects: Objects, start: Id) returns (r: Result<map<Id, nat>, Id>)
    ensures r.Ok? ==> AreDistances(objects, start, r.value)
    ensures r.Err? ==> IsAncestor(objects, start, r.error) && r.error !in objects
  {
    var distances: map<Id, nat> := map[];
    var queue := [QueueEntry(start, 0)];
    ghost var result := Traverse(objects, distances, queue);
    while queue != []
      invariant Traverse(objects, distances, queue) == result
      decreases objects.Keys - distances.Keys, |queue|
    {
      var QueueEntry(id, distance) := queue[0];
      queue := queue[1..];
      if id in distances {
        continue;
      }
      if id !in objects {
        StartSearching(objects, start);
        TraverseFinds(objects, start, map[], [QueueEntry(start, 0)]);
        return Err(id);
      }
      assert id in objects.Keys - distances.Keys;
      distances := distances[id := distance];
      queue := PushParents(queue, objects[id].parents, distance + 1);
    }
    StartSearching(objects, start);
    TraverseFinds(objects, start, map[], [QueueEntry(start, 0)]);
    r := Ok(distances);
  }

  // --- The merge base -----------------------------------------------------------------------

  predicate Better(sum: nat, id: Id, sum': nat, id': Id) {
    sum < sum' || (sum == sum' && id <= id')
  }

  /** The common ancestor with the least sum of distances, ties broken by id. */
  ghost predicate IsBest(a: map<Id, nat>, b: map<Id, nat>, id: Id) {
    && id in a && id in b
    && forall j :: j in a && j in b ==> a[id] + b[id] < a[j] + b[j] || (a[id] + b[id] == a[j] + b[j] && id <= j)
  }

  /** Scans the ancestors of `ours` in the given order and keeps the least `(sum, id)`. */
  function ChooseMergeBase(order: seq<Id>, a: map<Id, nat>, b: map<Id, nat>): (r: Option<Id>)
    requires forall id :: id in order ==> id in a
    ensures r.None? <==> forall id :: id in order ==> id !in b
    ensures r.Some? ==> r.value in order && r.value in b
    ensures r.Some? ==> forall j :: j in order && j in b ==>
              a[r.value] + b[r.value] < a[j] + b[j] || (a[r.value] + b[r.value] == a[j] + b[j] && r.value <= j)
  {
    if order == [] then None
    else
      var id, rest := order[0], ChooseMergeBase(order[1..], a, b);
      if id !in b || (rest.Some? && Better(a[rest.value] + b[rest.value], rest.value, a[id] + b[id], id)) then rest
      else Some(id)
  }

  /** The choice depends on neither the scan order nor on which head is called `ours`. */
  lemma BestIsSymmetric(a: map<Id, nat>, b: map<Id, nat>, x: Id, y: Id)
    requires IsBest(a, b, x) && IsBest(b, a, y)
    ensures x == y
  {
    assert a[x] + b[x] <= a[y] + b[y] && b[y] + a[y] <= b[x] + a[x];
  }

  /** `base` minimises the summed distance from the two heads over all common ancestors. */
  ghost predicate IsMergeBase(objects: Objects, ours: Id, theirs: Id, base: Id) {
    exists a, b :: AreDistances(objects, ours, a) && AreDistances(objects, theirs, b) && IsBest(a, b, base)
  }

  lemma DistancesUnique(objects: Objects, start: Id, a: map<Id, nat>, b: map<Id, nat>)
    requires AreDistances(objects, start, a) && AreDistances(objects, start, b)
    ensures a == b
  {
    forall id | id in a
      ensures id in b && a[id] == b[id]
    {
      assert IsAncestor(objects, start, id);
      assert IsDistance(objects, start, id, a[id]) && IsDistance(objects, start, id, b[id]);
    }
    forall id | id in b
      ensures id in a
    {
      assert IsAncestor(objects, start, id);
    }
  }

  lemma MergeBaseSymmetric(objects: Objects, ours: Id, theirs: Id, x: Id, y: Id)
    requires IsMergeBase(objects, ours, theirs, x) && IsMergeBase(objects, theirs, ours, y)
    ensures x == y
  {
    var a, b :| AreDistances(objects, ours, a) && AreDistances(objects, theirs, b) && IsBest(a, b, x);
    var c, d :| AreDistances(objects, theirs, c) && AreDistances(objects, ours, d) && IsBest(c, d, y);
    DistancesUnique(objects, ours, a, d);
    DistancesUnique(objects, theirs, b, c);
    BestIsSymmetric(a, b, x, y);
  }

  // --- Commits and the merge base -------------------------------------------------------------------

  lemma NextLevel(objects: Objects, start: Id, n: nat, x: Id)
    ensures x in Level(objects, start, n + 1) <==> exists id :: id in Level(objects, start, n) && id in objects && x in objects[id].parents
  {
    assert n + 1 - 1 == n;
  }

  lemma {:induction false} LevelOfChild(objects: Objects, child: Id, parent: Id, n: nat)
    requires child in objects && objects[child].parents == [parent]
    ensures Level(objects, child, n + 1) == Level(objects, parent, n)
    decreases n
  {
    if n > 0 {
      LevelOfChild(objects, child, parent, n - 1);
    } else {
      forall x
        ensures x in Level(objects, child, 1) <==> x == parent
      {
        NextLevel(objects, child, 0, x);
        assert child in Level(objects, child, 0) && [parent][0] in objects[child].parents;
      }
    }
  }

  function FurtherOut(a: map<Id, nat>): map<Id, nat> {
    map id | id in a :: a[id] + 1
  }

  /** From a revision with one parent everything is one step further away than from the parent. */
  lemma DistancesOfChild(objects: Objects, child: Id, parent: Id, a: map<Id, nat>)
    requires child in objects && objects[child].parents == [parent]
    requires AreDistances(objects, parent, a) && child !in a
    ensures AreDistances(objects, child, FurtherOut(a)[child := 0])
  {
    forall id
      ensures id in FurtherOut(a)[child := 0] <==> IsAncestor(objects, child, id)
      ensures id in FurtherOut(a)[child := 0] ==> id in objects && IsDistance(objects, child, id, FurtherOut(a)[child := 0][id])
    {
      DistanceAt(objects, parent, a, id);
      ChildDistanceAt(objects, child, parent, a, id);
    }
  }

  lemma ChildDistanceAt(objects: Objects, child: Id, parent: Id, a: map<Id, nat>, id: Id)
    requires child in objects && objects[child].parents == [parent] && child !in a
    requires id in a <==> IsAncestor(objects, parent, id)
    requires id in a ==> id in objects && IsDistance(objects, parent, id, a[id])
    ensures var all := FurtherOut(a)[child := 0];
            (id in all <==> IsAncestor(objects, child, id)) && (id in all ==> id in objects && IsDistance(objects, child, id, all[id]))
  {
    AncestorOfChild(objects, child, parent, id);
    if id == child {
      assert id in Level(objects, child, 0);
    } else if id in a {
      DistanceOfChild(objects, child, parent, id, a[id]);
    }
  }

  lemma DistanceAt(objects: Objects, start: Id, a: map<Id, nat>, id: Id)
    requires AreDistances(objects, start, a)
    ensures id in a <==> IsAncestor(objects, start, id)
    ensures id in a ==> id in objects && IsDistance(objects, start, id, a[id])
  {
  }

  lemma AncestorOfChild(objects: Objects, child: Id, parent: Id, id: Id)
    requires child in objects && objects[child].parents == [parent]
    ensures IsAncestor(objects, child, id) <==> id == child || IsAncestor(objects, parent, id)
  {
    assert id == child ==> id in Level(objects, child, 0);
    if n: nat :| id in Level(objects, child, n) {
      if n > 0 { LevelOfChild(objects, child, parent, n - 1); }
    }
    if n: nat :| id in Level(objects, parent, n) {
      LevelOfChild(objects, child, parent, n);
      assert id in Level(objects, child, n + 1);
    }
  }

  lemma DistanceOfChild(objects: Objects, child: Id, parent: Id, id: Id, d: nat)
    requires child in objects && objects[child].parents == [parent] && id != child && IsDistance(objects, parent, id, d)
    ensures IsDistance(objects, child, id, d + 1)
  {
    LevelOfChild(objects, child, parent, d);
    forall m: nat | m < d + 1
      ensures id !in Level(objects, child, m)
    {
      if m > 0 { LevelOfChild(objects, child, parent, m - 1); }
    }
  }

  /** The new revision is no better a base than the old base. */
  ghost predicate NoBetterBase(objects: Objects, child: Id, ours: Id, theirs: Id, base: Id) {
    exists a, b :: AreDistances(objects, ours, a) && AreDistances(objects, theirs, b) && StaysBest(a, b, child, base)
  }

  ghost predicate StaysBest(a: map<Id, nat>, b: map<Id, nat>, child: Id, base: Id) {
    base in a && base in b && (child in b ==> a[base] + 1 + b[base] < b[child] || (a[base] + 1 + b[base] == b[child] && base <= child))
  }

  lemma BestIsBase(objects: Objects, ours: Id, theirs: Id, a: map<Id, nat>, b: map<Id, nat>, base: Id)
    requires AreDistances(objects, ours, a) && AreDistances(objects, theirs, b)
    ensures IsMergeBase(objects, ours, theirs, base) <==> IsBest(a, b, base)
  {
    if IsMergeBase(objects, ours, theirs, base) {
      var c, d :| AreDistances(objects, ours, c) && AreDistances(objects, theirs, d) && IsBest(c, d, base);
      DistancesUnique(objects, ours, a, c);
      DistancesUnique(objects, theirs, b, d);
    }
  }

  lemma StaysBestIsNoBetter(objects: Objects, child: Id, ours: Id, theirs: Id, a: map<Id, nat>, b: map<Id, nat>, base: Id)
    requires AreDistances(objects, ours, a) && AreDistances(objects, theirs, b)
    ensures NoBetterBase(objects, child, ours, theirs, base) <==> StaysBest(a, b, child, base)
  {
    if NoBetterBase(objects, child, ours, theirs, base) {
      var c, d :| AreDistances(objects, ours, c) && AreDistances(objects, theirs, d) && StaysBest(c, d, child, base);
      DistancesUnique(objects, ours, a, c);
      DistancesUnique(objects, theirs, b, d);
    }
  }

  /**
   * A commit on top of a head keeps the merge base with another head exactly if the new revision is no better
   * base itself. When it is no ancestor of the other head, it cannot be.
   */
  lemma BaseAfterCommit(objects: Objects, child: Id, ours: Id, theirs: Id, base: Id)
    requires child in objects && objects[child].parents == [ours] && !IsAncestor(objects, ours, child)
    requires IsMergeBase(objects, ours, theirs, base)
    ensures IsMergeBase(objects, child, theirs, base) <==> NoBetterBase(objects, child, ours, theirs, base)
    ensures !IsAncestor(objects, theirs, child) ==> IsMergeBase(objects, child, theirs, base)
  {
    var a, b :| AreDistances(objects, ours, a) && AreDistances(objects, theirs, b) && IsBest(a, b, base);
    DistanceAt(objects, ours, a, child);
    DistanceAt(objects, theirs, b, child);
    DistancesOfChild(objects, child, ours, a);
    BestFurtherOut(a, b, child, base);
    BestIsBase(objects, child, theirs, FurtherOut(a)[child := 0], b, base);
    StaysBestIsNoBetter(objects, child, ours, theirs, a, b, base);
  }

  lemma BestFurtherOut(a: map<Id, nat>, b: map<Id, nat>, child: Id, base: Id)
    requires IsBest(a, b, base) && child !in a
    ensures IsBest(FurtherOut(a)[child := 0], b, base) <==> StaysBest(a, b, child, base)
  {
    var all := FurtherOut(a)[child := 0];
    assert base in all && all[base] == a[base] + 1;
    if StaysBest(a, b, child, base) {
      forall j | j in all && j in b
        ensures Better(all[base] + b[base], base, all[j] + b[j], j)
      {
        if j != child { assert Better(a[base] + b[base], base, a[j] + b[j], j); }
      }
    }
    if IsBest(all, b, base) && child in b {
      assert Better(all[base] + b[base], base, all[child] + b[child], child);
    }
  }

  /** Plain commits on top of `ours`, none of them an ancestor of `theirs`. */
  ghost predicate PlainCommits(objects: Objects, ours: Id, theirs: Id, path: seq<Id>) {
    && path != [] && path[0] == ours
    && forall i :: 0 < i < |path| ==> PlainCommit(objects, path[i - 1], path[i], theirs)
  }

  ghost predicate PlainCommit(objects: Objects, ours: Id, child: Id, theirs: Id) {
    && child in objects && objects[child].parents == [ours]
    && !IsAncestor(objects, ours, child) && !IsAncestor(objects, theirs, child)
  }

  lemma FewerCommits(objects: Objects, ours: Id, theirs: Id, path: seq<Id>)
    requires PlainCommits(objects, ours, theirs, path) && |path| > 1
    ensures var n := |path| - 1;
            PlainCommits(objects, ours, theirs, path[..n]) && path[..n][n - 1] == path[n - 1] && PlainCommit(objects, path[n - 1], path[n], theirs)
  {
    var n := |path| - 1;
    forall i | 0 < i < n
      ensures PlainCommit(objects, path[..n][i - 1], path[..n][i], theirs)
    {
      assert PlainCommit(objects, path[i - 1], path[i], theirs);
    }
  }

  lemma {:induction false} PlainCommitsKeepBase(objects: Objects, ours: Id, theirs: Id, path: seq<Id>, base: Id)
    requires IsMergeBase(objects, ours, theirs, base) && PlainCommits(objects, ours, theirs, path)
    ensures IsMergeBase(objects, path[|path| - 1], theirs, base)
    decreases |path|
  {
    var n := |path| - 1;
    if n > 0 {
      FewerCommits(objects, ours, theirs, path);
      PlainCommitsKeepBase(objects, ours, theirs, path[..n], base);
      BaseAfterCommit(objects, path[n], path[n - 1], theirs, base);
    }
  }

  datatype MergeBaseError = RevisionNotFound(id: Id) | NoCommonAncestor

  method FindMergeBase(objects: Objects, ours: Id, theirs: Id) returns (r: Result<Id, MergeBaseError>)
    ensures r.Ok? ==> IsMergeBase(objects, ours, theirs, r.value)
    ensures r == Err(NoCommonAncestor) ==>
              forall id :: !(IsAncestor(objects, ours, id) && IsAncestor(objects, theirs, id))
    ensures r.Err? && r.error.RevisionNotFound? ==>
              r.error.id !in objects && (IsAncestor(objects, ours, r.error.id) || IsAncestor(objects, theirs, r.error.id))
  {
    var a := CollectAncestors(objects, ours);
    if a.Err? { return Err(RevisionNotFound(a.error)); }
    var b := CollectAncestors(objects, theirs);
    if b.Err? { return Err(RevisionNotFound(b.error)); }
    var order := ElementsOf(a.value.Keys);
    var choice := ChooseMergeBase(order, a.value, b.value);
    if choice.None? {
      NothingShared(objects, ours, theirs, a.value, b.value);
      return Err(NoCommonAncestor);
    }
    assert IsBest(a.value, b.value, choice.value);
    r := Ok(choice.value);
  }

  lemma NothingShared(objects: Objects, ours: Id, theirs: Id, a: map<Id, nat>, b: map<Id, nat>)
    requires AreDistances(objects, ours, a) && AreDistances(objects, theirs, b)
    requires forall id :: id in a ==> id !in b
    ensures forall id :: !(IsAncestor(objects, ours, id) && IsAncestor(objects, theirs, id))
  {
  }

  method ElementsOf(s: set<Id>) returns (r: seq<Id>)
    ensures forall id :: id in r <==> id in s
  {
    r := [];
    var rest := s;
    while rest != {}
      invariant rest <= s
      invariant forall id :: id in r <==> id in s && id !in rest
      decreases rest
    {
      var id :| id in rest;
      r := r + [id];
      rest := rest - {id};
    }
  }
}
