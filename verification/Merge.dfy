/** Three-way merge of JSON trees. */
module Merge {
  import opened Prelude

  // A slot is an optional value: a key that is absent from an object is the slot `None`, so deletion is an
  // edit like any other. Objects are unordered maps (section 4 of RFC 8259).

  datatype Json =
    | Null
    | Bool(b: bool)
    | Num(n: int)
    | Str(s: string)
    | Arr(items: seq<Json>)
    | Obj(fields: map<string, Json>)

  type Slot = Option<Json>

  datatype Conflict = Conflict(path: string, base: Slot, ours: Slot, theirs: Slot)

  function Field(v: Json, k: string): Slot
    requires v.Obj?
  {
    if k in v.fields then Some(v.fields[k]) else None
  }

  predicate IsObj(s: Slot) {
    s.Some? && s.value.Obj?
  }

  /** The slots really differ from each other and each is an object: the merge descends. */
  predicate Descends(b: Slot, o: Slot, t: Slot) {
    Distinct(b, o, t) && IsObj(b) && IsObj(o) && IsObj(t)
  }

  predicate Distinct(b: Slot, o: Slot, t: Slot) {
    o != t && o != b && t != b
  }

  function Keys3(b: Slot, o: Slot, t: Slot): set<string>
    requires IsObj(b) && IsObj(o) && IsObj(t)
  {
    b.value.fields.Keys + o.value.fields.Keys + t.value.fields.Keys
  }

  /** The value a three-way merge produces; `None` is a deletion, or a conflict at this slot. */
  function Merged(b: Slot, o: Slot, t: Slot): Slot
    decreases b.Some?, if b.Some? then b.value else Null
  {
    if o == t then o
    else if o == b then t
    else if t == b then o
    else if IsObj(b) && IsObj(o) && IsObj(t) then
      var kids := map k | k in Keys3(b, o, t) :: Merged(Field(b.value, k), Field(o.value, k), Field(t.value, k));
      Some(Obj(Present(kids)))
    else None
  }

  /** The fields that survive. */
  function Present(kids: map<string, Slot>): map<string, Json> {
    map k | k in kids && kids[k].Some? :: kids[k].value
  }

  /** The conflicts a merge reports, in the order it meets them. */
  ghost function Conflicts(b: Slot, o: Slot, t: Slot, path: string): seq<Conflict>
    decreases b.Some?, if b.Some? then b.value else Null, 1, 0
  {
    if !Distinct(b, o, t) then []
    else if IsObj(b) && IsObj(o) && IsObj(t) then FieldConflicts(SortedKeys(Keys3(b, o, t)), b, o, t, path)
    else [Conflict(path, b, o, t)]
  }

  ghost function FieldConflicts(keys: seq<string>, b: Slot, o: Slot, t: Slot, path: string): seq<Conflict>
    requires IsObj(b) && IsObj(o) && IsObj(t)
    decreases b.Some?, if b.Some? then b.value else Null, 0, |keys|
  {
    if keys == [] then []
    else
      Conflicts(Field(b.value, keys[0]), Field(o.value, keys[0]), Field(t.value, keys[0]), path + "." + keys[0])
      + FieldConflicts(keys[1..], b, o, t, path)
  }

  /** The conflict vector that one merge shares among its recursive calls. */
  class ConflictLog {
    var items: seq<Conflict>

    constructor ()
      ensures items == []
    {
      items := [];
    }
  }

  lemma SortedKeysStep(s: set<string>, k: string)
    requires IsLeast(k, s)
    ensures SortedKeys(s) == [k] + SortedKeys(s - {k})
  {
    LeastUnique(s, k, Least(s));
  }

  lemma FieldConflictsStep(s: set<string>, k: string, b: Slot, o: Slot, t: Slot, path: string)
    requires IsObj(b) && IsObj(o) && IsObj(t) && IsLeast(k, s)
    ensures FieldConflicts(SortedKeys(s), b, o, t, path)
         == Conflicts(Field(b.value, k), Field(o.value, k), Field(t.value, k), path + "." + k)
            + FieldConflicts(SortedKeys(s - {k}), b, o, t, path)
  {
    SortedKeysStep(s, k);
    assert ([k] + SortedKeys(s - {k}))[1..] == SortedKeys(s - {k});
  }

  lemma MergedFromFields(b: Slot, o: Slot, t: Slot, kids: map<string, Slot>)
    requires Descends(b, o, t) && kids.Keys == Keys3(b, o, t)
    requires FieldsMerged(kids, b, o, t)
    ensures Merged(b, o, t) == Some(Obj(Present(kids)))
  {
    assert kids == map k | k in Keys3(b, o, t) :: Merged(Field(b.value, k), Field(o.value, k), Field(t.value, k));
  }

  ghost predicate FieldsMerged(kids: map<string, Slot>, b: Slot, o: Slot, t: Slot)
    requires IsObj(b) && IsObj(o) && IsObj(t)
  {
    forall k :: k in kids ==> kids[k] == Merged(Field(b.value, k), Field(o.value, k), Field(t.value, k))
  }

  lemma FieldsMergedStep(kids: map<string, Slot>, b: Slot, o: Slot, t: Slot, key: string)
    requires IsObj(b) && IsObj(o) && IsObj(t) && FieldsMerged(kids, b, o, t)
    ensures FieldsMerged(kids[key := Merged(Field(b.value, key), Field(o.value, key), Field(t.value, key))], b, o, t)
  {
  }

  lemma KeysStep<K, V>(m: map<K, V>, k: K, v: V, all: set<K>, rest: set<K>)
    requires k in rest && rest <= all && m.Keys == all - rest
    ensures m[k := v].Keys == all - (rest - {k})
  {
  }

  lemma NoneLeft<K>(all: set<K>, rest: set<K>)
    requires rest == {}
    ensures all - rest == all
  {
  }

  lemma FieldIsSmaller(v: Json, k: string)
    requires v.Obj?
    ensures Field(v, k).Some? ==> Field(v, k).value < v
  {
  }

  lemma Regroup(a: seq<Conflict>, b: seq<Conflict>, c: seq<Conflict>)
    ensures (a + b) + c == a + (b + c)
  {
  }

  /** One merge of two slots against their base. */
  method MergeValue(b: Slot, o: Slot, t: Slot, path: string, log: ConflictLog) returns (r: Slot)
    modifies log
    ensures r == Merged(b, o, t)
    ensures log.items == old(log.items) + Conflicts(b, o, t, path)
    decreases b.Some?, if b.Some? then b.value else Null, 1
  {
    if o == t { return o; }
    if o == b { return t; }
    if t == b { return o; }
    if IsObj(b) && IsObj(o) && IsObj(t) {
      var kids := MergeFields(b, o, t, path, log);
      MergedFromFields(b, o, t, kids);
      return Some(Obj(Present(kids)));
    }
    log.items := log.items + [Conflict(path, b, o, t)];
    return None;
  }

  /** The loop over the union of the three key sets, in key order. */
  method MergeFields(b: Slot, o: Slot, t: Slot, path: string, log: ConflictLog) returns (kids: map<string, Slot>)
    requires IsObj(b) && IsObj(o) && IsObj(t)
    modifies log
    ensures kids.Keys == Keys3(b, o, t)
    ensures FieldsMerged(kids, b, o, t)
    ensures log.items == old(log.items) + FieldConflicts(SortedKeys(Keys3(b, o, t)), b, o, t, path)
    decreases b.Some?, if b.Some? then b.value else Null, 0
  {
    var all := Keys3(b, o, t);
    var keys := all;
    kids := map[];
    ghost var done: seq<Conflict> := [];
    while keys != {}
      invariant keys <= all
      invariant kids.Keys == all - keys
      invariant FieldsMerged(kids, b, o, t)
      invariant log.items == old(log.items) + done
      invariant done + FieldConflicts(SortedKeys(keys), b, o, t, path) == FieldConflicts(SortedKeys(all), b, o, t, path)
      decreases keys
    {
      LeastExists(keys);
      var key :| key in keys && forall j :: j in keys ==> LexLe(key, j);
      FieldConflictsStep(keys, key, b, o, t, path);
      var b', o', t', p := Field(b.value, key), Field(o.value, key), Field(t.value, key), path + "." + key;
      ghost var here, rest := Conflicts(b', o', t', p), FieldConflicts(SortedKeys(keys - {key}), b, o, t, path);
      FieldIsSmaller(b.value, key);
      var child := MergeValue(b', o', t', p, log);
      Regroup(old(log.items), done, here);
      Regroup(done, here, rest);
      done := done + here;
      KeysStep(kids, key, child, all, keys);
      FieldsMergedStep(kids, b, o, t, key);
      kids := kids[key := child];
      keys := keys - {key};
    }
    NoneLeft(all, keys);
    assert done == FieldConflicts(SortedKeys(all), b, o, t, path) by {
      assert FieldConflicts(SortedKeys(keys), b, o, t, path) == [];
    }
  }

  // --- Edits: an independent account of what a merge is for -------------------------------

  /** What changed between two slots. */
  datatype Edit = Keep | Replace(slot: Slot) | Nested(edits: map<string, Edit>)

  function Diff(from: Slot, to: Slot): Edit
    decreases from.Some?, if from.Some? then from.value else Null
  {
    if from == to then Keep
    else if IsObj(from) && IsObj(to) then
      Nested(map k | k in from.value.fields.Keys + to.value.fields.Keys ::
               Diff(Field(from.value, k), Field(to.value, k)))
    else Replace(to)
  }

  /** Replays edits on a slot that may itself have moved on. */
  function Apply(e: Edit, s: Slot): Slot
    decreases e
  {
    match e
    case Keep => s
    case Replace(v) => v
    case Nested(m) =>
      if !IsObj(s) then s
      else
        var kids := map k | k in s.value.fields.Keys + m.Keys ::
          if k in m then Apply(m[k], Field(s.value, k)) else Field(s.value, k);
        Some(Obj(Present(kids)))
  }

  lemma KeptField(kids: map<string, Slot>, k: string)
    ensures Field(Obj(Present(kids)), k) == if k in kids then kids[k] else None
  {
  }

  lemma SameFields(x: Slot, y: Slot)
    requires IsObj(x) && IsObj(y) && forall k :: Field(x.value, k) == Field(y.value, k)
    ensures x == y
  {
    forall k
      ensures k in x.value.fields <==> k in y.value.fields
      ensures k in x.value.fields ==> x.value.fields[k] == y.value.fields[k]
    {
      assert Field(x.value, k) == Field(y.value, k);
    }
    assert x.value.fields == y.value.fields;
  }

  /** The edits at key `k` lead from the field of `s` to that of `to`. */
  predicate FieldEditFits(from: Slot, to: Slot, s: Slot, k: string)
    requires IsObj(from) && IsObj(to) && IsObj(s)
  {
    Apply(Diff(Field(from.value, k), Field(to.value, k)), Field(s.value, k)) == Field(to.value, k)
  }

  lemma AppliedField(from: Slot, to: Slot, s: Slot, k: string)
    requires from != to && IsObj(from) && IsObj(to) && IsObj(s) && (s == from || s == to) && FieldEditFits(from, to, s, k)
    ensures IsObj(Apply(Diff(from, to), s)) && Field(Apply(Diff(from, to), s).value, k) == Field(to.value, k)
  {
    var m := Diff(from, to).edits;
    var kids := map j | j in s.value.fields.Keys + m.Keys :: if j in m then Apply(m[j], Field(s.value, j)) else Field(s.value, j);
    assert Apply(Diff(from, to), s) == Some(Obj(Present(kids)));
    KeptField(kids, k);
  }

  /** Edits field by field lead to `to` when each of them does. */
  lemma NestedApplies(from: Slot, to: Slot, s: Slot)
    requires from != to && IsObj(from) && IsObj(to) && IsObj(s) && (s == from || s == to)
    requires forall k :: FieldEditFits(from, to, s, k)
    ensures Apply(Diff(from, to), s) == to
  {
    forall k
      ensures IsObj(Apply(Diff(from, to), s)) && Field(Apply(Diff(from, to), s).value, k) == Field(to.value, k)
    {
      assert FieldEditFits(from, to, s, k);
      AppliedField(from, to, s, k);
    }
    AppliedField(from, to, s, "");
    SameFields(Apply(Diff(from, to), s), to);
  }

  lemma {:induction false} ApplyDiff(from: Slot, to: Slot)
    ensures Apply(Diff(from, to), from) == to
    ensures Apply(Diff(from, to), to) == to
    decreases from.Some?, if from.Some? then from.value else Null
  {
    if from != to && IsObj(from) && IsObj(to) {
      forall k
        ensures FieldEditFits(from, to, from, k) && FieldEditFits(from, to, to, k)
      {
        FieldIsSmaller(from.value, k);
        ApplyDiff(Field(from.value, k), Field(to.value, k));
      }
      NestedApplies(from, to, from);
      NestedApplies(from, to, to);
    }
  }

  lemma {:induction false} FieldConflictsEmpty(keys: seq<string>, b: Slot, o: Slot, t: Slot, path: string, k: string)
    requires IsObj(b) && IsObj(o) && IsObj(t) && k in keys
    requires FieldConflicts(keys, b, o, t, path) == []
    ensures Conflicts(Field(b.value, k), Field(o.value, k), Field(t.value, k), path + "." + k) == []
  {
    if k != keys[0] {
      FieldConflictsEmpty(keys[1..], b, o, t, path, k);
    }
  }

  /** A conflict-free merge is `ours` with the edits of `theirs` replayed on it. */
  lemma {:induction false} CleanMergeReplaysTheirs(b: Slot, o: Slot, t: Slot, path: string)
    requires Conflicts(b, o, t, path) == []
    ensures Merged(b, o, t) == Apply(Diff(b, t), o)
    decreases b.Some?, if b.Some? then b.value else Null
  {
    ApplyDiff(b, t);
    if Descends(b, o, t) {
      forall k | k in Keys3(b, o, t)
        ensures Merged(Field(b.value, k), Field(o.value, k), Field(t.value, k))
             == Apply(Diff(Field(b.value, k), Field(t.value, k)), Field(o.value, k))
      {
        FieldConflictsEmpty(SortedKeys(Keys3(b, o, t)), b, o, t, path, k);
        CleanMergeReplaysTheirs(Field(b.value, k), Field(o.value, k), Field(t.value, k), path + "." + k);
      }
      ReplayFromFields(b, o, t);
    }
  }

  lemma ReplayFromFields(b: Slot, o: Slot, t: Slot)
    requires Descends(b, o, t)
    requires forall k :: k in Keys3(b, o, t) ==>
      Merged(Field(b.value, k), Field(o.value, k), Field(t.value, k))
      == Apply(Diff(Field(b.value, k), Field(t.value, k)), Field(o.value, k))
    ensures Merged(b, o, t) == Apply(Diff(b, t), o)
  {
    var m := Diff(b, t).edits;
    var kids := map k | k in o.value.fields.Keys + m.Keys ::
      if k in m then Apply(m[k], Field(o.value, k)) else Field(o.value, k);
    assert Apply(Diff(b, t), o) == Some(Obj(Present(kids)));
    forall k | k in kids
      ensures kids[k] == Merged(Field(b.value, k), Field(o.value, k), Field(t.value, k))
    {
      assert k in Keys3(b, o, t);
    }
    MergedFromFields(b, o, t, kids);
  }

  function SwapSides(c: Conflict): Conflict {
    Conflict(c.path, c.base, c.theirs, c.ours)
  }

  function SwapAll(cs: seq<Conflict>): seq<Conflict> {
    seq(|cs|, i requires 0 <= i < |cs| => SwapSides(cs[i]))
  }

  /** Swapping the two heads swaps the sides in the conflicts and changes nothing else. */
  lemma {:induction false} MergeIsSymmetric(b: Slot, o: Slot, t: Slot, path: string)
    ensures Merged(b, t, o) == Merged(b, o, t)
    ensures Conflicts(b, t, o, path) == SwapAll(Conflicts(b, o, t, path))
    decreases b.Some?, if b.Some? then b.value else Null, 1, 0
  {
    if Descends(b, o, t) {
      assert Keys3(b, o, t) == Keys3(b, t, o);
      forall k | k in Keys3(b, o, t)
        ensures Merged(Field(b.value, k), Field(t.value, k), Field(o.value, k))
             == Merged(Field(b.value, k), Field(o.value, k), Field(t.value, k))
      {
        MergeIsSymmetric(Field(b.value, k), Field(o.value, k), Field(t.value, k), path + "." + k);
      }
      assert Merged(b, t, o).value.fields == Merged(b, o, t).value.fields;
      FieldConflictsSymmetric(SortedKeys(Keys3(b, o, t)), b, o, t, path);
    }
  }

  lemma {:induction false} FieldConflictsSymmetric(keys: seq<string>, b: Slot, o: Slot, t: Slot, path: string)
    requires IsObj(b) && IsObj(o) && IsObj(t)
    ensures FieldConflicts(keys, b, t, o, path) == SwapAll(FieldConflicts(keys, b, o, t, path))
    decreases b.Some?, if b.Some? then b.value else Null, 0, |keys|
  {
    if keys != [] {
      var k := keys[0];
      MergeIsSymmetric(Field(b.value, k), Field(o.value, k), Field(t.value, k), path + "." + k);
      FieldConflictsSymmetric(keys[1..], b, o, t, path);
    }
  }

  /** A conflict-free merge is equally `theirs` with the edits of `ours` replayed on it. */
  lemma CleanMergeReplaysOurs(b: Slot, o: Slot, t: Slot, path: string)
    requires Conflicts(b, o, t, path) == []
    ensures Merged(b, o, t) == Apply(Diff(b, o), t)
  {
    MergeIsSymmetric(b, o, t, path);
    CleanMergeReplaysTheirs(b, t, o, path);
  }

  /** `merge_specs` never reports a clean merge that deleted the whole document. */
  lemma CleanMergeKeepsDocument(b: Json, o: Json, t: Json, path: string)
    requires Conflicts(Some(b), Some(o), Some(t), path) == []
    ensures Merged(Some(b), Some(o), Some(t)).Some?
  {
  }

  // --- Where conflicts are -----------------------------------------------------------------

  /** The slot found by following a key path; anything below a non-object is absent. */
  function Lookup(s: Slot, keys: seq<string>): Slot
    decreases |keys|
  {
    if keys == [] then s
    else Lookup(if IsObj(s) then Field(s.value, keys[0]) else None, keys[1..])
  }

  function PathText(path: string, keys: seq<string>): string
    decreases |keys|
  {
    if keys == [] then path else PathText(path + "." + keys[0], keys[1..])
  }

  /** Three pairwise different values under this key path, not all of them objects. */
  ghost predicate Clash(b: Slot, o: Slot, t: Slot, keys: seq<string>) {
    var b', o', t' := Lookup(b, keys), Lookup(o, keys), Lookup(t, keys);
    Distinct(b', o', t') && !(IsObj(b') && IsObj(o') && IsObj(t'))
  }

  /** A clash all of whose proper prefixes lead to three objects. */
  ghost predicate TopClash(b: Slot, o: Slot, t: Slot, keys: seq<string>)
    decreases |keys|
  {
    if keys == [] then Clash(b, o, t, [])
    else
      IsObj(b) && IsObj(o) && IsObj(t)
      && TopClash(Field(b.value, keys[0]), Field(o.value, keys[0]), Field(t.value, keys[0]), keys[1..])
  }

  ghost function ClashReport(b: Slot, o: Slot, t: Slot, path: string, keys: seq<string>): Conflict {
    Conflict(PathText(path, keys), Lookup(b, keys), Lookup(o, keys), Lookup(t, keys))
  }

  lemma {:induction false} LookupAbsent(keys: seq<string>)
    ensures Lookup(None, keys) == None
    decreases |keys|
  {
    if keys != [] { LookupAbsent(keys[1..]); }
  }

  lemma {:induction false} TopClashDistinct(b: Slot, o: Slot, t: Slot, keys: seq<string>)
    requires TopClash(b, o, t, keys)
    ensures Distinct(b, o, t) && Clash(b, o, t, keys)
    decreases |keys|
  {
    if keys != [] {
      TopClashDistinct(Field(b.value, keys[0]), Field(o.value, keys[0]), Field(t.value, keys[0]), keys[1..]);
    }
  }

  /** Soundness: every reported conflict is a topmost clash, reported with its path and values. */
  lemma {:induction false} ConflictIsClash(b: Slot, o: Slot, t: Slot, path: string, c: Conflict) returns (keys: seq<string>)
    requires c in Conflicts(b, o, t, path)
    ensures TopClash(b, o, t, keys) && c == ClashReport(b, o, t, path, keys)
    decreases b.Some?, if b.Some? then b.value else Null, 1, 0
  {
    keys := [];
    if Descends(b, o, t) {
      keys := FieldConflictIsClash(SortedKeys(Keys3(b, o, t)), b, o, t, path, c);
    }
  }

  lemma {:induction false} FieldConflictIsClash(ks: seq<string>, b: Slot, o: Slot, t: Slot, path: string, c: Conflict)
    returns (keys: seq<string>)
    requires IsObj(b) && IsObj(o) && IsObj(t) && c in FieldConflicts(ks, b, o, t, path)
    ensures TopClash(b, o, t, keys) && c == ClashReport(b, o, t, path, keys)
    decreases b.Some?, if b.Some? then b.value else Null, 0, |ks|
  {
    var k := ks[0];
    if c in Conflicts(Field(b.value, k), Field(o.value, k), Field(t.value, k), path + "." + k) {
      var rest := ConflictIsClash(Field(b.value, k), Field(o.value, k), Field(t.value, k), path + "." + k, c);
      keys := [k] + rest;
      assert keys[1..] == rest;
    } else {
      keys := FieldConflictIsClash(ks[1..], b, o, t, path, c);
    }
  }

  lemma {:induction false} FieldConflictsContain(ks: seq<string>, b: Slot, o: Slot, t: Slot, path: string, k: string, c: Conflict)
    requires IsObj(b) && IsObj(o) && IsObj(t) && k in ks
    requires c in Conflicts(Field(b.value, k), Field(o.value, k), Field(t.value, k), path + "." + k)
    ensures c in FieldConflicts(ks, b, o, t, path)
  {
    if k != ks[0] { FieldConflictsContain(ks[1..], b, o, t, path, k, c); }
  }

  /** Completeness: every topmost clash is reported. */
  lemma {:induction false} ClashIsReported(b: Slot, o: Slot, t: Slot, path: string, keys: seq<string>)
    requires TopClash(b, o, t, keys)
    ensures ClashReport(b, o, t, path, keys) in Conflicts(b, o, t, path)
    decreases |keys|
  {
    TopClashDistinct(b, o, t, keys);
    if keys != [] {
      var k := keys[0];
      var b', o', t' := Field(b.value, k), Field(o.value, k), Field(t.value, k);
      TopClashDistinct(b', o', t', keys[1..]);
      ClashIsReported(b', o', t', path + "." + k, keys[1..]);
      FieldConflictsContain(SortedKeys(Keys3(b, o, t)), b, o, t, path, k, ClashReport(b', o', t', path + "." + k, keys[1..]));
    }
  }

  /** Below any clash lies, on the way down, a topmost one. */
  lemma {:induction false} ClashHasTop(b: Slot, o: Slot, t: Slot, keys: seq<string>) returns (top: seq<string>)
    requires Clash(b, o, t, keys)
    ensures top <= keys && TopClash(b, o, t, top)
    decreases |keys|
  {
    top := [];
    if keys != [] {
      if IsObj(b) && IsObj(o) && IsObj(t) {
        var rest := ClashHasTop(Field(b.value, keys[0]), Field(o.value, keys[0]), Field(t.value, keys[0]), keys[1..]);
        top := [keys[0]] + rest;
        assert top[1..] == rest;
      } else {
        assert Distinct(b, o, t);
      }
    }
  }

  /** A merge conflicts exactly when some key path holds three different values, not all objects. */
  lemma ConflictsIffClash(b: Slot, o: Slot, t: Slot, path: string)
    ensures Conflicts(b, o, t, path) != [] <==> exists keys :: Clash(b, o, t, keys)
  {
    if Conflicts(b, o, t, path) != [] {
      var keys := ConflictIsClash(b, o, t, path, Conflicts(b, o, t, path)[0]);
      TopClashDistinct(b, o, t, keys);
    }
    if keys :| Clash(b, o, t, keys) {
      var top := ClashHasTop(b, o, t, keys);
      ClashIsReported(b, o, t, path, top);
    }
  }

  // --- Merging with another version of ours ---------------------------------------------------------

  /** A merged object holds, field by field, the merges of the fields. */
  lemma MergedField(b: Slot, o: Slot, t: Slot, k: string)
    requires IsObj(b) && IsObj(o) && IsObj(t)
    ensures IsObj(Merged(b, o, t))
    ensures Field(Merged(b, o, t).value, k) == Merged(Field(b.value, k), Field(o.value, k), Field(t.value, k))
  {
    if Descends(b, o, t) {
      var kids := map j | j in Keys3(b, o, t) :: Merged(Field(b.value, j), Field(o.value, j), Field(t.value, j));
      assert Merged(b, o, t) == Some(Obj(Present(kids)));
      KeptField(kids, k);
    }
  }

  lemma CleanField(b: Slot, o: Slot, t: Slot, path: string, k: string)
    requires IsObj(b) && IsObj(o) && IsObj(t) && Conflicts(b, o, t, path) == []
    ensures Conflicts(Field(b.value, k), Field(o.value, k), Field(t.value, k), path + "." + k) == []
  {
    if Distinct(b, o, t) {
      if k in Keys3(b, o, t) {
        FieldConflictsEmpty(SortedKeys(Keys3(b, o, t)), b, o, t, path, k);
      }
    }
  }

  /** Where theirs left the base alone, a clean merge has what ours has. */
  lemma {:induction false} CleanMergeKeepsOurs(b: Slot, o: Slot, t: Slot, path: string, keys: seq<string>)
    requires Conflicts(b, o, t, path) == [] && Lookup(t, keys) == Lookup(b, keys)
    ensures Lookup(Merged(b, o, t), keys) == Lookup(o, keys)
    decreases |keys|
  {
    if keys != [] && Descends(b, o, t) {
      var k := keys[0];
      MergedField(b, o, t, k);
      CleanField(b, o, t, path, k);
      CleanMergeKeepsOurs(Field(b.value, k), Field(o.value, k), Field(t.value, k), path + "." + k, keys[1..]);
    }
  }

  /** Two versions of ours agree wherever theirs left the base alone. */
  ghost predicate AgreeWhereUntouched(b: Slot, o: Slot, p: Slot, t: Slot) {
    forall keys :: AgreeAt(b, o, p, t, keys)
  }

  ghost predicate AgreeAt(b: Slot, o: Slot, p: Slot, t: Slot, keys: seq<string>) {
    Lookup(t, keys) == Lookup(b, keys) ==> Lookup(o, keys) == Lookup(p, keys)
  }

  lemma AgreeInField(b: Slot, o: Slot, p: Slot, t: Slot, k: string)
    requires IsObj(b) && IsObj(o) && IsObj(p) && IsObj(t) && AgreeWhereUntouched(b, o, p, t)
    ensures AgreeWhereUntouched(Field(b.value, k), Field(o.value, k), Field(p.value, k), Field(t.value, k))
  {
    forall keys
      ensures AgreeAt(Field(b.value, k), Field(o.value, k), Field(p.value, k), Field(t.value, k), keys)
    {
      assert ([k] + keys)[1..] == keys;
      assert AgreeAt(b, o, p, t, [k] + keys);
    }
  }

  lemma {:induction false} AgreementMergesAlike(b: Slot, o: Slot, p: Slot, t: Slot, path: string)
    requires Conflicts(b, o, t, path) == [] && Conflicts(b, p, t, path) == [] && AgreeWhereUntouched(b, o, p, t)
    ensures Merged(b, o, t) == Merged(b, p, t)
    decreases b.Some?, if b.Some? then b.value else Null
  {
    assert AgreeAt(b, o, p, t, []);
    if t != b && IsObj(b) && IsObj(t) {
      forall k
        ensures Field(Merged(b, o, t).value, k) == Field(Merged(b, p, t).value, k)
      {
        MergedField(b, o, t, k);
        MergedField(b, p, t, k);
        CleanField(b, o, t, path, k);
        CleanField(b, p, t, path, k);
        AgreeInField(b, o, p, t, k);
        FieldIsSmaller(b.value, k);
        AgreementMergesAlike(Field(b.value, k), Field(o.value, k), Field(p.value, k), Field(t.value, k), path + "." + k);
      }
      MergedField(b, o, t, "");
      MergedField(b, p, t, "");
      SameFields(Merged(b, o, t), Merged(b, p, t));
    }
  }

  /** Clean merges of two versions of ours with the same theirs are equal exactly when the versions so agree. */
  lemma MergesAlikeIffAgree(b: Slot, o: Slot, p: Slot, t: Slot, path: string)
    requires Conflicts(b, o, t, path) == [] && Conflicts(b, p, t, path) == []
    ensures Merged(b, o, t) == Merged(b, p, t) <==> AgreeWhereUntouched(b, o, p, t)
  {
    if Merged(b, o, t) == Merged(b, p, t) {
      forall keys
        ensures AgreeAt(b, o, p, t, keys)
      {
        if Lookup(t, keys) == Lookup(b, keys) {
          CleanMergeKeepsOurs(b, o, t, path, keys);
          CleanMergeKeepsOurs(b, p, t, path, keys);
        }
      }
    }
    if AgreeWhereUntouched(b, o, p, t) { AgreementMergesAlike(b, o, p, t, path); }
  }
}
