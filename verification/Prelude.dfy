/**
 * Shared vocabulary: optional values, results, bytes, 64-bit saturation, the order on strings that the
 * keys of an ordered map or set have, and the elements of a set of keys in increasing order. Iterating an
 * ordered map of the source is iterating over such a list, for strings with `SortedKeys` and for integers
 * with `Ascending`.
 */
module Prelude {

  datatype Option<+T> = None | Some(value: T)

  datatype Result<+T, +E> = Ok(value: T) | Err(error: E)

  /** Largest value of the 64-bit `usize` and `u64`. */
  const MAX_U64: nat := 0xFFFF_FFFF_FFFF_FFFF

  type usize = n: nat | n <= MAX_U64

  type byte = b: nat | b < 256

  type Bytes = seq<byte>

  function Min(a: nat, b: nat): nat {
    if a < b then a else b
  }

  /** `saturating_add` on 64-bit unsigned integers. */
  function SatAdd(a: nat, b: nat): nat {
    if a + b <= MAX_U64 then a + b else MAX_U64
  }

  /** Lexicographic order on strings, the order of keys in an ordered map or set. */
  predicate LexLe(a: string, b: string)
    decreases |a|
  {
    if a == "" then true
    else if b == "" then false
    else if a[0] != b[0] then a[0] < b[0]
    else LexLe(a[1..], b[1..])
  }

  lemma {:induction false} LexTotal(a: string, b: string)
    ensures LexLe(a, a)
    ensures LexLe(a, b) || LexLe(b, a)
    ensures LexLe(a, b) && LexLe(b, a) ==> a == b
    decreases |a|
  {
    if a != "" {
      LexTotal(a[1..], a[1..]);
      if b != "" {
        LexTotal(a[1..], b[1..]);
        if a[0] == b[0] {
          assert a == [a[0]] + a[1..] && b == [b[0]] + b[1..];
        }
      }
    }
  }

  lemma {:induction false} LexTransitive(a: string, b: string, c: string)
    requires LexLe(a, b) && LexLe(b, c)
    ensures LexLe(a, c)
    decreases |a|
  {
    if a != "" && b != "" && c != "" && a[0] == b[0] && b[0] == c[0] {
      LexTransitive(a[1..], b[1..], c[1..]);
    }
  }

  /** The strings agree up to there, and the first one's character is smaller. */
  predicate SmallerAt(a: string, b: string, i: nat) {
    i < |a| && i < |b| && a[..i] == b[..i] && a[i] < b[i]
  }

  lemma FirstDiffers(a: string, b: string, i: nat)
    requires SmallerAt(a, b, i)
    ensures if i == 0 then a[0] < b[0] else a[0] == b[0]
  {
    if i > 0 { assert a[..i][0] == b[..i][0]; }
  }

  /** A string precedes those it is a prefix of, and those that first differ from it in a larger character. */
  lemma {:induction false} LexIs(a: string, b: string)
    ensures LexLe(a, b) <==> a <= b || exists i: nat :: SmallerAt(a, b, i)
    decreases |a|
  {
    if a != "" && b != "" {
      if a[0] == b[0] {
        LexIs(a[1..], b[1..]);
        if i: nat :| SmallerAt(a[1..], b[1..], i) {
          assert a[..i + 1] == [a[0]] + a[1..][..i] && b[..i + 1] == [b[0]] + b[1..][..i];
          assert SmallerAt(a, b, i + 1);
        }
        if i: nat :| SmallerAt(a, b, i) {
          assert i > 0 && a[1..][..i - 1] == a[..i][1..] && b[1..][..i - 1] == b[..i][1..];
          assert SmallerAt(a[1..], b[1..], i - 1);
        }
        assert a == [a[0]] + a[1..] && b == [b[0]] + b[1..];
      } else {
        assert a[0] < b[0] ==> SmallerAt(a, b, 0);
        if i: nat :| SmallerAt(a, b, i) { FirstDiffers(a, b, i); }
      }
    }
  }

  ghost predicate IsLeast(k: string, s: set<string>) {
    k in s && forall j :: j in s ==> LexLe(k, j)
  }

  lemma LeastExists(s: set<string>)
    requires s != {}
    ensures exists k :: IsLeast(k, s)
  {
    var x :| x in s;
    if s == {x} {
      LexTotal(x, x);
      assert IsLeast(x, s);
    } else {
      LeastExists(s - {x});
      var y :| IsLeast(y, s - {x});
      LexTotal(x, y);
      LexTotal(x, x);
      if LexLe(x, y) {
        forall j | j in s ensures LexLe(x, j) {
          if j != x { LexTransitive(x, y, j); }
        }
        assert IsLeast(x, s);
      } else {
        assert IsLeast(y, s);
      }
    }
  }

  lemma LeastUnique(s: set<string>, a: string, b: string)
    requires IsLeast(a, s) && IsLeast(b, s)
    ensures a == b
  {
    LexTotal(a, b);
  }

  ghost function Least(s: set<string>): (k: string)
    requires s != {}
    ensures IsLeast(k, s)
  {
    LeastExists(s);
    var k :| IsLeast(k, s);
    k
  }

  ghost predicate ListsKeys(r: seq<string>, s: set<string>) {
    && (forall k :: k in r <==> k in s) && |r| == |s|
    && forall i, j :: 0 <= i < j < |r| ==> r[i] != r[j] && LexLe(r[i], r[j])
  }

  lemma ListsMoreKeys(k: string, rest: seq<string>, s: set<string>)
    requires IsLeast(k, s) && ListsKeys(rest, s - {k})
    ensures ListsKeys([k] + rest, s)
  {
    forall i | 0 <= i < |rest|
      ensures rest[i] != k && LexLe(k, rest[i])
    {
      assert rest[i] in s - {k};
    }
    forall j
      ensures j in [k] + rest <==> j in s
    {
      assert j in s <==> j == k || j in s - {k};
    }
  }

  /** The elements of a set in increasing order: what iterating an ordered set or map yields. */
  ghost function SortedKeys(s: set<string>): (r: seq<string>)
    ensures forall k :: k in r <==> k in s
    ensures |r| == |s|
    ensures forall i, j :: 0 <= i < j < |r| ==> r[i] != r[j] && LexLe(r[i], r[j])
  {
    if s == {} then []
    else
      var k := Least(s);
      var rest := SortedKeys(s - {k});
      ListsMoreKeys(k, rest, s);
      [k] + rest
  }

  predicate IsLeastNat(k: nat, s: set<nat>) {
    k in s && forall j :: j in s ==> k <= j
  }

  lemma LeastNatExists(s: set<nat>)
    requires s != {}
    ensures exists k :: IsLeastNat(k, s)
  {
    var x :| x in s;
    if s == {x} {
      assert IsLeastNat(x, s);
    } else {
      LeastNatExists(s - {x});
      var y :| IsLeastNat(y, s - {x});
      forall j | j in s ensures x <= j || y <= j {
        assert j != x ==> j in s - {x};
      }
      if x <= y {
        assert IsLeastNat(x, s);
      } else {
        assert IsLeastNat(y, s);
      }
    }
  }

  function LeastNat(s: set<nat>): (k: nat)
    requires s != {}
    ensures IsLeastNat(k, s)
  {
    LeastNatExists(s);
    var k: nat :| k in s && IsLeastNat(k, s);
    k
  }

  /** Each element once, in increasing order. */
  ghost predicate Lists(r: seq<nat>, s: set<nat>) {
    (forall k :: k in r <==> k in s) && forall i, j :: 0 <= i < j < |r| ==> r[i] < r[j]
  }

  lemma ListsMore(k: nat, rest: seq<nat>, s: set<nat>)
    requires IsLeastNat(k, s) && Lists(rest, s - {k})
    ensures Lists([k] + rest, s)
  {
    forall i | 0 <= i < |rest|
      ensures k < rest[i]
    {
      assert rest[i] in s - {k};
    }
    forall j
      ensures j in [k] + rest <==> j in s
    {
      assert j in s <==> j == k || j in s - {k};
    }
  }

  /** The elements in increasing order: what an ordered map with integer keys yields. */
  function Ascending(s: set<nat>): (r: seq<nat>)
    ensures forall k :: k in r <==> k in s
    ensures forall i, j :: 0 <= i < j < |r| ==> r[i] < r[j]
    decreases |s|
  {
    if s == {} then []
    else
      var k := LeastNat(s);
      var rest := Ascending(s - {k});
      ListsMore(k, rest, s);
      [k] + rest
  }
}
