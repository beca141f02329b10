/** The diagnostic capture of a response stream. */
module EventCaptures {
  import opened Prelude

  // The last bytes of everything received, cut at a character boundary. Text is UTF-8 as in section 3 of RFC
  // 3629. The source appends to a bounded buffer and forgets what it drops; the specification speaks of the
  // whole history, which the class keeps as ghost state only, and shows that the buffer can be kept up to date
  // without it.

  // --- UTF-8 ------------------------------------------------------------------------------------

  predicate Continuation(b: byte) {
    0x80 <= b <= 0xBF
  }

  /** Length of the character that starts with these bytes, if they start with a well-formed one. */
  function CharLength(s: Bytes): (n: Option<nat>)
    ensures n.Some? ==> 0 < n.value <= |s| && !Continuation(s[0]) && forall i :: 0 < i < n.value ==> Continuation(s[i])
  {
    if s == [] then None
    else if s[0] <= 0x7F then Some(1)
    else if 0xC2 <= s[0] <= 0xDF then
      if |s| >= 2 && Continuation(s[1]) then Some(2) else None
    else if 0xE0 <= s[0] <= 0xEF then
      if |s| >= 3 && Continuation(s[1]) && Continuation(s[2])
         && (s[0] == 0xE0 ==> s[1] >= 0xA0) && (s[0] == 0xED ==> s[1] <= 0x9F) then Some(3) else None
    else if 0xF0 <= s[0] <= 0xF4 then
      if |s| >= 4 && Continuation(s[1]) && Continuation(s[2]) && Continuation(s[3])
         && (s[0] == 0xF0 ==> s[1] >= 0x90) && (s[0] == 0xF4 ==> s[1] <= 0x8F) then Some(4) else None
    else None
  }

  predicate Utf8(s: Bytes)
    decreases |s|
  {
    s == [] || (CharLength(s).Some? && Utf8(s[CharLength(s).value..]))
  }

  /** `is_char_boundary`. */
  predicate Boundary(s: Bytes, i: nat) {
    i == 0 || i == |s| || (i < |s| && !Continuation(s[i]))
  }

  lemma {:induction false} Utf8Concat(a: Bytes, b: Bytes)
    requires Utf8(a) && Utf8(b)
    ensures Utf8(a + b)
    decreases |a|
  {
    if a == [] {
      assert a + b == b;
    } else {
      var n := CharLength(a).value;
      assert (a + b)[n..] == a[n..] + b;
      assert CharLength(a + b) == Some(n);
      Utf8Concat(a[n..], b);
    }
  }

  /** Text cut at a character boundary is still text. */
  lemma {:induction false} CutIsText(s: Bytes, i: nat)
    requires Utf8(s) && i <= |s| && Boundary(s, i)
    ensures Utf8(s[i..])
    decreases |s|
  {
    if 0 < i < |s| {
      var n := CharLength(s).value;
      assert i >= n;
      assert s[n..][i - n..] == s[i..];
      if i == n { assert s[i..] == s[n..]; } else { CutIsText(s[n..], i - n); }
    } else if i == 0 {
      assert s[0..] == s;
    }
  }

  // --- The tail of a history ----------------------------------------------------------------------

  /** The first character boundary at or after `i`. */
  function NextBoundary(s: Bytes, i: nat): (k: nat)
    requires i <= |s|
    ensures i <= k <= |s| && Boundary(s, k) && forall j :: i <= j < k ==> !Boundary(s, j)
    decreases |s| - i
  {
    if Boundary(s, i) then i else NextBoundary(s, i + 1)
  }

  function Excess(n: nat, limit: nat): nat {
    if n > limit then n - limit else 0
  }

  /** What a capture with that limit is to hold of a history. */
  function Tail(history: Bytes, limit: nat): Bytes {
    history[NextBoundary(history, Excess(|history|, limit))..]
  }

  /** It is the longest suffix within the limit that starts at a character. */
  lemma TailIsLongest(history: Bytes, limit: nat, k: nat)
    requires k <= |history| && Boundary(history, k) && |history| - k <= limit
    ensures |Tail(history, limit)| <= limit
    ensures |history| - k <= |Tail(history, limit)|
  {
  }

  /** Something is missing from the tail exactly when the history exceeds the limit. */
  lemma TailIsCut(history: Bytes, limit: nat)
    ensures Tail(history, limit) != history <==> |history| > limit
  {
    if |history| <= limit { assert history[0..] == history; }
  }

  lemma NextBoundaryIs(s: Bytes, i: nat, k: nat)
    requires i <= k <= |s| && Boundary(s, k) && forall j :: i <= j < k ==> !Boundary(s, j)
    ensures NextBoundary(s, i) == k
  {
    var n := NextBoundary(s, i);
    assert n <= k;
  }

  /** Boundaries of a text are those of a suffix of it. */
  lemma BoundaryInSuffix(s: Bytes, k: nat, i: nat)
    requires k <= i <= |s| && Boundary(s, k)
    ensures Boundary(s, i) <==> Boundary(s[k..], i - k)
  {
  }

  /** Cutting a suffix that starts at a boundary before the wanted one changes nothing. */
  lemma TailOfLongSuffix(s: Bytes, k: nat, limit: nat)
    requires k <= Excess(|s|, limit) && Boundary(s, k)
    ensures Tail(s[k..], limit) == Tail(s, limit)
  {
    BoundariesShift(s, k, Excess(|s|, limit));
    var start := NextBoundary(s, Excess(|s|, limit));
    assert s[k..][start - k..] == s[start..];
  }

  lemma BoundariesShift(s: Bytes, k: nat, from: nat)
    requires k <= from <= |s| && Boundary(s, k)
    ensures NextBoundary(s[k..], from - k) == NextBoundary(s, from) - k
  {
    var t, start := s[k..], NextBoundary(s, from);
    BoundaryInSuffix(s, k, start);
    forall j | from - k <= j < start - k
      ensures !Boundary(t, j)
    {
      BoundaryInSuffix(s, k, j + k);
    }
    NextBoundaryIs(t, from - k, start - k);
  }

  /** Nor does cutting right at the wanted boundary. */
  lemma TailOfShortSuffix(s: Bytes, k: nat, limit: nat)
    requires Excess(|s|, limit) <= k <= |s| && k == NextBoundary(s, Excess(|s|, limit))
    ensures Tail(s[k..], limit) == Tail(s, limit)
  {
    assert s[k..][0..] == s[k..];
  }

  /** Where the tail of a history starts is a boundary of any longer history, and not past its tail. */
  lemma TailStart(history: Bytes, data: Bytes, limit: nat)
    requires Utf8(data) && Utf8(history)
    ensures var k, h := NextBoundary(history, Excess(|history|, limit)), history + data;
            k <= |h| && Boundary(h, k) && (k <= Excess(|h|, limit) || k == NextBoundary(h, Excess(|h|, limit)))
  {
    var h := history + data;
    var from := Excess(|history|, limit);
    var k := NextBoundary(history, from);
    if data != [] { assert CharLength(data).Some?; }
    if Excess(|h|, limit) < k {
      forall j | Excess(|h|, limit) <= j < k
        ensures !Boundary(h, j)
      {
        assert !Boundary(history, j);
      }
      NextBoundaryIs(h, Excess(|h|, limit), k);
    }
  }

  /** Appending to the tail alone is as good as keeping the history. */
  lemma TailAppend(history: Bytes, data: Bytes, limit: nat)
    requires Utf8(history) && Utf8(data)
    ensures Tail(history + data, limit) == Tail(Tail(history, limit) + data, limit)
  {
    TailStart(history, data, limit);
    TailFrom(history, data, limit, NextBoundary(history, Excess(|history|, limit)));
  }

  lemma TailFrom(history: Bytes, data: Bytes, limit: nat, k: nat)
    requires k <= |history| && Boundary(history + data, k)
    requires k <= Excess(|history + data|, limit) || k == NextBoundary(history + data, Excess(|history + data|, limit))
    ensures Tail(history + data, limit) == Tail(history[k..] + data, limit)
  {
    var h := history + data;
    assert h[k..] == history[k..] + data;
    if k <= Excess(|h|, limit) { TailOfLongSuffix(h, k, limit); } else { TailOfShortSuffix(h, k, limit); }
  }

  lemma TailIsText(history: Bytes, limit: nat)
    requires Utf8(history)
    ensures Utf8(Tail(history, limit))
  {
    CutIsText(history, NextBoundary(history, Excess(|history|, limit)));
  }

  // --- The capture ------------------------------------------------------------------------------------

  /** What has been received: each event followed by a blank line. */
  function History(events: seq<Bytes>): Bytes {
    if events == [] then [] else History(events[..|events| - 1]) + events[|events| - 1] + [10, 10]
  }

  lemma {:induction false} HistoryIsText(events: seq<Bytes>)
    requires forall i :: 0 <= i < |events| ==> Utf8(events[i])
    ensures Utf8(History(events))
  {
    if events != [] {
      var n := |events| - 1;
      HistoryIsText(events[..n]);
      Utf8Concat(History(events[..n]), events[n]);
      assert [10, 10][1..] == [10] && [10][1..] == [];
      assert Utf8([10]) && Utf8([10, 10]);
      Utf8Concat(History(events[..n]) + events[n], [10, 10]);
    }
  }

  class EventCapture {
    const limit: nat
    var tail: Bytes
    var events: nat
    var truncated: bool
    /** Everything received, which the source does not keep. */
    ghost var received: seq<Bytes>
    ghost var history: Bytes

    /** The tail is the longest suffix that fits, and `truncated` tells whether the history exceeds the limit. */
    ghost predicate Valid()
      reads this
    {
      && Utf8(history)
      && if limit == 0 then tail == [] && events == 0 && !truncated
         else tail == Tail(history, limit) && truncated == (|history| > limit)
    }

    constructor (limit: nat)
      ensures Valid() && this.limit == limit && received == [] && history == History(received) && events == 0
    {
      this.limit, tail, events, truncated := limit, [], 0, false;
      received, history := [], [];
    }

    method Push(data: Bytes)
      requires Valid() && Utf8(data) && history == History(received)
      modifies this
      ensures Valid() && received == old(received) + [data] && history == History(received) == old(history) + data + [10, 10]
      ensures limit == 0 ==> tail == [] && events == 0 && !truncated
      ensures limit > 0 ==> events == (if old(events) < 0xFFFF_FFFF_FFFF_FFFF then old(events) + 1 else 0xFFFF_FFFF_FFFF_FFFF)
      ensures limit > 0 ==> truncated == (|history| > limit) && tail == Tail(history, limit)
    {
      received := received + [data];
      assert received[..|received| - 1] == old(received);
      assert [10, 10][1..] == [10] && [10][1..] == [];
      assert Utf8([10]) && Utf8([10, 10]);
      if limit == 0 {
        Utf8Concat(history, data);
        Utf8Concat(history + data, [10, 10]);
        history := history + data + [10, 10];
        return;
      }
      events := SatAdd(events, 1);
      Append(data);
      Append([10, 10]);
    }

    method Append(data: Bytes)
      requires Valid() && limit > 0 && Utf8(data)
      modifies this`tail, this`truncated, this`history
      ensures Valid() && history == old(history) + data
    {
      TailAppend(history, data, limit);
      TailIsText(history, limit);
      TailIsCut(history, limit);
      Utf8Concat(history, data);
      if |data| >= limit {
        truncated := truncated || tail != [] || |data| > limit;
        tail := LongData(data);
      } else {
        var remove := Excess(|tail|, limit - |data|);
        truncated := truncated || remove > 0;
        tail := ShortData(data, remove);
      }
      history := history + data;
    }

    method LongData(data: Bytes) returns (newTail: Bytes)
      requires 0 < limit <= |data| && Utf8(data)
      ensures newTail == Tail(tail + data, limit)
    {
      var start := CharFrom(data, |data| - limit);
      WholeTail(tail, data, limit);
      newTail := data[start..];
    }

    method ShortData(data: Bytes, remove: nat) returns (newTail: Bytes)
      requires |data| < limit && Utf8(data) && Utf8(tail) && remove == Excess(|tail|, limit - |data|)
      ensures newTail == Tail(tail + data, limit)
    {
      newTail := tail;
      if remove > 0 {
        var end := CharFrom(tail, remove);
        PartOfTail(tail, data, limit);
        newTail := tail[end..];
      } else {
        TailIsCut(tail + data, limit);
      }
      newTail := newTail + data;
    }
  }

  /** The loop that advances to a character boundary. */
  method CharFrom(s: Bytes, from: nat) returns (i: nat)
    requires from <= |s|
    ensures i == NextBoundary(s, from)
  {
    i := from;
    while !Boundary(s, i)
      invariant from <= i <= |s|
      invariant forall j :: from <= j < i ==> !Boundary(s, j)
      decreases |s| - i
    {
      i := i + 1;
    }
    NextBoundaryIs(s, from, i);
  }

  /** When the new data alone fills the limit nothing of the old tail stays. */
  lemma WholeTail(tail: Bytes, data: Bytes, limit: nat)
    requires limit > 0 && |data| >= limit && Utf8(data)
    ensures Tail(tail + data, limit) == data[NextBoundary(data, |data| - limit)..]
  {
    var t := tail + data;
    if data != [] { assert CharLength(data).Some?; }
    assert t[|tail|..] == data;
    TailOfLongSuffix(t, |tail|, limit);
  }

  /** Otherwise as much of the old tail goes as the new data needs, up to the next character. */
  lemma PartOfTail(tail: Bytes, data: Bytes, limit: nat)
    requires |data| < limit < |tail| + |data| && Utf8(data) && Utf8(tail)
    ensures Tail(tail + data, limit) == tail[NextBoundary(tail, |tail| - (limit - |data|))..] + data
  {
    var t := tail + data;
    var remove := |tail| - (limit - |data|);
    var end := NextBoundary(tail, remove);
    if data != [] { assert CharLength(data).Some?; }
    assert Excess(|t|, limit) == remove;
    forall j | remove <= j < end
      ensures !Boundary(t, j)
    {
      assert !Boundary(tail, j);
    }
    NextBoundaryIs(t, remove, end);
    assert t[end..] == tail[end..] + data;
  }
}
