/** What an event capture holds, in characters. */
module EventTexts {
  import opened Prelude
  import opened EventCaptures

  // Text is UTF-8: encoded Unicode scalar values, as in sections 3 and 4 of RFC 3629.

  /** All code points but the surrogates. */
  type Character = c: nat | c < 0xD800 || 0xDFFF < c <= 0x10_FFFF

  /** A continuation byte with the lowest six bits. */
  function Six(n: nat): (b: byte)
    ensures 0x80 <= b <= 0xBF
  {
    0x80 + n % 64
  }

  function Encode(c: Character): (b: Bytes)
    ensures 1 <= |b| <= 4
  {
    if c < 0x80 then [c]
    else if c < 0x800 then [0xC0 + c / 64, Six(c)]
    else if c < 0x1_0000 then [0xE0 + c / 4096, Six(c / 64), Six(c)]
    else [0xF0 + c / 262144, Six(c / 4096), Six(c / 64), Six(c)]
  }

  function EncodeAll(cs: seq<Character>): Bytes {
    if cs == [] then [] else Encode(cs[0]) + EncodeAll(cs[1..])
  }

  // --- Text is what encodes characters ------------------------------------------------------------------

  /** Surrogates, and what is too long or too large for its length, are never encoded. */
  lemma LeadBounds(c: Character)
    ensures 0x80 <= c < 0x800 ==> 2 <= c / 64 <= 31
    ensures 0x800 <= c < 0x1_0000 ==> c / 4096 <= 15
    ensures 0x800 <= c < 0x1000 ==> c / 64 % 64 >= 32
    ensures 0xD000 <= c < 0xE000 ==> c / 64 % 64 <= 31
    ensures 0x1_0000 <= c ==> c / 262144 <= 4
    ensures 0x1_0000 <= c < 0x4_0000 ==> c / 4096 % 64 >= 16
    ensures 0x10_0000 <= c ==> c / 4096 % 64 <= 15
  {
    assert c / 64 % 64 == c / 64 - c / 4096 * 64;
    assert c / 4096 % 64 == c / 4096 - c / 262144 * 64;
  }

  lemma EncodedIsOne(c: Character, rest: Bytes)
    ensures CharLength(Encode(c) + rest) == Some(|Encode(c)|)
    ensures !Continuation(Encode(c)[0]) && forall i :: 0 < i < |Encode(c)| ==> Continuation(Encode(c)[i])
  {
    LeadBounds(c);
    var s := Encode(c) + rest;
    assert forall i :: 0 <= i < |Encode(c)| ==> s[i] == Encode(c)[i];
  }

  lemma {:induction false} EncodedIsText(cs: seq<Character>)
    ensures Utf8(EncodeAll(cs))
  {
    if cs != [] {
      var rest := EncodeAll(cs[1..]);
      EncodedIsOne(cs[0], rest);
      assert (Encode(cs[0]) + rest)[|Encode(cs[0])|..] == rest;
      EncodedIsText(cs[1..]);
    }
  }

  function TwoOf(a: int, b: int): (c: Character)
    requires 0xC2 <= a <= 0xDF && 0x80 <= b <= 0xBF
    ensures Encode(c) == [a, b]
  {
    var c: Character := (a - 0xC0) * 64 + (b - 0x80);
    assert c / 64 == a - 0xC0 && c % 64 == b - 0x80;
    c
  }

  function ThreeOf(a: int, b: int, d: int): (c: Character)
    requires 0xE0 <= a <= 0xEF && 0x80 <= b <= 0xBF && 0x80 <= d <= 0xBF
    requires (a == 0xE0 ==> b >= 0xA0) && (a == 0xED ==> b <= 0x9F)
    ensures Encode(c) == [a, b, d]
  {
    var c: Character := (a - 0xE0) * 4096 + (b - 0x80) * 64 + (d - 0x80);
    assert c / 4096 == a - 0xE0 && c / 64 == (a - 0xE0) * 64 + (b - 0x80) && c % 64 == d - 0x80;
    assert c / 64 % 64 == b - 0x80;
    c
  }

  function FourOf(a: int, b: int, d: int, e: int): (c: Character)
    requires 0xF0 <= a <= 0xF4 && 0x80 <= b <= 0xBF && 0x80 <= d <= 0xBF && 0x80 <= e <= 0xBF
    requires (a == 0xF0 ==> b >= 0x90) && (a == 0xF4 ==> b <= 0x8F)
    ensures Encode(c) == [a, b, d, e]
  {
    var c: Character := (a - 0xF0) * 262144 + (b - 0x80) * 4096 + (d - 0x80) * 64 + (e - 0x80);
    assert c / 262144 == a - 0xF0 && c / 4096 == (a - 0xF0) * 64 + (b - 0x80);
    assert c / 64 == (a - 0xF0) * 4096 + (b - 0x80) * 64 + (d - 0x80) && c % 64 == e - 0x80;
    assert c / 4096 % 64 == b - 0x80 && c / 64 % 64 == d - 0x80;
    c
  }

  /** The character that starts a text. */
  lemma OneIsEncoded(s: Bytes) returns (c: Character)
    requires CharLength(s).Some?
    ensures s[..CharLength(s).value] == Encode(c)
  {
    var n := CharLength(s).value;
    if n == 1 {
      c := s[0];
    } else if n == 2 {
      c := TwoOf(s[0] as int, s[1] as int);
    } else if n == 3 {
      c := ThreeOf(s[0] as int, s[1] as int, s[2] as int);
    } else {
      c := FourOf(s[0] as int, s[1] as int, s[2] as int, s[3] as int);
    }
  }

  /** Every text encodes some characters. */
  lemma {:induction false} TextIsEncoded(s: Bytes) returns (cs: seq<Character>)
    requires Utf8(s)
    ensures s == EncodeAll(cs)
    decreases |s|
  {
    if s == [] {
      cs := [];
    } else {
      var c := OneIsEncoded(s);
      var rest := TextIsEncoded(s[CharLength(s).value..]);
      cs := [c] + rest;
    }
  }

  // --- The tail in characters ---------------------------------------------------------------------------

  lemma {:induction false} EncodeConcat(a: seq<Character>, b: seq<Character>)
    ensures EncodeAll(a + b) == EncodeAll(a) + EncodeAll(b)
  {
    if a == [] {
      assert a + b == b;
    } else {
      assert (a + b)[1..] == a[1..] + b;
      EncodeConcat(a[1..], b);
    }
  }

  lemma InsideIsNone(c: Character, rest: Bytes, i: nat)
    requires 0 < i < |Encode(c)|
    ensures !Boundary(Encode(c) + rest, i)
  {
    EncodedIsOne(c, rest);
    assert (Encode(c) + rest)[i] == Encode(c)[i];
  }

  /** A boundary stands just where some character starts, or at the end. */
  lemma {:induction false} BoundaryStarts(cs: seq<Character>, i: nat) returns (k: nat)
    requires i <= |EncodeAll(cs)| && Boundary(EncodeAll(cs), i)
    ensures k <= |cs| && EncodeAll(cs)[i..] == EncodeAll(cs[k..])
  {
    var s := EncodeAll(cs);
    if i == 0 {
      k := 0;
      assert s[0..] == s && cs[0..] == cs;
    } else {
      var first, rest := Encode(cs[0]), EncodeAll(cs[1..]);
      if i < |first| { InsideIsNone(cs[0], rest, i); }
      assert s[i..] == rest[i - |first|..];
      assert i < |s| ==> s[i] == rest[i - |first|];
      var k' := BoundaryStarts(cs[1..], i - |first|);
      k := k' + 1;
      assert cs[1..][k'..] == cs[k..];
    }
  }

  /** Each character starts at a boundary. */
  lemma StartIsBoundary(cs: seq<Character>, k: nat)
    requires k <= |cs|
    ensures var i := |EncodeAll(cs[..k])|;
            i <= |EncodeAll(cs)| && Boundary(EncodeAll(cs), i) && EncodeAll(cs)[i..] == EncodeAll(cs[k..])
  {
    var a, b := EncodeAll(cs[..k]), EncodeAll(cs[k..]);
    assert cs[..k] + cs[k..] == cs;
    EncodeConcat(cs[..k], cs[k..]);
    if k < |cs| {
      EncodedIsOne(cs[k], EncodeAll(cs[k..][1..]));
      assert (a + b)[|a|] == b[0];
    }
  }

  lemma LongerIsTooLong(s: Bytes, limit: nat, j: nat)
    requires j <= |s| && Boundary(s, j) && |s[j..]| > |Tail(s, limit)|
    ensures |s[j..]| > limit
  {
    if |s| - j <= limit { TailIsLongest(s, limit, j); }
  }

  /** The tail holds the last characters of the history, as many as the limit has room for. */
  lemma TailIsLastCharacters(cs: seq<Character>, limit: nat) returns (k: nat)
    ensures k <= |cs| && Tail(EncodeAll(cs), limit) == EncodeAll(cs[k..])
    ensures |EncodeAll(cs[k..])| <= limit
    ensures k > 0 ==> |EncodeAll(cs[k - 1..])| > limit
  {
    var s := EncodeAll(cs);
    var i := NextBoundary(s, Excess(|s|, limit));
    k := BoundaryStarts(cs, i);
    if k > 0 {
      StartIsBoundary(cs, k - 1);
      var j := |EncodeAll(cs[..k - 1])|;
      assert cs[k - 1..][1..] == cs[k..];
      LongerIsTooLong(s, limit, j);
    }
  }
}
