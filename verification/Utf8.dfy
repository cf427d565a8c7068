/**
 Cutting UTF-8 text at a byte limit: `truncate_utf8` and `bounded_output`
 (crates/attemptdb-adapters/src/common.rs) and the tail that `test_counts` reads
 (crates/attemptdb-adapters/src/signals.rs), against the encoding of section 3 of RFC 3629.
 */
module Utf8 {
  type Byte = n: nat | n < 256

  type Scalar = n: nat | n < 0xD800 || 0xE000 <= n < 0x110000

  /** The octets of one character. */
  function EncodeChar(c: Scalar): seq<Byte> {
    if c < 0x80 then [c]
    else if c < 0x800 then [0xC0 + c / 64, 0x80 + c % 64]
    else if c < 0x10000 then [0xE0 + c / 4096, 0x80 + c / 64 % 64, 0x80 + c % 64]
    else [0xF0 + c / 262144, 0x80 + c / 4096 % 64, 0x80 + c / 64 % 64, 0x80 + c % 64]
  }

  function Encode(s: seq<Scalar>): seq<Byte> {
    if s == [] then [] else EncodeChar(s[0]) + Encode(s[1..])
  }

  /** A byte string that some text encodes to. */
  ghost predicate IsText(b: seq<Byte>) {
    exists s :: Encode(s) == b
  }

  predicate IsContinuation(x: Byte) {
    0x80 <= x < 0xC0
  }

  /** `is_char_boundary`. */
  predicate IsBoundary(b: seq<Byte>, i: nat) {
    i == 0 || i == |b| || (i < |b| && !IsContinuation(b[i]))
  }

  /** The number of octets a first octet announces. */
  function Width(first: Byte): nat {
    if first < 0x80 then 1 else if first < 0xE0 then 2 else if first < 0xF0 then 3 else 4
  }

  lemma CharShape(c: Scalar)
    ensures var e := EncodeChar(c);
      && 1 <= |e| <= 4 && Width(e[0]) == |e| && !IsContinuation(e[0])
      && forall i :: 1 <= i < |e| ==> IsContinuation(e[i])
  {
  }

  lemma FirstOfEncode(s: seq<Scalar>)
    requires s != []
    ensures var b, e := Encode(s), EncodeChar(s[0]);
      && 1 <= |e| <= |b| && |e| <= 4 && b[..|e|] == e && b[|e|..] == Encode(s[1..])
      && Width(b[0]) == |e| && !IsContinuation(b[0])
      && forall i :: 1 <= i < |e| ==> IsContinuation(b[i])
  {
    CharShape(s[0]);
    var b, e := Encode(s), EncodeChar(s[0]);
    assert forall i :: 0 <= i < |e| ==> b[i] == e[i];
  }

  /** The number the octets of one character stand for. */
  function CharValue(e: seq<Byte>): int
    requires 1 <= |e| <= 4
  {
    if |e| == 1 then e[0]
    else if |e| == 2 then (e[0] as int - 0xC0) * 64 + (e[1] as int - 0x80)
    else if |e| == 3 then ((e[0] as int - 0xE0) * 64 + (e[1] as int - 0x80)) * 64 + (e[2] as int - 0x80)
    else (((e[0] as int - 0xF0) * 64 + (e[1] as int - 0x80)) * 64 + (e[2] as int - 0x80)) * 64 + (e[3] as int - 0x80)
  }

  lemma ValueOfChar(c: Scalar)
    ensures CharValue(EncodeChar(c)) == c
  {
    assert c == 64 * (c / 64) + c % 64;
    assert c / 64 == 64 * (c / 4096) + c / 64 % 64;
    assert c / 4096 == 64 * (c / 262144) + c / 4096 % 64;
  }

  lemma CharIsInjective(c: Scalar, d: Scalar)
    requires EncodeChar(c) == EncodeChar(d)
    ensures c == d
  {
    ValueOfChar(c);
    ValueOfChar(d);
  }

  /** Text has one encoding and bytes have one meaning. */
  lemma {:induction false} EncodeIsInjective(s: seq<Scalar>, t: seq<Scalar>)
    requires Encode(s) == Encode(t)
    ensures s == t
    decreases |s|
  {
    if s != [] {
      FirstOfEncode(s);
    }
    if t != [] {
      FirstOfEncode(t);
    }
    if s != [] && t != [] {
      CharIsInjective(s[0], t[0]);
      EncodeIsInjective(s[1..], t[1..]);
    }
  }

  lemma {:induction false} EncodeOfConcat(s: seq<Scalar>, t: seq<Scalar>)
    ensures Encode(s + t) == Encode(s) + Encode(t)
    decreases |s|
  {
    if s == [] {
      assert s + t == t;
    } else {
      assert (s + t)[1..] == s[1..] + t;
      EncodeOfConcat(s[1..], t);
    }
  }

  /** A prefix that is text ends at a boundary. */
  lemma {:induction false} TextEndsAtBoundary(s: seq<Scalar>, t: seq<Scalar>)
    requires Encode(t) <= Encode(s)
    ensures IsBoundary(Encode(s), |Encode(t)|)
    decreases |t|
  {
    if t != [] && s != [] {
      FirstOfEncode(s);
      FirstOfEncode(t);
      var b, n := Encode(s), |EncodeChar(s[0])|;
      assert Encode(t)[0] == b[0];
      assert Encode(t[1..]) == Encode(t)[n..] <= b[n..];
      TextEndsAtBoundary(s[1..], t[1..]);
      if |t| > 1 {
        FirstOfEncode(t[1..]);
        assert b[n..][|Encode(t)| - n..] == b[|Encode(t)|..];
      } else if |s| > 1 {
        FirstOfEncode(s[1..]);
        assert b[n..][0] == b[n];
      }
    }
  }

  /** Cutting at a boundary leaves text on both sides. */
  lemma {:induction false} BoundaryCutsText(s: seq<Scalar>, i: nat) returns (k: nat)
    requires i <= |Encode(s)| && IsBoundary(Encode(s), i)
    ensures k <= |s| && Encode(s[..k]) == Encode(s)[..i] && Encode(s[k..]) == Encode(s)[i..]
    decreases |s|
  {
    if i == 0 {
      k := 0;
    } else {
      FirstOfEncode(s);
      var b, n := Encode(s), |EncodeChar(s[0])|;
      assert i >= n;
      assert i < |b| ==> b[i] == b[n..][i - n];
      var m := BoundaryCutsText(s[1..], i - n);
      k := m + 1;
      assert s[..k][1..] == s[1..][..m] && s[1..][m..] == s[k..];
      CutFurther(b, n, i);
    }
  }

  lemma CutFurther(b: seq<Byte>, n: nat, i: nat)
    requires n <= i <= |b|
    ensures b[..i] == b[..n] + b[n..][..i - n] && b[n..][i - n..] == b[i..]
  {
  }

  /** The prefixes of a text that are text are exactly those that end at a boundary. */
  lemma TextPrefixExactlyWhen(b: seq<Byte>, i: nat)
    requires IsText(b) && i <= |b|
    ensures IsText(b[..i]) <==> IsBoundary(b, i)
    ensures IsBoundary(b, i) ==> IsText(b[i..])
  {
    var s :| Encode(s) == b;
    if IsBoundary(b, i) {
      var k := BoundaryCutsText(s, i);
      assert Encode(s[..k]) == b[..i] && Encode(s[k..]) == b[i..];
    }
    if IsText(b[..i]) {
      var t :| Encode(t) == b[..i];
      TextEndsAtBoundary(s, t);
    }
  }

  /** No four positions in a row are all inside a character. */
  lemma {:induction false} BoundaryNear(s: seq<Scalar>, i: nat) returns (j: nat)
    requires i <= |Encode(s)|
    ensures j <= i <= j + 3 && IsBoundary(Encode(s), j)
    decreases |s|
  {
    if i == 0 {
      j := 0;
    } else {
      FirstOfEncode(s);
      var b, n := Encode(s), |EncodeChar(s[0])|;
      if i < n {
        j := 0;
      } else {
        j := BoundaryNear(s[1..], i - n);
        if j < |Encode(s[1..])| {
          assert b[n + j] == b[n..][j];
        }
        j := j + n;
      }
    }
  }

  lemma BoundaryBefore(b: seq<Byte>, i: nat) returns (j: nat)
    requires IsText(b) && i <= |b|
    ensures j <= i <= j + 3 && IsBoundary(b, j)
  {
    var s :| Encode(s) == b;
    j := BoundaryNear(s, i);
  }

  /** The first boundary at or after a position is at most three octets on. */
  lemma BoundaryAfter(b: seq<Byte>, i: nat) returns (j: nat)
    requires IsText(b) && i <= |b|
    ensures i <= j <= i + 3 && j <= |b| && IsBoundary(b, j)
  {
    if i + 3 <= |b| {
      j := BoundaryBefore(b, i + 3);
    } else {
      j := |b|;
    }
  }

  function Smaller(a: nat, b: nat): nat {
    if a <= b then a else b
  }

  /**
   `truncate_utf8`: text again, the longest prefix within the limit that is, and within three octets
   of what the limit would allow.
   */
  method TruncateUtf8(b: seq<Byte>, max: nat) returns (r: seq<Byte>)
    requires IsText(b)
    ensures r <= b && IsText(r) && |r| <= max
    ensures forall end :: |r| < end <= Smaller(max, |b|) ==> !IsText(b[..end])
    ensures Smaller(max, |b|) <= |r| + 3
  {
    var end := Smaller(max, |b|);
    var near := BoundaryBefore(b, end);
    while end > 0 && !IsBoundary(b, end)
      invariant near <= end <= Smaller(max, |b|)
      invariant forall i :: end < i <= Smaller(max, |b|) ==> !IsBoundary(b, i)
    {
      end := end - 1;
    }
    forall i | end <= i <= Smaller(max, |b|)
      ensures IsText(b[..i]) <==> IsBoundary(b, i)
    {
      TextPrefixExactlyWhen(b, i);
    }
    r := b[..end];
  }

  const TAIL: nat := 8 * 1024

  /** Where the tail that `test_counts` reads begins: at the first boundary of the last 8 KiB. */
  method TailStart(b: seq<Byte>) returns (start: nat)
    requires IsText(b)
    ensures start <= |b| && IsBoundary(b, start)
    ensures var first := |b| - Smaller(TAIL, |b|);
      first <= start <= first + 3 && forall i :: first <= i < start ==> !IsBoundary(b, i)
  {
    start := |b| - Smaller(TAIL, |b|);
    ghost var first := start;
    ghost var near := BoundaryAfter(b, start);
    while start < |b| && !IsBoundary(b, start)
      invariant first <= start <= near
      invariant forall i :: first <= i < start ==> !IsBoundary(b, i)
    {
      start := start + 1;
    }
  }

  /** That tail is text, all of a short output, and otherwise at most three octets less than 8 KiB. */
  method Tail(b: seq<Byte>) returns (tail: seq<Byte>)
    requires IsText(b)
    ensures |tail| <= |b| && tail == b[|b| - |tail|..] && IsText(tail)
    ensures |tail| <= TAIL && (|b| > TAIL ==> TAIL <= |tail| + 3)
    ensures |b| <= TAIL ==> tail == b
  {
    var start := TailStart(b);
    TextPrefixExactlyWhen(b, start);
    assert IsBoundary(b, 0);
    assert b[0..] == b;
    tail := b[start..];
  }

  const TOOL_OUTPUT_LIMIT: nat := 64 * 1024

  /** A tool output: a string, or another JSON value by its text. */
  datatype Value = Text(text: seq<Byte>) | Structured(text: seq<Byte>)

  /** `bounded_output`: never above the limit, and changed only if it was. */
  method BoundedOutput(value: Value) returns (bounded: Value, truncated: bool)
    requires IsText(value.text)
    ensures truncated <==> |value.text| > TOOL_OUTPUT_LIMIT
    ensures !truncated ==> bounded == value
    ensures truncated ==> bounded.Text? && bounded.text <= value.text && IsText(bounded.text)
    ensures truncated ==> TOOL_OUTPUT_LIMIT - 3 <= |bounded.text| <= TOOL_OUTPUT_LIMIT
  {
    if |value.text| > TOOL_OUTPUT_LIMIT {
      var cut := TruncateUtf8(value.text, TOOL_OUTPUT_LIMIT);
      return Text(cut), true;
    }
    return value, false;
  }
}
