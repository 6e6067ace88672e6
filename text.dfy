/**
 * Python string behaviour the pipeline relies on: `str.isspace`/`str.strip`,
 * `str.split` on separator characters, `sep.join`, slicing `s[:k]`,
 * `str.count`, the `in` operator on strings and `{n:02d}` formatting.
 */
module Text {

  function Min(a: int, b: int): int { if a <= b then a else b }
  function Max(a: int, b: int): int { if a >= b then a else b }

  /** Python's `str.isspace()` for one character. */
  predicate IsSpace(c: char) {
    c == ' ' || c == '\t' || c == '\n' || c == '\r' || c == '\U{0B}' || c == '\U{0C}'
    || ('\U{1C}' <= c <= '\U{1F}') || c == '\U{85}' || c == '\U{A0}' || c == '\U{1680}'
    || ('\U{2000}' <= c <= '\U{200A}') || c == '\U{2028}' || c == '\U{2029}'
    || c == '\U{202F}' || c == '\U{205F}' || c == '\U{3000}'
  }

  predicate AllSpace(s: string) {
    forall i :: 0 <= i < |s| ==> IsSpace(s[i])
  }

  /** `s.lstrip()`: drops the leading whitespace. */
  function TrimStart(s: string): (r: string)
    ensures |r| <= |s|
    ensures r == [] || !IsSpace(r[0])
  {
    if s != [] && IsSpace(s[0]) then TrimStart(s[1..]) else s
  }

  /** What `lstrip` drops is whitespace, and what it keeps is the rest of `s` unchanged. */
  lemma {:induction false} TrimStartShape(s: string)
    ensures var r := TrimStart(s);
      r == s[|s| - |r|..] && forall i :: 0 <= i < |s| - |r| ==> IsSpace(s[i])
    decreases |s|
  {
    if s != [] && IsSpace(s[0]) {
      TrimStartShape(s[1..]);
      var r := TrimStart(s);
      assert s[1..][|s| - 1 - |r|..] == s[|s| - |r|..];
      forall i | 0 < i < |s| - |r|
        ensures IsSpace(s[i])
      {
        assert s[i] == s[1..][i - 1];
      }
    }
  }

  /** `s.rstrip()`: drops the trailing whitespace. */
  function TrimEnd(s: string): (r: string)
    ensures |r| <= |s|
    ensures r == [] || !IsSpace(r[|r| - 1])
  {
    if s != [] && IsSpace(s[|s| - 1]) then TrimEnd(s[..|s| - 1]) else s
  }

  /** What `rstrip` drops is whitespace, and what it keeps is the start of `s` unchanged. */
  lemma {:induction false} TrimEndShape(s: string)
    ensures var r := TrimEnd(s);
      r == s[..|r|] && forall i :: |r| <= i < |s| ==> IsSpace(s[i])
    decreases |s|
  {
    if s != [] && IsSpace(s[|s| - 1]) {
      TrimEndShape(s[..|s| - 1]);
      var r := TrimEnd(s);
      assert s[..|s| - 1][..|r|] == s[..|r|];
      forall i | |r| <= i < |s| - 1
        ensures IsSpace(s[i])
      {
        assert s[i] == s[..|s| - 1][i];
      }
    }
  }

  /** `s.strip()`: empty exactly when `s` is all whitespace, otherwise with non-blank ends. */
  function Strip(s: string): (r: string)
    ensures |r| <= |s|
    ensures r == [] <==> AllSpace(s)
    ensures r != [] ==> !IsSpace(r[0]) && !IsSpace(r[|r| - 1])
  {
    StripShape(s);
    TrimEnd(TrimStart(s))
  }

  /** Stripping keeps a non-blank text's first non-blank character first. */
  lemma StripShape(s: string)
    ensures var a := TrimStart(s); var r := TrimEnd(a);
      (r == [] <==> AllSpace(s)) && (r != [] ==> !IsSpace(r[0]))
  {
    var a := TrimStart(s);
    TrimStartShape(s);
    TrimEndShape(a);
    var r := TrimEnd(a);
    if r == [] {
      forall i | 0 <= i < |s|
        ensures IsSpace(s[i])
      {
        if i >= |s| - |a| {
          assert s[i] == a[i - (|s| - |a|)];
        }
      }
    } else {
      assert r[0] == a[0];
      assert !AllSpace(s) by {
        assert s[|s| - |a|] == a[0];
      }
    }
  }

  /** Stripping adds no character. */
  lemma StripKeepsOut(s: string, c: char)
    requires c !in s
    ensures c !in Strip(s)
  {
    var a := TrimStart(s);
    TrimStartShape(s);
    TrimEndShape(a);
    forall k | 0 <= k < |a|
      ensures a[k] != c
    {
      assert a[k] == s[|s| - |a|..][k] == s[|s| - |a| + k];
    }
    var b := TrimEnd(a);
    forall k | 0 <= k < |b|
      ensures b[k] != c
    {
      assert b[k] == a[..|b|][k];
    }
  }

  /** Python's `s[:n]` for a non-negative `n`: the first `min(n, |s|)` elements. */
  function Take<T>(s: seq<T>, n: nat): (r: seq<T>)
    ensures |r| == Min(n, |s|) && r == s[..|r|]
  {
    if n <= |s| then s[..n] else s
  }

  /** Python's `s[:k]` for any integer `k`: a negative `k` drops the last `-k` elements. */
  function SliceTo<T>(s: seq<T>, k: int): (r: seq<T>)
    ensures |r| <= |s| && r == s[..|r|]
    ensures k >= 0 ==> |r| == Min(k, |s|)
    ensures k < 0 ==> |r| == Max(|s| + k, 0)
  {
    if k >= 0 then Take(s, k) else Take(s, Max(|s| + k, 0))
  }

  predicate StartsWith(s: string, p: string) {
    |p| <= |s| && s[..|p|] == p
  }

  /** The middle piece of a three-part concatenation, cut back out. */
  lemma MiddleSlice(p: string, m: string, q: string)
    ensures (p + m + q)[|p|..][..|m|] == m
  {
    assert (p + m + q)[|p|..] == m + q;
  }

  /** A prefix of `s` is a prefix of anything `s` starts. */
  lemma StartsWithAppend(s: string, t: string, p: string)
    requires StartsWith(s, p)
    ensures StartsWith(s + t, p)
  {
    assert (s + t)[..|p|] == s[..|p|];
  }

  /** Python's `p in s` on strings. */
  predicate Contains(s: string, p: string)
    decreases |s|
  {
    StartsWith(s, p) || (s != [] && Contains(s[1..], p))
  }

  lemma {:induction false} ContainsNeedsRoom(s: string, p: string)
    ensures Contains(s, p) ==> |p| <= |s|
    decreases |s|
  {
    if s != [] {
      ContainsNeedsRoom(s[1..], p);
    }
  }

  /** Text found in `s` is still found after appending to `s`. */
  lemma {:induction false} ContainsAppend(s: string, c: string, p: string)
    requires Contains(s, p)
    ensures Contains(s + c, p)
    decreases |s|
  {
    if StartsWith(s, p) {
      assert (s + c)[..|p|] == s[..|p|];
    } else {
      assert (s + c)[1..] == s[1..] + c;
      ContainsAppend(s[1..], c, p);
    }
  }

  /** Text found in `s` is still found after prepending to `s`. */
  lemma {:induction false} ContainsPrepend(a: string, s: string, p: string)
    requires Contains(s, p)
    ensures Contains(a + s, p)
    decreases |a|
  {
    if a != [] {
      assert (a + s)[1..] == a[1..] + s;
      ContainsPrepend(a[1..], s, p);
    } else {
      assert a + s == s;
    }
  }

  /** The middle piece of a concatenation is found in it. */
  lemma ContainsMiddle(a: string, p: string, c: string)
    ensures Contains(a + p + c, p)
  {
    assert (p + c)[..|p|] == p;
    assert StartsWith(p + c, p);
    ContainsPrepend(a, p + c, p);
    assert a + (p + c) == a + p + c;
  }

  /** Text found in one piece is found in the joined text. */
  lemma {:induction false} JoinContains(ps: seq<string>, sep: string, k: nat, p: string)
    requires k < |ps| && Contains(ps[k], p)
    ensures Contains(Join(ps, sep), p)
    decreases |ps|
  {
    if |ps| == 1 {
    } else if k == 0 {
      ContainsAppend(ps[0], sep + Join(ps[1..], sep), p);
      assert ps[0] + (sep + Join(ps[1..], sep)) == Join(ps, sep);
    } else {
      JoinContains(ps[1..], sep, k - 1, p);
      ContainsPrepend(ps[0] + sep, Join(ps[1..], sep), p);
    }
  }

  /** Python's `s.count(p)`: non-overlapping occurrences, scanning from the left. */
  function Count(s: string, p: string): (n: nat)
    ensures p != [] ==> n * |p| <= |s|
    ensures p != [] ==> (n > 0 <==> Contains(s, p))
    decreases |s|
  {
    if p == [] then |s| + 1
    else if |s| < |p| then
      ContainsNeedsRoom(s, p); 0
    else if s[..|p|] == p then 1 + Count(s[|p|..], p)
    else Count(s[1..], p)
  }

  /** Concatenation of all pieces: Python's `"".join(ps)`. */
  function Concat(ps: seq<string>): string {
    if ps == [] then "" else ps[0] + Concat(ps[1..])
  }

  /** The characters of `s` that are not separators, in order. */
  function Keep(s: string, isSep: char -> bool): (r: string)
    ensures |r| <= |s|
    ensures forall j :: 0 <= j < |r| ==> !isSep(r[j])
  {
    if s == [] then "" else (if isSep(s[0]) then "" else [s[0]]) + Keep(s[1..], isSep)
  }

  /** Filtering a concatenation filters each part. */
  lemma {:induction false} KeepAppend(a: string, b: string, drop: char -> bool)
    ensures Keep(a + b, drop) == Keep(a, drop) + Keep(b, drop)
    decreases |a|
  {
    if a != [] {
      assert (a + b)[1..] == a[1..] + b;
      KeepAppend(a[1..], b, drop);
    } else {
      assert a + b == b;
    }
  }

  /** Filtering a text that has nothing to drop changes nothing. */
  lemma {:induction false} KeepNothingToDrop(s: string, drop: char -> bool)
    requires NoneMatch(s, drop)
    ensures Keep(s, drop) == s
    decreases |s|
  {
    if s != [] {
      KeepNothingToDrop(s[1..], drop);
    }
  }

  function CountWhere(s: string, isSep: char -> bool): nat {
    if s == [] then 0 else (if isSep(s[0]) then 1 else 0) + CountWhere(s[1..], isSep)
  }

  /**
   * `re.split("[...]", s)` / `s.split(c)` on separator characters: one more piece
   * than separators, no piece holds a separator, and the pieces concatenate to
   * the non-separator characters of `s`.
   */
  function Split(s: string, isSep: char -> bool): (r: seq<string>)
    ensures |r| == 1 + CountWhere(s, isSep)
    ensures forall i, j :: 0 <= i < |r| && 0 <= j < |r[i]| ==> !isSep(r[i][j])
    ensures Concat(r) == Keep(s, isSep)
  {
    if s == [] then [""]
    else
      var rest := Split(s[1..], isSep);
      if isSep(s[0]) then [""] + rest
      else
        assert rest == [rest[0]] + rest[1..];
        [[s[0]] + rest[0]] + rest[1..]
  }

  /** Python's `sep.join(ps)`. */
  function Join(ps: seq<string>, sep: string): string {
    if |ps| == 0 then "" else if |ps| == 1 then ps[0] else ps[0] + sep + Join(ps[1..], sep)
  }

  /** Appending a piece to a non-empty list appends the separator and the piece to the joined text. */
  lemma {:induction false} JoinSnoc(ps: seq<string>, x: string, sep: string)
    requires ps != []
    ensures Join(ps + [x], sep) == Join(ps, sep) + sep + x
  {
    if |ps| == 1 {
      assert ps + [x] == [ps[0], x];
    } else {
      assert (ps + [x])[1..] == ps[1..] + [x];
      JoinSnoc(ps[1..], x, sep);
    }
  }

  predicate IsNewline(c: char) { c == '\n' }

  predicate NoneMatch(s: string, isSep: char -> bool) {
    forall j :: 0 <= j < |s| ==> !isSep(s[j])
  }

  lemma {:induction false} SplitNoSeparator(a: string, isSep: char -> bool)
    requires NoneMatch(a, isSep)
    ensures Split(a, isSep) == [a]
  {
    if a != [] {
      assert NoneMatch(a[1..], isSep);
      SplitNoSeparator(a[1..], isSep);
      assert a == [a[0]] + a[1..];
    }
  }

  lemma {:induction false} SplitAfterPiece(a: string, c: char, w: string, isSep: char -> bool)
    requires NoneMatch(a, isSep) && isSep(c)
    ensures Split(a + [c] + w, isSep) == [a] + Split(w, isSep)
  {
    if a == [] {
      assert a + [c] + w == [c] + w;
      assert ([c] + w)[1..] == w;
    } else {
      var t := a + [c] + w;
      assert t[0] == a[0] && !isSep(t[0]);
      assert t[1..] == a[1..] + [c] + w;
      assert NoneMatch(a[1..], isSep);
      SplitAfterPiece(a[1..], c, w, isSep);
      assert [a[0]] + a[1..] == a;
    }
  }

  /** Splitting a joined text on the one-character separator gives back the pieces (`"\n".join` then `split("\n")`). */
  lemma {:induction false} SplitJoinRoundTrip(ps: seq<string>, c: char, isSep: char -> bool)
    requires ps != [] && isSep(c)
    requires forall i :: 0 <= i < |ps| ==> NoneMatch(ps[i], isSep)
    ensures Split(Join(ps, [c]), isSep) == ps
  {
    if |ps| == 1 {
      SplitNoSeparator(ps[0], isSep);
    } else {
      SplitJoinRoundTrip(ps[1..], c, isSep);
      SplitAfterPiece(ps[0], c, Join(ps[1..], [c]), isSep);
      assert ps == [ps[0]] + ps[1..];
    }
  }

  /** `"\n".join(lines).split("\n") == lines` for lines without a newline. */
  lemma LinesSplitBack(lines: seq<string>)
    requires lines != []
    requires forall k :: 0 <= k < |lines| ==> '\n' !in lines[k]
    ensures Split(Join(lines, "\n"), IsNewline) == lines
  {
    assert forall k :: 0 <= k < |lines| ==> NoneMatch(lines[k], IsNewline);
    SplitJoinRoundTrip(lines, '\n', IsNewline);
  }

  // ----- decimal formatting -----

  predicate IsDigit(c: char) { '0' <= c <= '9' }

  predicate AllDigits(s: string) {
    forall i :: 0 <= i < |s| ==> IsDigit(s[i])
  }

  function DigitChar(d: nat): (c: char)
    requires d < 10
    ensures IsDigit(c)
  {
    (48 + d) as char
  }

  function DigitValue(c: char): (d: nat)
    requires IsDigit(c)
    ensures d < 10
  {
    (c as int) - 48
  }

  /** Python's `str(n)` for a non-negative integer. */
  function NatToString(n: nat): (r: string)
    ensures |r| >= 1 && AllDigits(r)
    decreases n
  {
    if n < 10 then [DigitChar(n)] else NatToString(n / 10) + [DigitChar(n % 10)]
  }

  /** Python's `str(i)` for any integer. */
  function IntToString(i: int): (r: string)
    ensures r != [] && (r[0] == '-' <==> i < 0)
  {
    if i < 0 then "-" + NatToString(-i) else NatToString(i)
  }

  /** The number a string of decimal digits denotes (what `int(s)` reads back). */
  function DecimalValue(s: string): nat
    requires AllDigits(s)
    decreases |s|
  {
    if s == [] then 0 else 10 * DecimalValue(s[..|s| - 1]) + DigitValue(s[|s| - 1])
  }

  /** Reading back `str(n)` gives `n`. */
  lemma {:induction false} NatToStringRoundTrip(n: nat)
    ensures DecimalValue(NatToString(n)) == n
    decreases n
  {
    if n >= 10 {
      var s := NatToString(n);
      var prefix := NatToString(n / 10);
      assert s[..|s| - 1] == prefix;
      NatToStringRoundTrip(n / 10);
    }
  }

  function Zeros(k: nat): (r: string)
    ensures |r| == k && AllDigits(r)
  {
    if k == 0 then "" else "0" + Zeros(k - 1)
  }

  lemma {:induction false} LeadingZeroIgnored(s: string)
    requires AllDigits(s)
    ensures DecimalValue("0" + s) == DecimalValue(s)
    decreases |s|
  {
    if s != [] {
      assert ("0" + s)[..|"0" + s| - 1] == "0" + s[..|s| - 1];
      LeadingZeroIgnored(s[..|s| - 1]);
    }
  }

  lemma {:induction false} LeadingZerosIgnored(k: nat, s: string)
    requires AllDigits(s)
    ensures DecimalValue(Zeros(k) + s) == DecimalValue(s)
  {
    if k > 0 {
      var rest := Zeros(k - 1) + s;
      assert AllDigits(rest);
      LeadingZerosIgnored(k - 1, s);
      assert Zeros(k) + s == "0" + rest;
      LeadingZeroIgnored(rest);
    } else {
      assert Zeros(k) + s == s;
    }
  }

  /** Python's `f"{n:0{width}d}"` for a non-negative `n`: zero-padded to at least `width` digits. */
  function ZeroPad(n: nat, width: nat): (r: string)
    ensures AllDigits(r) && |r| == Max(width, |NatToString(n)|)
    ensures DecimalValue(r) == n
  {
    var digits := NatToString(n);
    NatToStringRoundTrip(n);
    var pad := if width > |digits| then width - |digits| else 0;
    LeadingZerosIgnored(pad, digits);
    Zeros(pad) + digits
  }

  /** Python's `f"{n:02d}"` for a non-negative `n`. */
  function Pad2(n: nat): (r: string)
    ensures AllDigits(r) && |r| >= 2 && DecimalValue(r) == n
  {
    ZeroPad(n, 2)
  }

  /** Python's `f"{i:02d}"` for any integer: the sign counts towards the width. */
  function Pad2Int(i: int): (r: string)
    ensures |r| >= 2
  {
    if i < 0 then "-" + NatToString(-i) else Pad2(i)
  }

  /** A non-negative number is zero-padded; a negative one is a minus sign and the digits of its magnitude. */
  lemma Pad2IntShape(i: int)
    ensures i >= 0 ==> Pad2Int(i) == Pad2(i)
    ensures i < 0 ==> Pad2Int(i)[0] == '-' && AllDigits(Pad2Int(i)[1..]) && DecimalValue(Pad2Int(i)[1..]) == -i
  {
    if i < 0 {
      var d := NatToString(-i);
      NatToStringRoundTrip(-i);
      assert Pad2Int(i) == "-" + d;
      assert ("-" + d)[1..] == d;
    }
  }

  /** Distinct numbers give distinct `{:02d}` names, so numbered files never collide. */
  lemma Pad2IntInjective(a: int, b: int)
    requires a != b
    ensures Pad2Int(a) != Pad2Int(b)
  {
    Pad2IntShape(a);
    Pad2IntShape(b);
    if a >= 0 && b >= 0 {
      assert DecimalValue(Pad2Int(a)) != DecimalValue(Pad2Int(b));
    } else if a < 0 && b < 0 {
      assert DecimalValue(Pad2Int(a)[1..]) != DecimalValue(Pad2Int(b)[1..]);
    } else {
      assert Pad2Int(a)[0] != Pad2Int(b)[0];
    }
  }

  /** The part of a `/`-separated path after its last `/` (`Path(p).name` for a plain file path). */
  function BaseName(p: string): (r: string)
    ensures |r| <= |p|
    decreases |p|
  {
    if p == [] || p[|p| - 1] == '/' then ""
    else BaseName(p[..|p| - 1]) + [p[|p| - 1]]
  }

  /** The base name is the tail of the path after its last `/`, and holds no `/`. */
  lemma {:induction false} BaseNameIsLastComponent(p: string)
    ensures var r := BaseName(p);
      r == p[|p| - |r|..] && (forall j :: 0 <= j < |r| ==> r[j] != '/')
      && (|r| < |p| ==> p[|p| - |r| - 1] == '/')
    decreases |p|
  {
    if p != [] && p[|p| - 1] != '/' {
      var q, c := p[..|p| - 1], p[|p| - 1];
      BaseNameIsLastComponent(q);
      var rq := BaseName(q);
      var r := rq + [c];
      assert BaseName(p) == r;
      assert p == q + [c];
      assert q[|q| - |rq|..] + [c] == p[|p| - |r|..];
      forall j | 0 <= j < |r|
        ensures r[j] != '/'
      {
        if j < |rq| {
          assert r[j] == rq[j];
        }
      }
      if |r| < |p| {
        assert p[|p| - |r| - 1] == q[|q| - |rq| - 1];
      }
    }
  }

  // ----- numbers -----

  function RMin(a: real, b: real): real { if a <= b then a else b }
  function RMax(a: real, b: real): real { if a >= b then a else b }

  /** Python's `int(x)` on a float: truncation toward zero. */
  function Trunc(x: real): int {
    if x >= 0.0 then x.Floor else -((-x).Floor)
  }

  /** `int(x)` is the integer part of `x`: at most `x` above zero, at least `x` below. */
  lemma TruncBounds(x: real)
    ensures x >= 0.0 ==> Trunc(x) as real <= x < Trunc(x) as real + 1.0
    ensures x < 0.0 ==> Trunc(x) as real - 1.0 < x <= Trunc(x) as real
  {
  }

  lemma TruncMonotone(x: real, y: real)
    requires 0.0 <= x <= y
    ensures 0 <= Trunc(x) <= Trunc(y)
  {
    TruncBounds(x);
    TruncBounds(y);
  }

  lemma ScaleMonotone(x: real, y: real, f: real)
    requires x <= y && f >= 0.0
    ensures x * f <= y * f
  {
    assert y * f - x * f == (y - x) * f;
  }
}
