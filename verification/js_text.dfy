/**
 * The JavaScript string operations the server and the dashboard rely on:
 * `trim` and the `\s` class, `toLowerCase` on ASCII letters, `includes`,
 * `startsWith`, `split` on one character, number-to-string conversion and
 * `Math.round` applied to a non-negative ratio.
 */
module JsText {

  /** The characters `String.prototype.trim` strips and the regex class `\s` matches:
      WhiteSpace (tab, VT, FF, space, NBSP, BOM and the Zs category) and LineTerminator. */
  predicate IsWhitespace(c: char) {
    c == '\t' || c == '\n' || c == '\U{000B}' || c == '\U{000C}' || c == '\r' || c == ' ' ||
    c == '\U{00A0}' || c == '\U{1680}' || ('\U{2000}' <= c <= '\U{200A}') ||
    c == '\U{2028}' || c == '\U{2029}' || c == '\U{202F}' || c == '\U{205F}' ||
    c == '\U{3000}' || c == '\U{FEFF}'
  }

  /** The characters the regex `.` refuses to match (no `s` flag). */
  predicate IsLineTerminator(c: char) {
    c == '\n' || c == '\r' || c == '\U{2028}' || c == '\U{2029}'
  }

  /** The all-lower-case property names a plain object literal answers through
      `Object.prototype`, so `obj[key]` is truthy for them although `obj` never declared them. */
  const INHERITED_LOWERCASE_KEYS: set<string> := {"constructor", "__proto__"}

  /** A string with no whitespace at either end. */
  predicate IsTrimmed(s: string) {
    s == [] || (!IsWhitespace(s[0]) && !IsWhitespace(s[|s| - 1]))
  }

  /** A string made only of whitespace (`!s.trim()` in JavaScript). */
  predicate IsBlank(s: string) {
    forall i :: 0 <= i < |s| ==> IsWhitespace(s[i])
  }

  /** How many whitespace characters `s` starts with. */
  function LeadingBlank(s: string): (n: nat)
    ensures n <= |s| && (n < |s| ==> !IsWhitespace(s[n]))
    ensures forall i :: 0 <= i < n ==> IsWhitespace(s[i])
  {
    if |s| > 0 && IsWhitespace(s[0]) then 1 + LeadingBlank(s[1..]) else 0
  }

  /** How many whitespace characters `s` ends with. */
  function TrailingBlank(s: string): (n: nat)
    ensures n <= |s| && (n < |s| ==> !IsWhitespace(s[|s| - 1 - n]))
    ensures forall i :: |s| - n <= i < |s| ==> IsWhitespace(s[i])
  {
    if |s| > 0 && IsWhitespace(s[|s| - 1]) then 1 + TrailingBlank(s[..|s| - 1]) else 0
  }

  /** `s.trim()`: the longest substring that neither starts nor ends with whitespace. */
  function Trim(s: string): (r: string)
    ensures IsTrimmed(r)
    ensures exists i :: OccursAt(s, r, i)
    ensures r == [] <==> IsBlank(s)
  {
    var a := LeadingBlank(s);
    var t := s[a..];
    var r := t[..|t| - TrailingBlank(t)];
    assert r == s[a..a + |r|];
    assert OccursAt(s, r, a);
    r
  }

  /** `trim` removes whitespace only: the string is some whitespace, the result, then some
      whitespace. Since the result is itself trimmed, it is the longest such middle part. */
  lemma TrimRemovesOnlyBlank(s: string)
    ensures exists i :: OccursAt(s, Trim(s), i) && IsBlank(s[..i]) && IsBlank(s[i + |Trim(s)|..])
  {
    var a, b := TrimSlices(s);
    assert OccursAt(s, Trim(s), a);
  }

  /** `Trim(s)` is the slice of `s` between its leading and its trailing whitespace. */
  lemma TrimSlices(s: string) returns (a: nat, b: nat)
    ensures a + b <= |s| && Trim(s) == s[a..|s| - b]
    ensures IsBlank(s[..a]) && IsBlank(s[|s| - b..])
  {
    a := LeadingBlank(s);
    var t := s[a..];
    b := TrailingBlank(t);
    BlankPrefix(s, a);
    BlankSuffix(t, b);
    assert s[|s| - b..] == t[|t| - b..];
    assert Trim(s) == t[..|t| - b] == s[a..|s| - b];
  }

  lemma BlankPrefix(s: string, n: nat)
    requires n <= |s| && forall i :: 0 <= i < n ==> IsWhitespace(s[i])
    ensures IsBlank(s[..n])
  {
    assert forall i :: 0 <= i < n ==> s[..n][i] == s[i];
  }

  lemma BlankSuffix(s: string, n: nat)
    requires n <= |s| && forall i :: |s| - n <= i < |s| ==> IsWhitespace(s[i])
    ensures IsBlank(s[|s| - n..])
  {
    var t := s[|s| - n..];
    forall i | 0 <= i < |t| ensures IsWhitespace(t[i]) {
      assert t[i] == s[|s| - n + i];
    }
  }


  lemma TrimOfTrimmed(s: string)
    requires IsTrimmed(s)
    ensures Trim(s) == s
  {
  }

  lemma TrimIdempotent(s: string)
    ensures Trim(Trim(s)) == Trim(s)
  {
    TrimOfTrimmed(Trim(s));
  }

  function LowerChar(c: char): char {
    if 'A' <= c <= 'Z' then (c as int + 32) as char else c
  }

  /** `s.toLowerCase()` restricted to ASCII letters; every other character is kept. */
  function Lower(s: string): (r: string)
    ensures |r| == |s|
    ensures forall i :: 0 <= i < |s| ==> r[i] == LowerChar(s[i])
  {
    seq(|s|, i requires 0 <= i < |s| => LowerChar(s[i]))
  }

  lemma LowerIdempotent(s: string)
    ensures Lower(Lower(s)) == Lower(s)
  {
  }

  lemma LowerSlice(s: string, i: int, j: int)
    requires 0 <= i <= j <= |s|
    ensures Lower(s[i..j]) == Lower(s)[i..j]
  {
  }

  /** `sub` occurs in `s` starting at index `i`. */
  predicate OccursAt(s: string, sub: string, i: int) {
    0 <= i && i + |sub| <= |s| && s[i..i + |sub|] == sub
  }

  /** `s.includes(sub)`. */
  predicate Contains(s: string, sub: string) {
    exists i | 0 <= i <= |s| - |sub| :: OccursAt(s, sub, i)
  }

  /** `s.startsWith(p)`. */
  predicate StartsWith(s: string, p: string) {
    |p| <= |s| && s[..|p|] == p
  }

  /** `s.endsWith(p)`. */
  predicate EndsWith(s: string, p: string) {
    |p| <= |s| && s[|s| - |p|..] == p
  }

  /** Lower-casing both sides keeps an occurrence. */
  lemma ContainsLower(s: string, sub: string)
    requires Contains(s, sub)
    ensures Contains(Lower(s), Lower(sub))
  {
    var i :| 0 <= i <= |s| - |sub| && OccursAt(s, sub, i);
    LowerSlice(s, i, i + |sub|);
    assert OccursAt(Lower(s), Lower(sub), i);
  }

  /** How many of `needles` occur in `text`; a needle listed twice counts twice. */
  function CountContained(needles: seq<string>, text: string): (n: nat)
    ensures n <= |needles|
    ensures n == |needles| <==> forall k :: k in needles ==> Contains(text, k)
    ensures n == 0 <==> forall k :: k in needles ==> !Contains(text, k)
  {
    if needles == [] then 0
    else
      var init, last := needles[..|needles| - 1], needles[|needles| - 1];
      assert needles == init + [last];
      CountContained(init, text) + (if Contains(text, last) then 1 else 0)
  }

  /** A `forEach` over `needles` that increments a counter for every needle `text` includes. */
  method CountIncluded(needles: seq<string>, text: string) returns (count: nat)
    ensures count == CountContained(needles, text)
    ensures count <= |needles|
  {
    count := 0;
    for i := 0 to |needles|
      invariant count == CountContained(needles[..i], text)
    {
      assert needles[..i + 1][..i] == needles[..i];
      if Contains(text, needles[i]) {
        count := count + 1;
      }
    }
    assert needles[..|needles|] == needles;
  }

  /** `s.split(sep)` for a one-character separator: the pieces between separators, empty ones included. */
  function Split(s: string, sep: char): (r: seq<string>)
    ensures |r| >= 1
  {
    if s == [] then [""]
    else
      var rest := Split(s[1..], sep);
      if s[0] == sep then [""] + rest else [[s[0]] + rest[0]] + rest[1..]
  }

  /** The pieces put back together with the separator between them (`parts.join(sep)`). */
  function Join(parts: seq<string>, sep: char): string
    requires parts != []
  {
    if |parts| == 1 then parts[0] else parts[0] + [sep] + Join(parts[1..], sep)
  }

  /** Splitting and joining with the same separator gives the string back. */
  lemma {:induction false} SplitJoin(s: string, sep: char)
    ensures Join(Split(s, sep), sep) == s
  {
    if s != [] {
      var rest := Split(s[1..], sep);
      SplitJoin(s[1..], sep);
      if s[0] == sep {
        assert Split(s, sep) == [""] + rest;
        assert ([""] + rest)[1..] == rest;
        assert s == [sep] + s[1..];
      } else {
        var parts := [[s[0]] + rest[0]] + rest[1..];
        assert Split(s, sep) == parts;
        if |rest| == 1 {
          assert Join(parts, sep) == [s[0]] + rest[0];
        } else {
          assert parts[1..] == rest[1..];
          assert Join(parts, sep) == [s[0]] + rest[0] + [sep] + Join(rest[1..], sep);
        }
        assert s == [s[0]] + s[1..];
      }
    }
  }

  /** The first piece of a split is a prefix of the string. */
  lemma {:induction false} SplitHeadIsPrefix(s: string, sep: char)
    ensures StartsWith(s, Split(s, sep)[0])
  {
    if s != [] && s[0] != sep {
      SplitHeadIsPrefix(s[1..], sep);
    }
  }

  /** An occurrence in the tail is an occurrence one place further on. */
  lemma OccursShift(s: string, sub: string, i: int)
    requires s != [] && OccursAt(s[1..], sub, i)
    ensures OccursAt(s, sub, i + 1) && Contains(s, sub)
  {
    assert s[i + 1..i + 1 + |sub|] == s[1..][i..i + |sub|];
    assert 0 <= i + 1 <= |s| - |sub| && OccursAt(s, sub, i + 1);
  }

  /** Every piece of a split occurs in the string, and no piece holds the separator. */
  lemma {:induction false} SplitPiecesOccur(s: string, sep: char)
    ensures forall k :: 0 <= k < |Split(s, sep)| ==> Contains(s, Split(s, sep)[k])
    ensures forall k :: 0 <= k < |Split(s, sep)| ==> sep !in Split(s, sep)[k]
  {
    var r := Split(s, sep);
    if s == [] {
      assert OccursAt(s, r[0], 0);
    } else {
      var rest := Split(s[1..], sep);
      SplitPiecesOccur(s[1..], sep);
      SplitHeadIsPrefix(s[1..], sep);
      forall k | 0 <= k < |r|
        ensures Contains(s, r[k]) && sep !in r[k]
      {
        if s[0] == sep {
          if k == 0 {
            assert OccursAt(s, r[0], 0);
          } else {
            var i :| 0 <= i <= |s[1..]| - |rest[k - 1]| && OccursAt(s[1..], rest[k - 1], i);
            OccursShift(s, r[k], i);
          }
        } else {
          if k == 0 {
            assert r[0] == [s[0]] + rest[0];
            assert s[..|r[0]|] == [s[0]] + s[1..][..|rest[0]|];
            assert OccursAt(s, r[0], 0);
            var i :| 0 <= i <= |s[1..]| - |rest[0]| && OccursAt(s[1..], rest[0], i);
            assert sep !in rest[0];
          } else {
            assert r[k] == rest[k];
            var i :| 0 <= i <= |s[1..]| - |rest[k]| && OccursAt(s[1..], rest[k], i);
            OccursShift(s, r[k], i);
          }
        }
      }
    }
  }

  function DigitChar(d: nat): char
    requires d < 10
  {
    ('0' as int + d) as char
  }

  predicate IsDigitString(s: string) {
    forall i :: 0 <= i < |s| ==> '0' <= s[i] <= '9'
  }

  /** The number a string of decimal digits denotes, most significant digit first. */
  function DigitsValue(s: string): nat
    requires IsDigitString(s)
  {
    if s == [] then 0
    else 10 * DigitsValue(s[..|s| - 1]) + (s[|s| - 1] as int - '0' as int)
  }

  /** The decimal text of a non-negative integer, as template literals print it: digits that
      denote the number, with no leading zero. */
  function DecimalString(n: nat): (r: string)
    ensures |r| >= 1 && IsDigitString(r)
    ensures DigitsValue(r) == n
    ensures |r| > 1 ==> r[0] != '0'
  {
    if n < 10 then [DigitChar(n)]
    else
      var r := DecimalString(n / 10) + [DigitChar(n % 10)];
      assert r[..|r| - 1] == DecimalString(n / 10);
      r
  }

  /** `Math.round(num / den)` for `num >= 0`: the nearest integer, halves rounded up. */
  function RoundHalfUp(num: nat, den: nat): (r: nat)
    requires den > 0
    ensures 2 * den * r <= 2 * num + den < 2 * den * (r + 1)
  {
    (2 * num + den) / (2 * den)
  }

  lemma MulMonotone(d: nat, a: int, b: int)
    requires a <= b
    ensures d * a <= d * b
  {
  }

  /** Euclidean division is determined by any quotient/remainder pair. */
  lemma DivUnique(a: int, b: int, q: int, r: int)
    requires b > 0 && 0 <= r < b && a == b * q + r
    ensures a / b == q
  {
    var k := a / b - q;
    assert b * k == r - a % b by {
      assert a == b * (a / b) + a % b;
    }
    if k >= 1 {
      MulMonotone(b, 1, k);
    } else if k <= -1 {
      MulMonotone(b, k, -1);
    }
  }

  /** Rounding is monotone in the numerator. */
  lemma RoundHalfUpMonotone(a: nat, b: nat, den: nat)
    requires den > 0 && a <= b
    ensures RoundHalfUp(a, den) <= RoundHalfUp(b, den)
  {
    var ra, rb := RoundHalfUp(a, den), RoundHalfUp(b, den);
    if ra > rb {
      MulMonotone(2 * den, rb + 1, ra);
    }
  }

  /** A whole multiple rounds to itself. */
  lemma RoundHalfUpExact(q: nat, den: nat)
    requires den > 0
    ensures RoundHalfUp(q * den, den) == q
  {
    DivUnique(2 * (q * den) + den, 2 * den, q, den);
  }

  /** `Math.round(part / whole * 100)` for `part <= whole` lies in [0, 100], and it is 100
      exactly when `part == whole` provided `whole < 200` (otherwise 199.5/200 would round up). */
  lemma PercentBounds(part: nat, whole: nat)
    requires 0 < whole < 200 && part <= whole
    ensures RoundHalfUp(100 * part, whole) <= 100
    ensures RoundHalfUp(100 * part, whole) == 100 <==> part == whole
  {
    RoundHalfUpMonotone(100 * part, 100 * whole, whole);
    RoundHalfUpExact(100, whole);
    if part < whole {
      var r := RoundHalfUp(100 * part, whole);
      assert 2 * (100 * part) + whole <= 200 * whole - 200 + whole;
      assert 2 * whole * r < 2 * whole * 100;
    }
  }
}
