/**
 * String helpers standing for the JavaScript string operations the dashboard
 * uses: toLowerCase, includes, startsWith, Array.prototype.join, number
 * formatting with Math.round and toFixed(1).
 */
module Text {

  /** Lower-cases one character (only the ASCII letters A-Z are folded). */
  function Lower(c: char): char {
    if 'A' <= c <= 'Z' then (c as int + 32) as char else c
  }

  predicate IsUpper(c: char) {
    'A' <= c <= 'Z'
  }

  /** String.prototype.toLowerCase, restricted to ASCII. */
  function ToLower(s: string): (r: string)
    ensures |r| == |s|
    ensures forall i :: 0 <= i < |s| ==> r[i] == Lower(s[i])
    ensures forall i :: 0 <= i < |r| ==> !IsUpper(r[i])
  {
    seq(|s|, i requires 0 <= i < |s| => Lower(s[i]))
  }

  lemma ToLowerIdempotent(s: string)
    ensures ToLower(ToLower(s)) == ToLower(s)
  {
    var once := ToLower(s);
    assert forall i :: 0 <= i < |once| ==> Lower(once[i]) == once[i];
  }

  predicate StartsWith(s: string, prefix: string) {
    |prefix| <= |s| && s[..|prefix|] == prefix
  }

  /** `needle` occurs in `hay` starting at position `i`. */
  predicate OccursAt(hay: string, needle: string, i: nat) {
    i + |needle| <= |hay| && hay[i..i + |needle|] == needle
  }

  /** String.prototype.includes, written as the scan it performs. */
  predicate Contains(hay: string, needle: string)
    decreases |hay|
  {
    StartsWith(hay, needle) || (|hay| > 0 && Contains(hay[1..], needle))
  }

  /** The scan finds the needle exactly when it occurs at some position. */
  lemma {:induction false} ContainsIffOccurs(hay: string, needle: string)
    ensures Contains(hay, needle) <==> exists i :: OccursAt(hay, needle, i)
    decreases |hay|
  {
    if StartsWith(hay, needle) {
      assert OccursAt(hay, needle, 0);
    } else if |hay| > 0 {
      ContainsIffOccurs(hay[1..], needle);
      if Contains(hay[1..], needle) {
        var j: nat :| OccursAt(hay[1..], needle, j);
        assert hay[j + 1..j + 1 + |needle|] == hay[1..][j..j + |needle|];
        assert OccursAt(hay, needle, j + 1);
      }
      if i: nat :| OccursAt(hay, needle, i) {
        assert i != 0;
        assert hay[1..][i - 1..i - 1 + |needle|] == hay[i..i + |needle|];
        assert OccursAt(hay[1..], needle, i - 1);
      }
    }
  }

  /** A needle found at a known position is found by the scan. */
  lemma ContainsAt(hay: string, needle: string, i: nat)
    requires OccursAt(hay, needle, i)
    ensures Contains(hay, needle)
  {
    ContainsIffOccurs(hay, needle);
  }

  /** The empty search string is found in every string. */
  lemma ContainsEmpty(hay: string)
    ensures Contains(hay, "")
  {
    assert StartsWith(hay, "");
  }

  /** Array.prototype.join over strings: [] gives "", [a] gives a. */
  function Join(parts: seq<string>, sep: string): (r: string)
    ensures |parts| == 1 ==> r == parts[0]
  {
    if |parts| == 0 then ""
    else if |parts| == 1 then parts[0]
    else parts[0] + sep + Join(parts[1..], sep)
  }

  /** A character found neither in the parts nor in the separator is absent from their join. */
  lemma {:induction false} JoinAvoids(parts: seq<string>, sep: string, c: char)
    requires forall i :: 0 <= i < |parts| ==> c !in parts[i]
    requires c !in sep
    ensures c !in Join(parts, sep)
  {
    if |parts| > 1 {
      JoinAvoids(parts[1..], sep, c);
    }
  }

  /** Number of occurrences of `c` in `s`. */
  function CountChar(s: string, c: char): nat {
    if s == [] then 0 else (if s[0] == c then 1 else 0) + CountChar(s[1..], c)
  }

  lemma {:induction false} CountCharAppend(a: string, b: string, c: char)
    ensures CountChar(a + b, c) == CountChar(a, c) + CountChar(b, c)
  {
    if a == [] {
      assert a + b == b;
    } else {
      assert (a + b)[1..] == a[1..] + b;
      CountCharAppend(a[1..], b, c);
    }
  }

  lemma CountCharAbsent(s: string, c: char)
    requires c !in s
    ensures CountChar(s, c) == 0
  {
    if s != [] {
      assert c !in s[1..];
      CountCharAbsent(s[1..], c);
    }
  }

  /**
   * Joining parts that do not contain the one-character separator gives a
   * string with exactly one separator between consecutive parts.
   */
  lemma {:induction false} JoinSeparatorCount(parts: seq<string>, c: char)
    requires |parts| > 0
    requires forall i :: 0 <= i < |parts| ==> c !in parts[i]
    ensures CountChar(Join(parts, [c]), c) == |parts| - 1
  {
    CountCharAbsent(parts[0], c);
    if |parts| > 1 {
      JoinSeparatorCount(parts[1..], c);
      CountCharAppend(parts[0], [c], c);
      CountCharAppend(parts[0] + [c], Join(parts[1..], [c]), c);
      assert CountChar([c], c) == 1 by {
        assert [c][1..] == [];
      }
    }
  }

  function DigitChar(d: nat): char
    requires d < 10
  {
    ('0' as int + d) as char
  }

  predicate IsDigit(c: char) {
    '0' <= c <= '9'
  }

  /** Decimal representation of a natural number, as Number.prototype.toString prints it. */
  function NatToString(n: nat): (r: string)
    ensures |r| >= 1
    ensures forall i :: 0 <= i < |r| ==> IsDigit(r[i])
    decreases n
  {
    if n < 10 then [DigitChar(n)] else NatToString(n / 10) + [DigitChar(n % 10)]
  }

  /** Value of a string of decimal digits. */
  function DigitsValue(s: string): nat
    requires forall i :: 0 <= i < |s| ==> IsDigit(s[i])
  {
    if s == [] then 0
    else
      assert IsDigit(s[|s| - 1]);
      10 * DigitsValue(s[..|s| - 1]) + (s[|s| - 1] as int - '0' as int)
  }

  /** Reading the printed digits back gives the number: the printing loses nothing. */
  lemma {:induction false} NatToStringRoundTrip(n: nat)
    ensures DigitsValue(NatToString(n)) == n
    decreases n
  {
    if n >= 10 {
      var s := NatToString(n);
      assert s[..|s| - 1] == NatToString(n / 10);
      NatToStringRoundTrip(n / 10);
    }
  }

  /** Decimal representation of an integer, with a leading '-' when negative. */
  function IntToString(i: int): (r: string)
    ensures i < 0 <==> (|r| > 0 && r[0] == '-')
    ensures '\n' !in r && ',' !in r
  {
    if i < 0 then "-" + NatToString(-i) else NatToString(i)
  }

  /** Math.round: the nearest integer, halves rounded up. */
  function Round(x: real): (r: int)
    ensures x - 0.5 < r as real <= x + 0.5
  {
    (x + 0.5).Floor
  }

  /**
   * Number.prototype.toFixed(1): the magnitude is rounded to tenths (a tie
   * takes the larger magnitude) and a '-' is put in front of a negative input.
   */
  function ToFixed1(x: real): (r: string)
    ensures x < 0.0 <==> (|r| > 0 && r[0] == '-')
  {
    if x < 0.0 then "-" + FixedTenths(-x) else FixedTenths(x)
  }

  function FixedTenths(y: real): (r: string)
    requires y >= 0.0
    ensures |r| >= 3 && IsDigit(r[0]) && r[|r| - 2] == '.'
  {
    var n := (y * 10.0 + 0.5).Floor;
    NatToString(n / 10) + "." + [DigitChar(n % 10)]
  }
}
