/** The string formatting the runner relies on: Go's `%v` of an integer,
    `%s` of a `[]string`, and the facts about them the naming scheme needs. */
module Strings {

  predicate IsDigit(c: char) {
    '0' <= c <= '9'
  }

  /** `sub` occurs in `s` starting at index `i`. */
  predicate OccursAt(sub: string, s: string, i: nat) {
    i + |sub| <= |s| && s[i..i + |sub|] == sub
  }

  /** `sub` occurs somewhere in `s`. */
  ghost predicate Contains(s: string, sub: string) {
    exists i: nat :: OccursAt(sub, s, i)
  }

  /** The middle part of a concatenation occurs in it. */
  lemma ContainsMiddle(a: string, b: string, c: string)
    ensures Contains(a + b + c, b)
  {
    assert OccursAt(b, a + b + c, |a|) by {
      assert (a + b + c)[|a|..|a| + |b|] == b;
    }
  }

  function DigitChar(d: nat): (c: char)
    requires d < 10
    ensures IsDigit(c) && c as int - '0' as int == d
  {
    ('0' as int + d) as char
  }

  /** Decimal rendering of a natural number, as `%v` prints it: no sign, no leading zeros. */
  function NatToString(n: nat): (s: string)
    ensures |s| >= 1
    ensures n >= 10 ==> |s| >= 2
    ensures forall i :: 0 <= i < |s| ==> IsDigit(s[i])
    decreases n
  {
    if n < 10 then [DigitChar(n)] else NatToString(n / 10) + [DigitChar(n % 10)]
  }

  /** `%v` of a signed integer (a Go int64 such as a nanosecond timestamp). */
  function IntToString(i: int): (r: string)
    ensures |r| >= 1
    ensures r[0] == '-' <==> i < 0
    ensures forall k :: (if i < 0 then 1 else 0) <= k < |r| ==> IsDigit(r[k])
  {
    if i < 0 then "-" + NatToString(-i) else NatToString(i)
  }

  /** Different numbers render differently. */
  lemma {:induction false} NatToStringInjective(m: nat, n: nat)
    requires NatToString(m) == NatToString(n)
    ensures m == n
    decreases m
  {
    var a, b := NatToString(m), NatToString(n);
    if m >= 10 && n >= 10 {
      assert NatToString(m / 10) == a[..|a| - 1];
      assert NatToString(n / 10) == b[..|b| - 1];
      NatToStringInjective(m / 10, n / 10);
      assert DigitChar(m % 10) == a[|a| - 1] == DigitChar(n % 10);
    }
  }

  /** Length of the run of decimal digits at the start of `s`. */
  ghost function LeadingDigits(s: string): (k: nat)
    ensures k <= |s|
    ensures forall i :: 0 <= i < k ==> IsDigit(s[i])
    ensures k < |s| ==> !IsDigit(s[k])
  {
    if |s| == 0 || !IsDigit(s[0]) then 0 else 1 + LeadingDigits(s[1..])
  }

  /** A digit string followed by a separator is recognised back from the joined string. */
  lemma {:induction false} LeadingDigitsOfField(digits: string, rest: string)
    requires forall i :: 0 <= i < |digits| ==> IsDigit(digits[i])
    ensures LeadingDigits(digits + "-" + rest) == |digits|
  {
    if |digits| > 0 {
      assert (digits + "-" + rest)[1..] == digits[1..] + "-" + rest;
      LeadingDigitsOfField(digits[1..], rest);
    }
  }

  /** A leading number field, ended by `-`, determines the number whatever follows it. */
  lemma NumberFieldInjective(m: nat, n: nat, rest1: string, rest2: string)
    requires NatToString(m) + "-" + rest1 == NatToString(n) + "-" + rest2
    ensures m == n
  {
    var a, b := NatToString(m), NatToString(n);
    var s := a + "-" + rest1;
    LeadingDigitsOfField(a, rest1);
    LeadingDigitsOfField(b, rest2);
    assert a == s[..|a|];
    assert b == s[..|b|];
    NatToStringInjective(m, n);
  }

  /** The elements joined by single spaces. */
  function JoinSpaced(xs: seq<string>): (r: string)
    ensures |xs| == 0 ==> r == ""
    ensures |xs| > 0 ==> xs[0] <= r
  {
    if |xs| == 0 then "" else if |xs| == 1 then xs[0] else xs[0] + " " + JoinSpaced(xs[1..])
  }

  /** `sub` occurring at `i` in `s` occurs at `|a| + i` in `a + s`. */
  lemma OccursShift(sub: string, a: string, s: string, i: nat)
    requires OccursAt(sub, s, i)
    ensures OccursAt(sub, a + s, |a| + i)
  {
    assert (a + s)[|a| + i..|a| + i + |sub|] == s[i..i + |sub|];
  }

  /** Every element occurs in the joined string. */
  lemma {:induction false} JoinSpacedContainsAll(xs: seq<string>)
    ensures forall k :: 0 <= k < |xs| ==> Contains(JoinSpaced(xs), xs[k])
  {
    if |xs| == 1 {
      assert OccursAt(xs[0], JoinSpaced(xs), 0);
    } else if |xs| > 1 {
      var a := xs[0] + " ";
      var rest := JoinSpaced(xs[1..]);
      assert JoinSpaced(xs) == a + rest;
      JoinSpacedContainsAll(xs[1..]);
      forall k | 0 <= k < |xs| ensures Contains(JoinSpaced(xs), xs[k]) {
        if k == 0 {
          assert OccursAt(xs[0], JoinSpaced(xs), 0);
        } else {
          assert xs[k] == xs[1..][k - 1];
          var i: nat :| OccursAt(xs[k], rest, i);
          OccursShift(xs[k], a, rest, i);
        }
      }
    }
  }

  /** `%s` of a `[]string`: the elements in brackets, separated by spaces. */
  function FormatStrings(xs: seq<string>): (r: string)
    ensures |xs| > 0 ==> OccursAt(xs[0], r, 1)
  {
    "[" + JoinSpaced(xs) + "]"
  }
}
