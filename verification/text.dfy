/** The string operations the source uses: a digit-only regular expression,
    `isNaN` on route parameters, `toLowerCase`, `includes` and `split(c)[0]`. */
module Text {

  predicate IsDigit(c: char)
  {
    '0' <= c <= '9'
  }

  /** `/^\d+$/.test(s)`: a non-empty string of ASCII digits. */
  predicate DigitString(s: string)
  {
    |s| > 0 && forall i :: 0 <= i < |s| ==> IsDigit(s[i])
  }

  /** The text after an optional leading sign. */
  function Unsigned(s: string): string
  {
    if |s| > 0 && (s[0] == '+' || s[0] == '-') then s[1..] else s
  }

  /** `Number(s)` is a number, for texts in plain decimal notation: an optional
      sign, then digits with at most one decimal point, and at least one digit. */
  predicate NumberText(s: string)
  {
    var u := Unsigned(s);
    && (forall i :: 0 <= i < |u| ==> IsDigit(u[i]) || u[i] == '.')
    && (forall i, j :: 0 <= i < j < |u| && u[i] == '.' ==> u[j] != '.')
    && (exists i :: 0 <= i < |u| && IsDigit(u[i]))
  }

  /** The value of a run of decimal digits, most significant first. */
  function DigitsValue(s: string): nat
    requires forall i :: 0 <= i < |s| ==> IsDigit(s[i])
  {
    if s == [] then 0
    else
      assert IsDigit(s[|s| - 1]);
      DigitsValue(s[..|s| - 1]) * 10 + (s[|s| - 1] as int - '0' as int)
  }

  /** The guard `!id || isNaN(id)` of the controllers. */
  predicate NotAnId(id: string)
  {
    id == "" || !NumberText(id)
  }

  /** `toLowerCase` on one character (ASCII letters only). */
  function LowerChar(c: char): char
  {
    if 'A' <= c <= 'Z' then (c as int + 32) as char else c
  }

  /** `s.toLowerCase()`. */
  function Lower(s: string): (r: string)
    ensures |r| == |s|
  {
    seq(|s|, i requires 0 <= i < |s| => LowerChar(s[i]))
  }

  /** `q` occurs in `s` starting at index `i`. */
  predicate OccursAt(s: string, q: string, i: int)
  {
    0 <= i && i + |q| <= |s| && s[i..i + |q|] == q
  }

  /** `s.includes(q)`. */
  predicate Includes(s: string, q: string)
  {
    exists i :: 0 <= i <= |s| && OccursAt(s, q, i)
  }

  /** `s.split(c)[0]`: everything before the first `c`. */
  function BeforeFirst(s: string, c: char): string
  {
    if s == [] then []
    else if s[0] == c then []
    else [s[0]] + BeforeFirst(s[1..], c)
  }

  /** The result of `split(c)[0]` is the longest prefix without `c`: a prefix
      of `s` that contains no `c` and is either all of `s` or followed by `c`. */
  lemma {:induction false} BeforeFirstIsPrefix(s: string, c: char)
    ensures var r := BeforeFirst(s, c);
      && r <= s
      && c !in r
      && (|r| == |s| || s[|r|] == c)
  {
    if s != [] && s[0] != c {
      BeforeFirstIsPrefix(s[1..], c);
    }
  }

  /** A digit string passes the controllers' `isNaN` guard as well. */
  lemma DigitStringIsNumber(s: string)
    requires DigitString(s)
    ensures !NotAnId(s)
  {
    assert Unsigned(s) == s;
    assert IsDigit(s[0]);
  }

  /** Every string includes the empty string. */
  lemma IncludesEmpty(s: string)
    ensures Includes(s, "")
  {
    assert OccursAt(s, "", 0);
  }

  /** Lower-casing twice is lower-casing once. */
  lemma LowerIdempotent(s: string)
    ensures Lower(Lower(s)) == Lower(s)
  {
  }
}
