/**
 * The JavaScript value semantics the core relies on: numbers (with NaN), truthiness and the
 * `a || b` defaulting idiom, `toLowerCase`, `includes`, `parseInt` and number-to-string.
 */
module Js {
  import opened Wrappers

  /** A JavaScript number as the core stores it: an integer, or NaN. */
  datatype Num = N(v: int) | NaN

  /** A number is truthy unless it is 0 or NaN. */
  predicate NumTruthy(n: Num) {
    n.N? && n.v != 0
  }

  /** An optional string is truthy when present and non-empty. */
  predicate StrTruthy(o: Option<string>) {
    o.Some? && o.value != ""
  }

  /** An optional flag is truthy only when present and `true`. */
  predicate IsTrue(o: Option<bool>) {
    o == Some(true)
  }

  /** An optional number is truthy when present and truthy. */
  predicate OptNumTruthy(o: Option<Num>) {
    o.Some? && NumTruthy(o.value)
  }

  /** `o || d` on an optional string. */
  function OrStr(o: Option<string>, d: string): (s: string)
    ensures StrTruthy(o) ==> s == o.value
    ensures !StrTruthy(o) ==> s == d
  {
    if StrTruthy(o) then o.value else d
  }

  /** `o || d` on an optional number. */
  function OrNum(o: Option<Num>, d: Num): (n: Num)
    ensures OptNumTruthy(o) ==> n == o.value
    ensures !OptNumTruthy(o) ==> n == d
  {
    if OptNumTruthy(o) then o.value else d
  }

  /** `String.prototype.toLowerCase` on one character; only ASCII letters are folded. */
  function LowerChar(c: char): char {
    if 'A' <= c <= 'Z' then (c as int + 32) as char else c
  }

  /** `s.toLowerCase()`. */
  function Lower(s: string): (r: string)
    ensures |r| == |s|
    ensures forall i :: 0 <= i < |s| ==> r[i] == LowerChar(s[i])
  {
    if s == [] then [] else [LowerChar(s[0])] + Lower(s[1..])
  }

  /** Lower-casing a lower-cased string changes nothing. */
  lemma LowerIdempotent(s: string)
    ensures Lower(Lower(s)) == Lower(s)
  {
  }

  /** `!s.trim()`: the text is empty once blanks (space, tab, line breaks) are trimmed. */
  predicate EmBranco(s: string) {
    forall i :: 0 <= i < |s| ==> s[i] in {' ', '\t', '\n', '\r'}
  }

  /** `s.includes(t)`: `t` occurs in `s` as a contiguous substring. */
  predicate Contains(s: string, t: string) {
    exists i :: 0 <= i <= |s| && OccursAt(s, t, i)
  }

  /** `t` occurs in `s` starting at index `i`. */
  predicate OccursAt(s: string, t: string, i: nat) {
    i + |t| <= |s| && s[i..i + |t|] == t
  }

  /** Every string includes the empty string. */
  lemma ContainsEmpty(s: string)
    ensures Contains(s, "")
  {
    assert OccursAt(s, "", 0);
  }

  predicate IsDigit(c: char) {
    '0' <= c <= '9'
  }

  /** The longest prefix of `s` made of decimal digits. */
  function DigitPrefix(s: string): (r: string)
    ensures |r| <= |s| && r == s[..|r|]
    ensures forall i :: 0 <= i < |r| ==> IsDigit(r[i])
    ensures |r| < |s| ==> !IsDigit(s[|r|])
  {
    if s == [] || !IsDigit(s[0]) then [] else [s[0]] + DigitPrefix(s[1..])
  }

  /** The value of a string of decimal digits, most significant first. */
  function DigitsValue(d: string): nat
    requires forall i :: 0 <= i < |d| ==> IsDigit(d[i])
  {
    if d == [] then 0
    else
      assert IsDigit(d[|d| - 1]);
      DigitsValue(d[..|d| - 1]) * 10 + (d[|d| - 1] as int - '0' as int)
  }

  /**
   * `parseInt(s)` as the inspector's number inputs use it: an optional sign, then the longest
   * run of digits; NaN when there is no digit. (Number inputs never yield leading blanks.)
   */
  function ParseInt(s: string): (r: Num)
    ensures r.NaN? <==> DigitPrefix(if |s| > 0 && (s[0] == '-' || s[0] == '+') then s[1..] else s) == []
  {
    var signed := |s| > 0 && (s[0] == '-' || s[0] == '+');
    var digits := DigitPrefix(if signed then s[1..] else s);
    if digits == [] then NaN
    else if |s| > 0 && s[0] == '-' then N(0 - DigitsValue(digits) as int)
    else N(DigitsValue(digits))
  }

  /** The decimal digits of a natural number. */
  function ShowNat(n: nat): (r: string)
    ensures |r| > 0
    ensures forall i :: 0 <= i < |r| ==> IsDigit(r[i])
  {
    if n < 10 then [('0' as int + n) as char] else ShowNat(n / 10) + [('0' as int + n % 10) as char]
  }

  /** `String(n)` for an integer: the value an `<input type="number">` displays. */
  function ShowInt(n: int): string {
    if n < 0 then "-" + ShowNat(-n) else ShowNat(n)
  }

  lemma {:induction false} DigitsValueShowNat(n: nat)
    ensures DigitsValue(ShowNat(n)) == n
  {
    var s := ShowNat(n);
    if n >= 10 {
      DigitsValueShowNat(n / 10);
      assert s[..|s| - 1] == ShowNat(n / 10);
    }
  }

  lemma {:induction false} DigitPrefixAllDigits(s: string)
    requires forall i :: 0 <= i < |s| ==> IsDigit(s[i])
    ensures DigitPrefix(s) == s
  {
    if s != [] {
      DigitPrefixAllDigits(s[1..]);
    }
  }

  /**
   * Re-entering the number a numeric input displays stores that same number: `parseInt`
   * inverts `String` on integers.
   */
  lemma ParseIntShowInt(n: int)
    ensures ParseInt(ShowInt(n)) == N(n)
  {
    var m: nat := if n < 0 then -n else n;
    DigitPrefixAllDigits(ShowNat(m));
    DigitsValueShowNat(m);
    if n < 0 {
      assert ShowInt(n)[1..] == ShowNat(m);
    } else {
      assert ShowNat(m)[0] != '-' && ShowNat(m)[0] != '+';
    }
  }
}
