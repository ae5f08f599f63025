/**
 * The string operations the calculator applies to every answer before it
 * looks at it: Python's `str.strip()`, `str.lower()`, `int(...)` and
 * `float(...)`, together with the decimal rendering of integers that the
 * parsers invert.
 */
module Text {
  import opened Wrappers

  /** The characters for which Python's `str.isspace()` holds, which `str.strip()` removes. */
  predicate IsSpace(c: char) {
    var n := c as int;
    n == 0x20 || 0x09 <= n <= 0x0D || 0x1C <= n <= 0x1F || n == 0x85 || n == 0xA0 ||
    n == 0x1680 || 0x2000 <= n <= 0x200A || n == 0x2028 || n == 0x2029 ||
    n == 0x202F || n == 0x205F || n == 0x3000
  }

  predicate AllSpace(s: string) {
    forall i :: 0 <= i < |s| ==> IsSpace(s[i])
  }

  /** `s` neither starts nor ends with white space. */
  predicate Trimmed(s: string) {
    s == [] || (!IsSpace(s[0]) && !IsSpace(s[|s| - 1]))
  }

  /** The number of white-space characters at the front of `s`. */
  function LeadingSpace(s: string): (n: nat)
    ensures n <= |s|
    ensures forall i :: 0 <= i < n ==> IsSpace(s[i])
    ensures n < |s| ==> !IsSpace(s[n])
  {
    if |s| > 0 && IsSpace(s[0]) then 1 + LeadingSpace(s[1..]) else 0
  }

  /** The number of white-space characters at the back of `s`. */
  function TrailingSpace(s: string): (n: nat)
    ensures n <= |s|
    ensures forall i :: |s| - n <= i < |s| ==> IsSpace(s[i])
    ensures n < |s| ==> !IsSpace(s[|s| - n - 1])
  {
    if |s| > 0 && IsSpace(s[|s| - 1]) then 1 + TrailingSpace(s[..|s| - 1]) else 0
  }

  /** Python's `s.strip()`: the text between the leading and the trailing white space. */
  function Strip(s: string): (r: string)
    ensures Trimmed(r)
    ensures |r| <= |s|
  {
    var t := s[LeadingSpace(s)..];
    t[..|t| - TrailingSpace(t)]
  }

  lemma {:induction false} LeadingSpaceOfPadded(w: string, rest: string)
    requires AllSpace(w)
    requires rest == [] || !IsSpace(rest[0])
    ensures LeadingSpace(w + rest) == |w|
  {
    if w != [] {
      assert (w + rest)[1..] == w[1..] + rest;
      LeadingSpaceOfPadded(w[1..], rest);
    }
  }

  lemma {:induction false} TrailingSpaceOfPadded(rest: string, w: string)
    requires AllSpace(w)
    requires rest == [] || !IsSpace(rest[|rest| - 1])
    ensures TrailingSpace(rest + w) == |w|
  {
    if w != [] {
      assert (rest + w)[..|rest + w| - 1] == rest + w[..|w| - 1];
      TrailingSpaceOfPadded(rest, w[..|w| - 1]);
    }
  }

  /**
   * Strip removes exactly the surrounding white space: a trimmed text padded
   * on either side with any white space strips back to itself. Since every
   * string is such a padding of its stripped form, this determines Strip.
   */
  lemma StripOfPadded(left: string, core: string, right: string)
    requires AllSpace(left) && AllSpace(right) && Trimmed(core)
    ensures Strip(left + core + right) == core
  {
    var s := left + core + right;
    if core == [] {
      assert s == (left + right) + [];
      LeadingSpaceOfPadded(left + right, []);
    } else {
      assert s == left + (core + right);
      LeadingSpaceOfPadded(left, core + right);
      assert s[|left|..] == core + right;
      TrailingSpaceOfPadded(core, right);
      assert (core + right)[..|core|] == core;
    }
  }

  /** A text without surrounding white space strips to itself. */
  lemma StripTrimmed(s: string)
    requires Trimmed(s)
    ensures Strip(s) == s
  {
    StripOfPadded([], s, []);
    assert [] + s + [] == s;
  }

  /** Python's `str.lower()` on one character, for the ASCII letters. */
  function LowerChar(c: char): char {
    if 'A' <= c <= 'Z' then (c as int + 32) as char else c
  }

  /** Python's `s.lower()`, for the ASCII letters. */
  function Lower(s: string): (r: string)
    ensures |r| == |s|
    ensures forall i :: 0 <= i < |s| ==> r[i] == LowerChar(s[i])
  {
    if s == [] then [] else [LowerChar(s[0])] + Lower(s[1..])
  }

  /** `s` spells `word` with any of its letters in either case. */
  predicate SpellsIgnoringCase(s: string, word: string) {
    && |s| == |word|
    && forall i :: 0 <= i < |s| ==> s[i] == word[i] || ('a' <= word[i] <= 'z' && s[i] as int == word[i] as int - 32)
  }

  /** For a word without capitals, `s.lower() == word` holds exactly when `s` spells it in any case. */
  lemma LowerEqualsWord(s: string, word: string)
    requires forall i :: 0 <= i < |word| ==> !('A' <= word[i] <= 'Z')
    ensures Lower(s) == word <==> SpellsIgnoringCase(s, word)
  {
    if SpellsIgnoringCase(s, word) {
      assert forall i :: 0 <= i < |s| ==> Lower(s)[i] == word[i];
    }
    if Lower(s) == word {
      assert forall i :: 0 <= i < |s| ==> Lower(s)[i] == word[i];
    }
  }

  predicate IsDigit(c: char) {
    '0' <= c <= '9'
  }

  predicate AllDigits(s: string) {
    forall i :: 0 <= i < |s| ==> IsDigit(s[i])
  }

  function DigitValue(c: char): (d: nat)
    requires IsDigit(c)
    ensures d < 10
  {
    c as int - '0' as int
  }

  function DigitChar(d: nat): (c: char)
    requires d < 10
    ensures IsDigit(c) && DigitValue(c) == d
  {
    ('0' as int + d) as char
  }

  /** The number a string of decimal digits denotes, most significant digit first. */
  function DigitsValue(s: string): nat
    requires AllDigits(s)
  {
    if s == [] then 0 else DigitsValue(s[..|s| - 1]) * 10 + DigitValue(s[|s| - 1])
  }

  /** Python's `int(s)` on a stripped string: an optional sign and at least one ASCII digit. */
  function ParseInt(s: string): Option<int> {
    if |s| > 0 && (s[0] == '+' || s[0] == '-') then
      if |s| > 1 && AllDigits(s[1..]) then
        var magnitude: int := DigitsValue(s[1..]);
        Some(if s[0] == '-' then -magnitude else magnitude)
      else None
    else if |s| > 0 && AllDigits(s) then Some(DigitsValue(s))
    else None
  }

  /** The decimal rendering of `n` (Python's `str(n)`). */
  function NatText(n: nat): (r: string)
    ensures |r| > 0 && AllDigits(r)
  {
    if n < 10 then [DigitChar(n)] else NatText(n / 10) + [DigitChar(n % 10)]
  }

  function IntText(n: int): (r: string)
    ensures |r| > 0
  {
    if n < 0 then "-" + NatText(-n) else NatText(n)
  }

  lemma {:induction false} NatTextValue(n: nat)
    ensures DigitsValue(NatText(n)) == n
  {
    if n >= 10 {
      var s := NatText(n);
      assert s[..|s| - 1] == NatText(n / 10);
      NatTextValue(n / 10);
    }
  }

  /** The rendering of an integer contains no white space, so stripping leaves it alone. */
  lemma IntTextTrimmed(n: int)
    ensures Trimmed(IntText(n))
    ensures Strip(IntText(n)) == IntText(n)
  {
    var s := IntText(n);
    assert !IsSpace(s[0]) && !IsSpace(s[|s| - 1]);
    StripTrimmed(s);
  }

  /** Round trip: `int(str(n)) == n` for every integer. */
  lemma ParseIntText(n: int)
    ensures ParseInt(IntText(n)) == Some(n)
  {
    var s := IntText(n);
    if n < 0 {
      var digits := NatText(-n);
      NatTextValue(-n);
      assert s == "-" + digits;
      assert s[0] == '-' && s[1..] == digits;
      assert AllDigits(s[1..]) && DigitsValue(s[1..]) == -n;
    } else {
      NatTextValue(n);
      assert IsDigit(s[0]);
      assert s[0] != '+' && s[0] != '-';
    }
  }

  /** A leading zero does not change the value of a string of digits. */
  lemma {:induction false} DigitsValueLeadingZero(s: string)
    requires AllDigits(s)
    ensures AllDigits("0" + s) && DigitsValue("0" + s) == DigitsValue(s)
  {
    var z := "0" + s;
    assert AllDigits(z) by {
      forall i | 0 <= i < |z| ensures IsDigit(z[i]) {
        if i > 0 {
          assert z[i] == s[i - 1];
        }
      }
    }
    if s != [] {
      assert z[..|z| - 1] == "0" + s[..|s| - 1];
      assert z[|z| - 1] == s[|s| - 1];
      DigitsValueLeadingZero(s[..|s| - 1]);
    }
  }

  /**
   * `int()` accepts more than the canonical rendering: surrounding white space
   * (removed by strip), a `+` sign and leading zeros all leave the value as it is.
   */
  lemma ParseIntSpellings(left: string, n: int, right: string)
    requires AllSpace(left) && AllSpace(right)
    ensures ParseInt(Strip(left + IntText(n) + right)) == Some(n)
    ensures n >= 0 ==> ParseInt("+" + NatText(n)) == Some(n)
    ensures n >= 0 ==> ParseInt("0" + NatText(n)) == Some(n)
  {
    IntTextTrimmed(n);
    StripOfPadded(left, IntText(n), right);
    ParseIntText(n);
    if n >= 0 {
      NatTextValue(n);
      var digits := NatText(n);
      assert ("+" + digits)[0] == '+' && ("+" + digits)[1..] == digits;
      DigitsValueLeadingZero(digits);
      assert ("0" + digits)[0] == '0';
    }
  }

  function Pow10(k: nat): (p: nat)
    ensures p >= 1
  {
    if k == 0 then 1 else 10 * Pow10(k - 1)
  }

  /** The position of the first `.` in `s`, if any. */
  function PointIndex(s: string): (r: Option<nat>)
    ensures r.Some? ==> r.value < |s| && s[r.value] == '.' && forall j :: 0 <= j < r.value ==> s[j] != '.'
    ensures r.None? ==> forall j :: 0 <= j < |s| ==> s[j] != '.'
  {
    if s == [] then None
    else if s[0] == '.' then Some(0)
    else match PointIndex(s[1..])
      case None => None
      case Some(k) => Some(k + 1)
  }

  /** An unsigned decimal numeral: digits, optionally one `.` and more digits, at least one digit in all. */
  function ParseUnsignedDecimal(s: string): Option<real> {
    match PointIndex(s)
    case None =>
      if |s| > 0 && AllDigits(s) then Some(DigitsValue(s) as real) else None
    case Some(i) =>
      var whole, fraction := s[..i], s[i + 1..];
      if AllDigits(whole) && AllDigits(fraction) && |whole| + |fraction| > 0 then
        Some(DigitsValue(whole) as real + DigitsValue(fraction) as real / Pow10(|fraction|) as real)
      else None
  }

  /** Python's `float(s)` on a stripped string, for plain decimal numerals with an optional sign. */
  function ParseReal(s: string): Option<real> {
    if |s| > 0 && (s[0] == '+' || s[0] == '-') then
      match ParseUnsignedDecimal(s[1..])
      case None => None
      case Some(x) => Some(if s[0] == '-' then -x else x)
    else ParseUnsignedDecimal(s)
  }

  /** Every text `int` accepts, `float` accepts too, with the same value. */
  lemma ParseRealOfInt(s: string)
    requires ParseInt(s).Some?
    ensures ParseReal(s) == Some(ParseInt(s).value as real)
  {
  }

  /** So in particular `float(str(n)) == n`. */
  lemma ParseRealText(n: int)
    ensures ParseReal(IntText(n)) == Some(n as real)
  {
    ParseIntText(n);
    ParseRealOfInt(IntText(n));
  }
}
