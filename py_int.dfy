/** Python's `str(n)` for an `int`: its canonical decimal spelling, and the
    value a decimal spelling denotes, so that the spelling can be shown to
    lose nothing. */
module PyInt {

  predicate IsDigit(c: char)
  {
    '0' <= c <= '9'
  }

  predicate AllDigits(s: string)
  {
    forall k :: 0 <= k < |s| ==> IsDigit(s[k])
  }

  /** A spelling `int(s)` accepts and `str` could produce: an optional minus
      sign, then digits with no leading zero, and no "-0". */
  predicate IsCanonicalDecimal(s: string)
  {
    var digits := if |s| > 0 && s[0] == '-' then s[1..] else s;
    && |digits| > 0
    && AllDigits(digits)
    && (digits[0] == '0' ==> s == "0")
  }

  function DigitChar(d: int): (c: char)
    requires 0 <= d < 10
    ensures IsDigit(c) && c as int - '0' as int == d
  {
    (d + '0' as int) as char
  }

  function DigitsOf(n: nat): (s: string)
    ensures |s| > 0 && AllDigits(s)
    ensures s[0] == '0' ==> n == 0
  {
    if n < 10 then [DigitChar(n)] else DigitsOf(n / 10) + [DigitChar(n % 10)]
  }

  /** `str(n)`. */
  function Repr(n: int): (s: string)
    ensures IsCanonicalDecimal(s)
  {
    if n < 0 then "-" + DigitsOf(-n) else DigitsOf(n)
  }

  /** The number a string of digits denotes. */
  function DigitsValue(s: string): nat
    requires AllDigits(s)
  {
    if s == [] then 0
    else DigitsValue(s[..|s| - 1]) * 10 + (s[|s| - 1] as int - '0' as int)
  }

  /** `int(s)` for a canonical decimal spelling. */
  function DecimalValue(s: string): int
    requires IsCanonicalDecimal(s)
  {
    if s[0] == '-' then 0 - DigitsValue(s[1..]) as int else DigitsValue(s)
  }

  lemma {:induction false} DigitsRoundTrip(n: nat)
    ensures DigitsValue(DigitsOf(n)) == n
  {
    if n >= 10 {
      var s := DigitsOf(n);
      assert s[..|s| - 1] == DigitsOf(n / 10);
      DigitsRoundTrip(n / 10);
    }
  }

  /** `str(n)` is read back as `n`: the request parameter carries the number
      unchanged. */
  lemma ReprRoundTrip(n: int)
    ensures DecimalValue(Repr(n)) == n
  {
    if n < 0 {
      DigitsRoundTrip(-n);
      assert Repr(n)[1..] == DigitsOf(-n);
    } else {
      DigitsRoundTrip(n);
    }
  }

  /** A digit string without a leading zero (other than "0" itself) is the
      spelling DigitsOf gives to the number it denotes. */
  lemma {:induction false} DigitsCanonical(s: string)
    requires |s| > 0 && AllDigits(s) && (s[0] == '0' ==> s == "0")
    ensures DigitsOf(DigitsValue(s)) == s
  {
    var n := |s| - 1;
    var init := s[..n];
    var d := s[n] as int - '0' as int;
    if n == 0 {
      assert init == [];
      assert DigitsValue(s) == d;
      assert [DigitChar(d)] == s;
    } else {
      assert init[0] == s[0];
      DigitsCanonical(init);
      var v := DigitsValue(s);
      assert v == DigitsValue(init) * 10 + d;
      assert v / 10 == DigitsValue(init) && v % 10 == d;
      assert DigitChar(d) == s[n];
      assert s == init + [s[n]];
    }
  }

  /** A canonical decimal spelling is `str` of the number it denotes, so the
      spelling of a number is unique. */
  lemma ReprOfDecimalValue(s: string)
    requires IsCanonicalDecimal(s)
    ensures Repr(DecimalValue(s)) == s
  {
    if s[0] == '-' {
      var digits := s[1..];
      DigitsCanonical(digits);
      assert s == "-" + digits;
    } else {
      DigitsCanonical(s);
    }
  }

  /** Distinct numbers have distinct spellings. */
  lemma ReprInjective(m: int, n: int)
    requires Repr(m) == Repr(n)
    ensures m == n
  {
    ReprRoundTrip(m);
    ReprRoundTrip(n);
  }
}
