/**
 * Java's 32-bit `int` as the account-number derivation uses it:
 * `Integer.parseInt` (radix 10), `+ 1` with wrap-around, and the decimal
 * text that string concatenation (`Integer.toString`) produces.
 */
module JavaInt {
  import opened Types

  const INT_MIN: int := -0x8000_0000
  const INT_MAX: int := 0x7fff_ffff

  predicate IsInt32(x: int) {
    INT_MIN <= x <= INT_MAX
  }

  /** Two's-complement wrap-around of an exact integer result into `int`. */
  function Wrap32(x: int): (r: int)
    ensures IsInt32(r)
    ensures IsInt32(x) ==> r == x
    ensures (x - r) % 0x1_0000_0000 == 0
  {
    (x - INT_MIN) % 0x1_0000_0000 + INT_MIN
  }

  predicate IsDigit(c: char) {
    '0' <= c <= '9'
  }

  predicate AllDigits(s: string) {
    forall k :: 0 <= k < |s| ==> IsDigit(s[k])
  }

  function DigitValue(c: char): nat
    requires IsDigit(c)
  {
    c as int - '0' as int
  }

  function DigitChar(d: nat): char
    requires d < 10
  {
    ('0' as int + d) as char
  }

  /** The shortest decimal text of `n` (no sign, no leading zeros). */
  function DecimalString(n: nat): (s: string)
    ensures |s| >= 1 && AllDigits(s)
    ensures |s| > 1 ==> s[0] != '0'
  {
    if n < 10 then [DigitChar(n)] else DecimalString(n / 10) + [DigitChar(n % 10)]
  }

  /** The value of a run of decimal digits, most significant first; leading zeros are allowed. */
  function ParseDigits(s: string): nat
    requires AllDigits(s)
  {
    if s == [] then 0 else ParseDigits(s[..|s| - 1]) * 10 + DigitValue(s[|s| - 1])
  }

  lemma {:induction false} DecimalRoundTrip(n: nat)
    ensures ParseDigits(DecimalString(n)) == n
  {
    if n >= 10 {
      var s := DecimalString(n);
      assert s[..|s| - 1] == DecimalString(n / 10);
      DecimalRoundTrip(n / 10);
    }
  }

  /** `Integer.toString(i)`, which is what `i + ""` yields. */
  function ToString(i: int): (s: string)
    ensures |s| >= 1
    ensures s[0] == '-' <==> i < 0
    ensures i >= 0 ==> AllDigits(s)
    ensures i < 0 ==> s[1..] == DecimalString(-i)
    ensures i >= 0 ==> s == DecimalString(i)
  {
    if i < 0 then "-" + DecimalString(-i) else DecimalString(i)
  }

  /**
   * `Integer.parseInt(s)`: an optional `-` or `+` followed by at least one
   * digit, whose value lies in the `int` range; `None` is the
   * `NumberFormatException`.
   */
  function ParseInt(s: string): (r: Option<int>)
    ensures r.Some? ==> IsInt32(r.value)
    ensures r.Some? ==> |s| >= 1
  {
    if |s| == 0 then None
    else
      var signed := s[0] == '-' || s[0] == '+';
      var digits := if signed then s[1..] else s;
      if |digits| == 0 || !AllDigits(digits) then None
      else
        var m: int := ParseDigits(digits);
        var v := if s[0] == '-' then -m else m;
        if IsInt32(v) then Some(v) else None
  }

  /** Every `int` survives printing and parsing back. */
  lemma IntRoundTrip(i: int)
    requires IsInt32(i)
    ensures ParseInt(ToString(i)) == Some(i)
  {
    if i < 0 {
      NegativeRoundTrip(i);
    } else {
      DecimalRoundTrip(i);
    }
  }

  /** The negative half of `IntRoundTrip`: a `-` sign followed by the digits of `-i`. */
  lemma NegativeRoundTrip(i: int)
    requires INT_MIN <= i < 0
    ensures ParseInt(ToString(i)) == Some(i)
  {
    var s := ToString(i);
    assert s[0] == '-';
    assert s[1..] == DecimalString(-i);
    DecimalRoundTrip(-i);
    assert ParseDigits(s[1..]) == -i;
  }

  /** Text outside the `int` range is rejected although it is well-formed. */
  lemma TooLargeIsRejected(n: nat)
    requires n > INT_MAX
    ensures ParseInt(DecimalString(n)) == None
  {
    DecimalRoundTrip(n);
  }
}
