/** Decimal rendering of integers, as Go's `strconv.Itoa` does it, used for
    the port numbers of the binding payload (service/endpoints.go). */
module Decimal {

  import opened Outcomes

  const Digits: string := "0123456789"

  predicate IsDigits(s: string) {
    forall i :: 0 <= i < |s| ==> '0' <= s[i] <= '9'
  }

  /** A non-empty string of decimal digits without a leading zero. */
  predicate IsCanonical(d: string) {
    |d| >= 1 && IsDigits(d) && (|d| > 1 ==> d[0] != '0')
  }

  /** A natural number in decimal, most significant digit first, no leading zero. */
  function FormatNat(n: nat): (s: string)
    ensures IsCanonical(s)
  {
    if n < 10 then [Digits[n]]
    else FormatNat(n / 10) + [Digits[n % 10]]
  }

  /** `strconv.Itoa`: a minus sign for negative numbers, then the digits. */
  function FormatInt(n: int): (s: string)
    ensures |s| >= 1
    ensures n < 0 <==> s[0] == '-'
    ensures if n < 0 then IsCanonical(s[1..]) else IsCanonical(s)
  {
    if n < 0 then "-" + FormatNat(-n) else FormatNat(n)
  }

  /** The value of a non-empty string of decimal digits. */
  function ParseDigits(s: string): nat
    requires |s| >= 1 && IsDigits(s)
  {
    if |s| == 1 then s[0] as int - '0' as int
    else ParseDigits(s[..|s| - 1]) * 10 + (s[|s| - 1] as int - '0' as int)
  }

  /** Reads an integer back from its decimal rendering. */
  function ParseInt(s: string): Option<int>
  {
    if |s| >= 2 && s[0] == '-' && IsDigits(s[1..]) then Some(0 - ParseDigits(s[1..]) as int)
    else if |s| >= 1 && IsDigits(s) then Some(ParseDigits(s))
    else None
  }

  lemma {:induction false} ParseFormatNat(n: nat)
    ensures ParseDigits(FormatNat(n)) == n
  {
    if n >= 10 {
      ParseFormatNat(n / 10);
      var s := FormatNat(n);
      assert s[..|s| - 1] == FormatNat(n / 10);
    }
  }

  /** A minus sign followed by digits reads as the negated value of the digits. */
  lemma ParseNegative(d: string)
    requires |d| >= 1 && IsDigits(d)
    ensures ParseInt("-" + d) == Some(0 - ParseDigits(d) as int)
  {
    assert ("-" + d)[1..] == d;
  }

  /** Digits alone read as their value. */
  lemma ParseNonNegative(d: string)
    requires |d| >= 1 && IsDigits(d)
    ensures ParseInt(d) == Some(ParseDigits(d))
  {
  }

  /** Parsing the decimal rendering of an integer gives the integer back,
      so the rendering is injective. */
  lemma ParseFormatInt(n: int)
    ensures ParseInt(FormatInt(n)) == Some(n)
  {
    if n < 0 {
      var d := FormatNat(-n);
      ParseFormatNat(-n);
      ParseNegative(d);
      assert FormatInt(n) == "-" + d;
    } else {
      var d := FormatNat(n);
      ParseFormatNat(n);
      ParseNonNegative(d);
      assert FormatInt(n) == d;
    }
  }
}
