/**
 * What the C library's formatting calls produce for the conversions the
 * watchface uses: `%d`/`%i`/`%li` of an integer, `%02d`-style two-digit
 * fields, the space-padded `%e`/`%k`/`%l` fields of `strftime`, and the
 * truncation `snprintf` applies to a fixed-size buffer.
 */
module Format {

  predicate IsDigit(c: char)
  {
    '0' <= c <= '9'
  }

  predicate AllDigits(s: string)
  {
    forall i :: 0 <= i < |s| ==> IsDigit(s[i])
  }

  function DigitChar(d: int): (c: char)
    requires 0 <= d < 10
    ensures IsDigit(c)
  {
    (48 + d) as char
  }

  /** `%d` of a non-negative value: its decimal digits, without a leading zero. */
  function NatToString(n: nat): (s: string)
    ensures 1 <= |s| && AllDigits(s)
    ensures |s| == 1 <==> n < 10
    ensures |s| > 1 ==> s[0] != '0'
  {
    if n < 10 then [DigitChar(n)] else NatToString(n / 10) + [DigitChar(n % 10)]
  }

  /** `%d` of any value: a minus sign in front of a negative value's digits. */
  function IntToString(n: int): (s: string)
    ensures |s| >= 1
    ensures s[0] == '-' <==> n < 0
    ensures n >= 0 ==> s == NatToString(n)
    ensures n < 0 ==> s[1..] == NatToString(-n)
  {
    if n < 0 then "-" + NatToString(-n) else NatToString(n)
  }

  /** The number a string of decimal digits denotes (reading it back). */
  function DigitsValue(s: string): nat
    requires AllDigits(s)
  {
    if s == [] then 0 else DigitsValue(s[..|s| - 1]) * 10 + (s[|s| - 1] as int - 48)
  }

  /** Printing a number and reading the digits back gives the number. */
  lemma {:induction false} NatToStringRoundTrip(n: nat)
    ensures DigitsValue(NatToString(n)) == n
  {
    if n >= 10 {
      NatToStringRoundTrip(n / 10);
      var s := NatToString(n);
      assert s[..|s| - 1] == NatToString(n / 10);
    }
  }

  /**
   * Reading back `%d` of any value: after an optional minus sign come the
   * digits of its magnitude, and the sign is there exactly for a negative value.
   */
  lemma IntToStringReadsBack(n: int)
    ensures var s := IntToString(n);
      var k := if n < 0 then 1 else 0;
      k < |s| && AllDigits(s[k..])
      && DigitsValue(s[k..]) == (if n < 0 then -n else n)
  {
    if n < 0 {
      NatToStringRoundTrip(-n);
    } else {
      NatToStringRoundTrip(n);
    }
  }

  function Pow10(k: nat): (p: nat)
    ensures p >= 1
  {
    if k == 0 then 1 else 10 * Pow10(k - 1)
  }

  /** A number prints in at most `k` digits exactly when it is below 10^k. */
  lemma {:induction false} NatToStringLength(n: nat, k: nat)
    requires k >= 1
    ensures |NatToString(n)| <= k <==> n < Pow10(k)
  {
    if n >= 10 {
      if k == 1 {
        assert Pow10(1) == 10;
      } else {
        NatToStringLength(n / 10, k - 1);
      }
    } else {
      if k > 1 {
        Pow10Grows(k);
      }
    }
  }

  lemma {:induction false} Pow10Grows(k: nat)
    ensures Pow10(k) >= k + 1
  {
    if k > 0 {
      Pow10Grows(k - 1);
    }
  }

  /** `snprintf` into a buffer of `size` bytes keeps at most `size - 1` characters. */
  function Snprintf(s: string, size: nat): (r: string)
    requires size >= 1
    ensures |r| < size
    ensures r <= s
    ensures r == s <==> |s| < size
    ensures |s| >= size ==> r == s[..size - 1]
  {
    if |s| < size then s else s[..size - 1]
  }

  /** `strncpy` of a C string into `n` bytes keeps at most `n` characters. */
  function Prefix(s: string, n: nat): (r: string)
    ensures |r| <= n && r <= s
    ensures r == s <==> |s| <= n
    ensures |s| > n ==> r == s[..n]
  {
    if |s| <= n then s else s[..n]
  }

  /** A two-digit field with a zero in place of a missing tens digit (`%02d`, `%H`, `%M`). */
  function ZeroPadded2(n: nat): (s: string)
    requires n < 100
    ensures |s| == 2 && AllDigits(s)
    ensures DigitsValue(s) == n
  {
    NatToStringRoundTrip(n);
    if n < 10 then
      assert DigitsValue("0" + NatToString(n)) == DigitsValue(NatToString(n)) by {
        assert ("0" + NatToString(n))[..1] == "0";
      }
      "0" + NatToString(n)
    else
      NatToStringLength(n, 2);
      NatToString(n)
  }

  /** A two-digit field with a space in place of a missing tens digit (`%e`, `%k`, `%l`). */
  function SpacePadded2(n: nat): (s: string)
    requires n < 100
    ensures |s| == 2
    ensures s[0] == ' ' <==> n < 10
    ensures AllDigits(s[1..]) && (n < 10 ==> DigitsValue(s[1..]) == n)
    ensures n >= 10 ==> AllDigits(s) && DigitsValue(s) == n
  {
    NatToStringRoundTrip(n);
    if n < 10 then " " + NatToString(n)
    else
      NatToStringLength(n, 2);
      NatToString(n)
  }

  /** The text a C string shows: everything before the first NUL character. */
  function CString(s: string): (r: string)
    ensures r <= s && '\0' !in r
    ensures |r| < |s| ==> s[|r|] == '\0'
  {
    if s == [] || s[0] == '\0' then [] else [s[0]] + CString(s[1..])
  }

  /** A buffer without a NUL shows all of its text. */
  lemma {:induction false} VisibleWithoutNul(s: string)
    requires forall i :: 0 <= i < |s| ==> s[i] != '\0'
    ensures CString(s) == s
  {
    if s != [] {
      VisibleWithoutNul(s[1..]);
    }
  }
}
