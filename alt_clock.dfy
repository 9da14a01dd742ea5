/**
 * The hour shown by the alternative time zone widget: the local hour moved
 * by the configured offset and brought back onto a 24- or 12-hour dial,
 * as both the sidebar and the time module compute it.
 */
module AltClock {
  import opened CArith
  import opened Format

  /** The shifted hour `total` on the dial in use; a 12-hour dial shows 12 in place of 0. */
  function AltHour(total: int, is24h: bool): (h: int)
    ensures is24h ==> 0 <= h < 24 && h == total % 24
    ensures !is24h ==> 1 <= h <= 12 && h % 12 == total % 12
  {
    ModIsEuclidean(total);
    if is24h then Mod(total, 24)
    else
      var r := Mod(total, 12);
      if r == 0 then 12 else r
  }

  /** The hour digits, with a '0' in front of a single digit when leading zeros are on. */
  function HourDigits(h: nat, leadingZero: bool): (s: string)
    ensures |s| >= 1 && AllDigits(s) && DigitsValue(s) == h
    ensures s[0] == '0' <==> (leadingZero && h < 10) || h == 0
    ensures h < 100 ==> |s| <= 2
  {
    NatToStringRoundTrip(h);
    NatToStringLength(h, 2);
    assert Pow10(2) == 100;
    if leadingZero && h < 10 then
      var s := "0" + NatToString(h);
      assert s[1..] == NatToString(h);
      LeadingZeroValue(NatToString(h));
      s
    else NatToString(h)
  }

  /** A '0' in front of a digit string does not change its value. */
  lemma {:induction false} LeadingZeroValue(s: string)
    requires AllDigits(s)
    ensures AllDigits("0" + s) && DigitsValue("0" + s) == DigitsValue(s)
  {
    if s != [] {
      var z := "0" + s;
      assert z[..|z| - 1] == "0" + s[..|s| - 1];
      LeadingZeroValue(s[..|s| - 1]);
    }
  }
}
