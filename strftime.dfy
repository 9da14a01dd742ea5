/**
 * The broken-down time the watchface formats (`struct tm`), and the
 * `strftime` conversions it uses, each as the characters written into a
 * buffer large enough for them.
 */
module Strftime {
  import opened Format

  /** Hour, minute, second, day of month, ISO week, weekday and month. */
  datatype TimeInfo = TimeInfo(hour: int, min: int, sec: int, mday: int, isoWeek: int, wday: int, mon: int)

  predicate ValidTime(t: TimeInfo)
  {
    0 <= t.hour < 24 && 0 <= t.min < 60 && 0 <= t.sec <= 60
    && 1 <= t.mday <= 31 && 1 <= t.isoWeek <= 53 && 0 <= t.wday < 7 && 0 <= t.mon < 12
  }

  /** The hour on a 12-hour dial: 12 for midnight and noon. */
  function Hour12(hour: int): (h: int)
    requires 0 <= hour < 24
    ensures 1 <= h <= 12
    ensures h % 12 == hour % 12
  {
    if hour % 12 == 0 then 12 else hour % 12
  }

  /** `%H` (`zeroPad`) or `%k`, the 24-hour clock hour; `%I` or `%l` the 12-hour one. */
  function HourField(hour: int, is24h: bool, zeroPad: bool): (s: string)
    requires 0 <= hour < 24
    ensures |s| == 2
    ensures s[0] == ' ' <==> !zeroPad && (if is24h then hour else Hour12(hour)) < 10
  {
    var h := if is24h then hour else Hour12(hour);
    if zeroPad then ZeroPadded2(h) else SpacePadded2(h)
  }

  /** The number a two-character field shows, whether padded with a zero or a space. */
  function FieldValue(s: string): int
    requires |s| == 2 && (s[0] == ' ' || IsDigit(s[0])) && IsDigit(s[1])
  {
    if s[0] == ' ' then DigitsValue(s[1..]) else DigitsValue(s)
  }

  /** Every hour field reads back as the hour it was made from. */
  lemma HourFieldReadsBack(hour: int, is24h: bool, zeroPad: bool)
    requires 0 <= hour < 24
    ensures var s := HourField(hour, is24h, zeroPad);
      (s[0] == ' ' || IsDigit(s[0])) && IsDigit(s[1])
      && FieldValue(s) == if is24h then hour else Hour12(hour)
  {
    var h := if is24h then hour else Hour12(hour);
    var s := HourField(hour, is24h, zeroPad);
    if !zeroPad && h < 10 {
      assert s[1..] == NatToString(h);
    }
  }

  /** A leading space, if any, dropped by moving the second character forward. */
  function DropPadding(s: string): (r: string)
    ensures s != [] && s[0] == ' ' ==> r == s[1..]
    ensures (s == [] || s[0] != ' ') ==> r == s
  {
    if s != [] && s[0] == ' ' then s[1..] else s
  }
}
