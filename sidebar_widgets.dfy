/**
 * The sidebar widgets: lookup by type id, the height each one asks for,
 * the text the battery, sleep and activity widgets print, and the time
 * strings the sidebar keeps for the date, week, seconds and alternative
 * clock widgets.
 */
module SidebarWidgets {
  import opened CArith
  import opened Optional
  import opened Format
  import opened Strftime
  import opened AltClock
  import opened SettingsTypes

  /** The widgets the sidebar can show. */
  datatype Widget =
    | EmptyWidget
    | BatteryMeterWidget
    | BTDisconnectWidget
    | DateWidget
    | AltTimeWidget
    | SecondsWidget
    | CurrentWeatherWidget
    | WeatherForecastWidget
    | WeekNumberWidget
    | HealthWidget
    | HeartRateWidget
    | BeatsWidget

  /** The type id a widget is selected by. */
  function TypeOf(w: Widget): int
  {
    match w
    case EmptyWidget => EMPTY
    case BatteryMeterWidget => BATTERY_METER
    case BTDisconnectWidget => BLUETOOTH_DISCONNECT
    case DateWidget => DATE
    case AltTimeWidget => ALT_TIME_ZONE
    case SecondsWidget => SECONDS
    case CurrentWeatherWidget => WEATHER_CURRENT
    case WeatherForecastWidget => WEATHER_FORECAST_TODAY
    case WeekNumberWidget => WEEK_NUMBER
    case HealthWidget => HEALTH
    case HeartRateWidget => HEARTRATE
    case BeatsWidget => BEATS
  }

  /** The type ids that have a widget; the health ones only on watches with health tracking. */
  predicate Registered(t: int, hasHealth: bool)
  {
    t in {BATTERY_METER, BLUETOOTH_DISCONNECT, DATE, ALT_TIME_ZONE, SECONDS, WEATHER_CURRENT,
          WEATHER_FORECAST_TODAY, WEEK_NUMBER, BEATS}
    || (hasHealth && t in {HEALTH, HEARTRATE})
  }

  /** The widget for a type id; any other id gets the empty widget. */
  function GetSidebarWidgetByType(t: int, hasHealth: bool): (w: Widget)
    ensures w != EmptyWidget <==> Registered(t, hasHealth)
    ensures w != EmptyWidget ==> TypeOf(w) == t
  {
    if t == BATTERY_METER then BatteryMeterWidget
    else if t == BLUETOOTH_DISCONNECT then BTDisconnectWidget
    else if t == DATE then DateWidget
    else if t == ALT_TIME_ZONE then AltTimeWidget
    else if t == SECONDS then SecondsWidget
    else if t == WEATHER_CURRENT then CurrentWeatherWidget
    else if t == WEATHER_FORECAST_TODAY then WeatherForecastWidget
    else if t == WEEK_NUMBER then WeekNumberWidget
    else if hasHealth && t == HEALTH then HealthWidget
    else if hasHealth && t == HEARTRATE then HeartRateWidget
    else if t == BEATS then BeatsWidget
    else EmptyWidget
  }

  /** Every widget available on the watch is found again by its own type id. */
  lemma LookupRoundTrip(w: Widget, hasHealth: bool)
    requires hasHealth || (w != HealthWidget && w != HeartRateWidget)
    ensures GetSidebarWidgetByType(TypeOf(w), hasHealth) == w
  {
  }

  /**
   * What the heights depend on: the font size, the compact flag, the
   * battery state and whether the user is asleep.
   */
  datatype HeightEnv = HeightEnv(useLargeFonts: bool, compact: bool, isCharging: bool,
                                 showBatteryPct: bool, sleeping: bool)

  /** The height in pixels a widget asks for. */
  function Height(w: Widget, env: HeightEnv): (h: int)
    ensures 0 <= h <= 63
    ensures h == 0 <==> w == EmptyWidget
  {
    match w
    case EmptyWidget => 0
    case BatteryMeterWidget =>
      if env.isCharging || !env.showBatteryPct then 14
      else if env.useLargeFonts then 33 else 27
    case DateWidget =>
      if env.useLargeFonts then (if env.compact then 42 else 62)
      else (if env.compact then 41 else 58)
    case CurrentWeatherWidget => if env.useLargeFonts then 44 else 42
    case BTDisconnectWidget => 22
    case WeekNumberWidget => if env.useLargeFonts then 29 else 26
    case SecondsWidget => 14
    case WeatherForecastWidget => if env.useLargeFonts then 63 else 60
    case AltTimeWidget => if env.useLargeFonts then 29 else 26
    case HealthWidget => if env.sleeping then 44 else 32
    case HeartRateWidget => if env.useLargeFonts then 40 else 38
    case BeatsWidget => if env.useLargeFonts then 29 else 26
  }

  /** Compact mode shortens the date widget (it drops the month) and no other widget. */
  lemma CompactOnlyShortensDate(w: Widget, env: HeightEnv)
    ensures Height(w, env.(compact := true)) <= Height(w, env.(compact := false))
    ensures Height(w, env.(compact := true)) != Height(w, env.(compact := false)) <==> w == DateWidget
  {
  }

  /** Large fonts never make a widget shorter. */
  lemma LargeFontsNeverShrink(w: Widget, env: HeightEnv)
    ensures Height(w, env.(useLargeFonts := false)) <= Height(w, env.(useLargeFonts := true))
  {
  }

  /** Which half of the health widget is drawn. */
  datatype HealthView = SleepView | StepsView

  function HealthViewFor(sleeping: bool): (v: HealthView)
    ensures v == SleepView <==> sleeping
  {
    if sleeping then SleepView else StepsView
  }

  /** The health widget asks for the taller height exactly when it draws the sleep view. */
  lemma HealthHeightMatchesView(env: HeightEnv)
    ensures Height(HealthWidget, env) == 44 <==> HealthViewFor(env.sleeping) == SleepView
    ensures Height(HealthWidget, env) == 32 <==> HealthViewFor(env.sleeping) == StepsView
  {
  }

  /** The percentage the battery widget shows: a reported 0% is shown as 5%. */
  function DisplayedPercent(chargePercent: U8): (d: U8)
    ensures d > 0
    ensures chargePercent > 0 ==> d == chargePercent
  {
    if chargePercent > 0 then chargePercent else 5
  }

  /**
   * The battery widget's percentage text, or None when it draws none:
   * the number and a '%' sign (in front for Turkish), or the bare number
   * with large fonts, written into a 6-byte buffer.
   */
  method BatteryText(chargePercent: U8, isCharging: bool, showBatteryPct: bool,
                     useLargeFonts: bool, turkish: bool) returns (text: Option<string>)
    ensures text.Some? <==> PercentShown(showBatteryPct, isCharging)
    ensures text.Some? ==> 2 <= |text.value| + (if useLargeFonts then 1 else 0) && |text.value| < 6
    ensures text.Some? && useLargeFonts ==>
      AllDigits(text.value) && DigitsValue(text.value) == DisplayedPercent(chargePercent)
      && text.value == NatToString(DisplayedPercent(chargePercent))
    ensures text.Some? && !useLargeFonts && !turkish ==>
      var s := text.value;
      (s[|s| - 1] == '%' && AllDigits(s[..|s| - 1]) && DigitsValue(s[..|s| - 1]) == DisplayedPercent(chargePercent)
       && s[..|s| - 1] == NatToString(DisplayedPercent(chargePercent)))
    ensures text.Some? && !useLargeFonts && turkish ==>
      var s := text.value;
      (s[0] == '%' && AllDigits(s[1..]) && DigitsValue(s[1..]) == DisplayedPercent(chargePercent)
       && s[1..] == NatToString(DisplayedPercent(chargePercent)))
  {
    var percent := if chargePercent > 0 then chargePercent else 5;
    text := None;
    if showBatteryPct && !isCharging {
      var digits := NatToString(percent);
      NatToStringRoundTrip(percent);
      NatToStringLength(percent, 3);
      assert Pow10(3) == 1000;
      var s;
      if !useLargeFonts {
        if turkish {
          s := Snprintf("%" + digits, 6);
          assert s[1..] == digits;
        } else {
          s := Snprintf(digits + "%", 6);
          assert s[..|s| - 1] == digits;
        }
      } else {
        s := Snprintf(digits, 6);
      }
      text := Some(s);
    }
  }

  /** The percentage is printed only when enabled, and never while charging. */
  predicate PercentShown(showBatteryPct: bool, isCharging: bool)
  {
    showBatteryPct && !isCharging
  }

  /** The battery widget asks for the graphic-only height (14) exactly when it prints no percentage. */
  lemma BatteryHeightMatchesText(env: HeightEnv)
    ensures Height(BatteryMeterWidget, env) == 14 <==> !PercentShown(env.showBatteryPct, env.isCharging)
    ensures PercentShown(env.showBatteryPct, env.isCharging) ==>
      Height(BatteryMeterWidget, env) == (if env.useLargeFonts then 33 else 27)
  {
  }

  /**
   * The sleep view: the sleep total (restful only, when so configured) as
   * whole hours and the remaining whole minutes, each printed into a
   * 4-byte buffer.
   */
  method SleepText(useRestfulSleep: bool, sleepSeconds: nat, restfulSleepSeconds: nat)
    returns (hours: nat, minutes: nat, hoursText: string, minutesText: string)
    ensures var total := if useRestfulSleep then restfulSleepSeconds else sleepSeconds;
      hours * 3600 + minutes * 60 <= total < hours * 3600 + minutes * 60 + 60
    ensures minutes < 60
    ensures hoursText == Snprintf(NatToString(hours) + "h", 4)
    ensures hours < 100 ==> hoursText == NatToString(hours) + "h"
    ensures minutesText == NatToString(minutes) + "m"
  {
    var seconds := if useRestfulSleep then restfulSleepSeconds else sleepSeconds;
    var sleepMinutes := seconds / 60;
    hours := sleepMinutes / 60;
    sleepMinutes := sleepMinutes % 60;
    minutes := sleepMinutes;
    NatToStringLength(hours, 2);
    NatToStringLength(minutes, 2);
    assert Pow10(2) == 100;
    hoursText := Snprintf(NatToString(hours) + "h", 4);
    minutesText := Snprintf(NatToString(minutes) + "m", 4);
  }

  /**
   * The step count as printed into an 8-byte buffer: the count itself
   * below 1000, thousands and hundreds around the decimal separator below
   * 10000, and whole thousands with a 'k' beyond.
   */
  method StepsText(steps: nat, separator: char) returns (text: string)
    ensures steps < 1000 ==> text == NatToString(steps)
    ensures 1000 <= steps < 10000 ==>
      |text| == 4 && text[1] == separator && text[3] == 'k'
      && IsDigit(text[0]) && IsDigit(text[2])
      && steps / 100 == DigitsValue(text[..1]) * 10 + DigitsValue(text[2..3])
    ensures 1000 <= steps < 10000 && separator != '\0' ==> CString(text) == text
    ensures steps >= 10000 ==> text == Snprintf(NatToString(steps / 1000) + "k", 8)
    ensures 10000 <= steps < 10000000 ==>
      text[|text| - 1] == 'k' && AllDigits(text[..|text| - 1])
      && DigitsValue(text[..|text| - 1]) == steps / 1000
  {
    if steps < 1000 {
      NatToStringLength(steps, 7);
      Pow10Grows(7);
      text := Snprintf(NatToString(steps), 8);
    } else {
      var thousands := steps / 1000;
      var hundreds := steps / 100 % 10;
      if steps < 10000 {
        var t := NatToString(thousands);
        var u := NatToString(hundreds);
        text := Snprintf(t + [separator] + u + "k", 8);
        assert text[..1] == t && text[2..3] == u;
        NatToStringRoundTrip(thousands);
        NatToStringRoundTrip(hundreds);
        if separator != '\0' {
          assert forall i :: 0 <= i < |text| ==> text[i] != '\0';
          VisibleWithoutNul(text);
        }
      } else {
        text := Snprintf(NatToString(thousands) + "k", 8);
        if steps < 10000000 {
          NatToStringLength(thousands, 4);
          assert Pow10(4) == 10000;
          assert text[..|text| - 1] == NatToString(thousands);
          NatToStringRoundTrip(thousands);
        }
      }
    }
  }

  /**
   * The decimal separator is never given a value, so it stays NUL: a
   * count from 1000 to 9999 then shows only its thousands digit.
   */
  lemma UnsetSeparatorHidesHundreds(text: string)
    requires |text| == 4 && IsDigit(text[0]) && text[1] == '\0'
    ensures CString(text) == text[..1]
  {
    assert CString(text) == [text[0]] + CString(text[1..]);
  }

  /**
   * The walked distance as printed into an 8-byte buffer. In metric units:
   * metres below 100, tenths of a kilometre (".N km") below 1000, whole
   * kilometres beyond, with the small font past 9 km. In imperial units:
   * whole miles when the rounded mile count `milesWhole` (a floating-point
   * rounding, taken as given) is positive, otherwise the separator and the
   * tenth of a mile.
   */
  method DistanceText(distance: nat, metric: bool, milesWhole: int, separator: char)
    returns (text: string, useSmallFont: bool)
    ensures useSmallFont <==> metric && distance >= 1000 && distance / 1000 > 9
    ensures metric && distance < 100 ==> text == NatToString(distance) + "m"
    ensures metric && 100 <= distance < 1000 ==>
      |text| == 4 && text[0] == '.' && text[2..] == "km" && IsDigit(text[1])
      && DigitsValue(text[1..2]) * 100 <= distance < DigitsValue(text[1..2]) * 100 + 100
    ensures metric && distance >= 1000 ==> text == Snprintf(NatToString(distance / 1000) + "km", 8)
    ensures metric && 1000 <= distance < 100000000 ==>
      |text| >= 3 && text[|text| - 2..] == "km" && AllDigits(text[..|text| - 2])
      && DigitsValue(text[..|text| - 2]) == distance / 1000
    ensures !metric && milesWhole > 0 ==> text == Snprintf(IntToString(milesWhole) + "mi", 8)
    ensures !metric && 0 < milesWhole < 100000 ==>
      |text| >= 3 && text[|text| - 2..] == "mi" && AllDigits(text[..|text| - 2])
      && DigitsValue(text[..|text| - 2]) == milesWhole
    ensures !metric && milesWhole <= 0 ==>
      text == [separator] + NatToString(distance * 10 / 1609 % 10) + "mi"
    ensures !metric && milesWhole <= 0 && separator != '\0' ==> CString(text) == text
  {
    useSmallFont := false;
    var d := distance;
    if metric {
      if d < 100 {
        NatToStringLength(d, 2);
        assert Pow10(2) == 100;
        text := Snprintf(NatToString(d) + "m", 8);
      } else if d < 1000 {
        d := d / 100;
        var digits := NatToString(d);
        text := Snprintf("." + digits + "km", 8);
        assert text[1..2] == digits;
        NatToStringRoundTrip(d);
      } else {
        d := d / 1000;
        if d > 9 {
          useSmallFont := true;
        }
        text := Snprintf(NatToString(d) + "km", 8);
        if distance < 100000000 {
          NatToStringLength(d, 5);
          assert Pow10(5) == 100000;
          assert text[..|text| - 2] == NatToString(d);
          NatToStringRoundTrip(d);
        }
      }
    } else {
      var tenths := distance * 10 / 1609 % 10;
      if milesWhole > 0 {
        text := Snprintf(IntToString(milesWhole) + "mi", 8);
        if milesWhole < 100000 {
          NatToStringLength(milesWhole, 5);
          assert Pow10(5) == 100000;
          assert text[..|text| - 2] == NatToString(milesWhole);
          NatToStringRoundTrip(milesWhole);
        }
      } else {
        text := Snprintf([separator] + NatToString(tenths) + "mi", 8);
        if separator != '\0' {
          assert forall i :: 0 <= i < |text| ==> text[i] != '\0';
          VisibleWithoutNul(text);
        }
      }
    }
  }

  /**
   * The separator is never given a value, so it stays NUL: a distance that
   * rounds to no whole mile then shows no text at all.
   */
  lemma UnsetSeparatorHidesTenths(tenths: nat)
    ensures CString(['\0'] + NatToString(tenths) + "mi") == ""
  {
  }

  /**
   * The text of the steps widget: the walked distance when the health
   * display is set to distance, the step count otherwise. Only the distance
   * can ask for the small font.
   */
  method StepsWidgetText(useDistance: bool, steps: nat, distance: nat, metric: bool, milesWhole: int, separator: char)
    returns (text: string, useSmallFont: bool)
    ensures useSmallFont <==> useDistance && metric && distance / 1000 > 9
    ensures !useDistance && steps < 1000 ==> text == NatToString(steps)
    ensures !useDistance && 1000 <= steps < 10000 ==>
      |text| == 4 && text[1] == separator && text[3] == 'k'
      && IsDigit(text[0]) && IsDigit(text[2])
      && steps / 100 == DigitsValue(text[..1]) * 10 + DigitsValue(text[2..3])
    ensures !useDistance && steps >= 10000 ==> text == Snprintf(NatToString(steps / 1000) + "k", 8)
    ensures !useDistance && 10000 <= steps < 10000000 ==>
      text[|text| - 1] == 'k' && AllDigits(text[..|text| - 1])
      && DigitsValue(text[..|text| - 1]) == steps / 1000
    ensures useDistance && metric && distance < 100 ==> text == NatToString(distance) + "m"
    ensures useDistance && metric && 100 <= distance < 1000 ==>
      |text| == 4 && text[0] == '.' && text[2..] == "km" && IsDigit(text[1])
      && DigitsValue(text[1..2]) * 100 <= distance < DigitsValue(text[1..2]) * 100 + 100
    ensures useDistance && metric && distance >= 1000 ==> text == Snprintf(NatToString(distance / 1000) + "km", 8)
    ensures useDistance && metric && 1000 <= distance < 100000000 ==>
      |text| >= 3 && text[|text| - 2..] == "km" && AllDigits(text[..|text| - 2])
      && DigitsValue(text[..|text| - 2]) == distance / 1000
    ensures useDistance && !metric && milesWhole > 0 ==> text == Snprintf(IntToString(milesWhole) + "mi", 8)
    ensures useDistance && !metric && 0 < milesWhole < 100000 ==>
      |text| >= 3 && text[|text| - 2..] == "mi" && AllDigits(text[..|text| - 2])
      && DigitsValue(text[..|text| - 2]) == milesWhole
    ensures useDistance && !metric && milesWhole <= 0 ==>
      text == [separator] + NatToString(distance * 10 / 1609 % 10) + "mi"
  {
    if useDistance {
      text, useSmallFont := DistanceText(distance, metric, milesWhole, separator);
    } else {
      text := StepsText(steps, separator);
      useSmallFont := false;
    }
  }

  /**
   * The alternative clock as the sidebar prints it into an 8-byte buffer:
   * am/pm is decided from the shifted hour before it is reduced to the
   * 12-hour dial, and the 24-hour form has no suffix.
   */
  function AltClockText(hour: int, offset: int, is24h: bool, leadingZero: bool): (s: string)
    ensures var h := AltHour(hour + offset, is24h);
      var digits := HourDigits(h, leadingZero);
      |digits| <= |s| < 8 && s[..|digits|] == digits
      && (is24h ==> s == digits)
      && (!is24h ==> |s| == |digits| + 1 && s[|s| - 1] == (if (hour + offset) % 24 < 12 then 'a' else 'p'))
  {
    var total := hour + offset;
    var amPm := if Mod(total, 24) < 12 then 'a' else 'p';
    ModIsEuclidean(total);
    var h := AltHour(total, is24h);
    var digits := HourDigits(h, leadingZero);
    Snprintf(if is24h then digits else digits + [amPm], 8)
  }

  /** The beats as printed into a 5-byte buffer: three digits at most, so never cut. */
  function BeatsText(beatsValue: nat): (b: string)
    requires beatsValue < 1000
    ensures b == NatToString(beatsValue) && |b| <= 3
  {
    NatToStringLength(beatsValue, 3);
    assert Pow10(3) == 1000;
    Snprintf(NatToString(beatsValue), 5)
  }

  /** The strings the sidebar widgets draw, and the compact-mode flag the heights read. */
  class SidebarWidgetsState {
    var useCompactMode: bool
    var dayNum: string
    var weekNum: string
    var secondsNum: string
    var altClock: string
    var dayName: string
    var month: string
    var beats: string

    constructor()
      ensures !useCompactMode
      ensures dayNum == "" && weekNum == "" && secondsNum == "" && altClock == ""
      ensures dayName == "" && month == "" && beats == ""
    {
      useCompactMode := false;
      dayNum, weekNum, secondsNum, altClock := "", "", "", "";
      dayName, month, beats := "", "", "";
    }

    /**
     * Refreshes the strings from the current time. The day and month
     * names come from the language tables and `beats` from the Swatch
     * beat clock, both taken as given.
     */
    method UpdateTime(s: Settings, t: TimeInfo, is24h: bool, dayNameText: string,
                      monthText: string, beatsValue: nat)
      requires ValidTime(t) && |dayNameText| < 8 && |monthText| < 8 && beatsValue < 1000
      modifies this`dayNum, this`weekNum, this`secondsNum, this`altClock, this`dayName, this`month, this`beats
      ensures dayNum == DropPadding(SpacePadded2(t.mday))
      ensures weekNum == ZeroPadded2(t.isoWeek)
      ensures secondsNum == ":" + ZeroPadded2(t.sec)
      ensures altClock == AltClockText(t.hour, s.altclockOffset, is24h, s.showLeadingZero)
      ensures dayName == dayNameText && month == monthText
      ensures beats == BeatsText(beatsValue)
    {
      dayNum := DropPadding(SpacePadded2(t.mday));
      weekNum := ZeroPadded2(t.isoWeek);
      secondsNum := ":" + ZeroPadded2(t.sec);
      altClock := AltClockText(t.hour, s.altclockOffset, is24h, s.showLeadingZero);
      dayName := Prefix(dayNameText, 8);
      month := Prefix(monthText, 8);
      beats := BeatsText(beatsValue);
    }
  }

  /** The day number is printed without padding and reads back as the day of the month. */
  lemma DayNumReadsBack(mday: int)
    requires 1 <= mday <= 31
    ensures var d := DropPadding(SpacePadded2(mday));
      1 <= |d| <= 2 && AllDigits(d) && DigitsValue(d) == mday && (|d| == 1 <==> mday < 10)
  {
    var p := SpacePadded2(mday);
    if mday < 10 {
      assert DropPadding(p) == p[1..];
    }
  }
}
