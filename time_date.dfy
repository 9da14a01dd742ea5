/**
 * The clock's own strings: hours and minutes for the big digits, the date
 * parts, the one-line date of a horizontal sidebar, the alternative clock
 * and the Swatch beats, refreshed on every tick.
 */
module TimeDate {
  import opened CArith
  import opened Format
  import opened Strftime
  import opened AltClock
  import opened SettingsTypes
  import SidebarWidgets

  /**
   * The hours string: a two-character hour field (zero-padded when leading
   * zeros are on, space-padded otherwise) whose padding space is removed
   * only when the time is centred.
   */
  function HoursText(hour: int, is24h: bool, leadingZero: bool, centerTime: bool): (s: string)
    requires 0 <= hour < 24
    ensures 1 <= |s| <= 2
  {
    var field := HourField(hour, is24h, leadingZero);
    if field[0] == ' ' && centerTime then field[1..] else field
  }

  /**
   * The hours string keeps its padding space only when the time is not
   * centred, is one character long only when the space was removed, and
   * always reads back as the hour on the dial in use.
   */
  lemma HoursTextReadsBack(hour: int, is24h: bool, leadingZero: bool, centerTime: bool)
    requires 0 <= hour < 24
    ensures var s := HoursText(hour, is24h, leadingZero, centerTime);
      var shown := if is24h then hour else Hour12(hour);
      var padded := !leadingZero && shown < 10;
      (|s| == 1 <==> padded && centerTime)
      && (s[0] == ' ' <==> padded && !centerTime)
      && AllDigits(DropPadding(s)) && DigitsValue(DropPadding(s)) == shown
  {
    HourFieldReadsBack(hour, is24h, leadingZero);
    var field := HourField(hour, is24h, leadingZero);
    var s := HoursText(hour, is24h, leadingZero, centerTime);
    if field[0] == ' ' {
      assert DropPadding(field) == field[1..];
      assert field[1..][0] == field[1];
    } else {
      assert DropPadding(field) == field;
    }
  }

  /**
   * The alternative clock as this module prints it into an 8-byte buffer:
   * on a 12-hour dial the am/pm letter is decided after the hour has
   * already been brought onto 1..12, so it is 'p' only for 12.
   */
  function AltClockAsWritten(hour: int, offset: int, is24h: bool, leadingZero: bool): (s: string)
    ensures var h := AltHour(hour + offset, is24h);
      var digits := HourDigits(h, leadingZero);
      |digits| <= |s| < 8 && s[..|digits|] == digits
      && (is24h ==> s == digits)
      && (!is24h ==> |s| == |digits| + 1 && s[|s| - 1] == (if h == 12 then 'p' else 'a'))
  {
    var h := AltHour(hour + offset, is24h);
    var amPm := if Mod(h, 24) < 12 then 'a' else 'p';
    var digits := HourDigits(h, leadingZero);
    Snprintf(if is24h then digits else digits + [amPm], 8)
  }

  /**
   * The two copies of the alternative clock disagree in the afternoon: at
   * 13:00 on a 12-hour dial this one prints "1a" where the sidebar's
   * prints "1p".
   */
  lemma AltClockAfternoonDiverges()
    ensures AltClockAsWritten(13, 0, false, false) == "1a"
    ensures SidebarWidgets.AltClockText(13, 0, false, false) == "1p"
  {
    assert Mod(13, 12) == 1;
    assert AltHour(13, false) == 1;
    assert NatToString(1) == "1";
    assert HourDigits(1, false) == "1";
  }

  /**
   * Over all hours and offsets on a 12-hour dial, the two copies agree
   * exactly when the hour of the day (after the offset) is 1 to 12: at
   * midnight and from 13:00 on, this module prints the wrong letter.
   */
  lemma AltClockAmPmAgreement(hour: int, offset: int, leadingZero: bool)
    ensures var total := hour + offset;
      AltClockAsWritten(hour, offset, false, leadingZero) == SidebarWidgets.AltClockText(hour, offset, false, leadingZero)
      <==> 1 <= total % 24 <= 12
  {
    var a := AltClockAsWritten(hour, offset, false, leadingZero);
    var b := SidebarWidgets.AltClockText(hour, offset, false, leadingZero);
    SameDigits(hour, offset, leadingZero);
    TwelveOnDial(hour + offset);
    assert a[|a| - 1] == 'p' <==> AltHour(hour + offset, false) == 12;
  }

  /** The two copies print the same digits, so they differ at most in the letter. */
  lemma SameDigits(hour: int, offset: int, leadingZero: bool)
    ensures var a := AltClockAsWritten(hour, offset, false, leadingZero);
      var b := SidebarWidgets.AltClockText(hour, offset, false, leadingZero);
      |a| == |b| >= 2 && (a == b <==> a[|a| - 1] == b[|b| - 1])
  {
    var a := AltClockAsWritten(hour, offset, false, leadingZero);
    var b := SidebarWidgets.AltClockText(hour, offset, false, leadingZero);
    var digits := HourDigits(AltHour(hour + offset, false), leadingZero);
    if a[|a| - 1] == b[|b| - 1] {
      assert forall i | 0 <= i < |digits| :: a[i] == a[..|digits|][i] == b[..|digits|][i] == b[i];
      assert a == b;
    }
  }

  /** A 12-hour dial shows 12 exactly at midnight and at noon. */
  lemma TwelveOnDial(total: int)
    ensures AltHour(total, false) == 12 <==> total % 24 == 0 || total % 24 == 12
  {
    ModTwelveOfDay(total);
  }

  /**
   * The one-line date of a horizontal sidebar, "day number month", built
   * with `strncpy`/`strncat`; with names shorter than 8 characters and a
   * day number of at most 2 digits it fits the 21-byte buffer.
   */
  function CurrentDate(dayName: string, dayNum: string, month: string): (d: string)
    requires |dayName| < 8 && |dayNum| <= 2 && |month| < 8
    ensures |d| == |dayName| + |dayNum| + |month| + 2 <= 20
  {
    dayName + " " + dayNum + " " + month
  }

  /** Each of the three fields can be read back from its place in the one-line date. */
  lemma CurrentDateFields(dayName: string, dayNum: string, month: string)
    requires |dayName| < 8 && |dayNum| <= 2 && |month| < 8
    ensures var d := CurrentDate(dayName, dayNum, month);
      d[..|dayName|] == dayName && d[|dayName|] == ' '
      && d[|dayName| + 1..|dayName| + 1 + |dayNum|] == dayNum
      && d[|dayName| + 1 + |dayNum|] == ' '
      && d[|d| - |month|..] == month
  {
    var d := CurrentDate(dayName, dayNum, month);
    assert d == ((dayName + " ") + dayNum) + (" " + month);
  }

  /** The strings the clock face draws (the `time_date_*` globals). */
  class TimeDateStrings {
    var hours: string
    var minutes: string
    var dayNum: string
    var weekNum: string
    var secondsNum: string
    var dayName: string
    var month: string
    var currentDate: string
    var isAmHour: bool
    var altClock: string
    var beats: string

    constructor()
      ensures hours == "" && minutes == "" && dayNum == "" && weekNum == "" && secondsNum == ""
      ensures dayName == "" && month == "" && currentDate == "" && !isAmHour && altClock == "" && beats == ""
    {
      hours, minutes, dayNum, weekNum, secondsNum := "", "", "", "", "";
      dayName, month, currentDate, isAmHour, altClock, beats := "", "", "", false, "", "";
    }

    /**
     * Refreshes the strings from the current time `t`. The day and month
     * names come from the language tables and `beatsValue` from the Swatch
     * beat clock, both taken as given. The one-line date is rebuilt only
     * for a horizontal sidebar, the alternative clock only when its widget
     * is configured, the beats only when enabled.
     */
    method Update(s: Settings, t: TimeInfo, is24h: bool, round: bool, dayNameText: string, monthText: string, beatsValue: nat)
      requires ValidTime(t) && |dayNameText| < 8 && |monthText| < 8 && beatsValue < 1000
      modifies this
      ensures hours == HoursText(t.hour, is24h, s.showLeadingZero, s.centerTime)
      ensures minutes == ZeroPadded2(t.min)
      ensures dayNum == DropPadding(SpacePadded2(t.mday))
      ensures weekNum == ZeroPadded2(t.isoWeek)
      ensures secondsNum == ":" + ZeroPadded2(t.sec)
      ensures dayName == dayNameText && month == monthText
      ensures if !round && (s.sidebarLocation == BOTTOM || s.sidebarLocation == TOP)
              then currentDate == CurrentDate(dayNameText, dayNum, monthText) && (isAmHour <==> t.hour < 12)
              else currentDate == old(currentDate) && isAmHour == old(isAmHour)
      ensures altClock == if s.enableAltTimeZone
                          then AltClockAsWritten(t.hour, s.altclockOffset, is24h, s.showLeadingZero)
                          else old(altClock)
      ensures beats == if s.enableBeats then SidebarWidgets.BeatsText(beatsValue) else old(beats)
    {
      UpdateClock(s.showLeadingZero, s.centerTime, t, is24h);
      UpdateDate(s.sidebarLocation, round, t, dayNameText, monthText);
      if s.enableAltTimeZone {
        altClock := AltClockAsWritten(t.hour, s.altclockOffset, is24h, s.showLeadingZero);
      }
      if s.enableBeats {
        beats := SidebarWidgets.BeatsText(beatsValue);
      }
    }

    /** The hours, minutes and seconds strings. */
    method UpdateClock(leadingZero: bool, centerTime: bool, t: TimeInfo, is24h: bool)
      requires ValidTime(t)
      modifies this`hours, this`minutes, this`secondsNum
      ensures hours == HoursText(t.hour, is24h, leadingZero, centerTime)
      ensures minutes == ZeroPadded2(t.min)
      ensures secondsNum == ":" + ZeroPadded2(t.sec)
    {
      hours := HoursText(t.hour, is24h, leadingZero, centerTime);
      minutes := ZeroPadded2(t.min);
      secondsNum := ":" + ZeroPadded2(t.sec);
    }

    /**
     * The date strings, and the one-line date and am/pm flag of a horizontal
     * sidebar, which only the rectangular build computes.
     */
    method UpdateDate(location: int, round: bool, t: TimeInfo, dayNameText: string, monthText: string)
      requires ValidTime(t) && |dayNameText| < 8 && |monthText| < 8
      modifies this`dayNum, this`weekNum, this`dayName, this`month, this`currentDate, this`isAmHour
      ensures dayNum == DropPadding(SpacePadded2(t.mday))
      ensures weekNum == ZeroPadded2(t.isoWeek)
      ensures dayName == dayNameText && month == monthText
      ensures if !round && (location == BOTTOM || location == TOP)
              then currentDate == CurrentDate(dayNameText, dayNum, monthText) && (isAmHour <==> t.hour < 12)
              else currentDate == old(currentDate) && isAmHour == old(isAmHour)
    {
      dayNum := DropPadding(SpacePadded2(t.mday));
      weekNum := ZeroPadded2(t.isoWeek);
      dayName := Prefix(dayNameText, 8);
      month := Prefix(monthText, 8);
      if !round && (location == BOTTOM || location == TOP) {
        currentDate := CurrentDate(dayName, dayNum, month);
        isAmHour := t.hour < 12;
      }
    }
  }
}
