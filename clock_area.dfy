/**
 * The clock area (src/c/clock_area.c): where the hours, the colon, the
 * minutes and the date are drawn for a given screen size, clock font and
 * sidebar position, and which of the three loaded fonts each part of the
 * time uses.
 */
module ClockArea {
  import opened Optional
  import opened CArith
  import opened SettingsTypes
  import Companion

  /** A text box handed to the drawing call: origin and size in pixels. */
  datatype Box = Box(x: int, y: int, w: int, h: int)

  /** The four boxes the clock area draws into. */
  datatype ClockLayout = ClockLayout(hours: Box, colon: Box, minutes: Box, date: Box)

  // Half the gap left for the colon between hours and minutes.
  const COLON_MARGIN: int := 7
  // Height of the digit boxes and of the date box.
  const DIGIT_HEIGHT: int := 44
  const DATE_HEIGHT: int := 30

  /**
   * The boxes for a `w` by `h` clock area. The LECO font uses a smaller top
   * padding and sits one pixel further left; a bar along the bottom leaves
   * the clock at the top, any other position pushes it down by the height
   * of a horizontal bar.
   */
  function Layout(w: int, h: int, clockFontId: int, sidebarLocation: int): (l: ClockLayout)
    ensures l.hours.y == l.colon.y == l.minutes.y
    ensures l.minutes.x - l.hours.x == 2 * COLON_MARGIN
    ensures l.minutes.x + l.minutes.w == w
    ensures l.hours.w == CDiv(w, 2) && l.hours.x + l.hours.w <= l.minutes.x + CDiv(w, 2)
    ensures l.colon.x + l.colon.w <= l.minutes.x && l.hours.x < l.colon.x
    ensures l.date.x == 0 && l.date.w == w
    ensures l.hours.h == l.colon.h == l.minutes.h == DIGIT_HEIGHT && l.date.h == DATE_HEIGHT
  {
    var leco := clockFontId == FONT_SETTING_LECO;
    var vPadding := if leco then CDiv(h, 20) else CDiv(h, 16);
    var hAdjust := if leco then -3 else -2;
    var vAdjust := if sidebarLocation == BOTTOM then -3 else FIXED_WIDGET_HEIGHT - 3;
    var middle := CDiv(w, 2);
    var y := 3 * vPadding + vAdjust;
    var minutesX := middle + COLON_MARGIN + hAdjust;
    ClockLayout(
      Box(middle - COLON_MARGIN + hAdjust, y, middle, DIGIT_HEIGHT),
      Box(if leco then middle else middle - 1, y, COLON_MARGIN + hAdjust, DIGIT_HEIGHT),
      Box(minutesX, y, w - minutesX, DIGIT_HEIGHT),
      Box(0, CDiv(h, 2) - 11 + vAdjust, w, DATE_HEIGHT))
  }

  /**
   * A bar along the bottom lifts every box by the height of a horizontal
   * bar, compared with any other sidebar position, and moves nothing sideways.
   */
  lemma BottomBarLiftsClock(w: int, h: int, clockFontId: int, location: int)
    requires location != BOTTOM
    ensures var up, down := Layout(w, h, clockFontId, BOTTOM), Layout(w, h, clockFontId, location);
      up.hours.y + FIXED_WIDGET_HEIGHT == down.hours.y && up.date.y + FIXED_WIDGET_HEIGHT == down.date.y
      && up.hours.x == down.hours.x && up.colon.x == down.colon.x && up.minutes.x == down.minutes.x
  {
  }

  /**
   * With LECO the digits start one pixel further left and, on a screen of
   * non-negative height, no lower than with any other font.
   */
  lemma LecoSitsLeftAndHigher(w: int, h: int, clockFontId: int, location: int)
    requires h >= 0 && clockFontId != FONT_SETTING_LECO
    ensures var leco, other := Layout(w, h, FONT_SETTING_LECO, location), Layout(w, h, clockFontId, location);
      leco.hours.x + 1 == other.hours.x && leco.minutes.x + 1 == other.minutes.x
      && leco.colon.x == other.colon.x + 1 && leco.hours.y <= other.hours.y && leco.date == other.date
  {
  }

  // ---------------------------------------------------------------------
  // Fonts

  /** The fonts the clock area loads; `Unset` before the first selection. */
  datatype Font = Unset | Bitham | BithamBold | Leco

  /** A font for the hours, the minutes and the colon. */
  datatype FontChoice = FontChoice(hours: Font, minutes: Font, colon: Font)

  /**
   * The fonts a clock font setting selects, or `None` for a setting the
   * watch does not know. Bold hours come with "bold" and "bold hours",
   * bold minutes with "bold" and "bold minutes"; the colon is bold only
   * when everything is; LECO is used for all three or for none.
   */
  function FontsFor(clockFontId: int): (r: Option<FontChoice>)
    ensures r.Some? <==> FONT_SETTING_DEFAULT <= clockFontId <= FONT_SETTING_BOLD_M
    ensures r.Some? ==> (r.value.hours == BithamBold <==> clockFontId in {FONT_SETTING_BOLD, FONT_SETTING_BOLD_H})
    ensures r.Some? ==> (r.value.minutes == BithamBold <==> clockFontId in {FONT_SETTING_BOLD, FONT_SETTING_BOLD_M})
    ensures r.Some? ==> (r.value.colon == BithamBold <==> clockFontId == FONT_SETTING_BOLD)
    ensures r.Some? ==> (r.value.hours == Leco <==> clockFontId == FONT_SETTING_LECO)
    ensures r.Some? ==> (r.value.hours == Leco <==> r.value.minutes == Leco) && (r.value.hours == Leco <==> r.value.colon == Leco)
    ensures r.Some? ==> r.value.hours != Unset && r.value.minutes != Unset && r.value.colon != Unset
  {
    if clockFontId == FONT_SETTING_DEFAULT then Some(FontChoice(Bitham, Bitham, Bitham))
    else if clockFontId == FONT_SETTING_BOLD then Some(FontChoice(BithamBold, BithamBold, BithamBold))
    else if clockFontId == FONT_SETTING_BOLD_H then Some(FontChoice(BithamBold, Bitham, Bitham))
    else if clockFontId == FONT_SETTING_BOLD_M then Some(FontChoice(Bitham, BithamBold, Bitham))
    else if clockFontId == FONT_SETTING_LECO then Some(FontChoice(Leco, Leco, Leco))
    else None
  }

  /** Every font name the settings page offers selects a set of fonts on the watch. */
  lemma PageFontsAreKnown(name: string)
    ensures Companion.ClockFontFor(name).Some? ==> FontsFor(Companion.ClockFontFor(name).value).Some?
  {
  }

  /** The fonts currently used for the hours, the minutes and the colon. */
  class ClockFonts {
    var hoursFont: Font
    var minutesFont: Font
    var colonFont: Font

    function Current(): FontChoice
      reads this
    {
      FontChoice(hoursFont, minutesFont, colonFont)
    }

    constructor()
      ensures Current() == FontChoice(Unset, Unset, Unset)
    {
      hoursFont, minutesFont, colonFont := Unset, Unset, Unset;
    }

    /** Switches to the fonts of `clockFontId`; an unknown setting keeps the fonts in use. */
    method UpdateFonts(clockFontId: int)
      modifies this
      ensures FontsFor(clockFontId).Some? ==> Current() == FontsFor(clockFontId).value
      ensures FontsFor(clockFontId).None? ==> Current() == old(Current())
    {
      if clockFontId == FONT_SETTING_DEFAULT {
        hoursFont, minutesFont, colonFont := Bitham, Bitham, Bitham;
      } else if clockFontId == FONT_SETTING_BOLD {
        hoursFont, minutesFont, colonFont := BithamBold, BithamBold, BithamBold;
      } else if clockFontId == FONT_SETTING_BOLD_H {
        hoursFont, minutesFont, colonFont := BithamBold, Bitham, Bitham;
      } else if clockFontId == FONT_SETTING_BOLD_M {
        hoursFont, minutesFont, colonFont := Bitham, BithamBold, Bitham;
      } else if clockFontId == FONT_SETTING_LECO {
        hoursFont, minutesFont, colonFont := Leco, Leco, Leco;
      }
    }
  }
}
