/**
 * The phone side of the watchface: when the settings page closes, the
 * companion app turns the page's answers into the message it sends to the
 * watch (src/pkjs/index.js, the `webviewclosed` handler). It forces some
 * widget slots empty by bar position and platform, moves horizontal-bar
 * widgets up one place, picks its own replaceable slot, and derives the
 * weather and forecast flags it keeps for itself.
 *
 * A text answer that is missing or empty is written `""` (JavaScript
 * treats both as false); `parseInt` results are taken as given.
 */
module Companion {
  import opened Optional
  import opened SettingsTypes
  import Sidebar
  import SettingsStore

  /** `altclock_offset`: `null`, or whatever `parseInt` made of it (`None` for NaN). */
  datatype OffsetAnswer = NullOffset | OffsetText(parsed: Option<int>)

  /** The answers the settings page returns. */
  datatype Config = Config(
    colorBg: Option<int>,
    colorSidebar: Option<int>,
    colorTime: Option<int>,
    sidebarTextColor: Option<int>,
    languageId: Option<int>,
    leadingZero: string,
    centerTime: string,
    clockFont: string,
    widgetIds: seq<int>,
    sidebarPosition: string,
    hourlyVibe: string,
    bluetoothVibe: string,
    disconnectIcon: string,
    largeFont: string,
    units: string,
    batteryMeter: string,
    autobattery: string,
    altclockName: string,
    altclockOffset: OffsetAnswer,
    decimalSeparator: string,
    healthActivityDisplay: string,
    healthUseRestfulSleep: string)

  // ---------------------------------------------------------------------
  // Answer-to-number mappings

  /** A yes/no answer: 1 for "yes", 0 for anything else. */
  function YesNo(answer: string): (v: int)
    ensures v == 0 || v == 1
    ensures v == 1 <==> answer == "yes"
  {
    if answer == "yes" then 1 else 0
  }

  /** The page's font names; anything else sends no font. */
  function ClockFontFor(name: string): (id: Option<int>)
    ensures id.Some? <==> name in ["default", "leco", "bold", "bold-h", "bold-m"]
    ensures id.Some? ==> FONT_SETTING_DEFAULT <= id.value <= FONT_SETTING_BOLD_M
  {
    if name == "default" then Some(FONT_SETTING_DEFAULT)
    else if name == "leco" then Some(FONT_SETTING_LECO)
    else if name == "bold" then Some(FONT_SETTING_BOLD)
    else if name == "bold-h" then Some(FONT_SETTING_BOLD_H)
    else if name == "bold-m" then Some(FONT_SETTING_BOLD_M)
    else None
  }

  /** The page's name of each of the watch's clock fonts. */
  function ClockFontName(id: int): string
    requires FONT_SETTING_DEFAULT <= id <= FONT_SETTING_BOLD_M
  {
    ["default", "leco", "bold", "bold-h", "bold-m"][id]
  }

  /** Every font the watch knows is reached by exactly one name. */
  lemma ClockFontNames(name: string, id: int)
    requires FONT_SETTING_DEFAULT <= id <= FONT_SETTING_BOLD_M
    ensures ClockFontFor(name) == Some(id) <==> name == ClockFontName(id)
  {
  }

  /** The hourly vibration: "yes" every hour, "half" every half hour, otherwise never. */
  function HourlyVibeFor(answer: string): (v: int)
    ensures NO_VIBE <= v <= VIBE_EVERY_HALF_HOUR
    ensures v == VIBE_EVERY_HOUR <==> answer == "yes"
    ensures v == VIBE_EVERY_HALF_HOUR <==> answer == "half"
  {
    if answer == "yes" then VIBE_EVERY_HOUR
    else if answer == "half" then VIBE_EVERY_HALF_HOUR
    else NO_VIBE
  }

  /** The bar position; any name other than the four sides means no bar. */
  function PositionFor(name: string): (p: int)
    ensures NONE <= p <= TOP
    ensures p == LEFT <==> name == "left"
    ensures p == RIGHT <==> name == "right"
    ensures p == BOTTOM <==> name == "bottom"
    ensures p == TOP <==> name == "top"
  {
    if name == "left" then LEFT
    else if name == "right" then RIGHT
    else if name == "bottom" then BOTTOM
    else if name == "top" then TOP
    else NONE
  }

  /** The position the message carries: none at all when the page gave no answer. */
  function PositionOf(name: string): Option<int>
  {
    if name != "" then Some(PositionFor(name)) else None
  }

  predicate Horizontal(pos: Option<int>)
  {
    pos == Some(BOTTOM) || pos == Some(TOP)
  }

  /** What the activity half of the health widget shows; anything unknown means steps. */
  function ActivityDisplayFor(answer: string): (v: int)
    ensures STEPS <= v <= KCALORIES
    ensures v == DISTANCE <==> answer == "distance"
    ensures v == DURATION <==> answer == "duration"
    ensures v == KCALORIES <==> answer == "calories"
  {
    if answer == "distance" then DISTANCE
    else if answer == "duration" then DURATION
    else if answer == "calories" then KCALORIES
    else STEPS
  }

  /** The battery percentage choice; an unknown answer sends nothing. */
  function BatteryPctFor(answer: string): (v: Option<int>)
    ensures v == Some(1) <==> answer == "icon-and-percent"
    ensures v == Some(0) <==> answer == "icon-only"
    ensures v.Some? ==> v == Some(0) || v == Some(1)
  {
    if answer == "icon-and-percent" then Some(1)
    else if answer == "icon-only" then Some(0)
    else None
  }

  // ---------------------------------------------------------------------
  // Widget slots

  /** `Array.prototype.indexOf`: the first position of `x`, or -1. */
  function IndexOf(s: seq<int>, x: int): (r: int)
    ensures -1 <= r < |s|
    ensures r == -1 <==> x !in s
    ensures r >= 0 ==> s[r] == x && forall j :: 0 <= j < r ==> s[j] != x
  {
    if |s| == 0 then -1
    else if s[0] == x then 0
    else
      var k := IndexOf(s[1..], x);
      assert forall j :: 1 <= j < |s| ==> s[j] == s[1..][j - 1];
      if k == -1 then -1 else k + 1
  }

  /**
   * Whether the page's bar position or the round platform empties slot
   * `i`: no bar empties all four, a side bar the fourth, and the round
   * watch the second and fourth.
   */
  predicate ForcedEmpty(i: int, pos: Option<int>, chalk: bool)
  {
    pos == Some(NONE)
    || (i == 3 && (pos == Some(LEFT) || pos == Some(RIGHT)))
    || (chalk && (i == 1 || i == 3))
  }

  /** The chosen widgets with the forced slots emptied. */
  function Forced(ids: seq<int>, pos: Option<int>, chalk: bool): (r: seq<int>)
    requires |ids| == 4
    ensures |r| == 4
  {
    seq(4, i requires 0 <= i < 4 => if ForcedEmpty(i, pos, chalk) then EMPTY else ids[i])
  }

  /**
   * One pass of moving horizontal-bar widgets up: the third moves into an
   * empty second slot, then the fourth into an empty third slot.
   */
  function Normalized(s: seq<int>): (t: seq<int>)
    requires |s| == 4
    ensures |t| == 4 && t[0] == s[0]
  {
    var a := if s[1] == EMPTY then [s[0], s[2], EMPTY, s[3]] else s;
    if a[2] == EMPTY then [a[0], a[1], a[3], EMPTY] else a
  }

  /** Moving widgets up only reorders the slots. */
  lemma NormalizedPermutes(s: seq<int>)
    requires |s| == 4
    ensures multiset(Normalized(s)) == multiset(s)
  {
    assert s == [s[0], s[1], s[2], s[3]];
    if s[1] == EMPTY {
      assert Normalized(s) == [s[0], s[2], s[3], s[1]];
      MovedLastPermutes(s[0], s[1], s[2], s[3]);
    } else if s[2] == EMPTY {
      assert Normalized(s) == [s[0], s[1], s[3], s[2]];
      MovedLastPermutes(s[0], s[2], s[1], s[3]);
      MovedLastPermutes(s[0], s[1], s[3], s[2]);
    }
  }

  /** Moving the second of four slots to the end only reorders them. */
  lemma MovedLastPermutes(w: int, x: int, y: int, z: int)
    ensures multiset([w, y, z, x]) == multiset([w, x, y, z])
  {
    forall v
      ensures multiset([w, y, z, x])[v] == multiset([w, x, y, z])[v]
    {
      FourSlots(w, x, y, z, v);
      FourSlots(w, y, z, x, v);
    }
  }

  function Occurs(v: int, x: int): nat
  {
    if v == x then 1 else 0
  }

  lemma FourSlots(w: int, x: int, y: int, z: int, v: int)
    ensures multiset([w, x, y, z])[v] == Occurs(v, w) + Occurs(v, x) + Occurs(v, y) + Occurs(v, z)
  {
    assert multiset([w])[v] == Occurs(v, w);
    assert multiset([w, x])[v] == Occurs(v, w) + Occurs(v, x);
    assert multiset([w, x, y])[v] == Occurs(v, w) + Occurs(v, x) + Occurs(v, y);
  }

  /** The slots the message carries. */
  function Placed(ids: seq<int>, pos: Option<int>, chalk: bool): (r: seq<int>)
    requires |ids| == 4
    ensures |r| == 4
  {
    if Horizontal(pos) then Normalized(Forced(ids, pos, chalk)) else Forced(ids, pos, chalk)
  }

  /** The widgets other than EMPTY, in slot order. */
  function Shown(s: seq<int>): seq<int>
  {
    if |s| == 0 then [] else (if s[0] == EMPTY then [] else [s[0]]) + Shown(s[1..])
  }

  /** Moving widgets up keeps the order of the widgets shown in slots 1 to 3. */
  lemma {:induction false} NormalizedKeepsOrder(s: seq<int>)
    requires |s| == 4
    ensures Shown(Normalized(s)[1..]) == Shown(s[1..])
  {
    var t := Normalized(s);
    assert t[1..] == [t[1], t[2], t[3]];
    assert s[1..] == [s[1], s[2], s[3]];
    ShownOfThree(t[1], t[2], t[3]);
    ShownOfThree(s[1], s[2], s[3]);
  }

  lemma ShownOfThree(a: int, b: int, c: int)
    ensures Shown([a, b, c]) == (if a == EMPTY then [] else [a]) + (if b == EMPTY then [] else [b])
                               + (if c == EMPTY then [] else [c])
  {
    assert [a, b, c][1..] == [b, c];
    assert [b, c][1..] == [c];
    assert [c][1..] == [];
    assert Shown([c]) == (if c == EMPTY then [] else [c]) + Shown([]);
    assert Shown([b, c]) == (if b == EMPTY then [] else [b]) + Shown([c]);
  }

  /** No empty slot among 1 to 3 comes before a shown widget. */
  predicate Compact(t: seq<int>)
    requires |t| == 4
  {
    forall i, j :: 1 <= i < j < 4 && t[i] == EMPTY ==> t[j] == EMPTY
  }

  /**
   * One pass is not a full compaction: the result leaves a gap exactly
   * when the second and third slots were both empty and the fourth was not.
   */
  lemma NormalizedCompactUnlessTwoGaps(s: seq<int>)
    requires |s| == 4
    ensures Compact(Normalized(s)) <==> !(s[1] == EMPTY && s[2] == EMPTY && s[3] != EMPTY)
  {
    var t := Normalized(s);
    if s[1] == EMPTY && s[2] == EMPTY && s[3] != EMPTY {
      assert t[1] == EMPTY && t[2] == s[3];
    }
  }

  /**
   * Reads the bar position, empties the forced slots and, on a
   * horizontal bar, moves widgets up, all in the order the handler does it.
   */
  method PlaceWidgets(ids: seq<int>, position: string, chalk: bool) returns (pos: Option<int>, slots: seq<int>)
    requires |ids| == 4
    ensures pos == PositionOf(position)
    ensures slots == Placed(ids, pos, chalk)
  {
    slots := ids;
    pos := None;
    if position != "" {
      if position == "left" {
        pos := Some(LEFT);
        slots := slots[3 := EMPTY];
      } else if position == "right" {
        pos := Some(RIGHT);
        slots := slots[3 := EMPTY];
      } else if position == "bottom" {
        pos := Some(BOTTOM);
      } else if position == "top" {
        pos := Some(TOP);
      } else {
        pos := Some(NONE);
        slots := [EMPTY, EMPTY, EMPTY, EMPTY];
      }
    }
    if chalk {
      slots := slots[1 := EMPTY][3 := EMPTY];
    }
    assert slots == Forced(ids, pos, chalk);
    if pos == Some(BOTTOM) || pos == Some(TOP) {
      if slots[1] == EMPTY {
        slots := slots[1 := slots[2]][2 := EMPTY];
      }
      if slots[2] == EMPTY {
        slots := slots[2 := slots[3]][3 := EMPTY];
      }
    }
  }

  // ---------------------------------------------------------------------
  // The companion's replaceable slot

  /** The last empty slot below `n`, or -1. */
  function LastEmpty(ids: seq<int>, n: nat): (r: int)
    requires n <= |ids|
    ensures -1 <= r < n
    ensures r >= 0 ==> ids[r] == EMPTY
    ensures forall j :: r < j < n ==> ids[j] != EMPTY
  {
    if n == 0 then -1
    else if ids[n - 1] == EMPTY then n - 1
    else LastEmpty(ids, n - 1)
  }

  /**
   * The slot the companion names as replaceable. The round watch takes an
   * empty first slot, then an empty third one, then the first current
   * weather, then the first forecast, then the first slot. The others take
   * the LAST empty slot among the three always drawn, then an empty fourth
   * slot on a horizontal bar, then the first current weather, then the
   * first forecast, then the middle slot.
   */
  function CompanionReplaceable(ids: seq<int>, pos: Option<int>, chalk: bool): (r: int)
    requires |ids| == 4
    ensures 0 <= r < 4
    ensures chalk && ids[0] == EMPTY ==> r == 0
    ensures chalk && ids[0] != EMPTY && ids[2] == EMPTY ==> r == 2
    ensures !chalk && (exists i :: 0 <= i < 3 && ids[i] == EMPTY) ==>
      r < 3 && ids[r] == EMPTY && forall j :: r < j < 3 ==> ids[j] != EMPTY
    ensures !chalk && (forall i :: 0 <= i < 3 ==> ids[i] != EMPTY) && ids[3] == EMPTY && Horizontal(pos) ==> r == 3
    ensures (if chalk then ids[0] != EMPTY && ids[2] != EMPTY
             else (forall i :: 0 <= i < 3 ==> ids[i] != EMPTY) && !(ids[3] == EMPTY && Horizontal(pos)))
      ==> if WEATHER_CURRENT in ids then ids[r] == WEATHER_CURRENT && forall j :: 0 <= j < r ==> ids[j] != WEATHER_CURRENT
          else if WEATHER_FORECAST_TODAY in ids
          then ids[r] == WEATHER_FORECAST_TODAY && forall j :: 0 <= j < r ==> ids[j] != WEATHER_FORECAST_TODAY
          else r == (if chalk then 0 else 1)
  {
    var current := IndexOf(ids, WEATHER_CURRENT);
    var forecast := IndexOf(ids, WEATHER_FORECAST_TODAY);
    if chalk then
      if ids[0] == EMPTY then 0
      else if ids[2] == EMPTY then 2
      else if current != -1 then current
      else if forecast != -1 then forecast
      else 0
    else
      var e := LastEmpty(ids, 3);
      if e != -1 then e
      else if ids[3] == EMPTY && Horizontal(pos) then 3
      else if current != -1 then current
      else if forecast != -1 then forecast
      else 1
  }

  /** The handler's search: a loop without a break, so the last empty slot wins. */
  method ReplaceableIndex(ids: seq<int>, pos: Option<int>, chalk: bool) returns (r: int)
    requires |ids| == 4
    ensures r == CompanionReplaceable(ids, pos, chalk)
  {
    if chalk {
      if ids[0] == EMPTY {
        r := 0;
      } else if ids[2] == EMPTY {
        r := 2;
      } else if IndexOf(ids, WEATHER_CURRENT) != -1 {
        r := IndexOf(ids, WEATHER_CURRENT);
      } else if IndexOf(ids, WEATHER_FORECAST_TODAY) != -1 {
        r := IndexOf(ids, WEATHER_FORECAST_TODAY);
      } else {
        r := 0;
      }
    } else {
      r := -1;
      for i := 0 to 3
        invariant r == LastEmpty(ids, i)
      {
        if ids[i] == EMPTY {
          r := i;
        }
      }
      if r == -1 {
        if ids[3] == EMPTY && (pos == Some(BOTTOM) || pos == Some(TOP)) {
          r := 3;
        } else if IndexOf(ids, WEATHER_CURRENT) != -1 {
          r := IndexOf(ids, WEATHER_CURRENT);
        } else if IndexOf(ids, WEATHER_FORECAST_TODAY) != -1 {
          r := IndexOf(ids, WEATHER_FORECAST_TODAY);
        } else {
          r := 1;
        }
      }
    }
  }

  /** On the round watch the named slot is always one the watch draws (the first or the third). */
  lemma ChalkNamesDrawnSlot(ids: seq<int>, position: string)
    requires |ids| == 4
    ensures var pos := PositionOf(position);
      var r := CompanionReplaceable(Placed(ids, pos, true), pos, true);
      r == 0 || r == 2
  {
    var pos := PositionOf(position);
    var f := Forced(ids, pos, true);
    assert f[1] == EMPTY && f[3] == EMPTY;
    var p := Placed(ids, pos, true);
    if Horizontal(pos) {
      assert p[2] == EMPTY;
    } else {
      assert p == f;
    }
  }

  /**
   * The watch does not use the companion's choice, and the two can
   * differ: with the first two slots empty the watch takes the first, the
   * companion the second.
   */
  lemma CompanionDiffersFromWatch()
    ensures CompanionReplaceable([EMPTY, EMPTY, DATE, EMPTY], Some(LEFT), false) == 1
    ensures Sidebar.RectReplaceable([EMPTY, EMPTY, DATE, EMPTY], LEFT) == 0
  {
    assert LastEmpty([EMPTY, EMPTY, DATE, EMPTY], 3) == 1;
  }

  /** With exactly one empty slot among the three drawn, the companion and a rectangular watch agree. */
  lemma CompanionAgreesOnSingleGap(ids: seq<int>, location: int, e: int)
    requires |ids| == 4 && 0 <= e < 3 && ids[e] == EMPTY
    requires forall i :: 0 <= i < 3 && i != e ==> ids[i] != EMPTY
    ensures CompanionReplaceable(ids, Some(location), false) == Sidebar.RectReplaceable(ids, location) == e
  {
  }

  // ---------------------------------------------------------------------
  // Flags the companion derives

  /** The weather stays on ("no") exactly when a weather widget is placed. */
  function DisableWeatherFlag(ids: seq<int>): (f: string)
    ensures f == "no" || f == "yes"
    ensures f == "no" <==> WEATHER_CURRENT in ids || WEATHER_FORECAST_TODAY in ids
  {
    if IndexOf(ids, WEATHER_CURRENT) != -1 || IndexOf(ids, WEATHER_FORECAST_TODAY) != -1 then "no" else "yes"
  }

  /** The forecast is fetched ("yes") exactly when today's forecast is placed. */
  function EnableForecastFlag(ids: seq<int>): (f: string)
    ensures f == "no" || f == "yes"
    ensures f == "yes" <==> WEATHER_FORECAST_TODAY in ids
  {
    if IndexOf(ids, WEATHER_FORECAST_TODAY) != -1 then "yes" else "no"
  }

  /** Automatic battery display stays allowed (0) only when asked for and no battery widget is placed. */
  function DisableAutobatteryValue(answer: string, ids: seq<int>): (v: int)
    ensures v == 0 || v == 1
    ensures v == 0 <==> answer == "on" && BATTERY_METER !in ids
  {
    if answer == "on" && IndexOf(ids, BATTERY_METER) == -1 then 0 else 1
  }

  /** The companion's weather flag matches the one the watch derives from the same slots. */
  lemma WeatherFlagMatchesWatch(s: Settings)
    ensures DisableWeatherFlag(s.widgets) == "yes" <==> SettingsStore.WithDynamic(s).disableWeather
  {
  }

  /** When the companion allows automatic battery display, the watch's derived flag allows it too. */
  lemma AutobatteryMatchesWatch(s: Settings, answer: string)
    ensures DisableAutobatteryValue(answer, s.widgets) == 0 ==> SettingsStore.WithDynamic(s).enableAutoBatteryWidget
  {
  }

  // ---------------------------------------------------------------------
  // The message, section by section

  /** The colour keys; each is absent (`None`) unless the page answered it. */
  datatype ColourKeys = ColourKeys(colorBg: Option<int>, colorSidebar: Option<int>, colorTime: Option<int>,
                                   sidebarTextColor: Option<int>)

  datatype ClockKeys = ClockKeys(languageId: Option<int>, showLeadingZero: Option<int>, centerTime: Option<int>,
                                 clockFontId: Option<int>)

  datatype NotificationKeys = NotificationKeys(hourlyVibe: Option<int>, bluetoothVibe: Option<int>)

  datatype BarKeys = BarKeys(disconnectIcon: Option<int>, useLargeFonts: Option<int>, replacableWidget: Option<int>,
                             languageWordForWeek: Option<string>, useMetric: Option<int>)

  datatype BatteryKeys = BatteryKeys(showBatteryPct: Option<int>, disableAutobattery: Option<int>)

  /** `parseInt` of the offset: a number, or NaN. */
  datatype OffsetValue = Hours(n: int) | NaN

  datatype AltClockKeys = AltClockKeys(altClockName: Option<string>, altClockOffset: Option<OffsetValue>)

  datatype HealthKeys = HealthKeys(decimalSep: Option<string>, healthActivityDisplay: Option<int>,
                                   healthUseRestfulSleep: Option<int>)

  /**
   * The settings message. The handler fills one object key by key; here
   * its keys are grouped by the part of the handler that sets them. The
   * four widget slots are always present.
   */
  datatype Message = Message(
    colours: ColourKeys,
    clock: ClockKeys,
    widgets: seq<int>,
    sidebarPosition: Option<int>,
    notifications: NotificationKeys,
    bar: BarKeys,
    battery: BatteryKeys,
    altClock: AltClockKeys,
    health: HealthKeys)

  /** What the handler produces from a page that returned something. */
  datatype Outcome = Outcome(
    message: Message,
    disableWeather: string,
    enableForecast: string,
    sendsLanguageNames: bool)

  /** A yes/no answer that is only sent when the page gave one. */
  function YesNoAnswer(answer: string): Option<int>
  {
    if answer != "" then Some(YesNo(answer)) else None
  }

  /** The colour keys carry exactly the colours the page answered. */
  predicate ColourSpec(c: Config, k: ColourKeys)
  {
    k.colorBg == c.colorBg && k.colorSidebar == c.colorSidebar && k.colorTime == c.colorTime
    && k.sidebarTextColor == c.sidebarTextColor
  }

  /** The language and clock keys, each present exactly when the page answered it with something known. */
  predicate ClockSpec(c: Config, k: ClockKeys)
  {
    k.languageId == c.languageId
    && k.showLeadingZero == YesNoAnswer(c.leadingZero)
    && k.centerTime == YesNoAnswer(c.centerTime)
    && k.clockFontId == ClockFontFor(c.clockFont)
  }

  /** The vibration keys, present exactly when the page answered them. */
  predicate NotificationSpec(c: Config, k: NotificationKeys)
  {
    k.hourlyVibe == (if c.hourlyVibe != "" then Some(HourlyVibeFor(c.hourlyVibe)) else None)
    && k.bluetoothVibe == YesNoAnswer(c.bluetoothVibe)
  }

  /**
   * The bar's own keys: the replaceable slot always, the week word only
   * with a week number widget and a language, the units only with a
   * weather widget.
   */
  predicate BarSpec(c: Config, slots: seq<int>, pos: Option<int>, chalk: bool, wordForWeek: string, k: BarKeys)
    requires |slots| == 4
  {
    var weather := WEATHER_CURRENT in slots || WEATHER_FORECAST_TODAY in slots;
    k.disconnectIcon == YesNoAnswer(c.disconnectIcon)
    && k.useLargeFonts == YesNoAnswer(c.largeFont)
    && k.replacableWidget == Some(CompanionReplaceable(slots, pos, chalk))
    && k.languageWordForWeek == (if c.languageId.Some? && WEEK_NUMBER in slots then Some(wordForWeek) else None)
    && k.useMetric == (if weather && c.units != "" then Some(if c.units == "c" then 1 else 0) else None)
  }

  /** The battery keys. */
  predicate BatterySpec(c: Config, slots: seq<int>, k: BatteryKeys)
  {
    k.showBatteryPct == BatteryPctFor(c.batteryMeter)
    && k.disableAutobattery == (if c.autobattery != "" then Some(DisableAutobatteryValue(c.autobattery, slots)) else None)
  }

  function OffsetOf(a: OffsetAnswer): Option<OffsetValue>
  {
    match a
    case NullOffset => None
    case OffsetText(p) => Some(if p.Some? then Hours(p.value) else NaN)
  }

  /** The alternative clock keys, sent only when its widget is placed. */
  predicate AltClockSpec(c: Config, slots: seq<int>, k: AltClockKeys)
  {
    var alt := ALT_TIME_ZONE in slots;
    k.altClockName == (if alt && c.altclockName != "" then Some(c.altclockName) else None)
    && k.altClockOffset == (if alt then OffsetOf(c.altclockOffset) else None)
  }

  /** The health keys, sent only when a widget that uses them is placed, and never to the oldest watch. */
  predicate HealthSpec(c: Config, slots: seq<int>, aplite: bool, k: HealthKeys)
  {
    var activity := !aplite && (HEALTH in slots || STEP in slots);
    var sleep := !aplite && (HEALTH in slots || SLEEP in slots);
    k.decimalSep == (if activity && c.decimalSeparator != "" then Some(c.decimalSeparator) else None)
    && k.healthActivityDisplay ==
         (if activity && c.healthActivityDisplay != "" then Some(ActivityDisplayFor(c.healthActivityDisplay)) else None)
    && k.healthUseRestfulSleep == (if sleep then YesNoAnswer(c.healthUseRestfulSleep) else None)
  }

  const NoBarKeys := BarKeys(None, None, None, None, None)
  const NoBatteryKeys := BatteryKeys(None, None)
  const NoAltClockKeys := AltClockKeys(None, None)
  const NoHealthKeys := HealthKeys(None, None, None)

  method ColourOptions(c: Config) returns (k: ColourKeys)
    ensures ColourSpec(c, k)
  {
    k := ColourKeys(None, None, None, None);
    if c.colorBg.Some? {
      k := k.(colorBg := Some(c.colorBg.value));
    }
    if c.colorSidebar.Some? {
      k := k.(colorSidebar := Some(c.colorSidebar.value));
    }
    if c.colorTime.Some? {
      k := k.(colorTime := Some(c.colorTime.value));
    }
    if c.sidebarTextColor.Some? {
      k := k.(sidebarTextColor := Some(c.sidebarTextColor.value));
    }
  }

  method ClockOptions(c: Config) returns (k: ClockKeys)
    ensures ClockSpec(c, k)
  {
    k := ClockKeys(None, None, None, None);
    if c.languageId.Some? {
      k := k.(languageId := Some(c.languageId.value));
    }
    if c.leadingZero != "" {
      k := k.(showLeadingZero := Some(if c.leadingZero == "yes" then 1 else 0));
    }
    if c.centerTime != "" {
      k := k.(centerTime := Some(if c.centerTime == "yes" then 1 else 0));
    }
    if c.clockFont != "" {
      if c.clockFont == "default" {
        k := k.(clockFontId := Some(FONT_SETTING_DEFAULT));
      } else if c.clockFont == "leco" {
        k := k.(clockFontId := Some(FONT_SETTING_LECO));
      } else if c.clockFont == "bold" {
        k := k.(clockFontId := Some(FONT_SETTING_BOLD));
      } else if c.clockFont == "bold-h" {
        k := k.(clockFontId := Some(FONT_SETTING_BOLD_H));
      } else if c.clockFont == "bold-m" {
        k := k.(clockFontId := Some(FONT_SETTING_BOLD_M));
      }
    }
  }

  method NotificationOptions(c: Config) returns (k: NotificationKeys)
    ensures NotificationSpec(c, k)
  {
    k := NotificationKeys(None, None);
    if c.hourlyVibe != "" {
      if c.hourlyVibe == "yes" {
        k := k.(hourlyVibe := Some(VIBE_EVERY_HOUR));
      } else if c.hourlyVibe == "half" {
        k := k.(hourlyVibe := Some(VIBE_EVERY_HALF_HOUR));
      } else {
        k := k.(hourlyVibe := Some(NO_VIBE));
      }
    }
    if c.bluetoothVibe != "" {
      k := k.(bluetoothVibe := Some(if c.bluetoothVibe == "yes" then 1 else 0));
    }
  }

  method BarOptions(c: Config, slots: seq<int>, pos: Option<int>, chalk: bool, wordForWeek: string) returns (k: BarKeys)
    requires |slots| == 4
    ensures BarSpec(c, slots, pos, chalk, wordForWeek, k)
  {
    k := NoBarKeys;
    if c.disconnectIcon != "" {
      k := k.(disconnectIcon := Some(if c.disconnectIcon == "yes" then 1 else 0));
    }
    if c.largeFont != "" {
      k := k.(useLargeFonts := Some(if c.largeFont == "yes" then 1 else 0));
    }
    var r := ReplaceableIndex(slots, pos, chalk);
    k := k.(replacableWidget := Some(r));
    if c.languageId.Some? && IndexOf(slots, WEEK_NUMBER) != -1 {
      k := k.(languageWordForWeek := Some(wordForWeek));
    }
    if IndexOf(slots, WEATHER_CURRENT) != -1 || IndexOf(slots, WEATHER_FORECAST_TODAY) != -1 {
      if c.units != "" {
        k := k.(useMetric := Some(if c.units == "c" then 1 else 0));
      }
    }
  }

  method BatteryOptions(c: Config, slots: seq<int>) returns (k: BatteryKeys)
    ensures BatterySpec(c, slots, k)
  {
    k := NoBatteryKeys;
    if c.batteryMeter != "" {
      if c.batteryMeter == "icon-and-percent" {
        k := k.(showBatteryPct := Some(1));
      } else if c.batteryMeter == "icon-only" {
        k := k.(showBatteryPct := Some(0));
      }
    }
    if c.autobattery != "" {
      if c.autobattery == "on" && IndexOf(slots, BATTERY_METER) == -1 {
        k := k.(disableAutobattery := Some(0));
      } else {
        k := k.(disableAutobattery := Some(1));
      }
    }
  }

  method AltClockOptions(c: Config, slots: seq<int>) returns (k: AltClockKeys)
    ensures AltClockSpec(c, slots, k)
  {
    k := NoAltClockKeys;
    if c.altclockName != "" && IndexOf(slots, ALT_TIME_ZONE) != -1 {
      k := k.(altClockName := Some(c.altclockName));
    }
    if c.altclockOffset != NullOffset && IndexOf(slots, ALT_TIME_ZONE) != -1 {
      var p := c.altclockOffset.parsed;
      k := k.(altClockOffset := Some(if p.Some? then Hours(p.value) else NaN));
    }
  }

  method HealthOptions(c: Config, slots: seq<int>, aplite: bool) returns (k: HealthKeys)
    ensures HealthSpec(c, slots, aplite, k)
  {
    k := NoHealthKeys;
    if !aplite {
      var activity := IndexOf(slots, HEALTH) != -1 || IndexOf(slots, STEP) != -1;
      if c.decimalSeparator != "" && activity {
        k := k.(decimalSep := Some(c.decimalSeparator));
      }
      if c.healthActivityDisplay != "" && activity {
        if c.healthActivityDisplay == "distance" {
          k := k.(healthActivityDisplay := Some(DISTANCE));
        } else if c.healthActivityDisplay == "duration" {
          k := k.(healthActivityDisplay := Some(DURATION));
        } else if c.healthActivityDisplay == "calories" {
          k := k.(healthActivityDisplay := Some(KCALORIES));
        } else {
          k := k.(healthActivityDisplay := Some(STEPS));
        }
      }
      if c.healthUseRestfulSleep != "" && (IndexOf(slots, HEALTH) != -1 || IndexOf(slots, SLEEP) != -1) {
        k := k.(healthUseRestfulSleep := Some(if c.healthUseRestfulSleep == "yes" then 1 else 0));
      }
    }
  }

  /** The language names go out when a language was chosen and a horizontal bar or a date widget shows them. */
  predicate SendsLanguageNames(c: Config, slots: seq<int>, pos: Option<int>)
  {
    c.languageId.Some? && ((pos.Some? && pos.value > RIGHT) || DATE in slots)
  }

  /**
   * The handler. Nothing is sent when the page returned nothing;
   * otherwise every key is set as its section's rule says, the bar's keys
   * only when the bar is not switched off, and the weather and forecast
   * flags follow the placed widgets.
   */
  method WebviewClosed(response: Option<Config>, platform: string, wordForWeek: string) returns (out: Option<Outcome>)
    requires response.Some? ==> |response.value.widgetIds| == 4
    ensures out.Some? <==> response.Some?
    ensures response.Some? ==>
      var c := response.value;
      var chalk := platform == "chalk";
      var pos := PositionOf(c.sidebarPosition);
      var slots := Placed(c.widgetIds, pos, chalk);
      var m := out.value.message;
      ColourSpec(c, m.colours) && ClockSpec(c, m.clock) && NotificationSpec(c, m.notifications)
      && m.widgets == slots && m.sidebarPosition == pos
      && (pos != Some(NONE) ==>
            BarSpec(c, slots, pos, chalk, wordForWeek, m.bar) && BatterySpec(c, slots, m.battery)
            && AltClockSpec(c, slots, m.altClock) && HealthSpec(c, slots, platform == "aplite", m.health))
      && (pos == Some(NONE) ==>
            m.bar == NoBarKeys && m.battery == NoBatteryKeys && m.altClock == NoAltClockKeys && m.health == NoHealthKeys)
      && out.value.disableWeather == DisableWeatherFlag(slots)
      && out.value.enableForecast == EnableForecastFlag(slots)
      && (out.value.sendsLanguageNames <==> SendsLanguageNames(c, slots, pos))
  {
    if response.None? {
      return None;
    }
    var c := response.value;
    var chalk := platform == "chalk";
    var colours := ColourOptions(c);
    var clock := ClockOptions(c);
    var pos, slots := PlaceWidgets(c.widgetIds, c.sidebarPosition, chalk);
    var notifications := NotificationOptions(c);
    var bar, battery, alt, health := NoBarKeys, NoBatteryKeys, NoAltClockKeys, NoHealthKeys;
    if pos != Some(NONE) {
      bar := BarOptions(c, slots, pos, chalk, wordForWeek);
      battery := BatteryOptions(c, slots);
      alt := AltClockOptions(c, slots);
      health := HealthOptions(c, slots, platform == "aplite");
    }
    var m := Message(colours, clock, slots, pos, notifications, bar, battery, alt, health);
    var sends := c.languageId.Some? && ((pos.Some? && pos.value > RIGHT) || IndexOf(slots, DATE) != -1);
    out := Some(Outcome(m, DisableWeatherFlag(slots), EnableForecastFlag(slots), sends));
  }
}
