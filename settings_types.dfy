/**
 * The watchface's configuration record (`Settings`), the packed record it
 * is persisted as (`StoredSettings`), and the enumerations both use.
 */
module SettingsTypes {
  import opened CArith

  // Settings key layout version written next to the packed record.
  const CURRENT_SETTINGS_VERSION: int := 7
  const FIXED_WIDGET_HEIGHT: int := 51

  // Where the sidebar sits (BarLocationType).
  const NONE: int := 0
  const LEFT: int := 1
  const RIGHT: int := 2
  const BOTTOM: int := 3
  const TOP: int := 4

  // How often to vibrate (VibeIntervalType).
  const NO_VIBE: int := 0
  const VIBE_EVERY_HOUR: int := 1
  const VIBE_EVERY_HALF_HOUR: int := 2

  // What the activity half of the health widget shows (ActivityDisplayType).
  const STEPS: int := 0
  const DISTANCE: int := 1
  const DURATION: int := 2
  const KCALORIES: int := 3

  // Sidebar widget type ids, as the phone sends them.
  const EMPTY: int := 0
  const BLUETOOTH_DISCONNECT: int := 1
  const BATTERY_METER: int := 2
  const ALT_TIME_ZONE: int := 3
  const DATE: int := 4
  const SECONDS: int := 5
  const WEEK_NUMBER: int := 6
  const WEATHER_CURRENT: int := 7
  const WEATHER_FORECAST_TODAY: int := 8
  const TIME_UNUSED: int := 9
  const HEALTH: int := 10
  const BEATS: int := 11
  const HEARTRATE: int := 12
  const SLEEP: int := 13
  const STEP: int := 14

  // Clock font choices.
  const FONT_SETTING_DEFAULT: int := 0
  const FONT_SETTING_LECO: int := 1
  const FONT_SETTING_BOLD: int := 2
  const FONT_SETTING_BOLD_H: int := 3
  const FONT_SETTING_BOLD_M: int := 4

  const LANGUAGE_EN: U8 := 0

  /** A 64-colour display colour, one byte `aarrggbb`. */
  type GColor = U8
  const GColorBlack: GColor := 0xC0
  const GColorWhite: GColor := 0xFF
  const GColorLightGray: GColor := 0xEA

  /**
   * The colour nearest below a 24-bit `0xRRGGBB` value: each channel keeps
   * its two high bits and the colour is opaque. The shifts of a negative
   * 32-bit value are arithmetic, which is floor division.
   */
  function GColorFromHex(hex: int): (c: GColor)
    ensures c / 64 == 3
    ensures (c / 16) % 4 == ((hex / 0x10000) % 256) / 64
    ensures (c / 4) % 4 == ((hex / 0x100) % 256) / 64
    ensures c % 4 == (hex % 256) / 64
  {
    var r := (hex / 0x10000) % 256;
    var g := (hex / 0x100) % 256;
    var b := hex % 256;
    PackedChannels(r / 64, g / 64, b / 64);
    0xC0 + (r / 64) * 16 + (g / 64) * 4 + b / 64
  }

  /** Three 2-bit channels packed under the opaque alpha bits read back one by one. */
  lemma PackedChannels(r: int, g: int, b: int)
    requires 0 <= r < 4 && 0 <= g < 4 && 0 <= b < 4
    ensures var c := 0xC0 + r * 16 + g * 4 + b;
      0 <= c < 256 && c / 64 == 3 && (c / 16) % 4 == r && (c / 4) % 4 == g && c % 4 == b
  {
    var c := 0xC0 + r * 16 + g * 4 + b;
    assert c == 64 * 3 + 16 * r + (4 * g + b);
    assert c / 4 == 48 + 4 * r + g;
    assert c / 16 == 12 + r;
  }

  /** The configuration the watchface runs with (globalSettings). */
  datatype Settings = Settings(
    timeColor: GColor,
    timeBgColor: GColor,
    sidebarColor: GColor,
    sidebarTextColor: GColor,
    languageId: U8,
    showLeadingZero: bool,
    clockFontId: U8,
    btVibe: bool,
    hourlyVibe: int,
    widgets: seq<int>,
    sidebarLocation: int,
    useLargeFonts: bool,
    activateDisconnectIcon: bool,
    useMetric: bool,
    showBatteryPct: bool,
    disableAutobattery: bool,
    altclockName: string,
    altclockOffset: int,
    healthActivityDisplay: int,
    healthUseRestfulSleep: bool,
    decimalSeparator: char,
    centerTime: bool,
    // derived from the widget choice and the colours
    disableWeather: bool,
    updateScreenEverySecond: bool,
    enableAutoBatteryWidget: bool,
    enableBeats: bool,
    enableAltTimeZone: bool,
    iconFillColor: GColor,
    iconStrokeColor: GColor)

  /** The packed record kept in persistent storage, field widths as declared. */
  datatype StoredSettings = StoredSettings(
    timeColor: GColor,
    timeBgColor: GColor,
    sidebarColor: GColor,
    sidebarTextColor: GColor,
    languageId: U8,
    showLeadingZero: U1,
    clockFontId: U7,
    btVibe: U1,
    hourlyVibe: S7,
    widgets: seq<U8>,
    useLargeFonts: U1,
    useMetric: U1,
    showBatteryPct: U1,
    disableAutobattery: U1,
    healthActivityDisplay: U2,
    healthUseRestfulSleep: U1,
    decimalSeparator: char,
    altclockName: string,
    altclockOffset: S8,
    sidebarLocation: U3,
    activateDisconnectIcon: S1,
    centerTime: U1)

  /** Four widget slots and an alternative clock name that fits its 8-byte field. */
  predicate WellFormed(s: Settings)
  {
    |s.widgets| == 4 && |s.altclockName| <= 8
  }

  predicate StoredWellFormed(st: StoredSettings)
  {
    |st.widgets| == 4 && |st.altclockName| <= 8
  }
}
