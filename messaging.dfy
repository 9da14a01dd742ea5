/**
 * The watch's side of the phone link (src/c/messaging.c): an incoming
 * message may carry current weather, a forecast, and any subset of the
 * settings keys. Weather is taken only when all of its keys are present;
 * each settings key that is present overwrites its field, then the
 * derived flags are recomputed and the configuration is saved.
 */
module Messaging {
  import opened Optional
  import opened CArith
  import opened Format
  import opened SettingsTypes
  import SettingsStore
  import Companion

  /**
   * The keys of an incoming message the watch looks for, `None` when a
   * key is missing. Numbers are the integers the phone put in the tuple;
   * the watch reads some as 8-bit and some as 32-bit values.
   */
  datatype Inbox = Inbox(
    weatherTemperature: Option<int>,
    weatherCondition: Option<int>,
    forecastCondition: Option<int>,
    forecastHighTemp: Option<int>,
    forecastLowTemp: Option<int>,
    colorTime: Option<int>,
    colorBg: Option<int>,
    colorSidebar: Option<int>,
    sidebarTextColor: Option<int>,
    sidebarPosition: Option<int>,
    useMetric: Option<int>,
    btVibe: Option<int>,
    languageId: Option<int>,
    showLeadingZero: Option<int>,
    showBatteryPct: Option<int>,
    disableWeather: Option<int>,
    clockFontId: Option<int>,
    hourlyVibe: Option<int>,
    useLargeFonts: Option<int>,
    widgets: seq<Option<int>>,
    altclockName: Option<string>,
    altclockOffset: Option<int>,
    disableAutobattery: Option<int>,
    disconnectIcon: Option<int>)

  /** A message without any key the watch looks for. */
  const NoKeys: Inbox := Inbox(None, None, None, None, None, None, None, None, None, None, None, None, None,
                               None, None, None, None, None, None, [None, None, None, None], None, None, None, None)

  /** Reading a tuple as `int8`: the low byte, two's complement. */
  function Int8(v: int): (r: int)
    ensures -128 <= r < 128
    ensures -128 <= v < 128 ==> r == v
  {
    WrapSigned(v, 256)
  }

  /** Reading a tuple as `int32`. */
  function Int32(v: int): (r: int)
    ensures -0x8000_0000 <= r < 0x8000_0000
    ensures -0x8000_0000 <= v < 0x8000_0000 ==> r == v
  {
    WrapSigned(v, 0x1_0000_0000)
  }

  /** An `int8` stored into a `uint8` field. */
  function Byte(v: int): (r: U8)
    ensures 0 <= v < 128 ==> r == v
  {
    Wrap(Int8(v), 256)
  }

  /** A flag read as `(bool)` of an `int8`: any nonzero low byte sets it. */
  function Flag(v: int): (b: bool)
    ensures b <==> v % 256 != 0
  {
    Int8(v) != 0
  }

  /** The field a present key overwrites, or the old value. */
  function ColourOr(key: Option<int>, prev: GColor): GColor
  {
    if key.Some? then GColorFromHex(Int32(key.value)) else prev
  }

  function IntOr(key: Option<int>, prev: int): int
  {
    if key.Some? then Int8(key.value) else prev
  }

  function ByteOr(key: Option<int>, prev: U8): U8
  {
    if key.Some? then Byte(key.value) else prev
  }

  function FlagOr(key: Option<int>, prev: bool): bool
  {
    if key.Some? then Flag(key.value) else prev
  }

  /** `s` with its four colours replaced. */
  function WithColours(s: Settings, time: GColor, bg: GColor, sidebar: GColor, text: GColor): (r: Settings)
    requires WellFormed(s)
    ensures WellFormed(r)
    ensures r.timeColor == time && r.timeBgColor == bg && r.sidebarColor == sidebar && r.sidebarTextColor == text
  {
    s.(timeColor := time, timeBgColor := bg, sidebarColor := sidebar, sidebarTextColor := text)
  }

  /** The colour keys of `m` applied; colours arrive as 24-bit hex values. */
  function ColoursApplied(s: Settings, m: Inbox): Settings
    requires WellFormed(s)
  {
    WithColours(s, ColourOr(m.colorTime, s.timeColor), ColourOr(m.colorBg, s.timeBgColor),
                ColourOr(m.colorSidebar, s.sidebarColor), ColourOr(m.sidebarTextColor, s.sidebarTextColor))
  }

  /** `s` with its sidebar position, clock font, hourly vibration and language replaced. */
  function WithChoices(s: Settings, location: int, font: U8, hourly: int, language: U8): (r: Settings)
    requires WellFormed(s)
    ensures WellFormed(r)
    ensures r.sidebarLocation == location && r.clockFontId == font && r.hourlyVibe == hourly && r.languageId == language
  {
    s.(sidebarLocation := location, clockFontId := font, hourlyVibe := hourly, languageId := language)
  }

  /** The position, font, vibration and language keys of `m` applied. */
  function ChoicesApplied(s: Settings, m: Inbox): Settings
    requires WellFormed(s)
  {
    WithChoices(s, IntOr(m.sidebarPosition, s.sidebarLocation), ByteOr(m.clockFontId, s.clockFontId),
                IntOr(m.hourlyVibe, s.hourlyVibe), ByteOr(m.languageId, s.languageId))
  }

  /** The on/off keys of `m` applied. */
  function FlagsApplied(s: Settings, m: Inbox): Settings
  {
    s.(useMetric := FlagOr(m.useMetric, s.useMetric),
       btVibe := FlagOr(m.btVibe, s.btVibe),
       showLeadingZero := FlagOr(m.showLeadingZero, s.showLeadingZero),
       showBatteryPct := FlagOr(m.showBatteryPct, s.showBatteryPct),
       disableAutobattery := FlagOr(m.disableAutobattery, s.disableAutobattery),
       disableWeather := FlagOr(m.disableWeather, s.disableWeather),
       useLargeFonts := FlagOr(m.useLargeFonts, s.useLargeFonts))
  }

  /**
   * The widget and alternative clock keys of `m` applied. The clock name
   * is copied with `strncpy` into its 8-byte field.
   */
  function WidgetsApplied(s: Settings, m: Inbox): Settings
    requires |m.widgets| == 4 && WellFormed(s)
  {
    s.(widgets := [IntOr(m.widgets[0], s.widgets[0]), IntOr(m.widgets[1], s.widgets[1]),
                   IntOr(m.widgets[2], s.widgets[2]), IntOr(m.widgets[3], s.widgets[3])],
       altclockName := if m.altclockName.Some? then Prefix(CString(m.altclockName.value), 8) else s.altclockName,
       altclockOffset := IntOr(m.altclockOffset, s.altclockOffset),
       activateDisconnectIcon := FlagOr(m.disconnectIcon, s.activateDisconnectIcon))
  }

  /** The configuration after every settings key of `m` is applied, before the derived flags are recomputed. */
  function Applied(s: Settings, m: Inbox): (r: Settings)
    requires |m.widgets| == 4 && WellFormed(s)
    ensures WellFormed(r)
  {
    WidgetsApplied(FlagsApplied(ChoicesApplied(ColoursApplied(s, m), m), m), m)
  }

  /** Current conditions and today's forecast as the weather module keeps them. */
  class WeatherStore {
    var currentTemp: int
    var currentCondition: int
    var forecastHighTemp: int
    var forecastLowTemp: int
    var forecastCondition: int
    /** How many times the weather has been written to persistent storage. */
    var saves: nat

    constructor()
      ensures currentTemp == 0 && currentCondition == 0 && forecastHighTemp == 0 && forecastLowTemp == 0
      ensures forecastCondition == 0 && saves == 0
    {
      currentTemp, currentCondition, forecastHighTemp, forecastLowTemp, forecastCondition := 0, 0, 0, 0, 0;
      saves := 0;
    }

    /** Takes the current conditions only when both temperature and condition arrived. */
    method ReceiveCurrent(m: Inbox)
      modifies this`currentTemp, this`currentCondition, this`saves
      ensures if m.weatherTemperature.Some? && m.weatherCondition.Some?
              then currentTemp == Int32(m.weatherTemperature.value)
                   && currentCondition == Int32(m.weatherCondition.value) && saves == old(saves) + 1
              else currentTemp == old(currentTemp) && currentCondition == old(currentCondition)
                   && saves == old(saves)
    {
      if m.weatherTemperature.Some? && m.weatherCondition.Some? {
        currentTemp := Int32(m.weatherTemperature.value);
        currentCondition := Int32(m.weatherCondition.value);
        saves := saves + 1;
      }
    }

    /** Takes the forecast only when its condition and both temperatures arrived. */
    method ReceiveForecast(m: Inbox)
      modifies this`forecastHighTemp, this`forecastLowTemp, this`forecastCondition, this`saves
      ensures if m.forecastCondition.Some? && m.forecastHighTemp.Some? && m.forecastLowTemp.Some?
              then forecastHighTemp == Int32(m.forecastHighTemp.value)
                   && forecastLowTemp == Int32(m.forecastLowTemp.value)
                   && forecastCondition == Int32(m.forecastCondition.value) && saves == old(saves) + 1
              else forecastHighTemp == old(forecastHighTemp) && forecastLowTemp == old(forecastLowTemp)
                   && forecastCondition == old(forecastCondition) && saves == old(saves)
    {
      if m.forecastCondition.Some? && m.forecastHighTemp.Some? && m.forecastLowTemp.Some? {
        forecastHighTemp := Int32(m.forecastHighTemp.value);
        forecastLowTemp := Int32(m.forecastLowTemp.value);
        forecastCondition := Int32(m.forecastCondition.value);
        saves := saves + 1;
      }
    }
  }

  /**
   * The inbox handler: weather first, then every settings key that is
   * present, then the derived flags; the configuration is packed for
   * storage and returned with its version number.
   */
  method InboxReceived(store: SettingsStore.Store, weather: WeatherStore, m: Inbox, scratch: StoredSettings)
    returns (stored: StoredSettings, version: int)
    requires store.Valid() && |m.widgets| == 4
    modifies store, weather
    ensures store.current == SettingsStore.WithDynamic(Applied(old(store.current), m)) && store.Valid()
    ensures stored == SettingsStore.Pack(store.current, scratch) && version == CURRENT_SETTINGS_VERSION
    ensures m.weatherTemperature.Some? && m.weatherCondition.Some? ==>
      weather.currentTemp == Int32(m.weatherTemperature.value)
      && weather.currentCondition == Int32(m.weatherCondition.value)
    ensures !(m.weatherTemperature.Some? && m.weatherCondition.Some?) ==>
      weather.currentTemp == old(weather.currentTemp) && weather.currentCondition == old(weather.currentCondition)
    ensures m.forecastCondition.Some? && m.forecastHighTemp.Some? && m.forecastLowTemp.Some? ==>
      weather.forecastHighTemp == Int32(m.forecastHighTemp.value)
      && weather.forecastLowTemp == Int32(m.forecastLowTemp.value)
      && weather.forecastCondition == Int32(m.forecastCondition.value)
    ensures !(m.forecastCondition.Some? && m.forecastHighTemp.Some? && m.forecastLowTemp.Some?) ==>
      weather.forecastHighTemp == old(weather.forecastHighTemp)
      && weather.forecastLowTemp == old(weather.forecastLowTemp)
      && weather.forecastCondition == old(weather.forecastCondition)
    ensures weather.saves == old(weather.saves)
      + (if m.weatherTemperature.Some? && m.weatherCondition.Some? then 1 else 0)
      + (if m.forecastCondition.Some? && m.forecastHighTemp.Some? && m.forecastLowTemp.Some? then 1 else 0)
  {
    weather.ReceiveCurrent(m);
    weather.ReceiveForecast(m);
    ApplyColours(store, m);
    ApplyChoices(store, m);
    ApplyFlags(store, m);
    ApplyWidgets(store, m);
    store.UpdateDynamicSettings();
    stored, version := store.SaveToStorage(scratch);
  }

  method ApplyColours(store: SettingsStore.Store, m: Inbox)
    requires store.Valid()
    modifies store
    ensures store.current == ColoursApplied(old(store.current), m) && store.Valid()
  {
    var s := store.current;
    var time, bg, sidebar, text := s.timeColor, s.timeBgColor, s.sidebarColor, s.sidebarTextColor;
    if m.colorTime.Some? {
      time := GColorFromHex(Int32(m.colorTime.value));
    }
    if m.colorBg.Some? {
      bg := GColorFromHex(Int32(m.colorBg.value));
    }
    if m.colorSidebar.Some? {
      sidebar := GColorFromHex(Int32(m.colorSidebar.value));
    }
    if m.sidebarTextColor.Some? {
      text := GColorFromHex(Int32(m.sidebarTextColor.value));
    }
    store.current := WithColours(s, time, bg, sidebar, text);
  }

  method ApplyChoices(store: SettingsStore.Store, m: Inbox)
    requires store.Valid()
    modifies store
    ensures store.current == ChoicesApplied(old(store.current), m) && store.Valid()
  {
    var s := store.current;
    var location, font, hourly, language := s.sidebarLocation, s.clockFontId, s.hourlyVibe, s.languageId;
    if m.sidebarPosition.Some? {
      location := Int8(m.sidebarPosition.value);
    }
    if m.clockFontId.Some? {
      font := Byte(m.clockFontId.value);
    }
    if m.hourlyVibe.Some? {
      hourly := Int8(m.hourlyVibe.value);
    }
    if m.languageId.Some? {
      language := Byte(m.languageId.value);
    }
    store.current := WithChoices(s, location, font, hourly, language);
  }

  method ApplyFlags(store: SettingsStore.Store, m: Inbox)
    requires store.Valid()
    modifies store
    ensures store.current == FlagsApplied(old(store.current), m) && store.Valid()
  {
    var s := store.current;
    var metric, btVibe, leadingZero, batteryPct := s.useMetric, s.btVibe, s.showLeadingZero, s.showBatteryPct;
    var autobattery, noWeather, largeFonts := s.disableAutobattery, s.disableWeather, s.useLargeFonts;
    if m.useMetric.Some? {
      metric := Int8(m.useMetric.value) != 0;
    }
    if m.btVibe.Some? {
      btVibe := Int8(m.btVibe.value) != 0;
    }
    if m.showLeadingZero.Some? {
      leadingZero := Int8(m.showLeadingZero.value) != 0;
    }
    if m.showBatteryPct.Some? {
      batteryPct := Int8(m.showBatteryPct.value) != 0;
    }
    if m.disableAutobattery.Some? {
      autobattery := Int8(m.disableAutobattery.value) != 0;
    }
    if m.disableWeather.Some? {
      noWeather := Int8(m.disableWeather.value) != 0;
    }
    if m.useLargeFonts.Some? {
      largeFonts := Int8(m.useLargeFonts.value) != 0;
    }
    store.current := s.(useMetric := metric, btVibe := btVibe, showLeadingZero := leadingZero,
                        showBatteryPct := batteryPct, disableAutobattery := autobattery,
                        disableWeather := noWeather, useLargeFonts := largeFonts);
  }

  method ApplyWidgets(store: SettingsStore.Store, m: Inbox)
    requires store.Valid() && |m.widgets| == 4
    modifies store
    ensures store.current == WidgetsApplied(old(store.current), m) && store.Valid()
  {
    var s := store.current;
    var w0, w1, w2, w3 := s.widgets[0], s.widgets[1], s.widgets[2], s.widgets[3];
    if m.widgets[0].Some? {
      w0 := Int8(m.widgets[0].value);
    }
    if m.widgets[1].Some? {
      w1 := Int8(m.widgets[1].value);
    }
    if m.widgets[2].Some? {
      w2 := Int8(m.widgets[2].value);
    }
    if m.widgets[3].Some? {
      w3 := Int8(m.widgets[3].value);
    }
    var name, offset, disconnect := s.altclockName, s.altclockOffset, s.activateDisconnectIcon;
    if m.altclockName.Some? {
      name := Prefix(CString(m.altclockName.value), 8);
    }
    if m.altclockOffset.Some? {
      offset := Int8(m.altclockOffset.value);
    }
    if m.disconnectIcon.Some? {
      disconnect := Int8(m.disconnectIcon.value) != 0;
    }
    store.current := s.(widgets := [w0, w1, w2, w3], altclockName := name, altclockOffset := offset,
                        activateDisconnectIcon := disconnect);
  }

  // ---------------------------------------------------------------------
  // Properties of a received message

  // One lemma per group of keys keeps each proof about the large record small.

  lemma ColoursAbsent(s: Settings, m: Inbox)
    requires WellFormed(s)
    requires m.colorTime.None? && m.colorBg.None? && m.colorSidebar.None? && m.sidebarTextColor.None?
    ensures ColoursApplied(s, m) == s
  {
  }

  lemma ChoicesAbsent(s: Settings, m: Inbox)
    requires WellFormed(s)
    requires m.sidebarPosition.None? && m.clockFontId.None? && m.hourlyVibe.None? && m.languageId.None?
    ensures ChoicesApplied(s, m) == s
  {
  }

  lemma FlagsAbsent(s: Settings, m: Inbox)
    requires WellFormed(s)
    requires m.useMetric.None? && m.btVibe.None? && m.showLeadingZero.None? && m.showBatteryPct.None?
             && m.disableAutobattery.None? && m.disableWeather.None? && m.useLargeFonts.None?
    ensures FlagsApplied(s, m) == s
  {
  }

  lemma WidgetsAbsent(s: Settings, m: Inbox)
    requires WellFormed(s) && |m.widgets| == 4
    requires m.widgets == [None, None, None, None] && m.altclockName.None? && m.altclockOffset.None?
             && m.disconnectIcon.None?
    ensures WidgetsApplied(s, m) == s
  {
  }

  lemma ColoursSettled(s: Settings, m: Inbox)
    requires WellFormed(s) && |m.widgets| == 4
    ensures ColoursApplied(Applied(s, m), m) == Applied(s, m)
  {
  }

  lemma ChoicesSettled(s: Settings, m: Inbox)
    requires WellFormed(s) && |m.widgets| == 4
    ensures ChoicesApplied(Applied(s, m), m) == Applied(s, m)
  {
  }

  lemma FlagsSettled(s: Settings, m: Inbox)
    requires WellFormed(s) && |m.widgets| == 4
    ensures FlagsApplied(Applied(s, m), m) == Applied(s, m)
  {
  }

  lemma WidgetsSettled(s: Settings, m: Inbox)
    requires WellFormed(s) && |m.widgets| == 4
    ensures WidgetsApplied(Applied(s, m), m) == Applied(s, m)
  {
  }

  lemma ColoursIgnoreDerived(x: Settings, y: Settings, m: Inbox)
    requires WellFormed(x) && WellFormed(y)
    requires SettingsStore.WithDynamic(x) == SettingsStore.WithDynamic(y)
    ensures SettingsStore.WithDynamic(ColoursApplied(x, m)) == SettingsStore.WithDynamic(ColoursApplied(y, m))
  {
  }

  lemma ChoicesIgnoreDerived(x: Settings, y: Settings, m: Inbox)
    requires WellFormed(x) && WellFormed(y)
    requires SettingsStore.WithDynamic(x) == SettingsStore.WithDynamic(y)
    ensures SettingsStore.WithDynamic(ChoicesApplied(x, m)) == SettingsStore.WithDynamic(ChoicesApplied(y, m))
  {
  }

  lemma FlagsIgnoreDerived(x: Settings, y: Settings, m: Inbox)
    requires WellFormed(x) && WellFormed(y)
    requires SettingsStore.WithDynamic(x) == SettingsStore.WithDynamic(y)
    ensures SettingsStore.WithDynamic(FlagsApplied(x, m)) == SettingsStore.WithDynamic(FlagsApplied(y, m))
  {
  }

  lemma WidgetsIgnoreDerived(x: Settings, y: Settings, m: Inbox)
    requires WellFormed(x) && WellFormed(y) && |m.widgets| == 4
    requires SettingsStore.WithDynamic(x) == SettingsStore.WithDynamic(y)
    ensures SettingsStore.WithDynamic(WidgetsApplied(x, m)) == SettingsStore.WithDynamic(WidgetsApplied(y, m))
  {
  }

  /** A message that carries only weather leaves the configuration as it was. */
  lemma WeatherOnlyKeepsSettings(s: Settings, m: Inbox)
    requires WellFormed(s)
    requires m.(weatherTemperature := None, weatherCondition := None, forecastCondition := None,
                forecastHighTemp := None, forecastLowTemp := None) == NoKeys
    ensures Applied(s, m) == s
  {
    ColoursAbsent(s, m);
    ChoicesAbsent(s, m);
    FlagsAbsent(s, m);
    WidgetsAbsent(s, m);
  }

  /**
   * The disable-weather key is overwritten by the derived flags: whatever
   * value it carries, the configuration that is saved is the same.
   */
  lemma DisableWeatherKeyIgnored(s: Settings, m: Inbox, v: Option<int>)
    requires WellFormed(s) && |m.widgets| == 4
    ensures SettingsStore.WithDynamic(Applied(s, m.(disableWeather := v))) == SettingsStore.WithDynamic(Applied(s, m))
  {
    SettingsStore.DynamicIgnoresDerived(Applied(s, m.(disableWeather := v)), Applied(s, m));
  }

  /** Every settings key overwrites its field with a value that depends on the key alone. */
  lemma AppliedTwice(s: Settings, m: Inbox)
    requires WellFormed(s) && |m.widgets| == 4
    ensures Applied(Applied(s, m), m) == Applied(s, m)
  {
    ColoursSettled(s, m);
    ChoicesSettled(s, m);
    FlagsSettled(s, m);
    WidgetsSettled(s, m);
  }

  /** Applying a message never looks at the derived flags of the configuration it updates. */
  lemma AppliedIgnoresDerived(x: Settings, y: Settings, m: Inbox)
    requires WellFormed(x) && WellFormed(y) && |m.widgets| == 4
    requires SettingsStore.WithDynamic(x) == SettingsStore.WithDynamic(y)
    ensures SettingsStore.WithDynamic(Applied(x, m)) == SettingsStore.WithDynamic(Applied(y, m))
  {
    var x1, y1 := ColoursApplied(x, m), ColoursApplied(y, m);
    ColoursIgnoreDerived(x, y, m);
    var x2, y2 := ChoicesApplied(x1, m), ChoicesApplied(y1, m);
    ChoicesIgnoreDerived(x1, y1, m);
    var x3, y3 := FlagsApplied(x2, m), FlagsApplied(y2, m);
    FlagsIgnoreDerived(x2, y2, m);
    WidgetsIgnoreDerived(x3, y3, m);
  }

  /** Receiving the same settings message twice leaves the configuration as receiving it once. */
  lemma ReceiveTwice(s: Settings, m: Inbox)
    requires WellFormed(s) && |m.widgets| == 4
    ensures var once := SettingsStore.WithDynamic(Applied(s, m));
      SettingsStore.WithDynamic(Applied(once, m)) == once
  {
    var a := Applied(s, m);
    var once := SettingsStore.WithDynamic(a);
    SettingsStore.DynamicIdempotent(a);
    AppliedIgnoresDerived(once, a, m);
    AppliedTwice(s, m);
  }

  // ---------------------------------------------------------------------
  // From the companion's message to the watch's configuration

  /**
   * Nothing assigns the decimal separator: start-up keeps it, a settings
   * message does not reach it and the derived-flag update keeps it, so from
   * the zeroed start it stays NUL.
   */
  lemma SeparatorNeverSet(prev: Settings, persisted: Option<int>, stored: Option<StoredSettings>,
                          hasHealth: bool, m: Inbox)
    requires WellFormed(prev) && |m.widgets| == 4 && prev.decimalSeparator == '\0'
    ensures SettingsStore.ZeroSettings.decimalSeparator == '\0'
    ensures SettingsStore.Initialized(prev, persisted, stored, hasHealth).decimalSeparator == '\0'
    ensures SettingsStore.WithDynamic(Applied(prev, m)).decimalSeparator == '\0'
  {
    var loaded := if SettingsStore.StoredVersion(persisted) <= 6 then SettingsStore.Defaults(prev, hasHealth)
                  else SettingsStore.Unpack(SettingsStore.StoredOrZero(stored), prev);
    assert loaded.decimalSeparator == '\0';
    assert SettingsStore.Initialized(prev, persisted, stored, hasHealth) == SettingsStore.WithDynamic(loaded);
    var x1 := ColoursApplied(prev, m);
    var x2 := ChoicesApplied(x1, m);
    var x3 := FlagsApplied(x2, m);
    assert x1.decimalSeparator == '\0';
    assert x2.decimalSeparator == '\0';
    assert x3.decimalSeparator == '\0';
    assert WidgetsApplied(x3, m).decimalSeparator == '\0';
  }

  /**
   * The keys the watch finds in the companion's settings message. The
   * settings message carries no weather and no disable-weather key (the
   * phone keeps that flag for itself); a NaN offset arrives as whatever
   * number `nan` the phone's messaging library makes of it.
   */
  function Delivered(msg: Companion.Message, nan: int): (m: Inbox)
    requires |msg.widgets| == 4
    ensures |m.widgets| == 4 && m.disableWeather.None?
    ensures forall i :: 0 <= i < 4 ==> m.widgets[i] == Some(msg.widgets[i])
  {
    Inbox(None, None, None, None, None,
          msg.colours.colorTime, msg.colours.colorBg, msg.colours.colorSidebar, msg.colours.sidebarTextColor,
          msg.sidebarPosition, msg.bar.useMetric, msg.notifications.bluetoothVibe, msg.clock.languageId,
          msg.clock.showLeadingZero, msg.battery.showBatteryPct, None, msg.clock.clockFontId,
          msg.notifications.hourlyVibe, msg.bar.useLargeFonts,
          [Some(msg.widgets[0]), Some(msg.widgets[1]), Some(msg.widgets[2]), Some(msg.widgets[3])],
          msg.altClock.altClockName,
          match msg.altClock.altClockOffset
          case None => None
          case Some(Hours(n)) => Some(n)
          case Some(NaN) => Some(nan),
          msg.battery.disableAutobattery, msg.bar.disconnectIcon)
  }

  /** The companion's slots reach the watch as 8-bit values, unchanged when they fit. */
  lemma SlotsArrive(s: Settings, msg: Companion.Message, nan: int)
    requires WellFormed(s) && |msg.widgets| == 4
    ensures var r := Applied(s, Delivered(msg, nan));
      forall i :: 0 <= i < 4 ==> r.widgets[i] == Int8(msg.widgets[i])
    ensures (forall i :: 0 <= i < 4 ==> -128 <= msg.widgets[i] < 128) ==>
      Applied(s, Delivered(msg, nan)).widgets == msg.widgets
  {
    var r := Applied(s, Delivered(msg, nan));
    assert forall i :: 0 <= i < 4 ==> r.widgets[i] == Int8(msg.widgets[i]);
  }

  /**
   * The weather flag the phone keeps for itself agrees with the one the
   * watch derives from the slots it received, whenever the slot ids fit a byte.
   */
  lemma WeatherFlagsAgree(s: Settings, msg: Companion.Message, nan: int)
    requires WellFormed(s) && |msg.widgets| == 4
    requires forall i :: 0 <= i < 4 ==> -128 <= msg.widgets[i] < 128
    ensures Companion.DisableWeatherFlag(msg.widgets) == "yes"
      <==> SettingsStore.WithDynamic(Applied(s, Delivered(msg, nan))).disableWeather
  {
    SlotsArrive(s, msg, nan);
    Companion.WeatherFlagMatchesWatch(Applied(s, Delivered(msg, nan)));
  }

  /** The companion's yes/no answers (1 or 0) switch the watch's flags on and off as asked. */
  lemma YesNoKeysArrive(s: Settings, msg: Companion.Message, nan: int)
    requires WellFormed(s) && |msg.widgets| == 4
    requires msg.clock.showLeadingZero.Some? && msg.clock.showLeadingZero.value in {0, 1}
    requires msg.notifications.bluetoothVibe.Some? && msg.notifications.bluetoothVibe.value in {0, 1}
    ensures var r := Applied(s, Delivered(msg, nan));
      (r.showLeadingZero <==> msg.clock.showLeadingZero.value == 1)
      && (r.btVibe <==> msg.notifications.bluetoothVibe.value == 1)
  {
  }

  /** A sidebar position the companion sends replaces the watch's; when none is sent the old one stays. */
  lemma PositionArrives(s: Settings, msg: Companion.Message, nan: int)
    requires WellFormed(s) && |msg.widgets| == 4
    ensures var r := Applied(s, Delivered(msg, nan));
      (msg.sidebarPosition.None? ==> r.sidebarLocation == s.sidebarLocation)
      && (msg.sidebarPosition.Some? && NONE <= msg.sidebarPosition.value <= TOP ==>
            r.sidebarLocation == msg.sidebarPosition.value)
  {
  }
}
