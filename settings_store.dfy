/**
 * The global settings record and its life cycle: defaults, the packed
 * persistent copy, and the flags derived from the chosen widgets.
 */
module SettingsStore {
  import opened CArith
  import opened Optional
  import opened Format
  import opened SettingsTypes

  /** The settings a freshly started watchface holds before anything is loaded: all zero. */
  const ZeroSettings: Settings := Settings(
    0, 0, 0, 0, 0, false, 0, false, 0, [0, 0, 0, 0], 0, false, false, false,
    false, false, "", 0, 0, false, '\0', false,
    false, false, false, false, false, 0, 0)

  /** A packed record whose bytes are all zero (nothing could be read). */
  const ZeroStored: StoredSettings := StoredSettings(
    0, 0, 0, 0, 0, 0, 0, 0, 0, [0, 0, 0, 0], 0, 0, 0, 0, 0, 0, '\0', "", 0, 0, 0, 0)

  /**
   * The factory configuration. Fields it does not mention (the health
   * display choices and the derived flags) keep their previous values.
   */
  function Defaults(prev: Settings, hasHealth: bool): (s: Settings)
    ensures WellFormed(s)
    ensures s.healthActivityDisplay == prev.healthActivityDisplay
    ensures s.healthUseRestfulSleep == prev.healthUseRestfulSleep
    ensures s.decimalSeparator == prev.decimalSeparator
    ensures s.enableBeats == prev.enableBeats
  {
    prev.(
      timeColor := GColorWhite,
      sidebarColor := GColorLightGray,
      timeBgColor := GColorBlack,
      sidebarTextColor := GColorBlack,
      languageId := LANGUAGE_EN,
      showLeadingZero := false,
      clockFontId := FONT_SETTING_DEFAULT,
      btVibe := false,
      hourlyVibe := NO_VIBE,
      sidebarLocation := BOTTOM,
      widgets := [BATTERY_METER, WEATHER_CURRENT, if hasHealth then HEALTH else BLUETOOTH_DISCONNECT, WEEK_NUMBER],
      useLargeFonts := false,
      useMetric := true,
      showBatteryPct := true,
      disableAutobattery := false,
      altclockName := "ALT",
      altclockOffset := 0,
      activateDisconnectIcon := true,
      centerTime := false)
  }

  /**
   * The derived flags as the widget choice and the sidebar colour determine
   * them: weather is fetched only for a weather widget, the screen redraws
   * every second only for a seconds widget, the automatic battery warning
   * is on unless a battery widget is shown, the alternative clock is kept
   * only for its widget, and icons are drawn inverted on a black sidebar.
   */
  function WithDynamic(s: Settings): Settings
  {
    s.(
      disableWeather := !(WEATHER_CURRENT in s.widgets || WEATHER_FORECAST_TODAY in s.widgets),
      updateScreenEverySecond := SECONDS in s.widgets,
      enableAutoBatteryWidget := BATTERY_METER !in s.widgets,
      enableAltTimeZone := ALT_TIME_ZONE in s.widgets,
      iconFillColor := if s.sidebarColor == GColorBlack then GColorBlack else GColorWhite,
      iconStrokeColor := if s.sidebarColor == GColorBlack then s.sidebarTextColor else GColorBlack)
  }

  /** A 1-bit signed field holds -1 for a set flag. */
  function SignedFlag(b: bool): (v: S1)
    ensures v != 0 <==> b
  {
    if b then -1 else 0
  }

  /**
   * Packing the configuration into its stored layout: every field is
   * narrowed to its declared width. The health display choices and the
   * decimal separator are never assigned, so they are whatever `scratch`
   * (the uninitialised record) held.
   */
  function Pack(s: Settings, scratch: StoredSettings): (st: StoredSettings)
    ensures WellFormed(s) ==> StoredWellFormed(st)
    ensures st.healthActivityDisplay == scratch.healthActivityDisplay
    ensures st.healthUseRestfulSleep == scratch.healthUseRestfulSleep
    ensures st.decimalSeparator == scratch.decimalSeparator
  {
    StoredSettings(
      s.timeColor, s.timeBgColor, s.sidebarColor, s.sidebarTextColor,
      s.languageId,
      BoolBit(s.showLeadingZero),
      Wrap(s.clockFontId, 128),
      BoolBit(s.btVibe),
      WrapSigned(s.hourlyVibe, 128),
      seq(|s.widgets|, i requires 0 <= i < |s.widgets| => Wrap(s.widgets[i], 256)),
      BoolBit(s.useLargeFonts),
      BoolBit(s.useMetric),
      BoolBit(s.showBatteryPct),
      BoolBit(s.disableAutobattery),
      scratch.healthActivityDisplay,
      scratch.healthUseRestfulSleep,
      scratch.decimalSeparator,
      Prefix(s.altclockName, 8),
      WrapSigned(s.altclockOffset, 256),
      Wrap(s.sidebarLocation, 8),
      SignedFlag(s.activateDisconnectIcon),
      BoolBit(s.centerTime))
  }

  /**
   * Reading the stored layout back into the configuration. The fields the
   * loader does not copy keep their previous values.
   */
  function Unpack(st: StoredSettings, prev: Settings): (s: Settings)
    ensures StoredWellFormed(st) ==> WellFormed(s)
    ensures 0 <= s.clockFontId < 128 && -64 <= s.hourlyVibe < 64
    ensures 0 <= s.sidebarLocation < 8 && -128 <= s.altclockOffset < 128
    ensures forall i :: 0 <= i < |s.widgets| ==> 0 <= s.widgets[i] < 256
    ensures s.activateDisconnectIcon <==> st.activateDisconnectIcon == -1
    ensures s.healthActivityDisplay == prev.healthActivityDisplay
    ensures s.healthUseRestfulSleep == prev.healthUseRestfulSleep
    ensures s.decimalSeparator == prev.decimalSeparator
    ensures s.disableWeather == prev.disableWeather && s.enableBeats == prev.enableBeats
  {
    prev.(
      timeColor := st.timeColor,
      timeBgColor := st.timeBgColor,
      sidebarColor := st.sidebarColor,
      sidebarTextColor := st.sidebarTextColor,
      languageId := st.languageId,
      showLeadingZero := st.showLeadingZero != 0,
      clockFontId := st.clockFontId,
      btVibe := st.btVibe != 0,
      hourlyVibe := st.hourlyVibe,
      sidebarLocation := st.sidebarLocation,
      widgets := st.widgets,
      useLargeFonts := st.useLargeFonts != 0,
      useMetric := st.useMetric != 0,
      showBatteryPct := st.showBatteryPct != 0,
      disableAutobattery := st.disableAutobattery != 0,
      altclockName := st.altclockName,
      altclockOffset := st.altclockOffset,
      activateDisconnectIcon := st.activateDisconnectIcon != 0,
      centerTime := st.centerTime != 0)
  }

  /** Every persisted field holds a value its stored width can represent. */
  predicate Fits(s: Settings)
  {
    WellFormed(s)
    && 0 <= s.clockFontId < 128
    && -64 <= s.hourlyVibe < 64
    && (forall i :: 0 <= i < |s.widgets| ==> 0 <= s.widgets[i] < 256)
    && 0 <= s.sidebarLocation < 8
    && -128 <= s.altclockOffset < 128
  }

  /** The version number found in storage, -1 when none was written. */
  function StoredVersion(persisted: Option<int>): int
  {
    match persisted
    case None => -1
    case Some(v) => v
  }

  /** What the loader reads: the stored record, or zeros when there is none. */
  function StoredOrZero(stored: Option<StoredSettings>): (st: StoredSettings)
    ensures stored.None? ==> st == ZeroStored
  {
    match stored
    case None => ZeroStored
    case Some(r) => r
  }

  /** Start-up: defaults for a missing or pre-7 layout, otherwise the stored record; then the derived flags. */
  function Initialized(prev: Settings, persisted: Option<int>, stored: Option<StoredSettings>, hasHealth: bool): Settings
  {
    var loaded := if StoredVersion(persisted) <= 6 then Defaults(prev, hasHealth)
                  else Unpack(StoredOrZero(stored), prev);
    WithDynamic(loaded)
  }

  /** The global configuration (`globalSettings`) and the operations that change it. */
  class Store {
    var current: Settings

    predicate Valid()
      reads this
    {
      WellFormed(current)
    }

    /** The zero-initialised global before start-up. */
    constructor()
      ensures current == ZeroSettings && Valid()
    {
      current := ZeroSettings;
    }

    method LoadDefaults(hasHealth: bool)
      modifies this
      ensures current == Defaults(old(current), hasHealth) && Valid()
    {
      current := Defaults(current, hasHealth);
    }

    method LoadFromStorage(stored: Option<StoredSettings>)
      requires stored.Some? ==> StoredWellFormed(stored.value)
      modifies this
      ensures current == Unpack(StoredOrZero(stored), old(current)) && Valid()
    {
      var st := ZeroStored;
      if stored.Some? {
        st := stored.value;
      }
      current := Unpack(st, current);
    }

    /** Packs the configuration; returns the record and the version number to write. */
    method SaveToStorage(scratch: StoredSettings) returns (stored: StoredSettings, version: int)
      requires Valid()
      ensures stored == Pack(current, scratch) && StoredWellFormed(stored)
      ensures version == CURRENT_SETTINGS_VERSION
    {
      stored := Pack(current, scratch);
      version := CURRENT_SETTINGS_VERSION;
    }

    /** Recomputes the derived flags from the four widget slots and the sidebar colour. */
    method UpdateDynamicSettings()
      requires Valid()
      modifies this
      ensures current == WithDynamic(old(current)) && Valid()
    {
      var ws := current.widgets;
      var noWeather, everySecond, autoBattery, altTimeZone := true, false, true, false;
      for i := 0 to 4
        invariant noWeather <==> !(WEATHER_CURRENT in ws[..i] || WEATHER_FORECAST_TODAY in ws[..i])
        invariant everySecond <==> SECONDS in ws[..i]
        invariant autoBattery <==> BATTERY_METER !in ws[..i]
        invariant altTimeZone <==> ALT_TIME_ZONE in ws[..i]
      {
        assert ws[..i + 1] == ws[..i] + [ws[i]];
        if ws[i] == WEATHER_CURRENT || ws[i] == WEATHER_FORECAST_TODAY {
          noWeather := false;
        }
        if ws[i] == SECONDS {
          everySecond := true;
        }
        if ws[i] == BATTERY_METER {
          autoBattery := false;
        }
        if ws[i] == ALT_TIME_ZONE {
          altTimeZone := true;
        }
      }
      assert ws[..4] == ws;
      var fill, stroke := GColorWhite, GColorBlack;
      if current.sidebarColor == GColorBlack {
        fill, stroke := GColorBlack, current.sidebarTextColor;
      }
      current := current.(disableWeather := noWeather, updateScreenEverySecond := everySecond,
                          enableAutoBatteryWidget := autoBattery, enableAltTimeZone := altTimeZone,
                          iconFillColor := fill, iconStrokeColor := stroke);
    }

    /**
     * Start-up: `persisted` is the stored version number, if any, and
     * `stored` the packed record, if any.
     */
    method Init(persisted: Option<int>, stored: Option<StoredSettings>, hasHealth: bool)
      requires stored.Some? ==> StoredWellFormed(stored.value)
      modifies this
      ensures current == Initialized(old(current), persisted, stored, hasHealth) && Valid()
    {
      var version := if persisted.Some? then persisted.value else -1;
      if version <= 6 {
        LoadDefaults(hasHealth);
      } else {
        LoadFromStorage(stored);
      }
      UpdateDynamicSettings();
    }

    /** Shut-down: refresh the derived flags, then pack the configuration for storage. */
    method Deinit(scratch: StoredSettings) returns (stored: StoredSettings, version: int)
      requires Valid()
      modifies this
      ensures current == WithDynamic(old(current)) && Valid()
      ensures stored == Pack(current, scratch) && version == CURRENT_SETTINGS_VERSION
    {
      UpdateDynamicSettings();
      stored, version := SaveToStorage(scratch);
    }
  }

  /**
   * Saving and loading back gives the same configuration exactly when every
   * persisted field fits its stored width.
   */
  lemma SaveLoadRoundTrip(s: Settings, scratch: StoredSettings)
    requires WellFormed(s)
    ensures Unpack(Pack(s, scratch), s) == s <==> Fits(s)
  {
    var u := Unpack(Pack(s, scratch), s);
    if Fits(s) {
      assert u.widgets == s.widgets;
    }
  }

  /**
   * Nothing derives the beats flag: neither start-up nor the derived-flag
   * update sets it, so from the zeroed start it stays off and the beats
   * text is never refreshed.
   */
  lemma BeatsNeverEnabled(prev: Settings, persisted: Option<int>, stored: Option<StoredSettings>, hasHealth: bool)
    requires !prev.enableBeats
    ensures !ZeroSettings.enableBeats
    ensures !Initialized(prev, persisted, stored, hasHealth).enableBeats
    ensures !WithDynamic(prev).enableBeats
  {
    var loaded := if StoredVersion(persisted) <= 6 then Defaults(prev, hasHealth)
                  else Unpack(StoredOrZero(stored), prev);
    assert !loaded.enableBeats;
    assert Initialized(prev, persisted, stored, hasHealth) == WithDynamic(loaded);
  }

  /** A stored record that is read and written back is unchanged, apart from the never-copied fields. */
  lemma LoadSaveRoundTrip(st: StoredSettings, prev: Settings)
    requires StoredWellFormed(st)
    ensures Pack(Unpack(st, prev), st) == st
  {
    var p := Pack(Unpack(st, prev), st);
    assert p.widgets == st.widgets;
  }

  /**
   * Neither the derived flags (the beats flag included), the icon colours,
   * the health display choices nor the decimal separator reach storage:
   * configurations that differ only in those are stored identically.
   */
  lemma DerivedNotPersisted(s: Settings, t: Settings, scratch: StoredSettings)
    requires s.(disableWeather := t.disableWeather, updateScreenEverySecond := t.updateScreenEverySecond,
                enableAutoBatteryWidget := t.enableAutoBatteryWidget, enableBeats := t.enableBeats,
                enableAltTimeZone := t.enableAltTimeZone, iconFillColor := t.iconFillColor,
                iconStrokeColor := t.iconStrokeColor, healthActivityDisplay := t.healthActivityDisplay,
                healthUseRestfulSleep := t.healthUseRestfulSleep, decimalSeparator := t.decimalSeparator) == t
    ensures Pack(s, scratch) == Pack(t, scratch)
  {
  }

  /** Recomputing the derived flags twice changes nothing more. */
  lemma DynamicIdempotent(s: Settings)
    ensures WithDynamic(WithDynamic(s)) == WithDynamic(s)
  {
  }

  /** The factory widgets fetch weather, replace the automatic battery warning, and need no per-second redraw. */
  lemma DefaultsDerived(prev: Settings, hasHealth: bool)
    ensures Fits(Defaults(prev, hasHealth))
    ensures var d := WithDynamic(Defaults(prev, hasHealth));
      !d.disableWeather && !d.enableAutoBatteryWidget && !d.updateScreenEverySecond
      && !d.enableAltTimeZone && d.iconFillColor == GColorWhite && d.iconStrokeColor == GColorBlack
  {
    var d := Defaults(prev, hasHealth);
    assert d.widgets[1] == WEATHER_CURRENT && d.widgets[0] == BATTERY_METER;
  }

  /**
   * A configuration saved at shut-down comes back at the next start-up,
   * provided it fits the stored layout and the fields that are never
   * persisted already agree.
   */
  lemma RestartRestores(s: Settings, prev: Settings, scratch: StoredSettings, hasHealth: bool)
    requires Fits(s) && s == WithDynamic(s)
    requires prev.healthActivityDisplay == s.healthActivityDisplay
    requires prev.healthUseRestfulSleep == s.healthUseRestfulSleep
    requires prev.decimalSeparator == s.decimalSeparator
    requires prev.enableBeats == s.enableBeats
    ensures Initialized(prev, Some(CURRENT_SETTINGS_VERSION), Some(Pack(s, scratch)), hasHealth) == s
  {
    SaveLoadRoundTrip(s, scratch);
    var u := Unpack(Pack(s, scratch), prev);
    DynamicIgnoresDerived(u, s);
  }

  /** The derived flags depend only on the configuration proper, not on their previous values. */
  lemma DynamicIgnoresDerived(a: Settings, b: Settings)
    requires a.(disableWeather := b.disableWeather, updateScreenEverySecond := b.updateScreenEverySecond,
                enableAutoBatteryWidget := b.enableAutoBatteryWidget, enableAltTimeZone := b.enableAltTimeZone,
                iconFillColor := b.iconFillColor, iconStrokeColor := b.iconStrokeColor) == b
    ensures WithDynamic(a) == WithDynamic(b)
  {
  }

  /** The hex values of the factory colours map onto those colours. */
  lemma FactoryColoursFromHex()
    ensures GColorFromHex(0xFFFFFF) == GColorWhite
    ensures GColorFromHex(0x000000) == GColorBlack
    ensures GColorFromHex(0xAAAAAA) == GColorLightGray
  {
  }
}
