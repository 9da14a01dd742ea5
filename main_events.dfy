/**
 * The watchface's event handlers (src/c/main.c): the tick handler that
 * asks for weather and buzzes on the hour, the full redraw that keeps the
 * tick subscription in step with the configuration, and the Bluetooth
 * and battery handlers. Quiet time, the clock and the random number
 * generator are inputs; what a handler asks of the system (a weather
 * request, a vibration, a sidebar redraw) is returned.
 */
module MainEvents {
  import opened Optional
  import opened SettingsTypes
  import SettingsStore
  import Messaging
  import ClockArea

  /** How often the tick handler is called. */
  datatype TickUnit = SecondUnit | MinuteUnit

  /** The vibration a tick asks for. */
  datatype TickVibe = Silent | DoublePulse | ShortPulse

  /** What a tick asks of the system. */
  datatype TickActions = TickActions(requestWeather: bool, vibe: TickVibe, redrawSidebar: bool)

  /** What a change of the Bluetooth connection asks of the system. */
  datatype BluetoothActions = BluetoothActions(disconnectVibe: bool, requestWeather: bool, redrawSidebar: bool)

  /** A tick at `minute`:`second` asks for weather: weather is on and it is the chosen minute of the hour. */
  predicate WeatherDue(disableWeather: bool, refreshMinute: int, minute: int, second: int)
  {
    !disableWeather && minute == refreshMinute && second == 0
  }

  /**
   * With weather on, exactly one second of every hour asks for weather, so
   * the refresh happens once an hour whether the handler runs every second
   * or every minute; with weather off, none does.
   */
  lemma OneWeatherRequestPerHour(disableWeather: bool, refreshMinute: int)
    requires 0 <= refreshMinute < 60
    ensures var due := set t | 0 <= t < 3600 && WeatherDue(disableWeather, refreshMinute, t / 60, t % 60);
      (!disableWeather ==> due == {refreshMinute * 60}) && (disableWeather ==> due == {})
  {
    var due := set t | 0 <= t < 3600 && WeatherDue(disableWeather, refreshMinute, t / 60, t % 60);
    if !disableWeather {
      forall t | t in due
        ensures t == refreshMinute * 60
      {
        assert t == (t / 60) * 60 + t % 60;
      }
      assert (refreshMinute * 60) / 60 == refreshMinute && (refreshMinute * 60) % 60 == 0;
      assert refreshMinute * 60 in due;
    }
  }

  /** The minute of the hour drawn from a random number. */
  function RefreshMinute(random: nat): (m: int)
    ensures 0 <= m < 60
  {
    random % 60
  }

  /** The application's own state (main.c's static variables) and what it has subscribed to. */
  class AppState {
    var isPhoneConnected: bool
    var updatingEverySecond: bool
    /** The minute of the hour at which weather is requested, drawn at start-up. */
    var weatherRefreshMinute: int
    /** The current tick subscription, `None` before the first. */
    var tickUnit: Option<TickUnit>
    var unobstructedSubscribed: bool
    var backgroundColor: GColor

    /** A tick subscription, once made, runs at the rate `updatingEverySecond` records. */
    predicate Valid()
      reads this
    {
      tickUnit.Some? ==> (tickUnit.value == SecondUnit <==> updatingEverySecond)
    }

    /** Static storage starts zeroed; nothing is subscribed yet. */
    constructor()
      ensures !isPhoneConnected && !updatingEverySecond && weatherRefreshMinute == 0
      ensures tickUnit.None? && !unobstructedSubscribed && backgroundColor == 0
      ensures Valid()
    {
      isPhoneConnected, updatingEverySecond, weatherRefreshMinute := false, false, 0;
      tickUnit, unobstructedSubscribed, backgroundColor := None, false, 0;
    }

    /**
     * The tick handler at `minute`:`second`: weather at the chosen minute,
     * a double pulse on the hour and a short one on the half hour as the
     * hourly vibration setting asks, but only on the full minute and
     * outside quiet time; the sidebar is redrawn unless it is switched off.
     */
    method Tick(s: Settings, minute: int, second: int, quiet: bool) returns (a: TickActions)
      ensures a.requestWeather <==> WeatherDue(s.disableWeather, weatherRefreshMinute, minute, second)
      ensures a.vibe == DoublePulse <==>
        !quiet && second == 0 && minute == 0 && (s.hourlyVibe == VIBE_EVERY_HOUR || s.hourlyVibe == VIBE_EVERY_HALF_HOUR)
      ensures a.vibe == ShortPulse <==> !quiet && second == 0 && minute == 30 && s.hourlyVibe == VIBE_EVERY_HALF_HOUR
      ensures a.redrawSidebar <==> s.sidebarLocation != NONE
    {
      var request := false;
      if !s.disableWeather {
        if minute == weatherRefreshMinute && second == 0 {
          request := true;
        }
      }
      var vibe := Silent;
      if !quiet && second == 0 {
        if s.hourlyVibe == VIBE_EVERY_HOUR {
          if minute == 0 {
            vibe := DoublePulse;
          }
        } else if s.hourlyVibe == VIBE_EVERY_HALF_HOUR {
          if minute == 0 {
            vibe := DoublePulse;
          } else if minute == 30 {
            vibe := ShortPulse;
          }
        }
      }
      a := TickActions(request, vibe, s.sidebarLocation != NONE);
    }

    /**
     * The full redraw: the tick subscription is replaced only when the
     * configuration asks for a different rate, the unobstructed-area
     * handlers are kept only for a bar along the top, the background takes
     * the time background colour and the clock fonts follow the font setting.
     */
    method RedrawScreen(s: Settings, fonts: ClockArea.ClockFonts) returns (resubscribed: bool)
      requires Valid()
      modifies this, fonts
      ensures Valid()
      ensures resubscribed <==> old(updatingEverySecond) != s.updateScreenEverySecond
      ensures updatingEverySecond == s.updateScreenEverySecond
      ensures resubscribed ==> tickUnit == Some(if s.updateScreenEverySecond then SecondUnit else MinuteUnit)
      ensures !resubscribed ==> tickUnit == old(tickUnit)
      ensures unobstructedSubscribed <==> s.sidebarLocation == TOP
      ensures backgroundColor == s.timeBgColor
      ensures isPhoneConnected == old(isPhoneConnected) && weatherRefreshMinute == old(weatherRefreshMinute)
      ensures ClockArea.FontsFor(s.clockFontId).Some? ==> fonts.Current() == ClockArea.FontsFor(s.clockFontId).value
      ensures ClockArea.FontsFor(s.clockFontId).None? ==> fonts.Current() == old(fonts.Current())
    {
      resubscribed := false;
      if s.updateScreenEverySecond != updatingEverySecond {
        resubscribed := true;
        if s.updateScreenEverySecond {
          tickUnit := Some(SecondUnit);
          updatingEverySecond := true;
        } else {
          tickUnit := Some(MinuteUnit);
          updatingEverySecond := false;
        }
      }
      unobstructedSubscribed := false;
      if s.sidebarLocation == TOP {
        unobstructedSubscribed := true;
      }
      backgroundColor := s.timeBgColor;
      fonts.UpdateFonts(s.clockFontId);
    }

    /**
     * A change of the Bluetooth connection: a vibration when a connected
     * phone goes away and the user asked for it outside quiet time, a
     * weather request when a disconnected phone comes back, and the new
     * state is recorded either way.
     */
    method BluetoothStateChanged(s: Settings, connected: bool, quiet: bool) returns (a: BluetoothActions)
      modifies this`isPhoneConnected
      ensures a.disconnectVibe <==> !quiet && old(isPhoneConnected) && !connected && s.btVibe
      ensures a.requestWeather <==> !old(isPhoneConnected) && connected
      ensures !(a.disconnectVibe && a.requestWeather)
      ensures a.redrawSidebar <==> s.sidebarLocation != NONE
      ensures isPhoneConnected == connected
    {
      var vibe, request := false, false;
      if !quiet && isPhoneConnected && !connected && s.btVibe {
        vibe := true;
      }
      if !isPhoneConnected && connected {
        request := true;
      }
      isPhoneConnected := connected;
      a := BluetoothActions(vibe, request, s.sidebarLocation != NONE);
    }

    /** A change of the battery state redraws the sidebar unless it is switched off. */
    method BatteryStateChanged(s: Settings) returns (redrawSidebar: bool)
      ensures redrawSidebar <==> s.sidebarLocation != NONE
    {
      redrawSidebar := false;
      if s.sidebarLocation != NONE {
        redrawSidebar := true;
      }
    }

    /**
     * Start-up: the weather minute is drawn from `random` (the C library's
     * `rand()`), the configuration is loaded, the window's first redraw
     * runs, the tick handler is subscribed at the configured rate and the
     * current connection state is reported as a change from "disconnected".
     */
    method Init(store: SettingsStore.Store, fonts: ClockArea.ClockFonts, random: nat,
                persisted: Option<int>, stored: Option<StoredSettings>, hasHealth: bool,
                connected: bool, quiet: bool) returns (a: BluetoothActions)
      requires Valid() && !isPhoneConnected
      requires stored.Some? ==> StoredWellFormed(stored.value)
      modifies this, store, fonts
      ensures Valid() && store.Valid()
      ensures store.current == SettingsStore.Initialized(old(store.current), persisted, stored, hasHealth)
      ensures weatherRefreshMinute == RefreshMinute(random)
      ensures tickUnit == Some(if store.current.updateScreenEverySecond then SecondUnit else MinuteUnit)
      ensures a.requestWeather <==> connected
      ensures !a.disconnectVibe && isPhoneConnected == connected
    {
      weatherRefreshMinute := RefreshMinute(random);
      store.Init(persisted, stored, hasHealth);
      var _ := RedrawScreen(store.current, fonts);
      if store.current.updateScreenEverySecond {
        tickUnit := Some(SecondUnit);
        updatingEverySecond := true;
      } else {
        tickUnit := Some(MinuteUnit);
        updatingEverySecond := false;
      }
      a := BluetoothStateChanged(store.current, connected, quiet);
    }

    /**
     * A settings message: it is applied and saved (see `Messaging`), and
     * then the screen is redrawn, so the tick rate follows whether a
     * seconds widget is now placed.
     */
    method SettingsReceived(store: SettingsStore.Store, weather: Messaging.WeatherStore, fonts: ClockArea.ClockFonts,
                            m: Messaging.Inbox, scratch: StoredSettings)
      returns (saved: StoredSettings, version: int)
      requires Valid() && store.Valid() && |m.widgets| == 4
      modifies this, store, weather, fonts
      ensures Valid() && store.Valid()
      ensures store.current == SettingsStore.WithDynamic(Messaging.Applied(old(store.current), m))
      ensures saved == SettingsStore.Pack(store.current, scratch) && version == CURRENT_SETTINGS_VERSION
      ensures updatingEverySecond <==> SECONDS in store.current.widgets
      ensures unobstructedSubscribed <==> store.current.sidebarLocation == TOP
    {
      saved, version := Messaging.InboxReceived(store, weather, m, scratch);
      var _ := RedrawScreen(store.current, fonts);
    }
  }
}
