/**
 * The sidebar: which slot the automatic battery or disconnect widget
 * takes over, the widgets actually drawn, and where each one goes on a
 * vertical bar (left or right) or a horizontal bar (top or bottom).
 */
module Sidebar {
  import opened CArith
  import opened Optional
  import opened SettingsTypes
  import opened SettingsStore
  import opened SidebarWidgets

  const V_PADDING: int := 8
  const SCREEN_HEIGHT: int := 168
  const H_PADDING_DEFAULT: int := 4
  const HORIZONTAL_BAR_HEIGHT: int := FIXED_WIDGET_HEIGHT
  /** Width of the action bar on rectangular and on round watches. */
  const ACTION_BAR_WIDTH_RECT: int := 30
  const ACTION_BAR_WIDTH_ROUND: int := 40

  predicate IsWeather(t: int)
  {
    t == WEATHER_CURRENT || t == WEATHER_FORECAST_TODAY
  }

  /**
   * The battery widget appears on its own when automatic display is
   * allowed, no battery widget is configured, and the charge is at most
   * 10% or the watch is charging.
   */
  predicate IsAutoBatteryShown(s: Settings, chargePercent: int, isCharging: bool)
  {
    if !s.disableAutobattery && s.enableAutoBatteryWidget then chargePercent <= 10 || isCharging
    else false
  }

  /** With the derived flags up to date, the automatic battery never doubles a configured one. */
  lemma AutoBatteryNeverDuplicates(s: Settings, chargePercent: int, isCharging: bool)
    requires s == WithDynamic(s)
    ensures IsAutoBatteryShown(s, chargePercent, isCharging) ==> BATTERY_METER !in s.widgets
    ensures IsAutoBatteryShown(s, chargePercent, isCharging) <==>
      !s.disableAutobattery && BATTERY_METER !in s.widgets && (chargePercent <= 10 || isCharging)
  {
  }

  /** The first index in [lo, hi) whose id is one of `targets`, or `hi` when there is none. */
  function FirstMatch(ws: seq<int>, targets: set<int>, lo: nat, hi: nat): (i: nat)
    requires lo <= hi <= |ws|
    ensures lo <= i <= hi
    ensures i < hi ==> ws[i] in targets
    ensures (forall j :: lo <= j < i ==> ws[j] !in targets)
    decreases hi - lo
  {
    if lo == hi then hi
    else if ws[lo] in targets then lo
    else FirstMatch(ws, targets, lo + 1, hi)
  }

  /**
   * The slot a rectangular watch gives up for the automatic widget: the
   * first empty one among the three always drawn, else an empty fourth
   * slot on a horizontal bar, else the first weather widget, else the
   * middle one.
   */
  function RectReplaceable(ws: seq<int>, location: int): (r: int)
    requires |ws| == 4
    ensures 0 <= r < 4
    ensures (exists i :: 0 <= i < 3 && ws[i] == EMPTY) ==>
      r < 3 && ws[r] == EMPTY && forall j :: 0 <= j < r ==> ws[j] != EMPTY
    ensures (forall i :: 0 <= i < 3 ==> ws[i] != EMPTY) && ws[3] == EMPTY && (location == BOTTOM || location == TOP)
      ==> r == 3
    ensures (forall i :: 0 <= i < 3 ==> ws[i] != EMPTY) && !(ws[3] == EMPTY && (location == BOTTOM || location == TOP))
      ==> if exists i :: 0 <= i < 4 && IsWeather(ws[i])
          then IsWeather(ws[r]) && forall j :: 0 <= j < r ==> !IsWeather(ws[j])
          else r == 1
  {
    var e := FirstMatch(ws, {EMPTY}, 0, 3);
    if e < 3 then e
    else if ws[3] == EMPTY && (location == BOTTOM || location == TOP) then 3
    else
      var w := FirstMatch(ws, {WEATHER_CURRENT, WEATHER_FORECAST_TODAY}, 0, 4);
      if w < 4 then w else 1
  }

  /** The two early-return searches of the rectangular watch, proved to pick `RectReplaceable`. */
  method GetReplacableWidgetRect(ws: seq<int>, location: int) returns (r: int)
    requires |ws| == 4
    ensures r == RectReplaceable(ws, location)
  {
    var i := 0;
    while i < 3
      invariant 0 <= i <= 3
      invariant forall j :: 0 <= j < i ==> ws[j] != EMPTY
    {
      if ws[i] == EMPTY {
        return i;
      }
      i := i + 1;
    }
    if ws[3] == EMPTY && (location == BOTTOM || location == TOP) {
      return 3;
    }
    i := 0;
    while i < 4
      invariant 0 <= i <= 4
      invariant forall j :: 0 <= j < i ==> !IsWeather(ws[j])
    {
      if ws[i] == WEATHER_CURRENT || ws[i] == WEATHER_FORECAST_TODAY {
        return i;
      }
      i := i + 1;
    }
    return 1;
  }

  /**
   * The slot a round watch gives up: it only shows slots 0 and 2, and
   * prefers an empty slot to a weather widget and slot 0 to slot 2.
   */
  function RoundReplaceable(ws: seq<int>): (r: int)
    requires |ws| == 4
    ensures r == 0 || r == 2
    ensures ws[0] == EMPTY || ws[2] == EMPTY ==> ws[r] == EMPTY
    ensures ws[0] != EMPTY && ws[2] != EMPTY && (IsWeather(ws[0]) || IsWeather(ws[2])) ==> IsWeather(ws[r])
    ensures r == 2 ==> ws[0] != EMPTY && (ws[2] == EMPTY || (!IsWeather(ws[0]) && IsWeather(ws[2])))
  {
    if ws[0] == EMPTY then 0
    else if ws[2] == EMPTY then 2
    else if IsWeather(ws[0]) then 0
    else if IsWeather(ws[2]) then 2
    else 0
  }

  /** The widget a slot shows before any replacement; slot 3 only exists on a horizontal bar. */
  function Configured(s: Settings, hasHealth: bool, i: int): Option<Widget>
    requires WellFormed(s) && 0 <= i < 4
  {
    if i < 3 || s.sidebarLocation == BOTTOM || s.sidebarLocation == TOP
    then Some(GetSidebarWidgetByType(s.widgets[i], hasHealth))
    else None
  }

  /**
   * The widgets a rectangular watch draws: the configured ones, with the
   * replaceable slot taken by the battery widget (first) or the
   * disconnect widget when either is to be shown.
   */
  function DisplayWidgets(s: Settings, hasHealth: bool, showAutoBattery: bool, showDisconnect: bool)
    : (d: seq<Option<Widget>>)
    requires WellFormed(s)
    ensures |d| == 4
    ensures var r := RectReplaceable(s.widgets, s.sidebarLocation);
      (forall i :: 0 <= i < 4 && (i != r || !(showAutoBattery || showDisconnect)) ==> d[i] == Configured(s, hasHealth, i))
      && (showAutoBattery ==> d[r] == Some(BatteryMeterWidget))
      && (!showAutoBattery && showDisconnect ==> d[r] == Some(BTDisconnectWidget))
  {
    var configured := seq(4, i requires 0 <= i < 4 => Configured(s, hasHealth, i));
    if showAutoBattery || showDisconnect then
      var r := RectReplaceable(s.widgets, s.sidebarLocation);
      configured[r := Some(if showAutoBattery then BatteryMeterWidget else BTDisconnectWidget)]
    else configured
  }

  /**
   * A vertical bar draws only slots 0 to 2, but the search for a weather
   * widget looks at slot 3 as well: with no empty or weather widget in the
   * drawn slots and a weather widget in slot 3, the battery or disconnect
   * widget goes into the undrawn slot and the drawn slots stay as configured.
   */
  lemma HiddenWeatherSwallowsWarning(s: Settings, hasHealth: bool, showAutoBattery: bool, showDisconnect: bool)
    requires WellFormed(s) && (s.sidebarLocation == LEFT || s.sidebarLocation == RIGHT)
    requires forall i :: 0 <= i < 3 ==> s.widgets[i] != EMPTY && !IsWeather(s.widgets[i])
    requires IsWeather(s.widgets[3])
    ensures RectReplaceable(s.widgets, s.sidebarLocation) == 3
    ensures var d := DisplayWidgets(s, hasHealth, showAutoBattery, showDisconnect);
      forall i :: 0 <= i < 3 ==> d[i] == Configured(s, hasHealth, i)
  {
  }

  /** Without the setting, a rectangular watch never adds the disconnect widget on its own. */
  lemma RectDisconnectNeedsSetting(s: Settings, hasHealth: bool, connected: bool, i: int)
    requires WellFormed(s) && !s.activateDisconnectIcon && 0 <= i < 4
    ensures var d := DisplayWidgets(s, hasHealth, false, s.activateDisconnectIcon && !connected);
      d[i] == Configured(s, hasHealth, i)
  {
  }

  /** A rectangle: origin and size. */
  datatype Rect = Rect(x: int, y: int, w: int, h: int)

  /** The sidebar's frame on a rectangular screen of the given size. */
  function GetRectSidebarBounds(location: int, screenW: int, screenH: int): (b: Rect)
    ensures location == RIGHT ==> b == Rect(114, 0, 30, screenH)
    ensures location == LEFT ==> b == Rect(0, 0, 30, screenH)
    ensures location == BOTTOM ==> b == Rect(0, screenH - HORIZONTAL_BAR_HEIGHT, screenW, HORIZONTAL_BAR_HEIGHT)
    ensures location == TOP ==> b == Rect(0, 0, screenW, HORIZONTAL_BAR_HEIGHT)
    ensures location !in {LEFT, RIGHT, BOTTOM, TOP} ==> b == Rect(0, 0, 0, 0)
  {
    if location == RIGHT then Rect(114, 0, 30, screenH)
    else if location == LEFT then Rect(0, 0, 30, screenH)
    else if location == BOTTOM then Rect(0, screenH - HORIZONTAL_BAR_HEIGHT, screenW, HORIZONTAL_BAR_HEIGHT)
    else if location == TOP then Rect(0, 0, screenW, HORIZONTAL_BAR_HEIGHT)
    else Rect(0, 0, 0, 0)
  }

  /** On the 144x168 screen every bar lies on the screen and touches the edge it is named after. */
  lemma BoundsOnScreen(location: int)
    requires location in {LEFT, RIGHT, BOTTOM, TOP}
    ensures var b := GetRectSidebarBounds(location, 144, 168);
      0 <= b.x && b.x + b.w <= 144 && 0 <= b.y && b.y + b.h <= 168
      && (location == LEFT ==> b.x == 0) && (location == RIGHT ==> b.x + b.w == 144)
      && (location == TOP ==> b.y == 0) && (location == BOTTOM ==> b.y + b.h == 168)
  {
  }

  /** The y at which a widget of height `h` is centred on the 51-pixel horizontal bar (C division). */
  function WidgetY(h: int): (y: int)
    ensures h <= HORIZONTAL_BAR_HEIGHT ==> 0 <= HORIZONTAL_BAR_HEIGHT - h - 2 * y <= 1
    ensures h > HORIZONTAL_BAR_HEIGHT ==> -1 <= HORIZONTAL_BAR_HEIGHT - h - 2 * y <= 0
  {
    CDiv(HORIZONTAL_BAR_HEIGHT - h, 2)
  }

  /** The x of each of the four horizontal slots on a bar `width` pixels wide. */
  function HorizontalX(width: int, slot: int): int
    requires 0 <= slot < 4
  {
    if slot == 0 then H_PADDING_DEFAULT
    else if slot == 1 then CDiv(width - 5 * H_PADDING_DEFAULT, 4) + 2 * H_PADDING_DEFAULT
    else if slot == 2 then CDiv(width - 5 * H_PADDING_DEFAULT, 2) + 3 * H_PADDING_DEFAULT
    else width - H_PADDING_DEFAULT - ACTION_BAR_WIDTH_RECT
  }

  /**
   * On a bar at least 80 pixels wide the four slots run left to right and
   * the last one ends a padding's width before the edge.
   */
  lemma HorizontalOrder(width: int)
    requires width >= 80
    ensures HorizontalX(width, 0) < HorizontalX(width, 1) < HorizontalX(width, 2) < HorizontalX(width, 3)
    ensures HorizontalX(width, 3) + ACTION_BAR_WIDTH_RECT + H_PADDING_DEFAULT == width
  {
    var q4 := CDiv(width - 20, 4);
    var q2 := CDiv(width - 20, 2);
    assert 0 <= width - 20 - q4 * 4 < 4;
    assert 0 <= width - 20 - q2 * 2 < 2;
  }

  /** Slot 1 stays left of slot 2 on any bar of at least 20 pixels. */
  lemma MiddleSlotsOrdered(width: int)
    requires width >= 20
    ensures HorizontalX(width, 1) < HorizontalX(width, 2)
  {
    var q4 := CDiv(width - 20, 4);
    var q2 := CDiv(width - 20, 2);
    assert 0 <= width - 20 - q4 * 4 < 4;
    assert 0 <= width - 20 - q2 * 2 < 2;
  }

  /** The y of the top, middle and bottom widget on a vertical bar. */
  datatype Column = Column(top: int, middle: int, lower: int)

  /**
   * The vertical placement: the top widget a padding below the top, the
   * bottom one ending a padding above the bottom of the screen, and the
   * middle one in the middle of the space between them.
   */
  function VerticalLayout(h0: int, h1: int, h2: int): (c: Column)
    requires 0 <= h0 <= 63 && 0 <= h1 <= 63 && 0 <= h2 <= 63
    ensures c.top == V_PADDING
    ensures c.lower + h2 == SCREEN_HEIGHT - V_PADDING
    ensures var above := c.middle - (c.top + h0);
      var below := c.lower - (c.middle + h1);
      above <= below <= above + 1
  {
    var top := V_PADDING;
    var lower := SCREEN_HEIGHT - V_PADDING - h2;
    Column(top, CDiv((lower - h1) + (top + h0), 2), lower)
  }

  /** The heights as the widgets report them under the given compact flag. */
  function EnvFor(s: Settings, compact: bool, isCharging: bool, sleeping: bool): HeightEnv
  {
    HeightEnv(s.useLargeFonts, compact, isCharging, s.showBatteryPct, sleeping)
  }

  /** Compact mode is needed when the three widgets' full heights exceed 142 pixels. */
  predicate NeedsCompact(d: seq<Option<Widget>>, s: Settings, isCharging: bool, sleeping: bool)
    requires |d| == 4 && d[0].Some? && d[1].Some? && d[2].Some?
  {
    var env := EnvFor(s, false, isCharging, sleeping);
    Height(d[0].value, env) + Height(d[1].value, env) + Height(d[2].value, env) > 142
  }

  /** A widget to draw and where. */
  datatype Placement = Placement(widget: Widget, x: int, y: int)

  /** Fills the four display slots and overrides the replaceable one. */
  method ChooseDisplayWidgets(s: Settings, hasHealth: bool, showAutoBattery: bool, showDisconnect: bool)
    returns (display: seq<Option<Widget>>)
    requires WellFormed(s)
    ensures display == DisplayWidgets(s, hasHealth, showAutoBattery, showDisconnect)
  {
    var horizontal := s.sidebarLocation == BOTTOM || s.sidebarLocation == TOP;
    display := [
      Some(GetSidebarWidgetByType(s.widgets[0], hasHealth)),
      Some(GetSidebarWidgetByType(s.widgets[1], hasHealth)),
      Some(GetSidebarWidgetByType(s.widgets[2], hasHealth)),
      if horizontal then Some(GetSidebarWidgetByType(s.widgets[3], hasHealth)) else None];
    if showAutoBattery || showDisconnect {
      var r := GetReplacableWidgetRect(s.widgets, s.sidebarLocation);
      if showAutoBattery {
        display := display[r := Some(BatteryMeterWidget)];
      } else if showDisconnect {
        display := display[r := Some(BTDisconnectWidget)];
      }
    }
  }

  /** The four widgets of a horizontal bar, each in its slot and centred vertically. */
  function HorizontalPlacements(d: seq<Option<Widget>>, width: int, env: HeightEnv): (p: seq<Placement>)
    requires |d| == 4 && forall i :: 0 <= i < 4 ==> d[i].Some?
    ensures |p| == 4
    ensures forall i :: 0 <= i < 4 ==>
      p[i].widget == d[i].value && p[i].x == HorizontalX(width, i)
      && 0 <= HORIZONTAL_BAR_HEIGHT - Height(d[i].value, env) - 2 * p[i].y + (if Height(d[i].value, env) > HORIZONTAL_BAR_HEIGHT then 1 else 0) <= 1
  {
    [Placement(d[0].value, HorizontalX(width, 0), WidgetY(Height(d[0].value, env))),
     Placement(d[1].value, HorizontalX(width, 1), WidgetY(Height(d[1].value, env))),
     Placement(d[2].value, HorizontalX(width, 2), WidgetY(Height(d[2].value, env))),
     Placement(d[3].value, HorizontalX(width, 3), WidgetY(Height(d[3].value, env)))]
  }

  /** The three widgets of a vertical bar, at the column positions for their heights. */
  function VerticalPlacements(d: seq<Option<Widget>>, env: HeightEnv): (p: seq<Placement>)
    requires |d| == 4 && d[0].Some? && d[1].Some? && d[2].Some?
    ensures |p| == 3
    ensures forall i :: 0 <= i < 3 ==> p[i].widget == d[i].value && p[i].x == 0
    ensures p[0].y == V_PADDING
    ensures p[2].y + Height(d[2].value, env) == SCREEN_HEIGHT - V_PADDING
    ensures var above := p[1].y - (p[0].y + Height(d[0].value, env));
      var below := p[2].y - (p[1].y + Height(d[1].value, env));
      above <= below <= above + 1
  {
    var c := VerticalLayout(Height(d[0].value, env), Height(d[1].value, env), Height(d[2].value, env));
    [Placement(d[0].value, 0, c.top), Placement(d[1].value, 0, c.middle), Placement(d[2].value, 0, c.lower)]
  }

  /**
   * Draws the rectangular sidebar: computes the widgets shown, switches
   * the widgets' compact mode, and places them. A horizontal bar always
   * uses compact mode and four fixed slots; a vertical bar uses compact
   * mode only when the full heights do not fit, and takes the heights
   * after that switch for the placement. With no sidebar nothing is drawn.
   */
  method UpdateRectSidebar(state: SidebarWidgetsState, s: Settings, hasHealth: bool,
                           chargePercent: int, isCharging: bool, connected: bool, sleeping: bool, width: int)
    returns (placements: seq<Placement>)
    requires WellFormed(s)
    modifies state`useCompactMode
    ensures var d := DisplayWidgets(s, hasHealth, IsAutoBatteryShown(s, chargePercent, isCharging),
                                    s.activateDisconnectIcon && !connected);
      if s.sidebarLocation == BOTTOM || s.sidebarLocation == TOP then
        state.useCompactMode && placements == HorizontalPlacements(d, width, EnvFor(s, true, isCharging, sleeping))
      else if s.sidebarLocation == LEFT || s.sidebarLocation == RIGHT then
        (state.useCompactMode <==> NeedsCompact(d, s, isCharging, sleeping))
        && placements == VerticalPlacements(d, EnvFor(s, state.useCompactMode, isCharging, sleeping))
      else
        placements == [] && state.useCompactMode == old(state.useCompactMode)
  {
    var showDisconnectIcon := false;
    var showAutoBattery := IsAutoBatteryShown(s, chargePercent, isCharging);
    if s.activateDisconnectIcon {
      showDisconnectIcon := !connected;
    }
    var display := ChooseDisplayWidgets(s, hasHealth, showAutoBattery, showDisconnectIcon);
    if s.sidebarLocation == BOTTOM || s.sidebarLocation == TOP {
      state.useCompactMode := true;
      var env := EnvFor(s, true, isCharging, sleeping);
      placements := HorizontalPlacements(display, width, env);
    } else if s.sidebarLocation == LEFT || s.sidebarLocation == RIGHT {
      state.useCompactMode := false;
      var full := EnvFor(s, false, isCharging, sleeping);
      var totalHeight := Height(display[0].value, full) + Height(display[1].value, full) + Height(display[2].value, full);
      state.useCompactMode := totalHeight > 142;
      var env := EnvFor(s, state.useCompactMode, isCharging, sleeping);
      placements := VerticalPlacements(display, env);
    } else {
      placements := [];
    }
  }

  /**
   * The widget a round watch shows for slot `widgetNumber`: the battery
   * or disconnect widget when that slot is the replaceable one, whatever
   * the disconnect-icon setting says, else the configured widget.
   */
  function GetRoundSidebarWidget(s: Settings, hasHealth: bool, widgetNumber: int,
                                 chargePercent: int, isCharging: bool, connected: bool): (w: Widget)
    requires WellFormed(s) && 0 <= widgetNumber < 4
    ensures var replaced := RoundReplaceable(s.widgets) == widgetNumber;
      var auto := IsAutoBatteryShown(s, chargePercent, isCharging);
      (replaced && auto ==> w == BatteryMeterWidget)
      && (replaced && !auto && !connected ==> w == BTDisconnectWidget)
      && (!replaced || (!auto && connected) ==> w == GetSidebarWidgetByType(s.widgets[widgetNumber], hasHealth))
  {
    var showDisconnectIcon := !connected;
    var showAutoBattery := IsAutoBatteryShown(s, chargePercent, isCharging);
    if (showAutoBattery || showDisconnectIcon) && RoundReplaceable(s.widgets) == widgetNumber then
      if showAutoBattery then BatteryMeterWidget else BTDisconnectWidget
    else GetSidebarWidgetByType(s.widgets[widgetNumber], hasHealth)
  }

  /** The round watch ignores the disconnect-icon setting. */
  lemma RoundIgnoresDisconnectSetting(s: Settings, hasHealth: bool, widgetNumber: int,
                                      chargePercent: int, isCharging: bool, connected: bool)
    requires WellFormed(s) && 0 <= widgetNumber < 4
    ensures GetRoundSidebarWidget(s.(activateDisconnectIcon := true), hasHealth, widgetNumber, chargePercent, isCharging, connected)
         == GetRoundSidebarWidget(s.(activateDisconnectIcon := false), hasHealth, widgetNumber, chargePercent, isCharging, connected)
  {
  }

  /**
   * Draws one of the round watch's two bars: the top one shows slot 0,
   * the bottom one slot 2, in compact mode, centred on a bar `width`
   * pixels wide.
   */
  method UpdateRoundSidebar(state: SidebarWidgetsState, s: Settings, hasHealth: bool, top: bool,
                            chargePercent: int, isCharging: bool, connected: bool, sleeping: bool, width: int)
    returns (p: Placement)
    requires WellFormed(s)
    modifies state`useCompactMode
    ensures state.useCompactMode
    ensures var w := GetRoundSidebarWidget(s, hasHealth, if top then 0 else 2, chargePercent, isCharging, connected);
      p == Placement(w, CDiv(width * 2, 4) - ACTION_BAR_WIDTH_ROUND / 2,
                     WidgetY(Height(w, EnvFor(s, true, isCharging, sleeping))))
  {
    var widget := GetRoundSidebarWidget(s, hasHealth, if top then 0 else 2, chargePercent, isCharging, connected);
    state.useCompactMode := true;
    var widgetXPosition := CDiv(width * 2, 4) - ACTION_BAR_WIDTH_ROUND / 2;
    var widgetYPosition := CDiv(HORIZONTAL_BAR_HEIGHT - Height(widget, EnvFor(s, true, isCharging, sleeping)), 2);
    p := Placement(widget, widgetXPosition, widgetYPosition);
  }
}
