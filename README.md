# TimeStyle watchface: the rules behind what is shown and where

A model of the decision logic of the TimeStyle Pebble watchface. It covers
both halves of the system.

- **The watch (C).** It keeps one configuration record (`globalSettings`) and
  derives feature flags from the four sidebar widget slots. It packs that
  record into a bit-field layout for persistent storage and applies settings
  messages from the phone key by key. It also chooses which slot the
  automatic battery or disconnect widget replaces, lays out the sidebar and
  the clock area, formats the time and widget texts, and reacts to ticks,
  Bluetooth and battery events and health updates.
- **The phone (JavaScript).** The companion app turns the settings page's
  answers into that message: it forces slots empty, moves the widgets of a
  horizontal bar up, picks its own replaceable slot and decides whether
  weather is fetched.

Each source file becomes one module.

- **Pure C code** becomes functions and lemmas.
- **Static state** the C code updates in place becomes a class:
  - `SettingsStore.Store`, the configuration;
  - `Messaging.WeatherStore`;
  - `SidebarWidgets.SidebarWidgetsState`;
  - `TimeDate.TimeDateStrings`;
  - `Health.HealthTracker`;
  - `ClockArea.ClockFonts`;
  - `MainEvents.AppState`.
- **Step-by-step code** becomes methods, each proved against a
  specification function:
  - the widget loop of `Settings_updateDynamicSettings`;
  - the companion's replaceable-slot loop;
  - the early-return search of the rectangular `getReplacableWidget`;
  - the handlers.

C's integer behaviour is written out in `CArith`:
- division truncates toward zero;
- the watchface's own `mod`;
- narrowing into `uint8`, `int8` and bit-fields;
- `(bool)` of an `int8`.

Text buffers are `seq<char>`, and `snprintf`/`strncpy` truncation is explicit
in `Format`.

The system's inputs are parameters:
- the clock (`now`, the `TimeInfo` fields);
- the 12/24-hour preference;
- quiet time;
- `rand()`;
- the battery state;
- the Bluetooth connection;
- the health service's answers;
- persistent storage (`Option` of the stored record and version);
- the phone's answers.

The widget type ids are the values in src/pkjs/index.js:20-36.

## Model

| member | source | states |
|---|---|---|
| CArith.CDiv | src/c/clock_area.c:26-34 | C division by a positive divisor truncates toward zero: the remainder lies in [0, b) for a ≥ 0 and in (-b, 0] for a < 0 |
| CArith.CRem | src/c/time_date.c:25 | C's `%` takes the sign of the dividend and stays below the divisor in magnitude |
| CArith.Mod | src/c/time_date.c:24-27 | the watchface's `mod` always lands in [0, b) |
| CArith.ModIsEuclidean | src/c/time_date.c:24-27 | for the moduli 24 and 12, `mod` equals the mathematical remainder, so it is congruent to its argument |
| CArith.ModTwelveOfDay | src/c/sidebar_widgets.c:199-210 | the 12-hour reduction depends only on the hour of the day |
| CArith.Wrap | src/c/settings.h:94-102 | storing into an unsigned field of m values keeps the value modulo m, in [0, m) |
| CArith.WrapSigned | src/c/settings.h:99 | storing into a two's-complement field of m values gives a value in [-m/2, m/2) |
| Format.NatToString | src/c/sidebar_widgets.c:798 | `%d` of a non-negative number: at least one digit, no leading zero, one digit exactly below 10 |
| Format.IntToString | src/c/sidebar_widgets.c:788 | `%d` of any number starts with '-' exactly when it is negative, followed by the digits of its magnitude |
| Format.IntToStringReadsBack | src/c/sidebar_widgets.c:788 | after the optional minus sign the printed digits read back as the magnitude of the number |
| Format.NatToStringRoundTrip | src/c/sidebar_widgets.c:798 | the printed digits read back as the number printed |
| Format.NatToStringLength | src/c/sidebar_widgets.c:728-730 | a number prints in at most k digits exactly when it is below 10^k (what decides whether a buffer cuts it) |
| Format.Snprintf | src/c/sidebar_widgets.c:730 | `snprintf` into `size` bytes keeps the whole text exactly when it fits, and otherwise exactly its first `size - 1` characters |
| Format.Prefix | src/c/time_date.c:71-72 | `strncpy` into n bytes keeps the whole string exactly when it fits, and otherwise exactly its first n characters |
| Format.ZeroPadded2 | src/c/time_date.c:56 | `%M`/`%H`/`%V`: two digits that read back as the number |
| Format.SpacePadded2 | src/c/time_date.c:59 | `%e`/`%k`/`%l`: two characters, a leading space exactly below 10, reading back as the number |
| Format.CString | src/c/sidebar_widgets.c:804 | the visible text of a buffer is the prefix before the first NUL |
| Format.VisibleWithoutNul | src/c/sidebar_widgets.c:804 | a buffer holding no NUL shows all of its text |
| Strftime.Hour12 | src/c/time_date.c:47 | the 12-hour dial shows 1..12 and agrees with the hour modulo 12 |
| Strftime.HourField | src/c/time_date.c:44-48 | the hour field is two characters and starts with a space exactly for the unpadded forms below 10 |
| Strftime.HourFieldReadsBack | src/c/time_date.c:44-48 | every hour field reads back as the hour on the dial in use |
| Strftime.DropPadding | src/c/time_date.c:63-66 | a leading space is removed and nothing else changes; a string without one is kept |
| AltClock.AltHour | src/c/time_date.c:97-104 | the shifted hour is (hour+offset) mod 24 in 0..23 on a 24-hour dial, and in 1..12 congruent modulo 12 on a 12-hour one |
| AltClock.HourDigits | src/c/time_date.c:108-112 | the digits read back as the hour; a '0' is in front exactly when leading zeros are on and the hour is below 10 (or the hour is 0) |
| SettingsTypes.GColorFromHex | src/c/messaging.c:66-81 | a received 24-bit colour keeps the two high bits of each channel and is opaque |
| SettingsTypes.PackedChannels | src/c/settings.c:34-37 | the packed colour byte reads back channel by channel |
| SettingsStore.Defaults | src/c/settings.c:32-81 | the factory configuration is well formed and leaves the health display choices, separator and beats flag untouched |
| SettingsStore.SignedFlag | src/c/settings.h:125 | a 1-bit signed field is nonzero exactly for a set flag |
| SettingsStore.Pack | src/c/settings.c:119-152 | saving narrows each field to its width, gives a well-formed stored record and never writes the health choices or the separator |
| SettingsStore.Unpack | src/c/settings.c:86-117 | loading gives each field a value within its stored width, the disconnect flag set exactly for -1, and keeps the fields it does not copy |
| SettingsStore.StoredOrZero | src/c/settings.c:86-117 | a missing stored record is read as all zeros |
| SettingsStore.Store.constructor | src/c/settings.h:128 | the configuration starts all zero |
| SettingsStore.Store.LoadDefaults | src/c/settings.c:32-81 | the configuration becomes `Defaults` of the old one |
| SettingsStore.Store.LoadFromStorage | src/c/settings.c:86-117 | the configuration becomes the unpacked stored record (zeros when none) |
| SettingsStore.Store.SaveToStorage | src/c/settings.c:119-152 | the stored record is `Pack` of the configuration and the version written is 7 |
| SettingsStore.Store.UpdateDynamicSettings | src/c/settings.c:154-191 | after the slot loop the configuration is `WithDynamic` of the old one: weather off exactly without a weather widget, per-second redraw exactly with a seconds widget, automatic battery exactly without a battery widget, alternative clock exactly with its widget, icons inverted on a black sidebar |
| SettingsStore.Store.Init | src/c/settings.c:7-19 | defaults for a missing or pre-7 version, storage otherwise, then the derived flags |
| SettingsStore.Store.Deinit | src/c/settings.c:21-27 | the derived flags are recomputed and the configuration is saved with version 7 |
| SettingsStore.SaveLoadRoundTrip | src/c/settings.c:86-152 | save then load gives back the configuration exactly when every persisted field fits its stored width |
| SettingsStore.BeatsNeverEnabled | src/c/settings.c:154-191 | neither start-up nor the derived-flag update sets the beats flag, so from the zeroed start it stays off |
| SettingsStore.LoadSaveRoundTrip | src/c/settings.c:86-152 | load then save gives back the stored record |
| SettingsStore.DerivedNotPersisted | src/c/settings.h:71-126 | configurations that differ only in the derived flags (the beats flag included), the icon colours, the health display choices or the decimal separator are stored identically |
| SettingsStore.DynamicIdempotent | src/c/settings.c:154-191 | recomputing the derived flags twice is the same as once |
| SettingsStore.DynamicIgnoresDerived | src/c/settings.c:154-191 | the derived flags depend only on the slots and the sidebar colours |
| SettingsStore.DefaultsDerived | src/c/settings.c:65-71 | the factory slots fit storage, fetch weather, need no per-second redraw and suppress the automatic battery |
| SettingsStore.RestartRestores | src/c/settings.c:7-19 | a configuration saved at shut-down is the one the next start-up loads |
| SettingsStore.FactoryColoursFromHex | src/c/settings.c:34-37 | the factory colours are the colours of their hex values |
| Sidebar.AutoBatteryNeverDuplicates | src/c/sidebar.c:23-35 | with the derived flags current, the automatic battery is shown exactly when allowed, no battery widget is placed and the charge is at most 10% or charging |
| Sidebar.FirstMatch | src/c/sidebar.c:61-79 | the first index in range holding a target, every earlier one holding none |
| Sidebar.RectReplaceable | src/c/sidebar.c:59-83 | the replaced slot is in 0..3: the first empty of slots 0..2, else an empty slot 3 on a horizontal bar, else the first weather widget, else 1 |
| Sidebar.GetReplacableWidgetRect | src/c/sidebar.c:59-83 | the early-return loops compute `RectReplaceable` |
| Sidebar.RoundReplaceable | src/c/sidebar.c:40-55 | the round watch replaces 0 or 2, an empty slot before a weather one and 0 before 2 |
| Sidebar.DisplayWidgets | src/c/sidebar.c:211-230 | only the replaceable slot is overridden, by the battery before the disconnect widget; every other slot shows its configured widget |
| Sidebar.ChooseDisplayWidgets | src/c/sidebar.c:211-230 | filling the array and overriding one entry gives `DisplayWidgets` |
| Sidebar.HiddenWeatherSwallowsWarning | src/c/sidebar.c:75-79 | on a vertical bar with no empty or weather widget in slots 0..2 and a weather widget in the undrawn slot 3, slot 3 is the replaceable one and the drawn slots keep their configured widgets, so the battery or disconnect warning is not shown |
| Sidebar.RectDisconnectNeedsSetting | src/c/sidebar.c:203-209 | without the disconnect-icon setting a rectangular watch never shows the disconnect widget |
| Sidebar.GetRectSidebarBounds | src/c/sidebar.c:179-191 | the bar's rectangle for each of RIGHT, LEFT, BOTTOM, TOP, and an empty one otherwise |
| Sidebar.BoundsOnScreen | src/c/sidebar.c:179-191 | on the 144x168 screen every bar lies inside and touches its edge |
| Sidebar.WidgetY | src/c/sidebar.c:240-255 | a widget is centred on the 51-pixel bar to within a pixel |
| Sidebar.HorizontalOrder | src/c/sidebar.c:234-255 | on a bar at least 80 wide the four slots run left to right and the last ends a padding before the edge |
| Sidebar.MiddleSlotsOrdered | src/c/sidebar.c:245-251 | slot 1 is left of slot 2 on any bar at least 20 wide |
| Sidebar.VerticalLayout | src/c/sidebar.c:266-271 | top widget at 8, bottom widget ending at 160, the middle one centred between them |
| Sidebar.HorizontalPlacements | src/c/sidebar.c:232-258 | each of the four widgets is drawn at its slot's x and centred vertically |
| Sidebar.VerticalPlacements | src/c/sidebar.c:266-276 | the three configured widgets at x 0: the first at the top padding, the last ending at the bottom padding, the middle one with the gaps above and below it equal to within a pixel |
| Sidebar.UpdateRectSidebar | src/c/sidebar.c:193-277 | a horizontal bar uses compact mode; a vertical bar uses it exactly when the full heights sum above 142 and is placed with the heights after that switch; no bar draws nothing |
| Sidebar.GetRoundSidebarWidget | src/c/sidebar.c:87-102 | the round slot shows the battery, else the disconnect widget, exactly when it is the replaceable one and either is due |
| Sidebar.RoundIgnoresDisconnectSetting | src/c/sidebar.c:88 | the round watch's choice does not depend on the disconnect-icon setting |
| Sidebar.UpdateRoundSidebar | src/c/sidebar.c:143-175 | the top bar draws slot 0 and the bottom bar slot 2, in compact mode, centred on the bar |
| SidebarWidgets.GetSidebarWidgetByType | src/c/sidebar_widgets.c:238-275 | an id gets a real widget exactly when it is registered (health ones only with health), and that widget has the id; anything else gets the empty widget |
| SidebarWidgets.LookupRoundTrip | src/c/sidebar_widgets.c:238-275 | every available widget is found again by its own id |
| SidebarWidgets.Height | src/c/sidebar_widgets.c:278-859 | heights lie in 0..63 and are 0 exactly for the empty widget |
| SidebarWidgets.CompactOnlyShortensDate | src/c/sidebar_widgets.c:366-372 | compact mode never lengthens a widget and changes only the date widget's height |
| SidebarWidgets.LargeFontsNeverShrink | src/c/sidebar_widgets.c:288-296 | large fonts never make a widget shorter |
| SidebarWidgets.HealthViewFor | src/c/sidebar_widgets.c:703-710 | the sleep view is drawn exactly while the user sleeps |
| SidebarWidgets.HealthHeightMatchesView | src/c/sidebar_widgets.c:695-710 | the health widget is 44 high exactly with the sleep view and 32 exactly with the steps view |
| SidebarWidgets.DisplayedPercent | src/c/sidebar_widgets.c:301 | a 0% charge is shown as 5%, any other charge as itself |
| SidebarWidgets.BatteryText | src/c/sidebar_widgets.c:334-361 | a percentage is printed exactly when enabled and not charging: the number and '%' (in front for Turkish), or the bare number with large fonts; the digits are exactly `%d` of the displayed percentage |
| SidebarWidgets.BatteryHeightMatchesText | src/c/sidebar_widgets.c:288-296 | the battery widget is 14 high exactly when it prints no percentage, else 33 or 27 |
| SidebarWidgets.SleepText | src/c/sidebar_widgets.c:718-746 | the sleep total (restful when configured) as whole hours and remaining minutes below 60 |
| SidebarWidgets.StepsText | src/c/sidebar_widgets.c:794-808 | the count below 1000, thousands-separator-hundreds-k below 10000 (all of it visible when the separator is not NUL), whole thousands-k beyond, each reading back as the count |
| SidebarWidgets.UnsetSeparatorHidesHundreds | src/c/sidebar_widgets.c:804 | with a NUL separator only the thousands digit is visible |
| SidebarWidgets.DistanceText | src/c/sidebar_widgets.c:763-792 | metres below 100, ".N km" below 1000, whole km beyond (reading back as distance / 1000) with the small font past 9; whole miles (reading back as the rounded count), or separator and tenths (visible when the separator is not NUL) |
| SidebarWidgets.UnsetSeparatorHidesTenths | src/c/sidebar_widgets.c:790 | with a NUL separator a distance below one rounded mile shows no text |
| SidebarWidgets.StepsWidgetText | src/c/sidebar_widgets.c:751-809 | with the distance display chosen, every branch of the distance text (metres, tenths of a km, whole km, whole miles, tenths of a mile); otherwise every branch of the steps text (the count, thousands-separator-hundreds-k, whole thousands-k); only the distance can ask for the small font |
| SidebarWidgets.AltClockText | src/c/sidebar_widgets.c:193-216 | the alternative clock with am/pm decided before the 12-hour reduction |
| SidebarWidgets.BeatsText | src/c/sidebar_widgets.c:233 | beats print in at most three digits, so the 5-byte buffer never cuts them |
| SidebarWidgets.SidebarWidgetsState.constructor | src/c/sidebar_widgets.c:12-35 | compact mode off and every string empty |
| SidebarWidgets.SidebarWidgetsState.UpdateTime | src/c/sidebar_widgets.c:182-235 | each string is set from the time: unpadded day, week, seconds, alternative clock, names, beats |
| SidebarWidgets.DayNumReadsBack | src/c/sidebar_widgets.c:221-225 | the unpadded day number reads back as the day of the month |
| TimeDate.HoursText | src/c/time_date.c:44-53 | the hours string has one or two characters |
| TimeDate.HoursTextReadsBack | src/c/time_date.c:44-53 | the padding space is kept exactly when the time is not centred, and the string reads back as the hour on the dial |
| TimeDate.AltClockAsWritten | src/c/time_date.c:87-113 | the alternative clock as this copy prints it: am/pm decided after the 12-hour reduction |
| TimeDate.AltClockAfternoonDiverges | src/c/time_date.c:101-105 | at 13:00 on a 12-hour dial this copy prints "1a" and the sidebar's "1p" |
| TimeDate.AltClockAmPmAgreement | src/c/time_date.c:101-105 | the two copies agree exactly when the shifted hour of the day is 1 to 12 |
| TimeDate.SameDigits | src/c/time_date.c:108-112 | the two copies print the same digits |
| TimeDate.TwelveOnDial | src/c/time_date.c:101-104 | the 12-hour dial shows 12 exactly at midnight and noon |
| TimeDate.CurrentDate | src/c/time_date.c:76-84 | the one-line date fits the 21-byte buffer |
| TimeDate.CurrentDateFields | src/c/time_date.c:76-84 | day name, day number and month are read back from their places, separated by spaces |
| TimeDate.TimeDateStrings.constructor | src/c/time_date.c:7-19 | every string starts empty |
| TimeDate.TimeDateStrings.Update | src/c/time_date.c:42-124 | hours, minutes, date fields always; the one-line date and am flag only for a horizontal bar on the rectangular build; the alternative clock and beats only when enabled |
| TimeDate.TimeDateStrings.UpdateClock | src/c/time_date.c:44-69 | hours, minutes and seconds strings from the time |
| TimeDate.TimeDateStrings.UpdateDate | src/c/time_date.c:59-84 | the date strings; the one-line date and am flag only for TOP/BOTTOM on the rectangular build, never on the round one |
| Companion.YesNo | src/pkjs/index.js:135-141 | 1 exactly for "yes", else 0 |
| Companion.ClockFontFor | src/pkjs/index.js:151-163 | a font id 0..4 exactly for the five page names |
| Companion.ClockFontNames | src/pkjs/index.js:151-163 | each font id is reached by exactly one name |
| Companion.HourlyVibeFor | src/pkjs/index.js:212-220 | "yes" gives every hour, "half" every half hour, anything else none |
| Companion.PositionFor | src/pkjs/index.js:171-189 | each side's name gives that side; any other name no bar |
| Companion.ActivityDisplayFor | src/pkjs/index.js:347-357 | distance, duration and calories by name; steps otherwise |
| Companion.BatteryPctFor | src/pkjs/index.js:316-322 | 1 for icon-and-percent, 0 for icon-only, nothing otherwise |
| Companion.IndexOf | src/pkjs/index.js:257-260 | `indexOf`: the first position holding x, -1 exactly when absent |
| Companion.Forced | src/pkjs/index.js:171-195 | the chosen slots with the ones the position or round platform forces emptied |
| Companion.Normalized | src/pkjs/index.js:198-207 | one pass moving horizontal-bar widgets up; slot 0 untouched |
| Companion.NormalizedPermutes | src/pkjs/index.js:198-207 | the pass only reorders the four ids |
| Companion.NormalizedKeepsOrder | src/pkjs/index.js:198-207 | the widgets of slots 1..3 keep their order |
| Companion.NormalizedCompactUnlessTwoGaps | src/pkjs/index.js:198-207 | the pass leaves a gap exactly when slots 1 and 2 were empty and slot 3 was not |
| Companion.Placed | src/pkjs/index.js:166-207 | the four slots the message carries |
| Companion.PlaceWidgets | src/pkjs/index.js:166-207 | the handler's in-place slot updates compute the position and `Placed` |
| Companion.LastEmpty | src/pkjs/index.js:266-270 | the last empty slot below n, or -1 |
| Companion.CompanionReplaceable | src/pkjs/index.js:252-285 | round: empty 0, empty 2, first weather, first forecast, 0; others: the LAST empty among 0..2, then empty 3 on a horizontal bar, weather, forecast, 1 |
| Companion.ReplaceableIndex | src/pkjs/index.js:264-285 | the loop without a break computes `CompanionReplaceable` |
| Companion.ChalkNamesDrawnSlot | src/pkjs/index.js:252-263 | on the round watch the named slot is 0 or 2 |
| Companion.CompanionDiffersFromWatch | src/pkjs/index.js:266-270 | with slots 0 and 1 empty on a left bar (slot 3 emptied by the companion, as index.js:174 does) the companion names 1 and the rectangular watch replaces 0 |
| Companion.CompanionAgreesOnSingleGap | src/pkjs/index.js:266-270 | with one empty slot among 0..2 the companion and the watch agree |
| Companion.DisableWeatherFlag | src/pkjs/index.js:370-377 | "no" exactly when a weather widget is placed |
| Companion.EnableForecastFlag | src/pkjs/index.js:381-387 | "yes" exactly when today's forecast is placed |
| Companion.DisableAutobatteryValue | src/pkjs/index.js:324-331 | 0 exactly for "on" without a battery widget |
| Companion.WeatherFlagMatchesWatch | src/pkjs/index.js:370-377 | the phone's weather flag matches the one the watch derives from the same slots |
| Companion.AutobatteryMatchesWatch | src/pkjs/index.js:324-331 | when the phone allows the automatic battery, the watch's derived flag allows it too |
| Companion.ColourOptions | src/pkjs/index.js:113-128 | each colour key is present exactly when answered, parsed as hex |
| Companion.ClockOptions | src/pkjs/index.js:130-163 | language, leading zero, centring and font keys as answered |
| Companion.NotificationOptions | src/pkjs/index.js:211-229 | hourly and Bluetooth vibration keys as answered |
| Companion.BarOptions | src/pkjs/index.js:232-300 | disconnect icon, large fonts, replaceable slot, week word only with a week widget, units only with a weather widget |
| Companion.BatteryOptions | src/pkjs/index.js:315-331 | the battery percentage and automatic battery keys |
| Companion.AltClockOptions | src/pkjs/index.js:333-339 | the clock name and offset only with an alternative clock widget |
| Companion.HealthOptions | src/pkjs/index.js:341-366 | health keys only with a health-using widget and never on aplite |
| Companion.WebviewClosed | src/pkjs/index.js:102-436 | a message exactly when the page answered; every key by its section's rule, bar keys only with a bar, weather and forecast flags from the placed widgets |
| Messaging.Int8 | src/c/messaging.c:84 | an int8 read is in [-128, 128), unchanged when in range |
| Messaging.Int32 | src/c/messaging.c:15 | an int32 read is in 32-bit range, unchanged when in range |
| Messaging.Byte | src/c/messaging.c:112 | an int8 stored in a uint8 field keeps a non-negative int8 value |
| Messaging.Flag | src/c/messaging.c:88 | `(bool)` of an int8 is set exactly when the low byte is nonzero |
| Messaging.Applied | src/c/messaging.c:66-153 | every present settings key overwritten, absent ones kept; the result is well formed |
| Messaging.WeatherStore.constructor | src/c/sidebar_widgets.c:457 | the weather record starts as zeroed static storage, not as the `INT32_MIN` "no data" value this line tests for |
| Messaging.WeatherStore.ReceiveCurrent | src/c/messaging.c:10-20 | current weather updated and saved only when temperature and condition are both present |
| Messaging.WeatherStore.ReceiveForecast | src/c/messaging.c:22-35 | the forecast updated and saved only when condition, high and low are all present |
| Messaging.InboxReceived | src/c/messaging.c:8-162 | weather first (one weather save per complete group of keys), then `Applied`, then the derived flags; the result is saved with version 7 |
| Messaging.ApplyColours | src/c/messaging.c:66-81 | the four colour keys applied |
| Messaging.ApplyChoices | src/c/messaging.c:83-125 | position, clock font, hourly vibration and language applied |
| Messaging.ApplyFlags | src/c/messaging.c:87-117 | the on/off keys applied |
| Messaging.ApplyWidgets | src/c/messaging.c:127-153 | slots stored as received int8s without a range check, clock name and offset, disconnect flag |
| Messaging.WeatherOnlyKeepsSettings | src/c/messaging.c:37-153 | a message with only weather keys leaves the configuration unchanged |
| Messaging.DisableWeatherKeyIgnored | src/c/messaging.c:107-109 | whatever disable-weather value arrives, the saved configuration is the same |
| Messaging.AppliedTwice | src/c/messaging.c:66-153 | applying the same message twice is applying it once |
| Messaging.AppliedIgnoresDerived | src/c/messaging.c:66-155 | the result's derived flags do not depend on the old derived flags |
| Messaging.SeparatorNeverSet | src/c/messaging.c:8-162 | neither start-up, a settings message nor the derived-flag update assigns the decimal separator, so from the zeroed start it stays NUL |
| Messaging.ReceiveTwice | src/c/messaging.c:8-162 | receiving the same settings message twice leaves the configuration as receiving it once |
| Messaging.Delivered | src/pkjs/index.js:394 | the keys the watch finds in the companion's message: the four slots, no weather key, no disable-weather key |
| Messaging.SlotsArrive | src/c/messaging.c:127-141 | the companion's slots arrive as int8s, unchanged when they fit |
| Messaging.WeatherFlagsAgree | src/c/messaging.c:155 | the phone's weather flag agrees with the watch's derived one for the slots it received |
| Messaging.YesNoKeysArrive | src/c/messaging.c:91-97 | the companion's 1/0 answers switch leading zeros and Bluetooth vibration on and off as asked |
| Messaging.PositionArrives | src/c/messaging.c:83-85 | a sent position replaces the watch's, an unsent one keeps it |
| Health.SumToday | src/c/health.c:22-27 | an inaccessible metric reads 0, an accessible one its sum |
| Health.Updated | src/c/health.c:29-47 | asleep exactly with either sleep bit, restful exactly with its own bit (and then asleep), end of sleep moved to now only while asleep |
| Health.LastUpdateWins | src/c/health.c:49-84 | every figure comes from the last update alone (the end of sleep too while asleep) |
| Health.ShownHalfHourAfterWaking | src/c/health.c:57-60 | after a sleeping update at t and a waking one, sleep is shown exactly before t + 1800 |
| Health.HealthTracker.constructor | src/c/health.c:7-15 | the tracker starts zeroed |
| Health.HealthTracker.Update | src/c/health.c:29-47 | the fields become `Updated` of the old state |
| Health.HealthTracker.SleepingToBeDisplayed | src/c/health.c:57-60 | sleep is shown exactly while sleeping or within 1800 s of the end of sleep |
| ClockArea.Layout | src/c/clock_area.c:18-92 | digits on one line, minutes 14 px right of the hours and ending at the edge, the colon between them, the date across the width |
| ClockArea.BottomBarLiftsClock | src/c/clock_area.c:37-41 | a bottom bar lifts every box by 51 px and moves nothing sideways |
| ClockArea.LecoSitsLeftAndHigher | src/c/clock_area.c:26-34 | LECO digits sit a pixel further left and no lower |
| ClockArea.FontsFor | src/c/clock_area.c:121-148 | bold hours exactly for BOLD/BOLD_H, bold minutes for BOLD/BOLD_M, bold colon only for BOLD, LECO for all or none; unknown ids select nothing |
| ClockArea.PageFontsAreKnown | src/pkjs/index.js:151-163 | every font name the page sends selects fonts on the watch |
| ClockArea.ClockFonts.constructor | src/c/clock_area.c:14-16 | no font chosen yet |
| ClockArea.ClockFonts.UpdateFonts | src/c/clock_area.c:121-148 | the fonts of a known id are selected; an unknown id keeps the fonts |
| MainEvents.OneWeatherRequestPerHour | src/c/main.c:39-43 | with weather on exactly one second per hour asks for weather; none with it off |
| MainEvents.RefreshMinute | src/c/main.c:203 | the refresh minute is in 0..59 |
| MainEvents.AppState.constructor | src/c/main.c:18-25 | nothing connected or subscribed yet |
| MainEvents.AppState.Tick | src/c/main.c:37-69 | weather exactly at the chosen minute and second 0 with weather on; a double pulse on the hour, a short one at half past in half-hour mode, outside quiet time; redraw exactly with a bar |
| MainEvents.AppState.RedrawScreen | src/c/main.c:84-128 | resubscribed exactly when the rate changes; rate follows the setting; unobstructed handlers exactly for TOP; background and fonts follow the settings |
| MainEvents.AppState.BluetoothStateChanged | src/c/main.c:147-170 | vibration exactly on a connected-to-disconnected change with the setting outside quiet time; weather exactly on reconnect; the new state recorded |
| MainEvents.AppState.BatteryStateChanged | src/c/main.c:173-179 | the sidebar is redrawn exactly when there is one |
| MainEvents.AppState.Init | src/c/main.c:198-256 | weather minute from `rand()`, configuration loaded, tick rate as configured, weather requested exactly when connected |
| MainEvents.AppState.SettingsReceived | src/c/main.c:84-128 | the message is applied (src/c/messaging.c:154-160) and then `redrawScreen`, registered as the callback at src/c/main.c:219, runs: the tick rate is per-second exactly with a seconds widget |

## Left out

- Drawing: every `graphics_*`/`gdraw_*` call, fonts as resources, layers and windows, radial fills and the `SidebarWidgets_xOffset` draw offsets. Only the positions, heights, fonts chosen and strings drawn are modelled.
- Persistence and messaging I/O: `persist_*`, `dict_find`, `app_message_*`, `Pebble.sendAppMessage`, `Pebble.openURL`, `window.localStorage`, `messaging_init`, `messaging_requestNewWeatherData`, `weather.updateWeather`. Stored records, messages and requests are values.
- Floating point: the battery bar width, Fahrenheit conversion and the Swatch beats (`beatsValue` is an input), and `miles_whole` from `roundf` (`milesWhole` is an input).
- libc time services: `strftime` is modelled only for the fields used; `localtime`, `mktime`, `gmtime`, `clock_is_24h_style` and `time_get_beats` are inputs.
- Event subscriptions, focus handlers (src/c/main.c:183-196), `update_clock` (src/c/main.c:27-35), the unobstructed-area handlers and `deinit` are left out. The subscriptions appear only as the recorded rate and flag in `AppState`.
- Language tables: day and month names are inputs. The language-name keys, the week word, `ReplacableWidget`, `CenterTime`, the decimal separator and the health keys are built by the companion, but the watch never reads them (src/c/messaging.c:10-63).
- The weather condition mapping (`Weather_setCurrentCondition`) and `Weather_saveData` are not modelled; weather.c is not part of this model, so the store records the raw condition and counts saves.
- Health: `Health_init`, `Health_deinit`, `isUserWalking`, `isUserRunning` and `Health_getHeartRate` are declared in src/c/health.h but have no bodies in src/c/health.c. The heart-rate widget's value is left out.
- The companion's second message (language names) and its weather-refresh callback: only the condition for sending it is stated (`Companion.SendsLanguageNames`).
- `Messaging.Delivered`: a NaN offset is the parameter `nan`, because the phone library's encoding of NaN is not part of this model.
- `TimeDate.TimeDateStrings.Update`: time values are unbounded integers; `time_t` overflow is not modelled.
- `Sidebar.UpdateRectSidebar`: `SidebarWidgets_fixedHeight` belongs to another revision of sidebar_widgets.c that has no such flag, so it is left out. Heights are those of src/c/sidebar_widgets.c.
- util.c (recolouring and the obstruction height), clock_digit.c and debug.c are not part of this model.
- `SidebarWidgets.StepsWidgetText`: the choice between distance and steps reads `healthUseDistance`, which src/c/settings.h does not declare (it belongs to another revision). The choice is a parameter here and is not part of `Settings`.
- `centerTime` is read and stored by src/c/settings.c:80, 116 and 148, but src/c/settings.h does not declare it. The model gives both records a 1-bit `centerTime` field, as those lines use it.
- The persisted language arrays `languageDayNames`, `languageMonthNames` and `languageWordForWeek` (src/c/settings.c:40-59, 97-99 and 129-131) are not in either record. Day and month names are inputs instead.
- Some values are not defined in the source files of this model and are assumed:
  - `FONT_SETTING_*` are 0..4, the ids the companion sends (src/pkjs/index.js:151-161);
  - the GColor8 encodings (black 0xC0, white 0xFF, light grey 0xEA) are assumed;
  - `ACTION_BAR_WIDTH` is assumed to be 30 on the rectangular build and 40 on the round one;
  - `LANGUAGE_EN` is assumed to be 0;
  - the health masks are assumed to use bit 0 for sleep, bit 1 for restful sleep and bit 0 for an available metric.
- Text is `seq<char>`, one character per byte. `strncpy` at src/c/time_date.c:71-72 and src/c/sidebar_widgets.c:218-219 counts bytes: a multi-byte UTF-8 name is cut at a different place, and a name of 8 bytes or more is left without its terminator. `SidebarWidgets.SidebarWidgetsState.UpdateTime` and `TimeDate.TimeDateStrings.Update` therefore require names shorter than 8 characters.
- `Companion.Config`: `widgetIds` holds four numbers. src/pkjs/index.js:166-169 copies whatever the page sends, and string ids would compare differently under the loose `==` and the strict `indexOf`.
- `Messaging.WeatherStore.constructor`: the zeroed start is assumed static storage, since weather.c is not part of this model. The `INT32_MIN` "no data" value tested at src/c/sidebar_widgets.c:457 is never produced by it.
- The comment on the weather request in `tick_handler` speaks of a refresh every 30 minutes, but the code asks once an hour. The model follows the code (`MainEvents.OneWeatherRequestPerHour`).

## Findings

| source | as written | input that shows it | evidently intended | confidence | as-written member | corrected member |
|---|---|---|---|---|---|---|
| src/c/time_date.c:101-105 | on a 12-hour dial the am/pm letter is computed from the hour already reduced to 1..12, so it is 'p' only for 12 | 13:00, 12-hour dial, offset 0, no leading zero: prints "1a" | "1p", as the sidebar's copy (src/c/sidebar_widgets.c:199) decides am/pm before the reduction | not executed; no drawing code in this revision reads `time_date_altClock`, so the wrong letter stays in a buffer that is not drawn | TimeDate.AltClockAsWritten (shown by TimeDate.AltClockAfternoonDiverges, TimeDate.AltClockAmPmAgreement) | SidebarWidgets.AltClockText |
| src/c/sidebar_widgets.c:790 | `decimalSeparator` (src/c/settings.h:69) is never assigned, so it stays NUL and ends the printed text early | 1234 steps prints "1", and a distance below one rounded mile prints nothing | the separator the companion sends (src/pkjs/index.js:343) stored and printed, e.g. "1.2k" and ".3mi" for '.' | not executed | SidebarWidgets.UnsetSeparatorHidesHundreds, SidebarWidgets.UnsetSeparatorHidesTenths (with Messaging.SeparatorNeverSet) | SidebarWidgets.StepsText, SidebarWidgets.DistanceText (whole text visible for a non-NUL separator) |
