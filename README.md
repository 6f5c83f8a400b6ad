# pray-time: prayer-time configuration and selection, in Dafny

This project models the core of pray-time, a TypeScript library that computes
the clock times of the five daily prayers (Fajr, Dhuhr, Asr, Maghrib, Isha)
for a date, a location, a timezone offset and a calculation method. The model
covers four parts of `src/time.ts` and `src/concepts.ts`:

- **The configuration.** `PrayerTime.Settings` holds the six fields
  of an instance: date, location, timezone, method, Maghrib offset and Asr
  factor. `PrayerTime.Config` is the constructor's argument, where every
  field is optional. `PrayerTime.New` is the constructor. It fills each
  absent field with its default. The static chain starters are `For`, `At`,
  `InTimezone` and `Using`. The instance setters are `Time.At`,
  `Time.InTimezone`, `Time.Using`, `Time.MaghribOffsetBy` and
  `Time.WithAsrFactor`.
- **The class of an instance.** `PrayerTime.Variant` is one of `Generic`
  (the base class `Time`), `Fajr`, `Dhuhr`, `Asr`, `Maghrib` or `Isha`. It
  travels with the settings in `PrayerTime.Time`. `Time.Of` re-tags an
  instance. `Time.All` builds the five prayers.
- **The formulas.** `Time.Hours` gives each prayer's time in decimal hours.
  It is built from solar noon, sunset and hour angles, plus the timezone and
  Maghrib offset in hours. `FajrChosenAngle` and `IshaChosenAngle` are the
  two method-to-angle tables.
- **The selectors.** `Time.Remaining`, `Time.Past`, `Time.Upcoming` and
  `Time.Previous` filter `All` against the configured instant's time of day.
  They use the JavaScript `filter` and `at` semantics of module `JsArray`.

Modules, one per file:

- `concepts.dfy` (`Concepts`): the `Method` string enum with its aliases, and
  the `AsrFactor` numeric enum.
- `prayer_time.dfy` (`PrayerTime`): everything in `src/time.ts`.
- `fluent_chain.dfy` (`FluentChain`): defaults, round trips and frame
  conditions. A `Setter` datatype and `Chain` fold let it state facts about
  whole fluent chains.
- `selection.dfy` (`Selection`): ordering facts about the selectors.
- `formulas.dfy` (`Formulas`): the angle tables and the formula identities.
- `js_array.dfy` (`JsArray`): `Array.prototype.filter` and `.at`.
- `wrappers.dfy` (`Wrappers`): `Option`, standing for `undefined`.

How outside inputs become parameters:

- **The astronomy library.** `Sun.Times` and `Sun.Angle` come from
  `@duesabati/sundial`. They enter as the uninterpreted functions of
  `PrayerTime.Sundial`: `noon`, `sunset`, `hourAt` and `atShadow`.
- **The clock formatter.** `FormattedHours.FromDecimal(h).Milliseconds`
  enters as `Environment.milliseconds`.
- **Local midnight.** `new Date(d).setHours(0, 0, 0, 0)` enters as
  `Environment.startOfDay`.
- **The wall clock.** The `new Date()` field initialiser becomes the `now`
  parameter of the constructor and of the static starters other than `For`.
- **Instants** are integers (milliseconds since the epoch). JavaScript
  numbers (coordinates, minutes, hours) are `real`.

The TypeScript `Method` type is erased at run time, so any string can reach
the angle tables. The model therefore takes `Method` to be the string token.
That is what makes the tables' `default` branches reachable.

The model follows the code as written:

- There is no instance `For`, so no method changes the date of a started
  chain.
- There is no static `MaghribOffsetBy` or `WithAsrFactor`.
- Isha under MAKKAH is solar noon plus 90 minutes. It is not sunset plus 90
  minutes, which is the usual Umm al-Qura convention.
  `Formulas.MakkahIshaPrecedesMaghrib` shows the consequence: with a
  Maghrib offset of zero or more, on any day whose sunset falls more than 90
  minutes after noon, Isha comes out before Maghrib.
- The timezone and the Maghrib offset are JavaScript numbers, so they may
  be fractional.

## Model

| member | source | states |
|---|---|---|
| `Concepts.AsrFactor.Value` | src/concepts.ts:16-19 | One is worth 1, Two is worth 2, and no other value occurs |
| `Concepts.AsrFactorMembers` | src/concepts.ts:16-19 | every AsrFactor is worth 1 or 2; One is 1 and Two is 2 |
| `Concepts.AliasesAreTokens` | src/concepts.ts:1-14 | each long-form method name is the same token as its short name |
| `Concepts.TokensDistinct` | src/concepts.ts:1-14 | the six canonical tokens 'mwl', 'isna', 'egypt', 'makkah', 'karachi', 'tehran' are pairwise distinct |
| `PrayerTime.Defaults` | src/time.ts:16-21 | the field initialisers: the clock reading, location (0, 0), timezone 0, MWL, Maghrib offset 0, Asr factor One |
| `PrayerTime.New` | src/time.ts:15-30 | each field given in the config is kept; each absent one takes its default: the clock reading, (0, 0), 0, MWL, 0, One |
| `PrayerTime.For` | src/time.ts:32-34 | the static `For` gives the chosen class with that date and every other field at its default |
| `PrayerTime.At` | src/time.ts:36-41 | the static `At` gives that location, the current date, and all other fields at their defaults |
| `PrayerTime.InTimezone` | src/time.ts:43-48 | the static `InTimezone` gives that timezone, the current date, and all other fields at their defaults |
| `PrayerTime.Using` | src/time.ts:50-52 | the static `Using` gives that method, the current date, and all other fields at their defaults |
| `PrayerTime.Time.AsConfig` | src/time.ts:89-98 | the `config` getter: passing it back to the constructor rebuilds exactly this instance, whatever the clock reads |
| `PrayerTime.FajrChosenAngle` | src/time.ts:156-172 | Fajr's angle table; every angle lies in [15, 19.5], and a token outside the six canonical ones gets MWL's 18 |
| `PrayerTime.IshaChosenAngle` | src/time.ts:218-232 | Isha's angle table; every angle lies in [14, 18], and MAKKAH or a token outside the six canonical ones gets MWL's 17 |
| `PrayerTime.Time.Hours` | src/time.ts:144-215 | the five `Time` getters in decimal hours: Fajr = noon - HourAt(Fajr angle)/15 + tz/60; Dhuhr = noon + tz/60; Asr = noon + AtShadow(factor)/15 + tz/60; Maghrib = sunset + tz/60 + offset/60; Isha = noon + tz/60 + 1.5 under MAKKAH, else noon + tz/60 + HourAt(Isha angle)/15 (properties in the `Formulas` rows) |
| `PrayerTime.Time.Milliseconds` | src/time.ts:122-125 | `prayer.Time.Milliseconds`, a member of the prayer itself: the formatter's millisecond count for that prayer's decimal hours |
| `PrayerTime.Time.IsRemaining` | src/time.ts:122-125 | the `Remaining` filter's test: the prayer's millisecond of day is strictly after the configured instant's time of day |
| `PrayerTime.Time.IsTie` | src/time.ts:121-137 | the case neither filter's strict test accepts: the prayer's millisecond of day equals the configured instant's time of day, exactly when the prayer is neither remaining nor past |
| `PrayerTime.Time.IsPast` | src/time.ts:133-136 | the `Past` filter's test: the prayer's millisecond of day is strictly before the configured instant's time of day; such a prayer is never also remaining |
| `PrayerTime.Time.At` | src/time.ts:54-59 | the result equals the original except for the location; the class is kept |
| `PrayerTime.Time.InTimezone` | src/time.ts:61-66 | the result equals the original except for the timezone; the class is kept |
| `PrayerTime.Time.Using` | src/time.ts:68-73 | the result equals the original except for the method; the class is kept |
| `PrayerTime.Time.MaghribOffsetBy` | src/time.ts:75-80 | the result equals the original except for the Maghrib offset; the class is kept |
| `PrayerTime.Time.WithAsrFactor` | src/time.ts:82-87 | the result equals the original except for the Asr factor; the class is kept |
| `PrayerTime.Time.Of` | src/time.ts:107-109 | the result is the requested class with exactly the caller's settings |
| `PrayerTime.Rank` | src/time.ts:111-119 | each prayer has a position below five in the canonical order |
| `PrayerTime.Time.All` | src/time.ts:111-119 | five prayers in the order Fajr, Dhuhr, Asr, Maghrib, Isha, all with the caller's settings |
| `PrayerTime.Time.Remaining` | src/time.ts:121-126 | an order-preserving subsequence of All holding exactly the prayers strictly after the configured instant |
| `PrayerTime.Time.Past` | src/time.ts:132-137 | an order-preserving subsequence of All holding exactly the prayers strictly before the configured instant |
| `PrayerTime.Time.Upcoming` | src/time.ts:128-130 | absent exactly when no prayer is still to come; otherwise a prayer of All that is still to come |
| `PrayerTime.Time.Previous` | src/time.ts:139-141 | absent exactly when no prayer has passed; otherwise a prayer of All that has passed |
| `JsArray.Filter` | src/time.ts:121-126 | a value is in the result exactly when it is in the input and `keep` accepts it; the result is never longer than the input |
| `JsArray.FilterCounts` | src/time.ts:121-126 | `filter` keeps every occurrence of an accepted value and none of a rejected one: each value appears in the result as often as in the input if accepted, and zero times otherwise |
| `JsArray.FilterIsSubsequence` | src/time.ts:121-126 | `filter` keeps the relative order of the elements it keeps |
| `JsArray.FilterEmpty` | src/time.ts:121-126 | `filter` returns an empty array exactly when no element is accepted |
| `JsArray.FilterFirst` | src/time.ts:128-130 | the head of a filtered array is the first accepted element of the input |
| `JsArray.FilterLast` | src/time.ts:139-141 | the last element of a filtered array is the last accepted element of the input |
| `JsArray.FilterPartition` | src/time.ts:121-137 | three filters whose tests split the input keep every element exactly once |
| `JsArray.At` | src/time.ts:128-141 | `at(i)` counts from the front for i >= 0 and from the back for i < 0, and gives undefined when out of range |
| `FluentChain.DefaultsTable` | src/time.ts:16-30 | the defaults are the clock reading, (0, 0), timezone 0, MWL, Maghrib offset 0 and Asr factor One |
| `FluentChain.ConfigRoundTrip` | src/time.ts:89-98 | rebuilding any class from the `config` getter reproduces the settings, whatever the clock reads |
| `FluentChain.NewIgnoresClock` | src/time.ts:16-24 | once a config carries a date, the constructor's wall-clock reading has no effect |
| `FluentChain.Apply` | src/time.ts:54-87 | a setter keeps the class and date, writes its own field, and leaves every other field unchanged |
| `FluentChain.ReadingsDetermine` | src/time.ts:15-21 | settings are determined by their date and their five settable fields |
| `FluentChain.ChainSettings` | src/time.ts:54-87 | after any setter chain, each field holds its last write (or its old value), and the class and date are unchanged |
| `FluentChain.ChainOrderIrrelevant` | src/time.ts:54-87 | two chains with the same last write per field give the same instance, whatever the order of the calls |
| `FluentChain.SettersCommute` | src/time.ts:54-87 | setters of different fields commute |
| `FluentChain.LastWriteWins` | src/time.ts:54-87 | a second write to the same field overrides the first |
| `FluentChain.OfCommutesWithChain` | src/time.ts:107-109 | applying setters and then `Of` gives the same result as applying `Of` and then the setters |
| `FluentChain.EntryPointsAgree` | spec/time.test.ts:70-75 | `Fajr.For(d)` plus setters equals `Time.For(d)` plus the same setters plus `.Of(Fajr)`, for every prayer class |
| `Selection.Ties` | src/time.ts:121-137 | collects exactly the prayers of All that fall on the configured instant |
| `Selection.RemainingPastDisjoint` | src/time.ts:121-137 | no prayer is both remaining and past |
| `Selection.TiesInNeither` | src/time.ts:121-137 | a prayer whose time of day equals the configured instant's is in neither list |
| `Selection.SplitAll` | src/time.ts:121-137 | every prayer is remaining, past or tied, and the three lists' lengths add up to five |
| `Selection.UpcomingHeadsRemaining` | src/time.ts:128-130 | Upcoming is absent iff Remaining is empty, and otherwise is its first element |
| `Selection.PreviousEndsPast` | src/time.ts:139-141 | Previous is absent iff Past is empty, and otherwise is its last element |
| `Selection.UpcomingIsEarliest` | src/time.ts:121-130 | Upcoming is the first prayer in canonical order that is still to come; every earlier prayer is not |
| `Selection.PreviousIsLatest` | src/time.ts:132-141 | Previous is the last prayer in canonical order that has passed; every later prayer has not |
| `Formulas.FajrAngleTable` | src/time.ts:156-172 | Fajr angles: ISNA 15, EGYPT 19.5, MAKKAH 18.5, KARACHI 18, TEHRAN 17.7; MWL and any other token 18 |
| `Formulas.IshaAngleTable` | src/time.ts:218-232 | Isha angles: ISNA 15, EGYPT 17.5, KARACHI 18, TEHRAN 14; MWL, MAKKAH and any other token 17 |
| `Formulas.AliasesSelectSameAngles` | src/concepts.ts:1-14 | a long-form alias selects the same Fajr and Isha angles as its short token |
| `Formulas.DhuhrIsNoon` | src/time.ts:175-181 | Dhuhr = noon + timezone/60, independent of the method |
| `Formulas.FajrFromDhuhr` | src/time.ts:144-153 | Fajr = Dhuhr - HourAt(Fajr angle)/15 |
| `Formulas.AsrFromDhuhr` | src/time.ts:183-190 | Asr = Dhuhr + AtShadow(factor)/15 |
| `Formulas.IshaFromDhuhr` | src/time.ts:201-215 | under MAKKAH, Isha = Dhuhr + 1.5 hours, whatever the angle table; otherwise Isha = Dhuhr + HourAt(Isha angle)/15 |
| `Formulas.MaghribOffsetShifts` | src/time.ts:192-199 | with offset 0, Maghrib = sunset + timezone/60; an offset of m minutes moves it by exactly m/60 hours |
| `Formulas.TimezoneShiftsAll` | src/time.ts:144-215 | changing the timezone moves every prayer by the same (new - old)/60 hours |
| `Formulas.UnknownMethodIsMwl` | src/time.ts:156-172 | a token outside the six canonical ones gives MWL's time for every prayer |
| `Formulas.SettingsReachOnlyTheirPrayers` | src/time.ts:144-215 | the method affects only Fajr and Isha; the Maghrib offset only Maghrib; the Asr factor only Asr |
| `Formulas.AsrFactorDelays` | src/time.ts:183-190 | factor 2 makes Asr later than factor 1 exactly when the sundial's shadow hour angle is larger for 2 |
| `Formulas.MakkahIshaPrecedesMaghrib` | src/time.ts:203-207 | under MAKKAH with a Maghrib offset of zero or more, Isha falls before Maghrib whenever sunset is more than 90 minutes after noon |

## Left out

- The `@duesabati/sundial` astronomy (`Sun.Times`, `Sun.Angle.HourAt`, `Sun.Angle.AtShadow`): foreign computation. It is modelled as the uninterpreted functions of `Sundial`, so nothing is proved about actual solar positions. This includes the claim that factor 2 always delays Asr. `Formulas.AsrFactorDelays` reduces that claim to the sundial.
- `FormattedHours.FromDecimal`, its `.Clock` string and its `.Milliseconds` rounding: an external formatter working in floating point. Milliseconds of day are an uninterpreted `real -> int`.
- Floating-point arithmetic: decimal hours, minutes and coordinates are exact reals.
- NaN and invalid dates: in JavaScript a NaN decimal hour or an invalid `Date` makes both strict comparisons of `Remaining` and `Past` false. Such a prayer lands in neither list, although it is not a tie. Milliseconds and instants are integers here, so they never take that value, and `Selection.SplitAll`'s count of five relies on that.
- Aliasing: the constructor keeps the caller's `Date` object and `[lat, lon]` array by reference (src/time.ts:24-25), and the `config` getter (src/time.ts:91-92) hands the same references to every setter result and to all five elements of `All`. Changing that `Date` or array afterwards therefore changes every instance built from it. Instants and locations are values here, so the model does not capture that sharing.
- JavaScript `Date` semantics: the wall clock becomes a `now` parameter. Local midnight under daylight-saving rules becomes `Environment.startOfDay`.
- Passing `undefined` or `null` explicitly to a setter, which `??` would turn back into the default: the TypeScript signatures do not admit it.
- The reference clock values and the Sunrise test in the test file: they depend on the floating-point astronomy of the external library.
- The TypeScript generics and `this.constructor` casts: these are replaced by the explicit `Variant` tag.
