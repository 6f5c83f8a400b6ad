/**
 * The prayer-time configuration and selection model of src/time.ts.
 *
 * A `Time` is a value pairing a variant tag (which of the classes
 * `Time`, `Fajr`, `Dhuhr`, `Asr`, `Maghrib`, `Isha` the instance belongs
 * to) and its six resolved settings. Every fluent call builds a new value.
 * The astronomy and the clock formatting are outside collaborators and
 * enter as the uninterpreted functions of `Sundial` and `Environment`.
 */
module PrayerTime {
  import opened Wrappers
  import opened Concepts
  import JsArray

  /** A JavaScript `Date`, as its `getTime()`: milliseconds since the epoch. */
  type Instant = int

  /** A `[latitude, longitude]` pair in degrees; this layer does not range-check it. */
  datatype Location = Location(latitude: real, longitude: real)

  /** The six fields of an instance, every one resolved. */
  datatype Settings = Settings(
    date: Instant,
    location: Location,
    timezone: real,       // minutes east of UTC
    calcMethod: Method,
    maghribOffset: real,  // minutes added to Maghrib
    asrFactor: AsrFactor)

  /** The constructor's `Config` argument: every field may be absent. */
  datatype Config = Config(
    date: Option<Instant>,
    location: Option<Location>,
    timezone: Option<real>,
    calcMethod: Option<Method>,
    maghribOffset: Option<real>,
    asrFactor: Option<AsrFactor>)

  /** `{}`, the constructor's default argument. */
  const Blank: Config := Config(None, None, None, None, None, None)

  /** The field initialisers; `now` is the wall-clock reading of `new Date()`. */
  function Defaults(now: Instant): (s: Settings)
    ensures s.date == now && s.location == Location(0.0, 0.0) && s.timezone == 0.0
    ensures s.calcMethod == MWL && s.maghribOffset == 0.0 && s.asrFactor == One
  {
    Settings(now, Location(0.0, 0.0), 0.0, MWL, 0.0, One)
  }

  /** Which class an instance belongs to: the generic `Time` or one prayer. */
  datatype Variant = Generic | Fajr | Dhuhr | Asr | Maghrib | Isha

  /** Position of a prayer in the canonical order of `All`. */
  function Rank(v: Variant): (k: nat)
    requires v != Generic
    ensures k < 5
  {
    match v
    case Fajr => 0
    case Dhuhr => 1
    case Asr => 2
    case Maghrib => 3
    case Isha => 4
  }

  /**
   * The external `@duesabati/sundial` library, as uninterpreted functions:
   * `Sun.Times.On(date).At(lat, lon)` gives `noon` and `sunset` in decimal
   * hours; `Sun.Angle.On(date, [lat])` gives `hourAt(angle)` and
   * `atShadow(factor)`, both hour angles in degrees.
   */
  datatype Sundial = Sundial(
    noon: (Instant, Location) -> real,
    sunset: (Instant, Location) -> real,
    hourAt: (Instant, real, real) -> real,
    atShadow: (Instant, real, int) -> real)

  /**
   * What the selectors need from outside: the sundial,
   * `FormattedHours.FromDecimal(h).Milliseconds`, and the local midnight
   * that `new Date(d).setHours(0, 0, 0, 0)` computes for an instant.
   */
  datatype Environment = Environment(
    sun: Sundial,
    milliseconds: real -> int,
    startOfDay: Instant -> Instant)

  /**
   * The constructor: a field present in `c` is kept, an absent one takes
   * its initialiser's value. `now` is the clock reading used for an absent date.
   */
  function New(v: Variant, c: Config, now: Instant): (t: Time)
    ensures t.variant == v
    ensures c.date.Some? ==> t.settings.date == c.date.value
    ensures c.date.None? ==> t.settings.date == now
    ensures c.location.Some? ==> t.settings.location == c.location.value
    ensures c.location.None? ==> t.settings.location == Location(0.0, 0.0)
    ensures c.timezone.Some? ==> t.settings.timezone == c.timezone.value
    ensures c.timezone.None? ==> t.settings.timezone == 0.0
    ensures c.calcMethod.Some? ==> t.settings.calcMethod == c.calcMethod.value
    ensures c.calcMethod.None? ==> t.settings.calcMethod == MWL
    ensures c.maghribOffset.Some? ==> t.settings.maghribOffset == c.maghribOffset.value
    ensures c.maghribOffset.None? ==> t.settings.maghribOffset == 0.0
    ensures c.asrFactor.Some? ==> t.settings.asrFactor == c.asrFactor.value
    ensures c.asrFactor.None? ==> t.settings.asrFactor == One
  {
    var d := Defaults(now);
    Time(v, Settings(
      c.date.GetOr(d.date),
      c.location.GetOr(d.location),
      c.timezone.GetOr(d.timezone),
      c.calcMethod.GetOr(d.calcMethod),
      c.maghribOffset.GetOr(d.maghribOffset),
      c.asrFactor.GetOr(d.asrFactor)))
  }

  /** Static `For`: a chain started from a date; the clock reading is overridden. */
  function For(v: Variant, date: Instant): (t: Time)
    ensures t == Time(v, Settings(date, Location(0.0, 0.0), 0.0, MWL, 0.0, One))
  {
    New(v, Blank.(date := Some(date)), date)
  }

  /** Static `At`: a chain started from a location, dated `now`. */
  function At(v: Variant, location: Location, now: Instant): (t: Time)
    ensures t == Time(v, Settings(now, location, 0.0, MWL, 0.0, One))
  {
    New(v, Blank.(location := Some(location)), now)
  }

  /** Static `InTimezone`: a chain started from a timezone offset, dated `now`. */
  function InTimezone(v: Variant, timezone: real, now: Instant): (t: Time)
    ensures t == Time(v, Settings(now, Location(0.0, 0.0), timezone, MWL, 0.0, One))
  {
    New(v, Blank.(timezone := Some(timezone)), now)
  }

  /** Static `Using`: a chain started from a method, dated `now`. */
  function Using(v: Variant, calcMethod: Method, now: Instant): (t: Time)
    ensures t == Time(v, Settings(now, Location(0.0, 0.0), 0.0, calcMethod, 0.0, One))
  {
    New(v, Blank.(calcMethod := Some(calcMethod)), now)
  }

  /** Fajr's `ChosenAngle`: twilight depression in degrees by method; MWL and unknown tokens give 18. */
  function FajrChosenAngle(calcMethod: Method): (r: real)
    ensures 15.0 <= r <= 19.5
    ensures calcMethod !in Tokens ==> r == 18.0
  {
    if calcMethod == ISNA then 15.0
    else if calcMethod == EGYPT then 19.5
    else if calcMethod == MAKKAH then 18.5
    else if calcMethod == KARACHI then 18.0
    else if calcMethod == TEHRAN then 17.7
    else 18.0
  }

  /** Isha's `ChosenAngle`: MWL, MAKKAH and unknown tokens give 17. */
  function IshaChosenAngle(calcMethod: Method): (r: real)
    ensures 14.0 <= r <= 18.0
    ensures calcMethod !in Tokens || calcMethod == MAKKAH ==> r == 17.0
  {
    if calcMethod == ISNA then 15.0
    else if calcMethod == EGYPT then 17.5
    else if calcMethod == KARACHI then 18.0
    else if calcMethod == TEHRAN then 14.0
    else 17.0
  }

  /** An instance of one of the five prayer classes: what `All` holds. */
  type Prayer = t: Time | t.variant != Generic
    witness Time(Fajr, Settings(0, Location(0.0, 0.0), 0.0, MWL, 0.0, One))

  datatype Time = Time(variant: Variant, settings: Settings) {

    /** The `config` getter: every field present. */
    function AsConfig(): (c: Config)
      ensures forall now :: New(variant, c, now) == this
    {
      Config(
        Some(settings.date), Some(settings.location), Some(settings.timezone),
        Some(settings.calcMethod), Some(settings.maghribOffset), Some(settings.asrFactor))
    }

    // The instance setters rebuild the same class from `{...this.config, field}`.
    // That spread always carries a date, so the constructor's own clock
    // reading is overridden; `settings.date` is passed in its place
    // (see `NewIgnoresClock`).

    function At(location: Location): (r: Time)
      ensures r == Time(variant, settings.(location := location))
    {
      New(variant, AsConfig().(location := Some(location)), settings.date)
    }

    function InTimezone(timezone: real): (r: Time)
      ensures r == Time(variant, settings.(timezone := timezone))
    {
      New(variant, AsConfig().(timezone := Some(timezone)), settings.date)
    }

    function Using(calcMethod: Method): (r: Time)
      ensures r == Time(variant, settings.(calcMethod := calcMethod))
    {
      New(variant, AsConfig().(calcMethod := Some(calcMethod)), settings.date)
    }

    function MaghribOffsetBy(minutes: real): (r: Time)
      ensures r == Time(variant, settings.(maghribOffset := minutes))
    {
      New(variant, AsConfig().(maghribOffset := Some(minutes)), settings.date)
    }

    function WithAsrFactor(ratio: AsrFactor): (r: Time)
      ensures r == Time(variant, settings.(asrFactor := ratio))
    {
      New(variant, AsConfig().(asrFactor := Some(ratio)), settings.date)
    }

    /** `Of(prayer)`: the class `prayer` built from this instance's config. */
    function Of(prayer: Variant): (r: Time)
      ensures r == Time(prayer, settings)
    {
      New(prayer, AsConfig(), settings.date)
    }

    /** `All`: the five prayers, in canonical order, from one config snapshot. */
    function All(): (r: seq<Prayer>)
      ensures |r| == 5
      ensures forall i :: 0 <= i < 5 ==> Rank(r[i].variant) == i && r[i].settings == settings
    {
      var c := AsConfig();
      [New(Fajr, c, settings.date), New(Dhuhr, c, settings.date), New(Asr, c, settings.date),
       New(Maghrib, c, settings.date), New(Isha, c, settings.date)]
    }

    /**
     * The `Time` getter of the five prayer classes, in decimal hours before
     * formatting (it may fall outside [0, 24)).
     */
    function Hours(sun: Sundial): real
      requires variant != Generic
    {
      var noon := sun.noon(settings.date, settings.location);
      var latitude := settings.location.latitude;
      var zone := settings.timezone / 60.0;
      match variant
      case Fajr =>
        noon - sun.hourAt(settings.date, latitude, FajrChosenAngle(settings.calcMethod)) / 15.0 + zone
      case Dhuhr =>
        noon + zone
      case Asr =>
        noon + sun.atShadow(settings.date, latitude, settings.asrFactor.Value()) / 15.0 + zone
      case Maghrib =>
        sun.sunset(settings.date, settings.location) + zone + settings.maghribOffset / 60.0
      case Isha =>
        if settings.calcMethod == MAKKAH then noon + zone + 90.0 / 60.0
        else noon + zone + sun.hourAt(settings.date, latitude, IshaChosenAngle(settings.calcMethod)) / 15.0
    }

    /** `prayer.Time.Milliseconds`: this prayer's time of day in milliseconds, as the formatter rounds it. */
    function Milliseconds(env: Environment): int
      requires variant != Generic
    {
      env.milliseconds(Hours(env.sun))
    }

    /** The `Remaining` filter's test: `p`, placed on the configured day, is after the configured instant. */
    predicate IsRemaining(p: Prayer, env: Environment)
      ensures IsRemaining(p, env) <==> p.Milliseconds(env) > settings.date - env.startOfDay(settings.date)
    {
      env.startOfDay(settings.date) + p.Milliseconds(env) > settings.date
    }

    /** The `Past` filter's test: `p`, placed on the configured day, is before the configured instant. */
    predicate IsPast(p: Prayer, env: Environment)
      ensures IsPast(p, env) <==> p.Milliseconds(env) < settings.date - env.startOfDay(settings.date)
      ensures IsPast(p, env) ==> !IsRemaining(p, env)
    {
      env.startOfDay(settings.date) + p.Milliseconds(env) < settings.date
    }

    /** Neither filter's test: `p`, placed on the configured day, falls exactly on the configured instant. */
    predicate IsTie(p: Prayer, env: Environment)
      ensures IsTie(p, env) <==> p.Milliseconds(env) == settings.date - env.startOfDay(settings.date)
      ensures IsTie(p, env) <==> !IsRemaining(p, env) && !IsPast(p, env)
    {
      env.startOfDay(settings.date) + p.Milliseconds(env) == settings.date
    }

    /** `Remaining`: the prayers of `All` still to come after the configured instant, in order. */
    function Remaining(env: Environment): (r: seq<Prayer>)
      ensures JsArray.IsSubsequence(r, All())
      ensures forall p :: p in r <==> p in All() && IsRemaining(p, env)
    {
      var keep := (p: Prayer) => IsRemaining(p, env);
      JsArray.FilterIsSubsequence(All(), keep);
      JsArray.Filter(All(), keep)
    }

    /** `Past`: the prayers of `All` already gone by at the configured instant, in order. */
    function Past(env: Environment): (r: seq<Prayer>)
      ensures JsArray.IsSubsequence(r, All())
      ensures forall p :: p in r <==> p in All() && IsPast(p, env)
    {
      var keep := (p: Prayer) => IsPast(p, env);
      JsArray.FilterIsSubsequence(All(), keep);
      JsArray.Filter(All(), keep)
    }

    /** `Upcoming`: `Remaining.at(0)`; absent exactly when no prayer remains. */
    function Upcoming(env: Environment): (r: Option<Prayer>)
      ensures r.None? <==> forall i :: 0 <= i < 5 ==> !IsRemaining(All()[i], env)
      ensures r.Some? ==> r.value in All() && IsRemaining(r.value, env)
    {
      JsArray.FilterEmpty(All(), (p: Prayer) => IsRemaining(p, env));
      JsArray.At(Remaining(env), 0)
    }

    /** `Previous`: `Past.at(-1)`; absent exactly when no prayer has passed. */
    function Previous(env: Environment): (r: Option<Prayer>)
      ensures r.None? <==> forall i :: 0 <= i < 5 ==> !IsPast(All()[i], env)
      ensures r.Some? ==> r.value in All() && IsPast(r.value, env)
    {
      JsArray.FilterEmpty(All(), (p: Prayer) => IsPast(p, env));
      JsArray.At(Past(env), -1)
    }
  }
}
