/**
 * Properties of the configuration record and its fluent setters
 * (src/time.ts:15-109): defaults, the constructor/`config` round trip,
 * frame conditions, and the behaviour of whole setter chains.
 */
module FluentChain {
  import opened Wrappers
  import opened Concepts
  import opened PrayerTime

  /** The constructor's absent fields all take their defaults. */
  lemma DefaultsTable(v: Variant, now: Instant)
    ensures New(v, Blank, now) == Time(v, Defaults(now))
    ensures Defaults(now).location == Location(0.0, 0.0) && Defaults(now).timezone == 0.0
    ensures Defaults(now).calcMethod == MWL && Defaults(now).maghribOffset == 0.0
    ensures Defaults(now).asrFactor == One && Defaults(now).asrFactor.Value() == 1
  {
  }

  /** Rebuilding from the `config` getter reproduces the instance, whatever the clock says. */
  lemma ConfigRoundTrip(t: Time, v: Variant, now: Instant)
    ensures New(v, t.AsConfig(), now) == Time(v, t.settings)
    ensures New(t.variant, t.AsConfig(), now) == t
  {
  }

  /** Once a config carries a date, the constructor's clock reading is irrelevant. */
  lemma NewIgnoresClock(v: Variant, c: Config, now1: Instant, now2: Instant)
    requires c.date.Some?
    ensures New(v, c, now1) == New(v, c, now2)
  {
  }

  /** One instance-setter call of a fluent chain. */
  datatype Setter =
    | SetLocation(location: Location)
    | SetTimezone(timezone: real)
    | SetMethod(calcMethod: Method)
    | SetMaghribOffset(minutes: real)
    | SetAsrFactor(ratio: AsrFactor)

  /** The settings field a setter writes; there is no instance setter for the date. */
  datatype Field = LocationField | TimezoneField | MethodField | MaghribOffsetField | AsrFactorField

  function FieldOf(s: Setter): Field {
    match s
    case SetLocation(_) => LocationField
    case SetTimezone(_) => TimezoneField
    case SetMethod(_) => MethodField
    case SetMaghribOffset(_) => MaghribOffsetField
    case SetAsrFactor(_) => AsrFactorField
  }

  /** The setter call that would write field `f` of `s` with the value it already has. */
  function Reading(s: Settings, f: Field): (r: Setter)
    ensures FieldOf(r) == f
  {
    match f
    case LocationField => SetLocation(s.location)
    case TimezoneField => SetTimezone(s.timezone)
    case MethodField => SetMethod(s.calcMethod)
    case MaghribOffsetField => SetMaghribOffset(s.maghribOffset)
    case AsrFactorField => SetAsrFactor(s.asrFactor)
  }

  /** Calls the instance setter `s` on `t`. */
  function Apply(t: Time, s: Setter): (r: Time)
    ensures r.variant == t.variant && r.settings.date == t.settings.date
    ensures Reading(r.settings, FieldOf(s)) == s
    ensures forall f :: f != FieldOf(s) ==> Reading(r.settings, f) == Reading(t.settings, f)
  {
    match s
    case SetLocation(l) => t.At(l)
    case SetTimezone(z) => t.InTimezone(z)
    case SetMethod(m) => t.Using(m)
    case SetMaghribOffset(m) => t.MaghribOffsetBy(m)
    case SetAsrFactor(a) => t.WithAsrFactor(a)
  }

  /** `t.s0(...).s1(...)...`: the setters of `ss` called left to right. */
  function Chain(t: Time, ss: seq<Setter>): Time
    decreases |ss|
  {
    if ss == [] then t else Chain(Apply(t, ss[0]), ss[1..])
  }

  /** The last setter in `ss` that writes field `f`, if any. */
  function LastFor(ss: seq<Setter>, f: Field): (r: Option<Setter>)
    ensures r.Some? ==> r.value in ss && FieldOf(r.value) == f
    ensures r.None? ==> forall s :: s in ss ==> FieldOf(s) != f
    decreases |ss|
  {
    if ss == [] then None
    else
      assert ss == [ss[0]] + ss[1..];
      match LastFor(ss[1..], f)
      case Some(s) => Some(s)
      case None => if FieldOf(ss[0]) == f then Some(ss[0]) else None
  }

  /** Two settings records with the same date and the same value in every settable field are equal. */
  lemma ReadingsDetermine(a: Settings, b: Settings)
    requires a.date == b.date
    requires forall f :: Reading(a, f) == Reading(b, f)
    ensures a == b
  {
    assert Reading(a, LocationField) == Reading(b, LocationField);
    assert Reading(a, TimezoneField) == Reading(b, TimezoneField);
    assert Reading(a, MethodField) == Reading(b, MethodField);
    assert Reading(a, MaghribOffsetField) == Reading(b, MaghribOffsetField);
    assert Reading(a, AsrFactorField) == Reading(b, AsrFactorField);
  }

  /**
   * After a chain, every field holds what the last setter of that field
   * wrote, or its old value if none wrote it; the class and the date never
   * change.
   */
  lemma {:induction false} ChainSettings(t: Time, ss: seq<Setter>, f: Field)
    ensures Chain(t, ss).variant == t.variant
    ensures Chain(t, ss).settings.date == t.settings.date
    ensures Reading(Chain(t, ss).settings, f) == LastFor(ss, f).GetOr(Reading(t.settings, f))
    decreases |ss|
  {
    if ss != [] {
      ChainSettings(Apply(t, ss[0]), ss[1..], f);
    }
  }

  /**
   * No setter depends on another having been called first: two chains that
   * leave the same last write in every field give the same instance.
   */
  lemma ChainOrderIrrelevant(t: Time, ss1: seq<Setter>, ss2: seq<Setter>)
    requires forall f :: LastFor(ss1, f) == LastFor(ss2, f)
    ensures Chain(t, ss1) == Chain(t, ss2)
  {
    ChainSettings(t, ss1, LocationField);
    ChainSettings(t, ss2, LocationField);
    forall f ensures Reading(Chain(t, ss1).settings, f) == Reading(Chain(t, ss2).settings, f) {
      ChainSettings(t, ss1, f);
      ChainSettings(t, ss2, f);
    }
    ReadingsDetermine(Chain(t, ss1).settings, Chain(t, ss2).settings);
  }

  /** Setters of different fields commute. */
  lemma SettersCommute(t: Time, a: Setter, b: Setter)
    requires FieldOf(a) != FieldOf(b)
    ensures Apply(Apply(t, a), b) == Apply(Apply(t, b), a)
  {
  }

  /** A second write to the same field overrides the first. */
  lemma LastWriteWins(t: Time, a: Setter, b: Setter)
    requires FieldOf(a) == FieldOf(b)
    ensures Apply(Apply(t, a), b) == Apply(t, b)
  {
  }

  /** Re-tagging with `Of` commutes with any chain of setters. */
  lemma {:induction false} OfCommutesWithChain(t: Time, ss: seq<Setter>, v: Variant)
    ensures Chain(t, ss).Of(v) == Chain(t.Of(v), ss)
    decreases |ss|
  {
    if ss != [] {
      OfCommutesWithChain(Apply(t, ss[0]), ss[1..], v);
      assert Apply(t, ss[0]).Of(v) == Apply(t.Of(v), ss[0]);
    }
  }

  /**
   * Starting a chain at a prayer class (`Fajr.For(d)...`) and starting it at
   * the generic class and finishing with `Of` (`Time.For(d)....Of(Fajr)`)
   * give the same instance.
   */
  lemma EntryPointsAgree(v: Variant, date: Instant, ss: seq<Setter>)
    ensures Chain(For(v, date), ss) == Chain(For(Generic, date), ss).Of(v)
  {
    OfCommutesWithChain(For(Generic, date), ss, v);
  }
}
