/**
 * Properties of the per-prayer formulas and the method-to-angle tables
 * (src/time.ts:144-233).
 */
module Formulas {
  import opened Concepts
  import opened PrayerTime

  /** The Fajr angle by method, with MWL's 18 degrees for every other token. */
  lemma FajrAngleTable()
    ensures FajrChosenAngle(ISNA) == 15.0 && FajrChosenAngle(EGYPT) == 19.5
    ensures FajrChosenAngle(MAKKAH) == 18.5 && FajrChosenAngle(KARACHI) == 18.0
    ensures FajrChosenAngle(TEHRAN) == 17.7 && FajrChosenAngle(MWL) == 18.0
    ensures forall m :: m !in Tokens ==> FajrChosenAngle(m) == FajrChosenAngle(MWL)
  {
  }

  /** The Isha angle by method, with MWL's 17 degrees for MAKKAH and every other token. */
  lemma IshaAngleTable()
    ensures IshaChosenAngle(ISNA) == 15.0 && IshaChosenAngle(EGYPT) == 17.5
    ensures IshaChosenAngle(KARACHI) == 18.0 && IshaChosenAngle(TEHRAN) == 14.0
    ensures IshaChosenAngle(MWL) == 17.0 && IshaChosenAngle(MAKKAH) == IshaChosenAngle(MWL)
    ensures forall m :: m !in Tokens ==> IshaChosenAngle(m) == IshaChosenAngle(MWL)
  {
  }

  /** A long-form alias selects the same angles as its short token. */
  lemma AliasesSelectSameAngles()
    ensures forall i :: 0 <= i < |Tokens| ==>
      FajrChosenAngle(Aliases[i]) == FajrChosenAngle(Tokens[i]) &&
      IshaChosenAngle(Aliases[i]) == IshaChosenAngle(Tokens[i])
  {
    AliasesAreTokens();
  }

  /** Dhuhr is solar noon shifted into the timezone, whatever the method. */
  lemma DhuhrIsNoon(t: Time, sun: Sundial, m: Method)
    ensures t.Of(Dhuhr).Hours(sun)
      == sun.noon(t.settings.date, t.settings.location) + t.settings.timezone / 60.0
    ensures t.Using(m).Of(Dhuhr).Hours(sun) == t.Of(Dhuhr).Hours(sun)
  {
  }

  /** Fajr precedes Dhuhr by the hour angle of the method's Fajr depression. */
  lemma FajrFromDhuhr(t: Time, sun: Sundial)
    ensures t.Of(Fajr).Hours(sun) == t.Of(Dhuhr).Hours(sun)
      - sun.hourAt(t.settings.date, t.settings.location.latitude,
                   FajrChosenAngle(t.settings.calcMethod)) / 15.0
  {
  }

  /** Asr follows Dhuhr by the hour angle of the configured shadow factor. */
  lemma AsrFromDhuhr(t: Time, sun: Sundial)
    ensures t.Of(Asr).Hours(sun) == t.Of(Dhuhr).Hours(sun)
      + sun.atShadow(t.settings.date, t.settings.location.latitude, t.settings.asrFactor.Value()) / 15.0
  {
  }

  /**
   * Under MAKKAH, Isha is 90 minutes after noon (the code uses noon, not
   * sunset) and ignores the angle table; otherwise it follows Dhuhr by the
   * hour angle of the method's Isha depression.
   */
  lemma IshaFromDhuhr(t: Time, sun: Sundial)
    ensures t.settings.calcMethod == MAKKAH ==>
      t.Of(Isha).Hours(sun) == t.Of(Dhuhr).Hours(sun) + 1.5
    ensures t.settings.calcMethod != MAKKAH ==>
      t.Of(Isha).Hours(sun) == t.Of(Dhuhr).Hours(sun)
        + sun.hourAt(t.settings.date, t.settings.location.latitude,
                     IshaChosenAngle(t.settings.calcMethod)) / 15.0
  {
  }

  /** Maghrib is sunset in the timezone, moved by exactly the offset in minutes. */
  lemma MaghribOffsetShifts(t: Time, sun: Sundial, minutes: real)
    ensures t.MaghribOffsetBy(0.0).Of(Maghrib).Hours(sun)
      == sun.sunset(t.settings.date, t.settings.location) + t.settings.timezone / 60.0
    ensures t.MaghribOffsetBy(minutes).Of(Maghrib).Hours(sun)
      == t.MaghribOffsetBy(0.0).Of(Maghrib).Hours(sun) + minutes / 60.0
  {
  }

  /** Changing the timezone moves every prayer by the same number of hours. */
  lemma TimezoneShiftsAll(t: Time, sun: Sundial, v: Variant, timezone: real)
    requires v != Generic
    ensures t.InTimezone(timezone).Of(v).Hours(sun)
      == t.Of(v).Hours(sun) + (timezone - t.settings.timezone) / 60.0
  {
  }

  /** A token outside the six canonical ones yields MWL's times for every prayer. */
  lemma UnknownMethodIsMwl(t: Time, sun: Sundial, v: Variant, m: Method)
    requires v != Generic && m !in Tokens
    ensures t.Using(m).Of(v).Hours(sun) == t.Using(MWL).Of(v).Hours(sun)
  {
  }

  /**
   * Each setting reaches only its own prayers: the method only Fajr and
   * Isha, the Maghrib offset only Maghrib, the shadow factor only Asr.
   */
  lemma SettingsReachOnlyTheirPrayers(t: Time, sun: Sundial, v: Variant, m: Method, minutes: real, ratio: AsrFactor)
    requires v != Generic
    ensures v != Fajr && v != Isha ==> t.Using(m).Of(v).Hours(sun) == t.Of(v).Hours(sun)
    ensures v != Maghrib ==> t.MaghribOffsetBy(minutes).Of(v).Hours(sun) == t.Of(v).Hours(sun)
    ensures v != Asr ==> t.WithAsrFactor(ratio).Of(v).Hours(sun) == t.Of(v).Hours(sun)
  {
  }

  /** The Hanafi factor 2 makes Asr later exactly when the sundial's shadow hour angle grows. */
  lemma AsrFactorDelays(t: Time, sun: Sundial)
    ensures (t.WithAsrFactor(Two).Of(Asr).Hours(sun) > t.WithAsrFactor(One).Of(Asr).Hours(sun))
        <==> (sun.atShadow(t.settings.date, t.settings.location.latitude, 2)
              > sun.atShadow(t.settings.date, t.settings.location.latitude, 1))
  {
  }

  /**
   * Because the MAKKAH rule counts 90 minutes from noon rather than from
   * sunset, on any day whose sunset is more than 90 minutes after noon the
   * MAKKAH Isha comes before Maghrib whenever the Maghrib offset is zero or
   * more.
   */
  lemma MakkahIshaPrecedesMaghrib(t: Time, sun: Sundial)
    requires t.settings.calcMethod == MAKKAH && t.settings.maghribOffset >= 0.0
    requires sun.sunset(t.settings.date, t.settings.location) > sun.noon(t.settings.date, t.settings.location) + 1.5
    ensures t.Of(Isha).Hours(sun) < t.Of(Maghrib).Hours(sun)
  {
  }
}
