/**
 * Properties of the ordering selectors `Remaining`, `Past`, `Upcoming` and
 * `Previous` (src/time.ts:121-141).
 */
module Selection {
  import opened Wrappers
  import opened PrayerTime
  import JsArray

  /** The prayers of `All` that fall exactly on the configured instant. */
  function Ties(t: Time, env: Environment): (r: seq<Prayer>)
    ensures forall p :: p in r <==> p in t.All() && t.IsTie(p, env)
  {
    JsArray.Filter(t.All(), (p: Prayer) => t.IsTie(p, env))
  }

  /** No prayer is both remaining and past. */
  lemma RemainingPastDisjoint(t: Time, env: Environment)
    ensures forall p :: p in t.Remaining(env) ==> p !in t.Past(env)
  {
  }

  /** A prayer whose time equals the configured instant's time of day is in neither list. */
  lemma TiesInNeither(t: Time, env: Environment, p: Prayer)
    requires p in t.All()
    requires p.Milliseconds(env) == t.settings.date - env.startOfDay(t.settings.date)
    ensures p !in t.Remaining(env) && p !in t.Past(env)
  {
  }

  /**
   * Remaining, past and tied prayers split `All`: every prayer lands in
   * exactly one of them, so their lengths add up to five.
   */
  lemma SplitAll(t: Time, env: Environment)
    ensures forall p :: p in t.All() ==>
      p in t.Remaining(env) || p in t.Past(env) || p in Ties(t, env)
    ensures |t.Remaining(env)| + |t.Past(env)| + |Ties(t, env)| == 5
  {
    JsArray.FilterPartition(t.All(),
      (p: Prayer) => t.IsRemaining(p, env),
      (p: Prayer) => t.IsPast(p, env),
      (p: Prayer) => t.IsTie(p, env));
  }

  /** `Upcoming` is absent exactly when `Remaining` is empty, and otherwise is its head. */
  lemma UpcomingHeadsRemaining(t: Time, env: Environment)
    ensures t.Upcoming(env).None? <==> t.Remaining(env) == []
    ensures t.Upcoming(env).Some? ==> t.Upcoming(env).value == t.Remaining(env)[0]
  {
  }

  /** `Previous` is absent exactly when `Past` is empty, and otherwise is its last element. */
  lemma PreviousEndsPast(t: Time, env: Environment)
    ensures t.Previous(env).None? <==> t.Past(env) == []
    ensures t.Previous(env).Some? ==> t.Previous(env).value == t.Past(env)[|t.Past(env)| - 1]
  {
  }

  /** `Upcoming` is the first prayer, in canonical order, that is still to come. */
  lemma UpcomingIsEarliest(t: Time, env: Environment)
    ensures t.Upcoming(env).Some? ==>
      var p := t.Upcoming(env).value;
      t.IsRemaining(p, env) && p == t.All()[Rank(p.variant)] &&
      forall i :: 0 <= i < Rank(p.variant) ==> !t.IsRemaining(t.All()[i], env)
  {
    if t.Upcoming(env).Some? {
      var all, keep := t.All(), (p: Prayer) => t.IsRemaining(p, env);
      var xs := t.Remaining(env);
      assert xs == JsArray.Filter(all, keep);
      var i := JsArray.FilterFirst(all, keep);
      assert t.Upcoming(env).value == xs[0] == all[i];
      assert Rank(all[i].variant) == i;
    }
  }

  /** `Previous` is the last prayer, in canonical order, that has already passed. */
  lemma PreviousIsLatest(t: Time, env: Environment)
    ensures t.Previous(env).Some? ==>
      var p := t.Previous(env).value;
      t.IsPast(p, env) && p == t.All()[Rank(p.variant)] &&
      forall i :: Rank(p.variant) < i < 5 ==> !t.IsPast(t.All()[i], env)
  {
    if t.Previous(env).Some? {
      var all, keep := t.All(), (p: Prayer) => t.IsPast(p, env);
      var xs := t.Past(env);
      assert xs == JsArray.Filter(all, keep);
      var i := JsArray.FilterLast(all, keep);
      var p := t.Previous(env).value;
      assert p == xs[|xs| - 1] == all[i];
      assert Rank(p.variant) == i;
      forall j | i < j < 5 ensures !t.IsPast(all[j], env) {
        assert !keep(all[j]);
      }
    }
  }
}
