/** The broker's tiered commission schedule and the rule that picks the rate
    for a purchase: the rate of the greatest threshold not above the amount. */
module Commission {

  datatype Option<T> = None | Some(value: T)

  /** One tier: purchases of at least `threshold` pay `rate` of the amount. */
  datatype Tier = Tier(threshold: real, rate: real)

  /** The schedule shared by both investment engines, keyed by threshold. */
  const COMMISSION_RATES: seq<Tier> :=
    [Tier(0.0, 0.014), Tier(500000.0, 0.009), Tier(3000000.0, 0.005)]

  /** A dictionary keyed by threshold never holds the same threshold twice. */
  predicate DistinctThresholds(tiers: seq<Tier>)
  {
    forall i, j :: 0 <= i < j < |tiers| ==> tiers[i].threshold != tiers[j].threshold
  }

  /** Tier `i` exists and its threshold does not exceed `amount`. */
  predicate Applicable(tiers: seq<Tier>, amount: real, i: int)
  {
    0 <= i < |tiers| && tiers[i].threshold <= amount
  }

  /** The index of the tier with the greatest threshold not above `amount`,
      or None when every threshold exceeds it (the lookup then has nothing
      to take a maximum of). */
  function GreatestTier(tiers: seq<Tier>, amount: real): (r: Option<nat>)
    ensures r.None? <==> forall i :: 0 <= i < |tiers| ==> amount < tiers[i].threshold
    ensures r.Some? ==> Applicable(tiers, amount, r.value)
    ensures r.Some? ==>
      forall i :: Applicable(tiers, amount, i) ==> tiers[i].threshold <= tiers[r.value].threshold
  {
    if |tiers| == 0 then None
    else
      var last := |tiers| - 1;
      var front := tiers[..last];
      var rest := GreatestTier(front, amount);
      assert forall i :: 0 <= i < last ==> front[i] == tiers[i];
      if tiers[last].threshold <= amount
         && (rest.None? || tiers[rest.value].threshold <= tiers[last].threshold)
      then Some(last)
      else rest
  }

  /** The rate that applies to `amount`, if any tier applies. */
  function CommissionRate(tiers: seq<Tier>, amount: real): (r: Option<real>)
    ensures r.Some? <==> exists i :: Applicable(tiers, amount, i)
  {
    match GreatestTier(tiers, amount)
    case None => None
    case Some(i) => Some(tiers[i].rate)
  }

  /** With distinct thresholds the rate is determined: whatever tier has the
      greatest applicable threshold, its rate is the one returned. */
  lemma RateOfGreatestTier(tiers: seq<Tier>, amount: real, i: nat)
    requires DistinctThresholds(tiers)
    requires Applicable(tiers, amount, i)
    requires forall j :: Applicable(tiers, amount, j) ==> tiers[j].threshold <= tiers[i].threshold
    ensures CommissionRate(tiers, amount) == Some(tiers[i].rate)
  {
    var k := GreatestTier(tiers, amount).value;
    assert tiers[k].threshold == tiers[i].threshold;
  }

  /** A schedule that holds threshold 0 has a rate for every non-negative amount. */
  lemma ZeroThresholdCoversAll(tiers: seq<Tier>, amount: real, z: nat)
    requires z < |tiers| && tiers[z].threshold == 0.0
    requires 0.0 <= amount
    ensures CommissionRate(tiers, amount).Some?
  {
    assert Applicable(tiers, amount, z);
  }

  /** The schedule's rate written out tier by tier. */
  lemma ScheduleTiers(amount: real)
    requires 0.0 <= amount
    ensures CommissionRate(COMMISSION_RATES, amount)
         == Some(if amount < 500000.0 then 0.014
                 else if amount < 3000000.0 then 0.009
                 else 0.005)
  {
    var t := COMMISSION_RATES;
    assert DistinctThresholds(t);
    var i := if amount < 500000.0 then 0 else if amount < 3000000.0 then 1 else 2;
    assert Applicable(t, amount, i);
    RateOfGreatestTier(t, amount, i);
  }

  /** The commission rate the engines charge on a purchase of `amount`. */
  function ScheduleRate(amount: real): (rate: real)
    requires 0.0 <= amount
    ensures rate == if amount < 500000.0 then 0.014
                    else if amount < 3000000.0 then 0.009
                    else 0.005
    ensures 0.0 < rate < 1.0
  {
    ScheduleTiers(amount);
    CommissionRate(COMMISSION_RATES, amount).value
  }

  /** The engines' rate is the rate the lookup picks from the shipped schedule. */
  lemma ScheduleRateIsLookup(amount: real)
    requires 0.0 <= amount
    ensures CommissionRate(COMMISSION_RATES, amount) == Some(ScheduleRate(amount))
  {
    ScheduleTiers(amount);
  }

  /** Larger purchases never pay a higher rate. */
  lemma ScheduleRateNonIncreasing(a: real, b: real)
    requires 0.0 <= a <= b
    ensures ScheduleRate(b) <= ScheduleRate(a)
  {
  }
}
