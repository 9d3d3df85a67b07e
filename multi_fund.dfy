/** The investor engine: a fund that buys by month index, the two policies
    that drive it, and an investor that splits one contribution stream between
    a stable and a volatile fund. */
module MultiFund {
  import opened Commission
  import opened Timing
  import opened Accrual

  /** The increments the investor hands to each fund over the first `k` months. */
  datatype Split = Split(stableUnits: real, volatileUnits: real, stableCash: real, volatileCash: real)

  /** The first `k` months of the investor: each month's contribution buys in
      the volatile fund in a month its price fell, in the stable fund otherwise. */
  function Routed(stable: seq<real>, volatile: seq<real>, k: nat): (r: Split)
    requires k <= |stable| && PositivePrices(stable) && PositivePrices(volatile)
    ensures 0.0 <= r.stableUnits && 0.0 <= r.volatileUnits
  {
    if k == 0 then Split(0.0, 0.0, 0.0, 0.0)
    else
      var s := Routed(stable, volatile, k - 1);
      var i := k - 1;
      if i in CheaperMonths(volatile) then
        s.(volatileUnits := s.volatileUnits + Units(MONTHLY_INVESTMENT, volatile[i]),
           volatileCash := s.volatileCash + MONTHLY_INVESTMENT)
      else
        s.(stableUnits := s.stableUnits + Units(MONTHLY_INVESTMENT, stable[i]),
           stableCash := s.stableCash + MONTHLY_INVESTMENT)
  }

  class Fund {
    const priceHistory: seq<real>
    var assets: real

    ghost predicate Valid()
      reads this
    {
      ValidSeries(priceHistory) && 0.0 <= assets
    }

    constructor (priceHistory: seq<real>)
      requires ValidSeries(priceHistory)
      ensures Valid()
      ensures this.priceHistory == priceHistory && assets == 0.0
    {
      this.priceHistory := priceHistory;
      assets := 0.0;
    }

    /** Buy with `investment` at the price of month `monthIdx`, net of the
        commission of the investment's tier. */
    method BuyAssets(investment: real, monthIdx: nat)
      requires Valid()
      requires 0.0 <= investment && monthIdx < |priceHistory|
      modifies this
      ensures Valid()
      ensures assets == old(assets) + Units(investment, priceHistory[monthIdx])
      ensures assets >= old(assets)
    {
      var commissionRate := ScheduleRate(investment);
      var commission := investment * commissionRate;
      var net := investment - commission;
      var price := priceHistory[monthIdx];
      var bought := net / price;
      assets := assets + bought;
    }

    /** The accrual loop: contribute every month, buy with all pending cash in
        the months of `investMonths`, let it earn interest otherwise. The
        closing check on the pending cash is the assertion in the body; it
        holds because the last month is a trigger. */
    method InvestOrSave(investMonths: set<int>)
      requires Valid()
      requires |priceHistory| - 1 in investMonths
      modifies this
      ensures Valid()
      ensures assets == old(assets) + Run(priceHistory, investMonths, |priceHistory|).units
    {
      var historyLength := |priceHistory|;
      var investment := 0.0;
      var i := 0;
      while i < historyLength
        invariant 0 <= i <= historyLength
        invariant Valid()
        invariant Accrued(investment, assets - old(assets)) == Run(priceHistory, investMonths, i)
      {
        investment := investment + MONTHLY_INVESTMENT;
        if i in investMonths {
          BuyAssets(investment, i);
          investment := 0.0;
        } else {
          var interest := investment * INTEREST_RATE / MONTHS_IN_YEAR;
          investment := investment + interest;
        }
        i := i + 1;
      }
      PendingClearedIff(priceHistory, investMonths);
      assert investment == 0.0;
    }

    /** Buy every `periodLength` months and in the last month. */
    method InvestPeriodically(periodLength: int)
      requires Valid()
      requires periodLength != 0
      modifies this
      ensures Valid()
      ensures assets == old(assets)
        + Run(priceHistory, PeriodicTriggers(|priceHistory|, periodLength), |priceHistory|).units
    {
      var historyLength := |priceHistory|;
      var investMonths := PeriodicTriggers(historyLength, periodLength);
      InvestOrSave(investMonths);
    }

    /** Buy in the months the price fell, and in the first and the last month. */
    method InvestIfCheaper()
      requires Valid()
      modifies this
      ensures Valid()
      ensures assets == old(assets) + Run(priceHistory, CheaperTriggers(priceHistory), |priceHistory|).units
    {
      var investMonths := CheaperTriggers(priceHistory);
      InvestOrSave(investMonths);
    }

    /** The holdings valued at the last price of the series, and the profit
        rate on the contributions of the whole horizon. */
    function Estimate(): (e: Valuation)
      reads this
      requires Valid()
      ensures e.value == assets * priceHistory[|priceHistory| - 1]
      ensures 0.0 <= e.value
      ensures e.profitRate * Invested(|priceHistory|) == e.value - Invested(|priceHistory|)
      ensures -1.0 <= e.profitRate
    {
      var lastPrice := priceHistory[|priceHistory| - 1];
      var value := assets * lastPrice;
      var investments := Invested(|priceHistory|);
      var profit := value - investments;
      Valuation(value, profit / investments)
    }
  }

  class Investor {
    const stableFund: Fund
    const volatileFund: Fund

    ghost predicate Valid()
      reads this, stableFund, volatileFund
    {
      stableFund != volatileFund && stableFund.Valid() && volatileFund.Valid()
    }

    constructor (stableFund: Fund, volatileFund: Fund)
      ensures this.stableFund == stableFund && this.volatileFund == volatileFund
    {
      this.stableFund := stableFund;
      this.volatileFund := volatileFund;
    }

    /** Each month put the whole contribution into the volatile fund if its
        price fell that month, into the stable fund otherwise. */
    method Invest()
      requires Valid()
      modifies stableFund, volatileFund
      ensures Valid()
      ensures stableFund.assets == old(stableFund.assets)
        + Routed(stableFund.priceHistory, volatileFund.priceHistory, |stableFund.priceHistory|).stableUnits
      ensures volatileFund.assets == old(volatileFund.assets)
        + Routed(stableFund.priceHistory, volatileFund.priceHistory, |stableFund.priceHistory|).volatileUnits
    {
      var historyLength := |stableFund.priceHistory|;
      var cheaperMonths := CheaperMonths(volatileFund.priceHistory);
      var i := 0;
      while i < historyLength
        invariant 0 <= i <= historyLength
        invariant Valid()
        invariant stableFund.assets == old(stableFund.assets)
          + Routed(stableFund.priceHistory, volatileFund.priceHistory, i).stableUnits
        invariant volatileFund.assets == old(volatileFund.assets)
          + Routed(stableFund.priceHistory, volatileFund.priceHistory, i).volatileUnits
      {
        if i in cheaperMonths {
          volatileFund.BuyAssets(MONTHLY_INVESTMENT, i);
        } else {
          stableFund.BuyAssets(MONTHLY_INVESTMENT, i);
        }
        i := i + 1;
      }
    }

    /** The two funds' values added up, and the profit rate on the stable
        horizon's contributions. */
    function Estimate(): (e: Valuation)
      reads this, stableFund, volatileFund
      requires Valid()
      ensures e.value == stableFund.Estimate().value + volatileFund.Estimate().value
      ensures e.profitRate * Invested(|stableFund.priceHistory|) == e.value - Invested(|stableFund.priceHistory|)
    {
      var value := stableFund.Estimate().value + volatileFund.Estimate().value;
      var investments := Invested(|stableFund.priceHistory|);
      var profit := value - investments;
      Valuation(value, profit / investments)
    }
  }

  /** Each month exactly one fund receives exactly one contribution. */
  lemma {:induction false} RoutedCashConserved(stable: seq<real>, volatile: seq<real>, k: nat)
    requires k <= |stable| && PositivePrices(stable) && PositivePrices(volatile)
    ensures Routed(stable, volatile, k).stableCash + Routed(stable, volatile, k).volatileCash
         == MONTHLY_INVESTMENT * k as real
  {
    if k > 0 {
      RoutedCashConserved(stable, volatile, k - 1);
    }
  }

  /** The months among the first `k` in which the volatile price fell. */
  function DipsBefore(volatile: seq<real>, k: nat): (r: set<int>)
    ensures forall i :: i in r <==> 0 <= i < k && i in CheaperMonths(volatile)
  {
    set i | 0 <= i < k && i in CheaperMonths(volatile)
  }

  /** The volatile fund receives one contribution for each dip month so far,
      and the stable fund one for every other month. */
  lemma {:induction false} RoutedCashByDips(stable: seq<real>, volatile: seq<real>, k: nat)
    requires k <= |stable| && PositivePrices(stable) && PositivePrices(volatile)
    ensures Routed(stable, volatile, k).volatileCash == MONTHLY_INVESTMENT * |DipsBefore(volatile, k)| as real
    ensures Routed(stable, volatile, k).stableCash
         == MONTHLY_INVESTMENT * (k - |DipsBefore(volatile, k)|) as real
  {
    if k > 0 {
      RoutedCashByDips(stable, volatile, k - 1);
      var before := DipsBefore(volatile, k - 1);
      assert k - 1 !in before;
      if k - 1 in CheaperMonths(volatile) {
        assert DipsBefore(volatile, k) == before + {k - 1};
      } else {
        assert DipsBefore(volatile, k) == before;
      }
    }
  }

  /** The first month never goes to the volatile fund. */
  lemma FirstMonthIsStable(stable: seq<real>, volatile: seq<real>)
    requires 1 <= |stable| && PositivePrices(stable) && PositivePrices(volatile)
    ensures Routed(stable, volatile, 1)
         == Split(Units(MONTHLY_INVESTMENT, stable[0]), 0.0, MONTHLY_INVESTMENT, 0.0)
  {
  }

  /** If the volatile price never falls, the volatile fund buys nothing and the
      stable fund buys with every contribution, exactly as period one would. */
  lemma {:induction false} NoDipsAllStable(stable: seq<real>, volatile: seq<real>, k: nat)
    requires k <= |stable| && PositivePrices(stable) && PositivePrices(volatile)
    requires NonDecreasing(volatile)
    ensures Routed(stable, volatile, k)
         == Split(EveryMonthUnits(stable, k), 0.0, MONTHLY_INVESTMENT * k as real, 0.0)
  {
    if k > 0 {
      NoDipsAllStable(stable, volatile, k - 1);
      NoCheaperMonthsIffNonDecreasing(volatile);
      assert k - 1 !in CheaperMonths(volatile);
    }
  }

  /** The investor on a volatile series without dips ends with the stable fund
      holding what period-one investing in it would. */
  lemma NoDipsMatchesPeriodOne(stable: seq<real>, volatile: seq<real>)
    requires ValidSeries(stable) && PositivePrices(volatile)
    requires NonDecreasing(volatile)
    ensures Routed(stable, volatile, |stable|).stableUnits
         == Run(stable, PeriodicTriggers(|stable|, 1), |stable|).units
    ensures Routed(stable, volatile, |stable|).volatileUnits == 0.0
  {
    NoDipsAllStable(stable, volatile, |stable|);
    PeriodOneIsEveryMonth(stable);
  }
}
