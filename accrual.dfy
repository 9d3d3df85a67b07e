/** The accrual engine shared by both investment scripts: each month the fixed
    contribution joins the pending cash, which is either spent on units at a
    trigger month or earns a month's interest. */
module Accrual {
  import opened Commission
  import opened Timing

  const INTEREST_RATE: real := 0.035
  const MONTHLY_INVESTMENT: real := 100000.0
  const MONTHS_IN_YEAR: real := 12.0

  /** Every price of the series is strictly positive. */
  predicate PositivePrices(prices: seq<real>)
  {
    forall i :: 0 <= i < |prices| ==> 0.0 < prices[i]
  }

  /** A price series the engines can run on: at least one month, positive prices. */
  predicate ValidSeries(prices: seq<real>)
  {
    |prices| >= 1 && PositivePrices(prices)
  }

  /** Units bought by spending `investment` at `price`: the commission of the
      amount's tier is deducted first. */
  function Units(investment: real, price: real): (units: real)
    requires 0.0 <= investment && 0.0 < price
    ensures 0.0 <= units
  {
    var commission := investment * ScheduleRate(investment);
    (investment - commission) / price
  }

  /** The units bought are worth, at the purchase price, exactly the amount
      left after commission. */
  lemma UnitsCost(investment: real, price: real)
    requires 0.0 <= investment && 0.0 < price
    ensures Units(investment, price) * price == investment * (1.0 - ScheduleRate(investment))
  {
  }

  /** What a valuation reports: the value of the holdings and the profit rate
      on everything contributed. */
  datatype Valuation = Valuation(value: real, profitRate: real)

  /** Everything contributed over a horizon of `n` months. */
  function Invested(n: nat): (total: real)
    requires n >= 1
    ensures total >= MONTHLY_INVESTMENT
  {
    MONTHLY_INVESTMENT * n as real
  }

  /** The engine's state after some months: pending cash and units bought. */
  datatype Accrued = Accrued(pending: real, units: real)

  /** One month of the loop. */
  function MonthStep(s: Accrued, price: real, buy: bool): (r: Accrued)
    requires 0.0 <= s.pending && 0.0 < price
    ensures buy ==> r == Accrued(0.0, s.units + Units(s.pending + MONTHLY_INVESTMENT, price))
    ensures !buy ==> r.units == s.units
    ensures !buy ==> r.pending == (s.pending + MONTHLY_INVESTMENT) * (1.0 + INTEREST_RATE / MONTHS_IN_YEAR)
    ensures r.pending == 0.0 <==> buy
  {
    var investment := s.pending + MONTHLY_INVESTMENT;
    if buy then
      Accrued(0.0, s.units + Units(investment, price))
    else
      var interest := investment * INTEREST_RATE / MONTHS_IN_YEAR;
      Accrued(investment + interest, s.units)
  }

  /** The state after the first `k` months of a run that buys in `months`. */
  function Run(prices: seq<real>, months: set<int>, k: nat): (r: Accrued)
    requires k <= |prices| && PositivePrices(prices)
    ensures 0.0 <= r.pending && 0.0 <= r.units
  {
    if k == 0 then Accrued(0.0, 0.0)
    else MonthStep(Run(prices, months, k - 1), prices[k - 1], k - 1 in months)
  }

  /** The units bought by spending the whole contribution every month. */
  function EveryMonthUnits(prices: seq<real>, k: nat): (units: real)
    requires k <= |prices| && PositivePrices(prices)
    ensures 0.0 <= units
  {
    if k == 0 then 0.0
    else EveryMonthUnits(prices, k - 1) + Units(MONTHLY_INVESTMENT, prices[k - 1])
  }

  /** The loop's closing check holds exactly when the last month is a trigger. */
  lemma PendingClearedIff(prices: seq<real>, months: set<int>)
    requires ValidSeries(prices)
    ensures Run(prices, months, |prices|).pending == 0.0 <==> |prices| - 1 in months
  {
  }

  /** Both shipped policies leave no pending cash behind. */
  lemma ShippedPoliciesClearPending(prices: seq<real>, period: int)
    requires ValidSeries(prices) && period != 0
    ensures Run(prices, CheaperTriggers(prices), |prices|).pending == 0.0
    ensures Run(prices, PeriodicTriggers(|prices|, period), |prices|).pending == 0.0
  {
    PendingClearedIff(prices, CheaperTriggers(prices));
    PendingClearedIff(prices, PeriodicTriggers(|prices|, period));
  }

  /** Units are only ever added: a longer run holds at least as many. */
  lemma {:induction false} UnitsNonDecreasing(prices: seq<real>, months: set<int>, j: nat, k: nat)
    requires j <= k <= |prices| && PositivePrices(prices)
    ensures Run(prices, months, j).units <= Run(prices, months, k).units
    decreases k
  {
    if j < k {
      UnitsNonDecreasing(prices, months, j, k - 1);
    }
  }

  /** When every month so far was a trigger, no cash was ever idle: each month's
      contribution bought units on its own. */
  lemma {:induction false} AllTriggersNoInterest(prices: seq<real>, months: set<int>, k: nat)
    requires k <= |prices| && PositivePrices(prices)
    requires forall i :: 0 <= i < k ==> i in months
    ensures Run(prices, months, k) == Accrued(0.0, EveryMonthUnits(prices, k))
  {
    if k > 0 {
      AllTriggersNoInterest(prices, months, k - 1);
      var before := Run(prices, months, k - 1);
      assert before.pending == 0.0;
      assert k - 1 in months;
      assert Run(prices, months, k) == MonthStep(before, prices[k - 1], true);
    }
  }

  /** A period of one is the same as buying with each contribution as it comes. */
  lemma PeriodOneIsEveryMonth(prices: seq<real>)
    requires ValidSeries(prices)
    ensures Run(prices, PeriodicTriggers(|prices|, 1), |prices|)
         == Accrued(0.0, EveryMonthUnits(prices, |prices|))
  {
    PeriodOneEveryMonth(|prices|);
    AllTriggersNoInterest(prices, PeriodicTriggers(|prices|, 1), |prices|);
  }

  /** Four months at price 10 bought every two months: months 0 and 2 each earn
      one month's interest before being spent with the next contribution. */
  lemma PeriodTwoExample()
    ensures Run([10.0, 10.0, 10.0, 10.0], PeriodicTriggers(4, 2), 4)
         == Accrued(0.0, 2.0 * (600875.0 / 3.0) * 0.986 / 10.0)
  {
    var prices := [10.0, 10.0, 10.0, 10.0];
    var months := PeriodicTriggers(4, 2);
    PeriodTwoOfFour();
    assert Run(prices, months, 1) == Accrued(300875.0 / 3.0, 0.0);
    assert Run(prices, months, 2) == Accrued(0.0, (600875.0 / 3.0) * 0.986 / 10.0);
    assert Run(prices, months, 3) == Accrued(300875.0 / 3.0, (600875.0 / 3.0) * 0.986 / 10.0);
  }
}
