/** The single-fund strategy engine: the same accrual loop as the investor
    engine, except that a purchase is handed the price itself rather than
    the index of its month. */
module InvestStrategy {
  import opened Commission
  import opened Timing
  import opened Accrual

  class Fund {
    const priceHistory: seq<real>
    var assets: real

    ghost predicate Valid()
      reads this
    {
      ValidSeries(priceHistory) && 0.0 <= assets
    }

    constructor (priceHistory: seq<real>)
      requires ValidSeries(priceHistory)
      ensures Valid()
      ensures this.priceHistory == priceHistory && assets == 0.0
    {
      this.priceHistory := priceHistory;
      assets := 0.0;
    }

    /** Buy with `investment` at `price`, net of the commission of the
        investment's tier. */
    method BuyAssets(investment: real, price: real)
      requires Valid()
      requires 0.0 <= investment && 0.0 < price
      modifies this
      ensures Valid()
      ensures assets == old(assets) + Units(investment, price)
      ensures assets >= old(assets)
    {
      var commissionRate := ScheduleRate(investment);
      var commission := investment * commissionRate;
      var net := investment - commission;
      var bought := net / price;
      assets := assets + bought;
    }

    /** The accrual loop over the months and their prices together; pending
        cash is spent in the months of `investMonths` and earns a month's
        interest otherwise. The closing check on the pending cash is the
        assertion at the end. */
    method InvestOrSave(investMonths: set<int>)
      requires Valid()
      requires |priceHistory| - 1 in investMonths
      modifies this
      ensures Valid()
      ensures assets == old(assets) + Run(priceHistory, investMonths, |priceHistory|).units
    {
      var investment := 0.0;
      var i := 0;
      while i < |priceHistory|
        invariant 0 <= i <= |priceHistory|
        invariant Valid()
        invariant Accrued(investment, assets - old(assets)) == Run(priceHistory, investMonths, i)
      {
        var price := priceHistory[i];
        investment := investment + MONTHLY_INVESTMENT;
        if i in investMonths {
          BuyAssets(investment, price);
          investment := 0.0;
        } else {
          var interest := investment * INTEREST_RATE / MONTHS_IN_YEAR;
          investment := investment + interest;
        }
        i := i + 1;
      }
      PendingClearedIff(priceHistory, investMonths);
      assert investment == 0.0;
    }

    /** Buy every `periodLength` months and in the last month. */
    method InvestPeriodically(periodLength: int)
      requires Valid()
      requires periodLength != 0
      modifies this
      ensures Valid()
      ensures assets == old(assets)
        + Run(priceHistory, PeriodicTriggers(|priceHistory|, periodLength), |priceHistory|).units
    {
      var historyLength := |priceHistory|;
      var investMonths := PeriodicTriggers(historyLength, periodLength);
      InvestOrSave(investMonths);
    }

    /** Buy in the first and the last month and whenever the price fell. */
    method InvestIfCheaper()
      requires Valid()
      modifies this
      ensures Valid()
      ensures assets == old(assets) + Run(priceHistory, CheaperTriggers(priceHistory), |priceHistory|).units
    {
      var investMonths := CheaperTriggers(priceHistory);
      InvestOrSave(investMonths);
    }

    /** The holdings valued at the final price of the series, never at an
        interim one, and the profit rate on all contributions. */
    function Estimate(): (e: Valuation)
      reads this
      requires Valid()
      ensures e.value == assets * priceHistory[|priceHistory| - 1]
      ensures 0.0 <= e.value
      ensures e.profitRate * Invested(|priceHistory|) == e.value - Invested(|priceHistory|)
      ensures -1.0 <= e.profitRate
    {
      var lastPrice := priceHistory[|priceHistory| - 1];
      var value := assets * lastPrice;
      var investments := Invested(|priceHistory|);
      var profit := value - investments;
      Valuation(value, profit / investments)
    }
  }
}
