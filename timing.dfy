/** Purchase-timing policies: pure functions of a price series that give the
    month indices at which the accrual loop buys. */
module Timing {

  /** Month `i` is a dip month: its price is strictly below the month before. */
  predicate Dip(prices: seq<real>, i: int)
  {
    1 <= i < |prices| && prices[i] < prices[i - 1]
  }

  /** Every later price is at least every earlier one. */
  predicate NonDecreasing(prices: seq<real>)
  {
    forall i, j :: 0 <= i <= j < |prices| ==> prices[i] <= prices[j]
  }

  /** The months in which the price fell compared with the month before. */
  function CheaperMonths(prices: seq<real>): (r: set<int>)
    ensures forall i :: i in r <==> Dip(prices, i)
    ensures 0 !in r
    ensures forall i :: i in r ==> 1 <= i < |prices|
  {
    set i | 1 <= i < |prices| && Dip(prices, i)
  }

  /** The policy "buy when cheaper": every dip month, plus the first and the
      last month of the horizon. */
  function CheaperTriggers(prices: seq<real>): (r: set<int>)
    requires |prices| >= 1
    ensures 0 in r && |prices| - 1 in r
    ensures forall i :: i in r ==> 0 <= i < |prices|
    ensures forall i :: i in r <==> i == 0 || i == |prices| - 1 || Dip(prices, i)
  {
    CheaperMonths(prices) + {0, |prices| - 1}
  }

  /** The policy "buy every `period` months": the months `k * period + period - 1`
      for k = 0, 1, ... that fall inside the horizon (empty when the period is
      negative, as a range with a negative step and a start below its stop is),
      plus always the last month. */
  function PeriodicTriggers(n: nat, period: int): (r: set<int>)
    requires n >= 1
    requires period != 0
    ensures n - 1 in r
    ensures forall i :: i in r ==> 0 <= i < n
    ensures period < 0 ==> r == {n - 1}
  {
    var steps := if period > 0
                 then set k | 0 <= k < n && k * period + period - 1 < n :: k * period + period - 1
                 else {};
    steps + {n - 1}
  }

  /** A series without dips is exactly a non-decreasing one. */
  lemma {:induction false} NoCheaperMonthsIffNonDecreasing(prices: seq<real>)
    ensures CheaperMonths(prices) == {} <==> NonDecreasing(prices)
  {
    if CheaperMonths(prices) == {} {
      forall i, j | 0 <= i <= j < |prices|
        ensures prices[i] <= prices[j]
      {
        NoDipsStepUp(prices, i, j);
      }
    } else {
      var d :| d in CheaperMonths(prices);
      assert prices[d] < prices[d - 1];
    }
  }

  lemma {:induction false} NoDipsStepUp(prices: seq<real>, i: int, j: int)
    requires CheaperMonths(prices) == {}
    requires 0 <= i <= j < |prices|
    ensures prices[i] <= prices[j]
    decreases j - i
  {
    if i < j {
      NoDipsStepUp(prices, i, j - 1);
      assert !Dip(prices, j);
    }
  }

  /** Without dips "buy when cheaper" buys in the first and the last month only. */
  lemma NonDecreasingBuysFirstAndLast(prices: seq<real>)
    requires |prices| >= 1
    requires NonDecreasing(prices)
    ensures CheaperTriggers(prices) == {0, |prices| - 1}
  {
    NoCheaperMonthsIffNonDecreasing(prices);
  }

  /** A positive period triggers exactly the months `i` whose successor is a
      multiple of the period, and the last month. */
  lemma PeriodicMembership(n: nat, period: int, i: int)
    requires n >= 1 && period > 0
    ensures i in PeriodicTriggers(n, period)
        <==> i == n - 1 || (0 <= i < n && (i + 1) % period == 0)
  {
    if 0 <= i < n && (i + 1) % period == 0 {
      var q := (i + 1) / period;
      DivisorSplit(i + 1, period);
      PositiveFactor(q, period, i + 1);
      var k := q - 1;
      assert i == k * period + period - 1;
      MulAtLeast(k, period);
    }
    if i in PeriodicTriggers(n, period) && i != n - 1 {
      var k :| 0 <= k < n && i == k * period + period - 1;
      assert i + 1 == (k + 1) * period;
      MultipleModZero(k + 1, period);
    }
  }

  lemma DivisorSplit(m: int, period: int)
    requires period > 0 && m % period == 0
    ensures m == (m / period) * period
  {
  }

  lemma PositiveFactor(q: int, period: int, m: int)
    requires period > 0 && m > 0 && m == q * period
    ensures q >= 1
  {
  }

  lemma MulAtLeast(k: int, period: int)
    requires k >= 0 && period >= 1
    ensures k <= k * period
  {
  }

  lemma MultipleModZero(m: int, period: int)
    requires m >= 0 && period > 0
    ensures (m * period) % period == 0
  {
    var q, r := (m * period) / period, (m * period) % period;
    assert m * period == q * period + r && 0 <= r < period;
    assert (m - q) * period == r;
    if m - q >= 1 {
      MulAtLeast(period, m - q);
    } else if m - q <= -1 {
      MulAtLeast(period, q - m);
    }
  }

  /** A period of one buys every month, so no idle cash ever earns interest. */
  lemma PeriodOneEveryMonth(n: nat)
    requires n >= 1
    ensures forall i :: 0 <= i < n <==> i in PeriodicTriggers(n, 1)
  {
    forall i | 0 <= i < n
      ensures i in PeriodicTriggers(n, 1)
    {
      assert i == i * 1 + 1 - 1;
    }
  }

  /** Four flat months bought every two months: months 1 and 3. */
  lemma PeriodTwoOfFour()
    ensures PeriodicTriggers(4, 2) == {1, 3}
  {
    assert 1 == 0 * 2 + 2 - 1;
    forall i | i in PeriodicTriggers(4, 2)
      ensures i == 1 || i == 3
    {
      PeriodicMembership(4, 2, i);
    }
  }

  /** The series 100, 90, 110: the dip in month 1 plus the forced first and
      last months mean a purchase every month. */
  lemma DipExample()
    ensures CheaperTriggers([100.0, 90.0, 110.0]) == {0, 1, 2}
  {
    assert Dip([100.0, 90.0, 110.0], 1);
  }
}
