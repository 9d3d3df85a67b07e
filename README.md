# Periodic investing and rent-or-buy, modelled in Dafny

This project models three small simulation engines.

- **The investor engine** (`investor/main.py`). A `Fund` owns units of one
  price series. It buys them net of a tiered commission and is valued at the
  series' last price. Two purchase-timing policies drive its monthly accrual
  loop:
  - buy every `p` months;
  - buy whenever the price fell, plus in the first and the last month.

  An `Investor` splits one contribution stream between a stable and a
  volatile fund. Each month's contribution goes to the volatile fund when its
  price fell that month, and to the stable fund otherwise.
- **The strategy engine** (`invest-strategy/main.py`). It is the same fund and
  accrual loop, except that a purchase is passed the price instead of the
  month index.
- **The rent-or-buy calculator** (`rent-or-buy/main.py`). It tracks a balance,
  a monthly saving and a property flag over `years × 12` months under three
  plans: keep renting and save; save until the property is affordable; buy at
  once on a mortgage.

Money and prices are Dafny `real`s (exact rationals), so the model's amounts
carry no rounding. The closing check `assert investment == 0` follows the
purchase in the last month, which sets the pending cash to the literal 0.

Modules:
- `Commission` (`commission.dfy`): the tier table and the rate lookup.
- `Timing` (`timing.dfy`): the trigger sets, as pure functions of a series.
- `Accrual` (`accrual.dfy`): the specification of the accrual loop. `Run`
  gives the pending cash and the units bought after `k` months. Both engines
  share it.
- `MultiFund` (`multi_fund.dfy`): classes `Fund` and `Investor` of
  `investor/main.py`.
- `InvestStrategy` (`invest_strategy.dfy`): class `Fund` of
  `invest-strategy/main.py`.
- `RentOrBuy` (`rent_or_buy.dfy`): class `Calculator`. `Run` is the
  month-by-month specification of its three plans.

Each class method that updates fields is proved against a specification
function of the old field values:
- the loop methods (`InvestOrSave`, `Investor.Invest`, `RentAndSave`,
  `SaveToBuy`, `TakeMortgage`) against `Accrual.Run`, `MultiFund.Routed` and
  `RentOrBuy.Run`;
- the loop bodies `SaveToBuyMonth` and `TakeMortgageMonth` against one month
  of their plan, `SaveMonth` and `MortgageMonth`;
- `BuyAssets` against `Accrual.Units`, `AddInterest` against `WithInterest`
  and `BuyProperty` against `Bought`;
- `AddSavings` states its new fields directly.

The lemmas then state what the source promises about those functions.

## Model

| member | source | states |
|---|---|---|
| Commission.GreatestTier | investor/main.py:55-57 | the index of a tier whose threshold is ≤ the amount and is the greatest such; None exactly when every threshold exceeds the amount |
| Commission.CommissionRate | investor/main.py:55-58 | a rate exists exactly when some threshold is ≤ the amount |
| Commission.RateOfGreatestTier | investor/main.py:55-58 | with distinct thresholds (dictionary keys), the rate returned is the rate of whichever tier has the greatest applicable threshold |
| Commission.ZeroThresholdCoversAll | investor/main.py:4-8 | a table that holds threshold 0 has a rate for every non-negative amount |
| Commission.ScheduleTiers | investor/main.py:4-8 | the shipped table charges 0.014 below 500 000, 0.009 below 3 000 000 and 0.005 above |
| Commission.ScheduleRate | investor/main.py:4-8 | the shipped table's rate for a non-negative amount lies strictly between 0 and 1 and is 0.014, 0.009 or 0.005 by tier |
| Commission.ScheduleRateIsLookup | investor/main.py:55-58 | that rate is exactly what the threshold lookup picks from the shipped table |
| Commission.ScheduleRateNonIncreasing | investor/main.py:4-8 | a larger purchase never pays a higher rate |
| Timing.Dip | investor/main.py:36 | a month is a dip when its price is strictly below the month before; it has no contract of its own, and `Timing.CheaperMonths` states the set it defines |
| Timing.CheaperMonths | investor/main.py:31-38 | exactly the indices 1 ≤ i < N with price[i] < price[i-1]; never 0 |
| Timing.CheaperTriggers | investor/main.py:26-28 | contains 0 and N-1, lies inside [0, N), and holds i exactly when i is 0, N-1 or a dip month |
| Timing.PeriodicTriggers | investor/main.py:19-23 | always contains N-1, lies inside [0, N), and is just {N-1} for a negative period |
| Timing.NoCheaperMonthsIffNonDecreasing | investor/main.py:31-38 | no dips occur if and only if the series is non-decreasing |
| Timing.NonDecreasingBuysFirstAndLast | invest-strategy/main.py:105-112 | on a non-decreasing series "buy when cheaper" buys only in months 0 and N-1 |
| Timing.PeriodicMembership | invest-strategy/main.py:98-103 | for a positive period, month i triggers exactly when it is N-1 or (i+1) is a multiple of the period |
| Timing.PeriodOneEveryMonth | investor/main.py:19-23 | period 1 triggers every month 0..N-1 and nothing else |
| Timing.PeriodTwoOfFour | investor/main.py:19-23 | four months with period 2 trigger months 1 and 3 |
| Timing.DipExample | investor/main.py:26-28 | the series 100, 90, 110 triggers in months 0, 1 and 2 |
| Accrual.Invested | investor/main.py:69 | the contributions of N ≥ 1 months total at least one monthly contribution, so the profit rate is defined |
| Accrual.Units | investor/main.py:59-62 | the units bought with a non-negative amount at a positive price are non-negative |
| Accrual.UnitsCost | invest-strategy/main.py:131-134 | the units bought, times the price, equal the amount less its tier's commission |
| Accrual.MonthStep | invest-strategy/main.py:117-123 | a trigger month spends the contribution plus all pending cash and resets the cash to 0; any other month leaves the units alone and compounds the cash by (1 + rate/12); the cash is 0 afterwards exactly in a trigger month |
| Accrual.Run | investor/main.py:40-51 | pending cash and units bought stay non-negative through the whole loop |
| Accrual.EveryMonthUnits | investor/main.py:43-47 | the units bought by spending each month's contribution in its own month are non-negative |
| Accrual.PendingClearedIff | investor/main.py:52 | the closing check on the pending cash holds exactly when month N-1 is a trigger |
| Accrual.ShippedPoliciesClearPending | invest-strategy/main.py:125 | both shipped policies leave the pending cash at exactly 0 |
| Accrual.UnitsNonDecreasing | investor/main.py:63 | the units held never decrease from one month to a later one |
| Accrual.AllTriggersNoInterest | investor/main.py:43-50 | when every month so far is a trigger, no cash is idle and the units equal those of spending each contribution in its own month |
| Accrual.PeriodOneIsEveryMonth | investor/main.py:19-24 | period 1 never adds interest and buys with each contribution in its own month |
| Accrual.PeriodTwoExample | investor/main.py:40-50 | four months at price 10 with period 2: months 0 and 2 earn one month's interest and are spent with the next contribution |
| MultiFund.Routed | investor/main.py:84-90 | the units each fund has bought after k months of routing are non-negative |
| MultiFund.Fund.constructor | investor/main.py:15-17 | a new fund holds the given series and no units |
| MultiFund.Fund.BuyAssets | investor/main.py:54-63 | adds exactly the net units at the month's price to the holdings and changes nothing else; holdings never decrease |
| MultiFund.Fund.InvestOrSave | investor/main.py:40-52 | the holdings grow by exactly the units of `Run` over all months; the closing check is asserted and proved |
| MultiFund.Fund.InvestPeriodically | investor/main.py:19-24 | runs the accrual loop with the periodic trigger set |
| MultiFund.Fund.InvestIfCheaper | investor/main.py:26-29 | runs the accrual loop with the dip trigger set |
| MultiFund.Fund.Estimate | investor/main.py:65-72 | the value is the units times the last price and is non-negative; profit rate × contributions = value − contributions; the rate is at least −1 |
| MultiFund.Investor.constructor | investor/main.py:80-82 | the investor keeps the two given funds |
| MultiFund.Investor.Invest | investor/main.py:84-90 | the stable and the volatile fund each grow by exactly their share of `Routed` over the stable series' length |
| MultiFund.Investor.Estimate | investor/main.py:92-102 | the value is the sum of the two funds' values; profit rate × contributions = value − contributions |
| MultiFund.RoutedCashConserved | investor/main.py:87-90 | the contributions routed to the two funds add up to exactly one contribution per month |
| MultiFund.DipsBefore | investor/main.py:86 | holds i exactly when i < k and the volatile price fell in month i |
| MultiFund.RoutedCashByDips | investor/main.py:84-90 | after k months the volatile fund has received one contribution per dip month before k, and the stable fund one per other month |
| MultiFund.FirstMonthIsStable | investor/main.py:86-90 | month 0 always goes to the stable fund |
| MultiFund.NoDipsAllStable | investor/main.py:84-90 | when the volatile price never falls, every contribution buys in the stable fund and the volatile fund gets nothing |
| MultiFund.NoDipsMatchesPeriodOne | investor/main.py:84-90 | then the stable fund ends with what period-one investing in it would buy |
| InvestStrategy.Fund.constructor | invest-strategy/main.py:94-96 | a new fund holds the given series and no units |
| InvestStrategy.Fund.BuyAssets | invest-strategy/main.py:127-135 | adds exactly the net units at the given price and changes nothing else; holdings never decrease |
| InvestStrategy.Fund.InvestOrSave | invest-strategy/main.py:114-125 | the holdings grow by exactly the units of `Run` over all months; the closing check is asserted and proved |
| InvestStrategy.Fund.InvestPeriodically | invest-strategy/main.py:98-103 | runs the accrual loop with the periodic trigger set |
| InvestStrategy.Fund.InvestIfCheaper | invest-strategy/main.py:105-112 | runs the accrual loop with {0, N-1} ∪ dips |
| InvestStrategy.Fund.Estimate | invest-strategy/main.py:137-144 | values the units at the final price of the series; profit rate × contributions = value − contributions |
| RentOrBuy.Horizon | rent-or-buy/main.py:79-81 | a plan runs 12 months per year, and none for a non-positive number of years |
| RentOrBuy.DaysSumToYear | rent-or-buy/main.py:6-7 | the twelve month lengths add up to the 365 days used for interest |
| RentOrBuy.WithInterest | rent-or-buy/main.py:129-132 | a zero balance earns nothing and a zero rate leaves the balance as it is |
| RentOrBuy.InterestFactor | rent-or-buy/main.py:129-132 | a month's interest multiplies the balance by 1 + rate·days/365 |
| RentOrBuy.RentMonth | rent-or-buy/main.py:81-83 | a month of renting keeps the saving, the flag and the counter; with a zero rate it adds exactly the saving to the balance |
| RentOrBuy.CountOwnedMonth | rent-or-buy/main.py:93-96 | without the property nothing changes; with it the counter advances by one and the saving grows by the rent exactly when the counter reaches `monthsToMove`; the balance is untouched |
| RentOrBuy.BuyIfAffordable | rent-or-buy/main.py:100-105 | an account without the property whose balance times the ratio covers the price is bought; an owned or unaffordable account is left as it is |
| RentOrBuy.SaveMonth | rent-or-buy/main.py:93-105 | a month of saving to buy keeps ownership, advances the counter exactly when the property was already owned, and adds the rent to the saving only in the month the counter reaches `monthsToMove` |
| RentOrBuy.MortgageMonth | rent-or-buy/main.py:115-125 | a mortgage month advances the counter by one, keeps the flag, adds the rent to the saving exactly in month `monthsToMove`, and turns a zero balance into just the saving |
| RentOrBuy.Step | rent-or-buy/main.py:81-83 | picks one month of the chosen plan; it has no contract of its own, and `RunStep` and the plan lemmas below state its properties |
| RentOrBuy.Run | rent-or-buy/main.py:79-81 | the state after n months; it has no contract of its own, and the Calculator loops' ensures and the plan lemmas below state its properties |
| RentOrBuy.RunStep | rent-or-buy/main.py:79-81 | month n of a run is one step on month n mod 12 of its year, the order of the year and month loops |
| RentOrBuy.MonthOfYear | rent-or-buy/main.py:113-115 | month `month` of year `year` is month 12·year + month of the run, whose remainder by 12 is `month` |
| RentOrBuy.Bought | rent-or-buy/main.py:137-140 | a purchase takes the price off the balance, sets the flag and keeps the saving |
| RentOrBuy.Calculator.constructor | rent-or-buy/main.py:71-75 | starts from the initial balance and monthly saving without the property |
| RentOrBuy.Calculator.RentAndSave | rent-or-buy/main.py:77-85 | the new state is `Run` of the renting plan over `Horizon` months from the old state |
| RentOrBuy.Calculator.SaveToBuy | rent-or-buy/main.py:87-107 | the new state is `Run` of the saving plan over `Horizon` months from the old state, with the month counter starting at 0 |
| RentOrBuy.Calculator.SaveToBuyMonth | rent-or-buy/main.py:93-105 | one pass of the saving plan's inner loop is exactly one `SaveMonth` |
| RentOrBuy.Calculator.TakeMortgage | rent-or-buy/main.py:109-127 | the property is bought first; the new state is `Run` of the mortgage plan over `Horizon` months from there |
| RentOrBuy.Calculator.TakeMortgageMonth | rent-or-buy/main.py:116-125 | one pass of the mortgage plan's inner loop is exactly one `MortgageMonth` |
| RentOrBuy.Calculator.AddInterest | rent-or-buy/main.py:129-132 | the balance gets the month's day-count interest; saving and flag are unchanged |
| RentOrBuy.Calculator.AddSavings | rent-or-buy/main.py:134-135 | adds exactly the current saving to the balance and changes nothing else |
| RentOrBuy.Calculator.BuyProperty | rent-or-buy/main.py:137-140 | subtracts exactly the property price and sets the flag; the saving is unchanged |
| RentOrBuy.RentingKeepsSavingsAndFlag | rent-or-buy/main.py:77-83 | renting never changes the saving, the property flag or the month counter |
| RentOrBuy.RentingWithoutInterest | rent-or-buy/main.py:77-83 | with a zero rate, n months of renting add the saving exactly n times |
| RentOrBuy.OwnershipPersists | rent-or-buy/main.py:137-140 | under every plan, once the property is owned it stays owned |
| RentOrBuy.PurchaseWhenAffordable | rent-or-buy/main.py:100-105 | the property is bought in a month exactly when it is not yet owned and its price is ≤ the balance after interest and saving times the ratio; the price is then paid out of that balance |
| RentOrBuy.PurchaseInMonth | rent-or-buy/main.py:98-105 | in one month of saving to buy, an account without the property is bought exactly when, after interest and saving, its balance times the ratio covers the price; the price then comes out of that balance |
| RentOrBuy.PurchasedAtMostOnce | rent-or-buy/main.py:100-105 | saving to buy purchases the property in at most one month |
| RentOrBuy.OwnedMonthsCounted | rent-or-buy/main.py:93-94 | while the property is owned, the month counter advances by one each month |
| RentOrBuy.SavingsChangeOnlyByRent | rent-or-buy/main.py:93-96 | the saving changes only in the month the counter reaches `monthsToMove`, and only by the rent |
| RentOrBuy.RentJoinsAtMostOnce | rent-or-buy/main.py:93-96 | that month occurs at most once |
| RentOrBuy.MortgageSavings | rent-or-buy/main.py:111-118 | on a mortgage the counter equals the months run and the property stays owned; the saving has grown by the rent once month `monthsToMove` is reached, and not otherwise |
| RentOrBuy.MortgageRateBySign | rent-or-buy/main.py:120-123 | a debt is charged the mortgage rate, a credit earns the deposit rate, a zero balance earns nothing |

## Left out

- Printing, headers, the balance bar and `__str__` formatting, and the `main()` drivers: they are output only.
- `Args` and `Config` in `rent-or-buy/main.py` (command line and YAML file): the model takes the configuration as the immutable value `RentOrBuy.Config`.
- `investor/config.py` holds only the constants that `investor/main.py` also defines. The literal price tuples and the `prices` module are input data; series are abstract `seq<real>` values.
- Floating-point rounding: all amounts are exact reals.
- The speculative reallocation between funds: the code has none.
- MultiFund.Fund.constructor: a series must have at least one month of positive prices. On an empty series the source's policies still run, and only `estimate` fails on the missing last price. A zero price would fail the division.
- MultiFund.Fund.BuyAssets: a negative investment, for which the source's `max` has no threshold and raises, is excluded by a precondition. The loops never make such a purchase. The same holds for InvestStrategy.Fund.BuyAssets.
- MultiFund.Fund.InvestPeriodically: a period of 0, for which the source's `range` raises, is excluded by a precondition. The same holds for InvestStrategy.Fund.InvestPeriodically.
- MultiFund.Fund.InvestOrSave: the closing `assert investment == 0` is a precondition that N-1 is a trigger. `Accrual.PendingClearedIff` proves this is exactly when the assertion holds. The same holds for InvestStrategy.Fund.InvestOrSave.
- MultiFund.Investor.Invest: the two funds must be distinct objects. The source does not forbid passing one fund twice, and the model does not cover that aliasing.
- RentOrBuy.Calculator.SaveToBuy: the source asserts `months_to_move ≥ 1` and `0 ≤ property_price_ratio ≤ 1` only when it reads them. The model requires both up front, so it does not cover a run with invalid values that never reads them. RentOrBuy.Calculator.TakeMortgage likewise requires `monthsToMove ≥ 1`.
- RentOrBuy.Calculator.SaveToBuyMonth: the body of the saving plan's inner loop is its own method, which keeps each proof small. The order of its steps is the source's. The same holds for RentOrBuy.Calculator.TakeMortgageMonth and the mortgage plan's inner loop.
