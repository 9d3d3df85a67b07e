/** The rent-or-buy calculator: a balance, a monthly saving and a property
    flag, run month by month over a number of years under one of three plans
    (keep renting and save; save until the property is affordable; buy at once
    on a mortgage). */
module RentOrBuy {

  const DAYS_PER_MONTH: seq<int> := [31, 28, 31, 30, 31, 30, 31, 31, 30, 31, 30, 31]
  const DAYS_PER_YEAR: int := 365
  const MONTHS_PER_YEAR: int := 12

  /** The calculator's parameters, fixed for a whole run. */
  datatype Config = Config(
    initialBalance: real,
    interestRate: real,
    monthSavings: real,
    monthsToMove: int,
    mortgageRate: real,
    propertyPrice: real,
    propertyPriceRatio: real,
    rentPrice: real,
    years: int)

  datatype Plan = KeepRenting | SaveFirst | BuyOnMortgage

  /** The calculator's own state. */
  datatype Account = Account(balance: real, savings: real, haveProperty: bool)

  /** The state a plan's loop carries: the account and the months counted
      since the property was bought. */
  datatype Tally = Tally(account: Account, months: int)

  /** The number of months a plan runs: twelve per year, none for a
      non-positive number of years. */
  function Horizon(c: Config): (n: nat)
    ensures c.years > 0 ==> n == 12 * c.years
    ensures c.years <= 0 ==> n == 0
  {
    if c.years > 0 then c.years * MONTHS_PER_YEAR else 0
  }

  /** The days of the first `m` months of the year. */
  function DaysUpTo(m: nat): int
    requires m <= 12
  {
    if m == 0 then 0 else DaysUpTo(m - 1) + DAYS_PER_MONTH[m - 1]
  }

  /** The month lengths add up to the year length used for day-count interest. */
  lemma DaysSumToYear()
    ensures DaysUpTo(12) == DAYS_PER_YEAR
  {
    assert DaysUpTo(3) == 90;
    assert DaysUpTo(6) == 181;
    assert DaysUpTo(9) == 273;
  }

  /** The balance after a month's day-count interest at the yearly `rate`. */
  function WithInterest(balance: real, rate: real, monthIdx: nat): (r: real)
    requires monthIdx < 12
    ensures balance == 0.0 ==> r == 0.0
    ensures rate == 0.0 ==> r == balance
  {
    var days := DAYS_PER_MONTH[monthIdx];
    var interest := balance * rate * days as real / DAYS_PER_YEAR as real;
    balance + interest
  }

  /** A month's interest multiplies the balance by one plus the rate's share
      for the month's days. */
  lemma InterestFactor(balance: real, rate: real, monthIdx: nat)
    requires monthIdx < 12
    ensures WithInterest(balance, rate, monthIdx)
         == balance * (1.0 + rate * (DAYS_PER_MONTH[monthIdx] as real) / (DAYS_PER_YEAR as real))
  {
  }

  /** A month of renting: interest on the balance, then the saving. */
  function RentMonth(c: Config, t: Tally, m: nat): (r: Tally)
    requires m < 12
    ensures r.months == t.months
    ensures r.account.savings == t.account.savings && r.account.haveProperty == t.account.haveProperty
    ensures c.interestRate == 0.0 ==> r.account.balance == t.account.balance + t.account.savings
  {
    var a := t.account;
    Tally(a.(balance := WithInterest(a.balance, c.interestRate, m) + a.savings), t.months)
  }

  /** Once the property is owned, a month of saving to buy is counted, and
      the saving grows by the rent in the month the count reaches `monthsToMove`. */
  function CountOwnedMonth(c: Config, t: Tally): (r: Tally)
    ensures !t.account.haveProperty ==> r == t
    ensures t.account.haveProperty ==> r.months == t.months + 1
    ensures r.account.balance == t.account.balance && r.account.haveProperty == t.account.haveProperty
    ensures r.account.savings == t.account.savings
      + (if t.account.haveProperty && c.monthsToMove == t.months + 1 then c.rentPrice else 0.0)
  {
    if t.account.haveProperty then
      var months := t.months + 1;
      var savings := if c.monthsToMove == months then t.account.savings + c.rentPrice else t.account.savings;
      Tally(t.account.(savings := savings), months)
    else t
  }

  /** While the property is not owned, it is bought as soon as its price is
      within the affordable share of the balance. */
  function BuyIfAffordable(c: Config, a: Account): (r: Account)
    ensures !a.haveProperty && c.propertyPrice <= a.balance * c.propertyPriceRatio ==> r == Bought(c, a)
    ensures a.haveProperty || a.balance * c.propertyPriceRatio < c.propertyPrice ==> r == a
  {
    if !a.haveProperty && c.propertyPrice <= a.balance * c.propertyPriceRatio then Bought(c, a) else a
  }

  /** A month of saving to buy: count an owned month, add interest and the
      saving, then buy if the property has become affordable. */
  function SaveMonth(c: Config, t: Tally, m: nat): (r: Tally)
    requires m < 12
    ensures t.account.haveProperty ==> r.account.haveProperty
    ensures r.months == t.months + (if t.account.haveProperty then 1 else 0)
    ensures r.account.savings == t.account.savings
      + (if t.account.haveProperty && c.monthsToMove == t.months + 1 then c.rentPrice else 0.0)
  {
    var u := CountOwnedMonth(c, t);
    var a := u.account;
    Tally(BuyIfAffordable(c, a.(balance := WithInterest(a.balance, c.interestRate, m) + a.savings)), u.months)
  }

  /** A month on a mortgage: count the month, grow the saving by the rent in
      month `monthsToMove`, charge the mortgage rate on a debt or pay the
      deposit rate on a credit (nothing on a zero balance), add the saving. */
  function MortgageMonth(c: Config, t: Tally, m: nat): (r: Tally)
    requires m < 12
    ensures r.months == t.months + 1 && r.account.haveProperty == t.account.haveProperty
    ensures r.account.savings == t.account.savings + (if c.monthsToMove == t.months + 1 then c.rentPrice else 0.0)
    ensures t.account.balance == 0.0 ==> r.account.balance == r.account.savings
  {
    var a := t.account;
    var months := t.months + 1;
    var savings := if c.monthsToMove == months then a.savings + c.rentPrice else a.savings;
    var balance := if a.balance < 0.0 then WithInterest(a.balance, c.mortgageRate, m)
                   else if 0.0 < a.balance then WithInterest(a.balance, c.interestRate, m)
                   else a.balance;
    Tally(Account(balance + savings, savings, a.haveProperty), months)
  }

  /** One month of `plan`. */
  function Step(c: Config, plan: Plan, t: Tally, m: nat): Tally
    requires m < 12
  {
    match plan
    case KeepRenting => RentMonth(c, t, m)
    case SaveFirst => SaveMonth(c, t, m)
    case BuyOnMortgage => MortgageMonth(c, t, m)
  }

  /** The state after the first `n` months of a plan; month `i` of the run is
      month `i % 12` of its year. */
  function Run(c: Config, plan: Plan, start: Tally, n: nat): Tally
  {
    if n == 0 then start
    else Step(c, plan, Run(c, plan, start, n - 1), (n - 1) % 12)
  }

  /** Month `n` of a plan is one `Step` on month `n % 12` of its year. */
  lemma RunStep(c: Config, plan: Plan, start: Tally, n: nat, m: nat)
    requires m < 12 && n % 12 == m
    ensures Run(c, plan, start, n + 1) == Step(c, plan, Run(c, plan, start, n), m)
  {
  }

  /** The account after a one-time purchase of the property. */
  function Bought(c: Config, a: Account): (r: Account)
    ensures r.balance == a.balance - c.propertyPrice
    ensures r.haveProperty && r.savings == a.savings
  {
    a.(balance := a.balance - c.propertyPrice, haveProperty := true)
  }

  /** Month `n` of a run that has completed `year` years is month `month` of its year. */
  lemma MonthOfYear(year: int, month: int, n: int)
    requires 0 <= year && 0 <= month < 12 && n == 12 * year + month
    ensures n % 12 == month
  {
  }

  class Calculator {
    const config: Config
    var balance: real
    var savings: real
    var haveProperty: bool

    function Snapshot(): Account
      reads this
    {
      Account(balance, savings, haveProperty)
    }

    constructor (config: Config)
      ensures this.config == config
      ensures Snapshot() == Account(config.initialBalance, config.monthSavings, false)
    {
      this.config := config;
      balance := config.initialBalance;
      savings := config.monthSavings;
      haveProperty := false;
    }

    /** Keep renting: every month add interest at the deposit rate, then the saving. */
    method RentAndSave()
      modifies this
      ensures Snapshot() == Run(config, KeepRenting, Tally(old(Snapshot()), 0), Horizon(config)).account
    {
      ghost var start := Tally(Snapshot(), 0);
      var year := 0;
      ghost var elapsed := 0;
      while year < config.years
        invariant 0 <= year && (year == 0 || year <= config.years)
        invariant elapsed == 12 * year
        invariant Tally(Snapshot(), 0) == Run(config, KeepRenting, start, elapsed)
      {
        var month := 0;
        while month < MONTHS_PER_YEAR
          invariant 0 <= month <= MONTHS_PER_YEAR
          invariant elapsed == 12 * year + month
          invariant Tally(Snapshot(), 0) == Run(config, KeepRenting, start, elapsed)
        {
          MonthOfYear(year, month, elapsed);
          RunStep(config, KeepRenting, start, elapsed, month);
          ghost var before := Tally(Snapshot(), 0);
          AddInterest(config.interestRate, month);
          AddSavings();
          assert Tally(Snapshot(), 0) == RentMonth(config, before, month);
          elapsed := elapsed + 1;
          month := month + 1;
        }
        year := year + 1;
      }
      assert elapsed == Horizon(config);
    }

    /** Save until the property is affordable, buy it once, and from the
        `monthsToMove`-th month after the purchase save the rent as well. */
    method SaveToBuy()
      requires 1 <= config.monthsToMove
      requires 0.0 <= config.propertyPriceRatio <= 1.0
      modifies this
      ensures Snapshot() == Run(config, SaveFirst, Tally(old(Snapshot()), 0), Horizon(config)).account
    {
      ghost var start := Tally(Snapshot(), 0);
      var months := 0;
      var year := 0;
      ghost var elapsed := 0;
      while year < config.years
        invariant 0 <= year && (year == 0 || year <= config.years)
        invariant elapsed == 12 * year
        invariant Tally(Snapshot(), months) == Run(config, SaveFirst, start, elapsed)
      {
        var month := 0;
        while month < MONTHS_PER_YEAR
          invariant 0 <= month <= MONTHS_PER_YEAR
          invariant elapsed == 12 * year + month
          invariant Tally(Snapshot(), months) == Run(config, SaveFirst, start, elapsed)
        {
          MonthOfYear(year, month, elapsed);
          RunStep(config, SaveFirst, start, elapsed, month);
          months := SaveToBuyMonth(month, months);
          elapsed := elapsed + 1;
          month := month + 1;
        }
        year := year + 1;
      }
      assert elapsed == Horizon(config);
    }

    /** One month of saving to buy, the body of its inner loop. */
    method SaveToBuyMonth(month: int, months: int) returns (months': int)
      requires 0 <= month < 12
      modifies this
      ensures Tally(Snapshot(), months') == SaveMonth(config, Tally(old(Snapshot()), months), month)
    {
      months' := months;
      if haveProperty {
        months' := months' + 1;
        if config.monthsToMove == months' {
          savings := savings + config.rentPrice;
        }
      }
      AddInterest(config.interestRate, month);
      AddSavings();
      if !haveProperty {
        var maxPropertyPrice := balance * config.propertyPriceRatio;
        if config.propertyPrice <= maxPropertyPrice {
          BuyProperty();
        }
      }
    }

    /** Buy the property at once on a mortgage; from month `monthsToMove` on
        save the rent as well. */
    method TakeMortgage()
      requires 1 <= config.monthsToMove
      modifies this
      ensures Snapshot()
           == Run(config, BuyOnMortgage, Tally(Bought(config, old(Snapshot())), 0), Horizon(config)).account
    {
      ghost var bought := Bought(config, Snapshot());
      BuyProperty();
      ghost var start := Tally(Snapshot(), 0);
      assert start == Tally(bought, 0);
      var months := 0;
      var year := 0;
      ghost var elapsed := 0;
      while year < config.years
        invariant 0 <= year && (year == 0 || year <= config.years)
        invariant elapsed == 12 * year
        invariant Tally(Snapshot(), months) == Run(config, BuyOnMortgage, start, elapsed)
      {
        var month := 0;
        while month < MONTHS_PER_YEAR
          invariant 0 <= month <= MONTHS_PER_YEAR
          invariant elapsed == 12 * year + month
          invariant Tally(Snapshot(), months) == Run(config, BuyOnMortgage, start, elapsed)
        {
          MonthOfYear(year, month, elapsed);
          RunStep(config, BuyOnMortgage, start, elapsed, month);
          months := TakeMortgageMonth(month, months);
          elapsed := elapsed + 1;
          month := month + 1;
        }
        year := year + 1;
      }
      assert elapsed == Horizon(config);
    }

    /** One month on a mortgage, the body of its inner loop. */
    method TakeMortgageMonth(month: int, months: int) returns (months': int)
      requires 0 <= month < 12
      modifies this
      ensures Tally(Snapshot(), months') == MortgageMonth(config, Tally(old(Snapshot()), months), month)
    {
      months' := months + 1;
      if config.monthsToMove == months' {
        savings := savings + config.rentPrice;
      }
      if balance < 0.0 {
        AddInterest(config.mortgageRate, month);
      } else if 0.0 < balance {
        AddInterest(config.interestRate, month);
      }
      AddSavings();
    }

    /** Add a month's day-count interest at the yearly `rate`. */
    method AddInterest(rate: real, monthIdx: int)
      requires 0 <= monthIdx < 12
      modifies this
      ensures balance == WithInterest(old(balance), rate, monthIdx)
      ensures savings == old(savings) && haveProperty == old(haveProperty)
    {
      var days := DAYS_PER_MONTH[monthIdx];
      var interest := balance * rate * days as real / DAYS_PER_YEAR as real;
      balance := balance + interest;
    }

    /** Add the current monthly saving to the balance. */
    method AddSavings()
      modifies this
      ensures balance == old(balance) + old(savings)
      ensures savings == old(savings) && haveProperty == old(haveProperty)
    {
      balance := balance + savings;
    }

    /** Pay the property's price out of the balance and own the property. */
    method BuyProperty()
      modifies this
      ensures Snapshot() == Bought(config, old(Snapshot()))
    {
      balance := balance - config.propertyPrice;
      haveProperty := true;
    }
  }

  /** Renting never buys and never changes the saving or the month counter. */
  lemma {:induction false} RentingKeepsSavingsAndFlag(c: Config, start: Tally, n: nat)
    ensures Run(c, KeepRenting, start, n).account.savings == start.account.savings
    ensures Run(c, KeepRenting, start, n).account.haveProperty == start.account.haveProperty
    ensures Run(c, KeepRenting, start, n).months == start.months
  {
    if n > 0 {
      RentingKeepsSavingsAndFlag(c, start, n - 1);
    }
  }

  /** Without interest, `n` months of renting add the saving exactly `n` times. */
  lemma {:induction false} RentingWithoutInterest(c: Config, start: Tally, n: nat)
    requires c.interestRate == 0.0
    ensures Run(c, KeepRenting, start, n).account.balance
         == start.account.balance + (n as real) * start.account.savings
  {
    if n > 0 {
      RentingWithoutInterest(c, start, n - 1);
      RentingKeepsSavingsAndFlag(c, start, n - 1);
    }
  }

  /** Under every plan, once the property is owned it stays owned. */
  lemma {:induction false} OwnershipPersists(c: Config, plan: Plan, start: Tally, j: nat, k: nat)
    requires j <= k
    requires Run(c, plan, start, j).account.haveProperty
    ensures Run(c, plan, start, k).account.haveProperty
    decreases k
  {
    if j < k {
      OwnershipPersists(c, plan, start, j, k - 1);
    }
  }

  /** Month `n` of saving to buy is the month of the purchase. */
  predicate PurchaseMonth(c: Config, start: Tally, n: nat)
  {
    !Run(c, SaveFirst, start, n).account.haveProperty
    && Run(c, SaveFirst, start, n + 1).account.haveProperty
  }

  /** After month `m`'s interest and saving, the property's price is within
      the affordable share of the balance. */
  predicate AffordableAfterMonth(c: Config, a: Account, m: nat)
    requires m < 12
  {
    c.propertyPrice <= (WithInterest(a.balance, c.interestRate, m) + a.savings) * c.propertyPriceRatio
  }

  /** The property is bought in a month exactly when it is not yet owned and
      its price is within the affordable share of the balance after that
      month's interest and saving; the price is then paid out of the balance. */
  lemma PurchaseWhenAffordable(c: Config, start: Tally, n: nat)
    ensures PurchaseMonth(c, start, n) <==>
      var a := Run(c, SaveFirst, start, n).account;
      !a.haveProperty && AffordableAfterMonth(c, a, n % 12)
    ensures PurchaseMonth(c, start, n) ==>
      var a := Run(c, SaveFirst, start, n).account;
      Run(c, SaveFirst, start, n + 1).account.balance
        == WithInterest(a.balance, c.interestRate, n % 12) + a.savings - c.propertyPrice
  {
    RunStep(c, SaveFirst, start, n, n % 12);
    PurchaseInMonth(c, Run(c, SaveFirst, start, n), n % 12);
  }

  /** The purchase rule for a single month of saving to buy. */
  lemma PurchaseInMonth(c: Config, t: Tally, m: nat)
    requires m < 12
    ensures var a := t.account;
      var r := SaveMonth(c, t, m).account;
      (!a.haveProperty && r.haveProperty <==> !a.haveProperty && AffordableAfterMonth(c, a, m))
      && (!a.haveProperty && r.haveProperty
          ==> r.balance == WithInterest(a.balance, c.interestRate, m) + a.savings - c.propertyPrice)
  {
    if !t.account.haveProperty {
      assert CountOwnedMonth(c, t) == t;
    }
  }

  /** Saving to buy purchases the property at most once. */
  lemma PurchasedAtMostOnce(c: Config, start: Tally)
    ensures forall j: nat, k: nat :: PurchaseMonth(c, start, j) && PurchaseMonth(c, start, k) ==> j == k
  {
    forall j: nat, k: nat | PurchaseMonth(c, start, j) && PurchaseMonth(c, start, k)
      ensures j == k
    {
      if j < k {
        OwnershipPersists(c, SaveFirst, start, j + 1, k);
      } else if k < j {
        OwnershipPersists(c, SaveFirst, start, k + 1, j);
      }
    }
  }

  /** While the property is owned, each month advances the counter by one. */
  lemma {:induction false} OwnedMonthsCounted(c: Config, start: Tally, j: nat, k: nat)
    requires j <= k
    requires Run(c, SaveFirst, start, j).account.haveProperty
    ensures Run(c, SaveFirst, start, k).months == Run(c, SaveFirst, start, j).months + (k - j)
    decreases k
  {
    if j < k {
      OwnedMonthsCounted(c, start, j, k - 1);
      OwnershipPersists(c, SaveFirst, start, j, k - 1);
    }
  }

  /** Month `n` of saving to buy is the month the rent joins the saving. */
  predicate RentJoinsMonth(c: Config, start: Tally, n: nat)
  {
    var t := Run(c, SaveFirst, start, n);
    t.account.haveProperty && t.months + 1 == c.monthsToMove
  }

  /** The saving changes only in the month the rent joins it, and by the rent. */
  lemma SavingsChangeOnlyByRent(c: Config, start: Tally, n: nat)
    ensures Run(c, SaveFirst, start, n + 1).account.savings
         == Run(c, SaveFirst, start, n).account.savings + (if RentJoinsMonth(c, start, n) then c.rentPrice else 0.0)
  {
  }

  /** The rent joins the saving at most once. */
  lemma RentJoinsAtMostOnce(c: Config, start: Tally, j: nat, k: nat)
    requires RentJoinsMonth(c, start, j) && RentJoinsMonth(c, start, k)
    ensures j == k
  {
    if j < k {
      OwnedMonthsCounted(c, start, j, k);
    } else if k < j {
      OwnedMonthsCounted(c, start, k, j);
    }
  }

  /** On a mortgage the month counter is the number of months run, the
      property stays owned, and the saving has grown by the rent exactly when
      month `monthsToMove` has been reached. */
  lemma {:induction false} MortgageSavings(c: Config, start: Tally, n: nat)
    requires start.months == 0
    ensures Run(c, BuyOnMortgage, start, n).months == n
    ensures Run(c, BuyOnMortgage, start, n).account.haveProperty == start.account.haveProperty
    ensures Run(c, BuyOnMortgage, start, n).account.savings
         == start.account.savings + (if 1 <= c.monthsToMove <= n then c.rentPrice else 0.0)
  {
    if n > 0 {
      MortgageSavings(c, start, n - 1);
    }
  }

  /** On a mortgage a debt is charged the mortgage rate, a credit earns the
      deposit rate, and a zero balance earns nothing, before the saving is added. */
  lemma MortgageRateBySign(c: Config, t: Tally, m: nat)
    requires m < 12
    ensures var r := MortgageMonth(c, t, m);
      var b := t.account.balance;
      var f := (DAYS_PER_MONTH[m] as real) / (DAYS_PER_YEAR as real);
      r.account.balance - r.account.savings
        == (if b < 0.0 then b * (1.0 + c.mortgageRate * f)
            else if 0.0 < b then b * (1.0 + c.interestRate * f)
            else 0.0)
  {
  }
}
