/** The rent-versus-buy cost projection engine: the four monthly cost tables
    as the state of one object, the builders that append to them, and the
    reports that add them up over the months lived in the home. */
module Huasuan {
  import opened Compounding
  import opened Mortgage
  import opened Series

  /** The program's configuration constants, taken as parameters. */
  datatype Config = Config(
    livingMonth: nat,
    inflationRate: real,
    initialMonthlyRent: real,
    totalHousePrice: real,
    annualInterestRate: real,
    morgageTerms: nat,
    downpaymentPct: real,
    monthlyHoa: real,
    monthlyInsurance: real,
    annualPropertyTaxRate: real)

  /** HOA dues of month `month`, rising with inflation; not truncated. With
      non-negative dues and inflation they never fall below the first month's. */
  function HOAByMonth(cfg: Config, month: nat): (hoa: real)
    ensures 0.0 <= cfg.monthlyHoa && 0.0 <= cfg.inflationRate ==> cfg.monthlyHoa <= hoa
  {
    if 0.0 <= cfg.monthlyHoa && 0.0 <= cfg.inflationRate then
      InflatedNonDecreasing(cfg.monthlyHoa, cfg.inflationRate, 0, month);
      Inflated(cfg.monthlyHoa, cfg.inflationRate, month)
    else
      Inflated(cfg.monthlyHoa, cfg.inflationRate, month)
  }

  /** Insurance of month `month`, rising with inflation; not truncated. With
      non-negative premiums and inflation it never falls below the first month's. */
  function InsuranceByMonth(cfg: Config, month: nat): (insurance: real)
    ensures 0.0 <= cfg.monthlyInsurance && 0.0 <= cfg.inflationRate ==> cfg.monthlyInsurance <= insurance
  {
    if 0.0 <= cfg.monthlyInsurance && 0.0 <= cfg.inflationRate then
      InflatedNonDecreasing(cfg.monthlyInsurance, cfg.inflationRate, 0, month);
      Inflated(cfg.monthlyInsurance, cfg.inflationRate, month)
    else
      Inflated(cfg.monthlyInsurance, cfg.inflationRate, month)
  }

  /** Both start at their configured monthly amount and compound by
      `1 + inflationRate / 12` from each month to the next. */
  lemma HOAAndInsuranceCompound(cfg: Config, month: nat)
    ensures HOAByMonth(cfg, 0) == cfg.monthlyHoa && InsuranceByMonth(cfg, 0) == cfg.monthlyInsurance
    ensures HOAByMonth(cfg, month + 1) == HOAByMonth(cfg, month) * (1.0 + cfg.inflationRate / 12.0)
    ensures InsuranceByMonth(cfg, month + 1) == InsuranceByMonth(cfg, month) * (1.0 + cfg.inflationRate / 12.0)
  {
    InflatedStep(cfg.monthlyHoa, cfg.inflationRate, month);
    InflatedStep(cfg.monthlyInsurance, cfg.inflationRate, month);
  }

  /** What `Init` needs of the configuration: the mortgage formula divides by
      zero unless the rate and the loan term are positive. */
  predicate ValidConfig(cfg: Config)
  {
    0.0 < cfg.annualInterestRate && 0 < cfg.morgageTerms
  }

  /** The housing cost over `cfg.livingMonth` months of the tables `Init`
      builds from `cfg`, as HousingTotal states it. */
  function ProjectedHousingCost(cfg: Config): real
    requires ValidConfig(cfg)
  {
    var n := cfg.livingMonth;
    HousingTotal(cfg, InterestSeries(n, cfg.totalHousePrice, cfg.downpaymentPct, cfg.morgageTerms, cfg.annualInterestRate),
                 PrincipalSeries(n, cfg.totalHousePrice, cfg.downpaymentPct, cfg.morgageTerms, cfg.annualInterestRate),
                 PropertyTaxSeries(n, cfg.totalHousePrice, cfg.annualPropertyTaxRate, cfg.inflationRate), n)
  }

  /** Spent over the first `months` months on a house: the recorded interest,
      principal and tax entries plus HOA and insurance, untruncated. */
  function HousingTotal(cfg: Config, interest: seq<int>, principle: seq<int>, tax: seq<int>, months: nat): real
    requires months <= |interest| && months <= |principle| && months <= |tax|
  {
    (Sum(interest[..months]) + Sum(principle[..months]) + Sum(tax[..months])) as real
    + InflatedTotal(cfg.monthlyHoa, cfg.inflationRate, months)
    + InflatedTotal(cfg.monthlyInsurance, cfg.inflationRate, months)
  }

  /** The process-wide cost tables, one object per projection. */
  class CostTables {
    var costOfMonth: seq<int>
    var principleOfMonth: seq<int>
    var interestOfMonth: seq<int>
    var propertyTaxOfMonth: seq<int>

    constructor ()
      ensures costOfMonth == [] && principleOfMonth == [] && interestOfMonth == [] && propertyTaxOfMonth == []
    {
      costOfMonth, principleOfMonth, interestOfMonth, propertyTaxOfMonth := [], [], [], [];
    }

    /** Appends `termInMonth` rents to `costOfMonth`: the untruncated rent is
        carried forward and only the recorded value is truncated. */
    method InitCostOfRental(termInMonth: nat, inflationRate: real, initialRent: real)
      modifies this
      ensures costOfMonth == old(costOfMonth) + RentalSeries(termInMonth, inflationRate, initialRent)
      ensures principleOfMonth == old(principleOfMonth) && interestOfMonth == old(interestOfMonth)
      ensures propertyTaxOfMonth == old(propertyTaxOfMonth)
    {
      var rent := initialRent;
      for month := 0 to termInMonth
        invariant rent == Inflated(initialRent, inflationRate, month)
        invariant costOfMonth == old(costOfMonth) + RentalSeries(month, inflationRate, initialRent)
        invariant principleOfMonth == old(principleOfMonth) && interestOfMonth == old(interestOfMonth)
        invariant propertyTaxOfMonth == old(propertyTaxOfMonth)
      {
        RentalSeriesExtend(month, inflationRate, initialRent);
        costOfMonth := costOfMonth + [Trunc(rent)];
        rent := rent * (1.0 + inflationRate / 12.0);
      }
    }

    /** Appends `termInMonth` interest and principal parts of the fixed
        monthly payment to `interestOfMonth` and `principleOfMonth`, carrying
        the untruncated balance forward. */
    method InitCostOfBank(termInMonth: nat, total: real, downpaymentPct: real, loanTermInMonth: nat, annualInterestRate: real)
      requires 0.0 < annualInterestRate && 0 < loanTermInMonth
      modifies this
      ensures interestOfMonth
           == old(interestOfMonth) + InterestSeries(termInMonth, total, downpaymentPct, loanTermInMonth, annualInterestRate)
      ensures principleOfMonth
           == old(principleOfMonth) + PrincipalSeries(termInMonth, total, downpaymentPct, loanTermInMonth, annualInterestRate)
      ensures costOfMonth == old(costOfMonth) && propertyTaxOfMonth == old(propertyTaxOfMonth)
    {
      var morgage := total * (1.0 - downpaymentPct);
      var monthlyPayment := MonthlyPaymentToBank(total, downpaymentPct, loanTermInMonth, annualInterestRate);
      ghost var loan := LoanAmount(total, downpaymentPct);
      for month := 0 to termInMonth
        invariant morgage == Balance(loan, annualInterestRate, monthlyPayment, month)
        invariant interestOfMonth
               == old(interestOfMonth) + InterestSeries(month, total, downpaymentPct, loanTermInMonth, annualInterestRate)
        invariant principleOfMonth
               == old(principleOfMonth) + PrincipalSeries(month, total, downpaymentPct, loanTermInMonth, annualInterestRate)
        invariant costOfMonth == old(costOfMonth) && propertyTaxOfMonth == old(propertyTaxOfMonth)
      {
        var interestOfTheMonth := morgage * annualInterestRate / 12.0;
        var principleOfTheMonth := monthlyPayment - interestOfTheMonth;
        assert interestOfTheMonth == InterestAt(loan, annualInterestRate, monthlyPayment, month);
        assert principleOfTheMonth == PrincipalAt(loan, annualInterestRate, monthlyPayment, month);
        PaymentSplits(loan, annualInterestRate, monthlyPayment, month);
        morgage := morgage - principleOfTheMonth;
        BankSeriesExtend(month, total, downpaymentPct, loanTermInMonth, annualInterestRate);
        interestOfMonth := interestOfMonth + [Trunc(interestOfTheMonth)];
        principleOfMonth := principleOfMonth + [Trunc(principleOfTheMonth)];
      }
    }

    /** Appends `termInMonth` monthly property taxes to `propertyTaxOfMonth`;
        the untruncated assessed value grows at `IncRate(inflationRate)`. */
    method InitPropertyTax(termInMonth: nat, total: real, propertyTaxRate: real, inflationRate: real)
      modifies this
      ensures propertyTaxOfMonth
           == old(propertyTaxOfMonth) + PropertyTaxSeries(termInMonth, total, propertyTaxRate, inflationRate)
      ensures costOfMonth == old(costOfMonth) && principleOfMonth == old(principleOfMonth)
      ensures interestOfMonth == old(interestOfMonth)
    {
      var incRate := IncRate(inflationRate);
      var assessed := total;
      for month := 0 to termInMonth
        invariant assessed == Inflated(total, incRate, month)
        invariant propertyTaxOfMonth
               == old(propertyTaxOfMonth) + PropertyTaxSeries(month, total, propertyTaxRate, inflationRate)
        invariant costOfMonth == old(costOfMonth) && principleOfMonth == old(principleOfMonth)
        invariant interestOfMonth == old(interestOfMonth)
      {
        var tax := assessed * propertyTaxRate / 12.0;
        assert tax == PropertyTaxAt(total, propertyTaxRate, inflationRate, month);
        PropertyTaxSeriesExtend(month, total, propertyTaxRate, inflationRate);
        propertyTaxOfMonth := propertyTaxOfMonth + [Trunc(tax)];
        assessed := assessed * (1.0 + incRate / 12.0);
      }
    }

    /** Builds all four tables for `cfg.livingMonth` months. The tables are
        appended to, never reset. */
    method Init(cfg: Config)
      requires ValidConfig(cfg)
      modifies this
      ensures costOfMonth
           == old(costOfMonth) + RentalSeries(cfg.livingMonth, cfg.inflationRate, cfg.initialMonthlyRent)
      ensures interestOfMonth
           == old(interestOfMonth)
              + InterestSeries(cfg.livingMonth, cfg.totalHousePrice, cfg.downpaymentPct, cfg.morgageTerms, cfg.annualInterestRate)
      ensures principleOfMonth
           == old(principleOfMonth)
              + PrincipalSeries(cfg.livingMonth, cfg.totalHousePrice, cfg.downpaymentPct, cfg.morgageTerms, cfg.annualInterestRate)
      ensures propertyTaxOfMonth
           == old(propertyTaxOfMonth)
              + PropertyTaxSeries(cfg.livingMonth, cfg.totalHousePrice, cfg.annualPropertyTaxRate, cfg.inflationRate)
    {
      InitCostOfRental(cfg.livingMonth, cfg.inflationRate, cfg.initialMonthlyRent);
      InitCostOfBank(cfg.livingMonth, cfg.totalHousePrice, cfg.downpaymentPct, cfg.morgageTerms, cfg.annualInterestRate);
      InitPropertyTax(cfg.livingMonth, cfg.totalHousePrice, cfg.annualPropertyTaxRate, cfg.inflationRate);
    }

    /** The lookups read one recorded entry; the month must lie within the
        table, where Python would raise `IndexError`. */
    function RentalCostByMonth(month: nat): int
      reads this
      requires month < |costOfMonth|
    {
      costOfMonth[month]
    }

    function InterestCostByMonth(month: nat): int
      reads this
      requires month < |interestOfMonth|
    {
      interestOfMonth[month]
    }

    function PrincipleCostByMonth(month: nat): int
      reads this
      requires month < |principleOfMonth|
    {
      principleOfMonth[month]
    }

    function PropertyTaxByMonth(month: nat): int
      reads this
      requires month < |propertyTaxOfMonth|
    {
      propertyTaxOfMonth[month]
    }

    /** The rent paid over the first `termInMonth` months. */
    method TotalRentalCost(termInMonth: nat) returns (cost: int)
      requires termInMonth <= |costOfMonth|
      ensures cost == Sum(costOfMonth[..termInMonth])
    {
      cost := 0;
      for month := 0 to termInMonth
        invariant cost == Sum(costOfMonth[..month])
      {
        var rental := RentalCostByMonth(month);
        SumPrefixStep(costOfMonth, month);
        cost := cost + rental;
      }
    }

    /** Everything spent on the house over the first `termInMonth` months, and
        the same less the principal, which counts as savings. */
    method TotalHousingCost(cfg: Config, termInMonth: nat) returns (totalCost: real, pureCost: real)
      requires termInMonth <= |interestOfMonth| && termInMonth <= |principleOfMonth|
      requires termInMonth <= |propertyTaxOfMonth|
      ensures totalCost == HousingTotal(cfg, interestOfMonth, principleOfMonth, propertyTaxOfMonth, termInMonth)
      ensures pureCost == totalCost - Sum(principleOfMonth[..termInMonth]) as real
    {
      pureCost := 0.0;
      totalCost := 0.0;
      for month := 0 to termInMonth
        invariant totalCost == HousingTotal(cfg, interestOfMonth, principleOfMonth, propertyTaxOfMonth, month)
        invariant pureCost == totalCost - Sum(principleOfMonth[..month]) as real
      {
        var interest := InterestCostByMonth(month);
        var principle := PrincipleCostByMonth(month);
        var tax := PropertyTaxByMonth(month);
        var hoa := HOAByMonth(cfg, month);
        var insurance := InsuranceByMonth(cfg, month);
        var total := interest as real + principle as real + tax as real + hoa + insurance;
        SumPrefixStep(interestOfMonth, month);
        SumPrefixStep(principleOfMonth, month);
        SumPrefixStep(propertyTaxOfMonth, month);
        pureCost := pureCost + (total - principle as real);
        totalCost := totalCost + total;
      }
    }
  }

  /** One run of the program on fresh tables: build them, then report the rent
      and the two housing figures over `cfg.livingMonth` months. A run depends
      on `cfg` alone. */
  method Project(cfg: Config) returns (totalRentalCost: int, totalHousingCost: real, pureHousingCost: real)
    requires ValidConfig(cfg)
    ensures totalRentalCost == Sum(RentalSeries(cfg.livingMonth, cfg.inflationRate, cfg.initialMonthlyRent))
    ensures totalHousingCost == ProjectedHousingCost(cfg)
    ensures pureHousingCost == totalHousingCost
            - Sum(PrincipalSeries(cfg.livingMonth, cfg.totalHousePrice, cfg.downpaymentPct, cfg.morgageTerms, cfg.annualInterestRate)) as real
  {
    var tables := new CostTables();
    tables.Init(cfg);
    var n := cfg.livingMonth;
    ghost var rental := RentalSeries(n, cfg.inflationRate, cfg.initialMonthlyRent);
    ghost var interest := InterestSeries(n, cfg.totalHousePrice, cfg.downpaymentPct, cfg.morgageTerms, cfg.annualInterestRate);
    ghost var principle := PrincipalSeries(n, cfg.totalHousePrice, cfg.downpaymentPct, cfg.morgageTerms, cfg.annualInterestRate);
    ghost var tax := PropertyTaxSeries(n, cfg.totalHousePrice, cfg.annualPropertyTaxRate, cfg.inflationRate);
    assert [] + rental == rental && [] + interest == interest && [] + principle == principle && [] + tax == tax;
    assert tables.costOfMonth == rental && rental[..n] == rental;
    assert tables.interestOfMonth == interest && tables.principleOfMonth == principle && tables.propertyTaxOfMonth == tax;
    assert principle[..n] == principle;
    totalRentalCost := tables.TotalRentalCost(n);
    totalHousingCost, pureHousingCost := tables.TotalHousingCost(cfg, n);
  }
}
