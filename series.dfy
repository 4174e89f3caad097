/** The four monthly cost tables in closed form, entry by entry, and the
    properties they have: each entry is the untruncated running amount of its
    month passed through `int()`. */
module Series {
  import opened Compounding
  import opened Mortgage

  /** The largest yearly growth of a property's assessed value (California's
      Proposition 13 caps it at 2%). */
  const ASSESSED_VALUE_INC_RATE: real := 0.02

  /** The yearly growth of the assessed value: the smaller of the cap and the
      inflation rate, as Python's `min(cap, inflationRate)`. */
  function IncRate(inflationRate: real): (rate: real)
    ensures rate <= ASSESSED_VALUE_INC_RATE && rate <= inflationRate
    ensures rate == ASSESSED_VALUE_INC_RATE || rate == inflationRate
  {
    if inflationRate < ASSESSED_VALUE_INC_RATE then inflationRate else ASSESSED_VALUE_INC_RATE
  }

  /** Rent of month `month` for `termInMonth` months, truncated per entry. */
  function RentalSeries(termInMonth: nat, inflationRate: real, initialRent: real): seq<int>
  {
    seq(termInMonth, month requires 0 <= month => Trunc(Inflated(initialRent, inflationRate, month)))
  }

  /** The untruncated property tax of month `month`: the assessed value, grown
      at `IncRate`, times the monthly tax rate. */
  function PropertyTaxAt(total: real, propertyTaxRate: real, inflationRate: real, month: nat): real
  {
    Inflated(total, IncRate(inflationRate), month) * propertyTaxRate / 12.0
  }

  function PropertyTaxSeries(termInMonth: nat, total: real, propertyTaxRate: real, inflationRate: real): seq<int>
  {
    seq(termInMonth, month requires 0 <= month => Trunc(PropertyTaxAt(total, propertyTaxRate, inflationRate, month)))
  }

  /** The interest part of the first `termInMonth` mortgage payments, truncated per entry. */
  function InterestSeries(termInMonth: nat, total: real, downpaymentPct: real, loanTermInMonth: nat, annualInterestRate: real): seq<int>
    requires 0.0 < annualInterestRate && 0 < loanTermInMonth
  {
    var loan := LoanAmount(total, downpaymentPct);
    var payment := MonthlyPaymentToBank(total, downpaymentPct, loanTermInMonth, annualInterestRate);
    seq(termInMonth, month requires 0 <= month => Trunc(InterestAt(loan, annualInterestRate, payment, month)))
  }

  /** The principal part of the first `termInMonth` mortgage payments, truncated per entry. */
  function PrincipalSeries(termInMonth: nat, total: real, downpaymentPct: real, loanTermInMonth: nat, annualInterestRate: real): seq<int>
    requires 0.0 < annualInterestRate && 0 < loanTermInMonth
  {
    var loan := LoanAmount(total, downpaymentPct);
    var payment := MonthlyPaymentToBank(total, downpaymentPct, loanTermInMonth, annualInterestRate);
    seq(termInMonth, month requires 0 <= month => Trunc(PrincipalAt(loan, annualInterestRate, payment, month)))
  }

  /** Building one more month appends that month's truncated rent. */
  lemma RentalSeriesExtend(termInMonth: nat, inflationRate: real, initialRent: real)
    ensures RentalSeries(termInMonth + 1, inflationRate, initialRent)
         == RentalSeries(termInMonth, inflationRate, initialRent) + [Trunc(Inflated(initialRent, inflationRate, termInMonth))]
  {
  }

  /** Building one more month appends that month's truncated tax. */
  lemma PropertyTaxSeriesExtend(termInMonth: nat, total: real, propertyTaxRate: real, inflationRate: real)
    ensures PropertyTaxSeries(termInMonth + 1, total, propertyTaxRate, inflationRate)
         == PropertyTaxSeries(termInMonth, total, propertyTaxRate, inflationRate)
            + [Trunc(PropertyTaxAt(total, propertyTaxRate, inflationRate, termInMonth))]
  {
  }

  /** Building one more month appends that month's truncated interest and principal. */
  lemma BankSeriesExtend(termInMonth: nat, total: real, downpaymentPct: real, loanTermInMonth: nat, annualInterestRate: real)
    requires 0.0 < annualInterestRate && 0 < loanTermInMonth
    ensures var loan := LoanAmount(total, downpaymentPct);
            var payment := MonthlyPaymentToBank(total, downpaymentPct, loanTermInMonth, annualInterestRate);
            && InterestSeries(termInMonth + 1, total, downpaymentPct, loanTermInMonth, annualInterestRate)
               == InterestSeries(termInMonth, total, downpaymentPct, loanTermInMonth, annualInterestRate)
                  + [Trunc(InterestAt(loan, annualInterestRate, payment, termInMonth))]
            && PrincipalSeries(termInMonth + 1, total, downpaymentPct, loanTermInMonth, annualInterestRate)
               == PrincipalSeries(termInMonth, total, downpaymentPct, loanTermInMonth, annualInterestRate)
                  + [Trunc(PrincipalAt(loan, annualInterestRate, payment, termInMonth))]
  {
  }

  /** With non-negative inflation and initial rent, rent never goes down. */
  lemma RentalSeriesNonDecreasing(termInMonth: nat, inflationRate: real, initialRent: real, i: nat, j: nat)
    requires 0.0 <= inflationRate && 0.0 <= initialRent && i <= j < termInMonth
    ensures var s := RentalSeries(termInMonth, inflationRate, initialRent);
            0 <= s[i] <= s[j]
  {
    InflatedNonDecreasing(initialRent, inflationRate, i, j);
    TruncMonotone(Inflated(initialRent, inflationRate, i), Inflated(initialRent, inflationRate, j));
  }

  /** With a non-negative price, tax rate and inflation, property tax never goes down. */
  lemma PropertyTaxSeriesNonDecreasing(termInMonth: nat, total: real, propertyTaxRate: real, inflationRate: real, i: nat, j: nat)
    requires 0.0 <= total && 0.0 <= propertyTaxRate && 0.0 <= inflationRate && i <= j < termInMonth
    ensures var s := PropertyTaxSeries(termInMonth, total, propertyTaxRate, inflationRate);
            0 <= s[i] <= s[j]
  {
    var rate := IncRate(inflationRate);
    InflatedNonDecreasing(total, rate, i, j);
    var a, b := Inflated(total, rate, i), Inflated(total, rate, j);
    ScaleMonotone(propertyTaxRate, 0.0, a);
    ScaleMonotone(propertyTaxRate, a, b);
    assert 0.0 <= a * propertyTaxRate / 12.0 <= b * propertyTaxRate / 12.0;
    TruncMonotone(PropertyTaxAt(total, propertyTaxRate, inflationRate, i), PropertyTaxAt(total, propertyTaxRate, inflationRate, j));
  }

  /** However high inflation is, property tax never exceeds the tax on a value
      grown at the 2% cap. */
  lemma PropertyTaxSeriesCapped(termInMonth: nat, total: real, propertyTaxRate: real, inflationRate: real, month: nat)
    requires 0.0 <= total && 0.0 <= propertyTaxRate && -12.0 <= inflationRate && month < termInMonth
    ensures PropertyTaxSeries(termInMonth, total, propertyTaxRate, inflationRate)[month]
         <= Trunc(Inflated(total, ASSESSED_VALUE_INC_RATE, month) * propertyTaxRate / 12.0)
  {
    var rate := IncRate(inflationRate);
    assert -12.0 <= rate <= ASSESSED_VALUE_INC_RATE;
    var capped := Inflated(total, ASSESSED_VALUE_INC_RATE, month);
    var actual := Inflated(total, rate, month);
    InflatedRateMonotone(total, rate, ASSESSED_VALUE_INC_RATE, month);
    MonthlyTaxMonotone(actual, capped, propertyTaxRate);
    assert PropertyTaxAt(total, propertyTaxRate, inflationRate, month) == actual * propertyTaxRate / 12.0;
  }

  /** A larger assessed value never gives a smaller truncated monthly tax. */
  lemma MonthlyTaxMonotone(lower: real, higher: real, propertyTaxRate: real)
    requires lower <= higher && 0.0 <= propertyTaxRate
    ensures Trunc(lower * propertyTaxRate / 12.0) <= Trunc(higher * propertyTaxRate / 12.0)
  {
    ScaleMonotone(propertyTaxRate, lower, higher);
    TruncMonotone(lower * propertyTaxRate / 12.0, higher * propertyTaxRate / 12.0);
  }

  /** For a loan of at least zero, the recorded interest never goes up and the
      recorded principal never goes down; principal entries are never negative. */
  lemma BankSeriesMonotone(termInMonth: nat, total: real, downpaymentPct: real, loanTermInMonth: nat, annualInterestRate: real, i: nat, j: nat)
    requires 0.0 < annualInterestRate && 0 < loanTermInMonth
    requires 0.0 <= LoanAmount(total, downpaymentPct) && i <= j < termInMonth
    ensures var interest := InterestSeries(termInMonth, total, downpaymentPct, loanTermInMonth, annualInterestRate);
            var principle := PrincipalSeries(termInMonth, total, downpaymentPct, loanTermInMonth, annualInterestRate);
            interest[j] <= interest[i] && 0 <= principle[i] <= principle[j]
  {
    var loan := LoanAmount(total, downpaymentPct);
    var payment := MonthlyPaymentToBank(total, downpaymentPct, loanTermInMonth, annualInterestRate);
    PrincipalNonDecreasing(loan, annualInterestRate, payment, i, j);
    InterestNonIncreasing(loan, annualInterestRate, payment, i, j);
    TruncMonotone(PrincipalAt(loan, annualInterestRate, payment, i), PrincipalAt(loan, annualInterestRate, payment, j));
    TruncMonotone(InterestAt(loan, annualInterestRate, payment, j), InterestAt(loan, annualInterestRate, payment, i));
  }

  /** Within the loan term, recorded interest is never negative and the two
      recorded parts of a month add up to the monthly payment less under two
      units of truncation. */
  lemma BankSeriesWithinPayment(termInMonth: nat, total: real, downpaymentPct: real, loanTermInMonth: nat, annualInterestRate: real, month: nat)
    requires 0.0 < annualInterestRate && 0 < loanTermInMonth
    requires 0.0 <= LoanAmount(total, downpaymentPct) && termInMonth <= loanTermInMonth && month < termInMonth
    ensures var interest := InterestSeries(termInMonth, total, downpaymentPct, loanTermInMonth, annualInterestRate);
            var principle := PrincipalSeries(termInMonth, total, downpaymentPct, loanTermInMonth, annualInterestRate);
            var payment := MonthlyPaymentToBank(total, downpaymentPct, loanTermInMonth, annualInterestRate);
            0 <= interest[month] && 0 <= principle[month]
            && payment - 2.0 < (interest[month] + principle[month]) as real <= payment
  {
    var loan := LoanAmount(total, downpaymentPct);
    var payment := MonthlyPaymentToBank(total, downpaymentPct, loanTermInMonth, annualInterestRate);
    BalanceNonNegativeWithinTerm(total, downpaymentPct, loanTermInMonth, annualInterestRate, month);
    PaymentSplits(loan, annualInterestRate, payment, month);
  }

  /** With non-negative inflation and initial rent, `termInMonth` months of
      rent cost at least `termInMonth` times the first month's. */
  lemma RentalTotalAtLeastFirstMonth(termInMonth: nat, inflationRate: real, initialRent: real)
    requires 0.0 <= inflationRate && 0.0 <= initialRent
    ensures termInMonth * Trunc(initialRent) <= Sum(RentalSeries(termInMonth, inflationRate, initialRent))
  {
    var s := RentalSeries(termInMonth, inflationRate, initialRent);
    forall k | 0 <= k < termInMonth
      ensures Trunc(initialRent) <= s[k]
    {
      RentalSeriesNonDecreasing(termInMonth, inflationRate, initialRent, 0, k);
    }
    SumAtLeast(s, Trunc(initialRent));
  }

  /** For a loan of at least zero the recorded principal adds up to a
      non-negative amount, so the cost without principal never exceeds the
      total cost. */
  lemma PrincipalRecordedNonNegative(termInMonth: nat, total: real, downpaymentPct: real, loanTermInMonth: nat, annualInterestRate: real)
    requires 0.0 < annualInterestRate && 0 < loanTermInMonth && 0.0 <= LoanAmount(total, downpaymentPct)
    ensures 0 <= Sum(PrincipalSeries(termInMonth, total, downpaymentPct, loanTermInMonth, annualInterestRate))
  {
    var s := PrincipalSeries(termInMonth, total, downpaymentPct, loanTermInMonth, annualInterestRate);
    forall k | 0 <= k < termInMonth
      ensures 0 <= s[k]
    {
      BankSeriesMonotone(termInMonth, total, downpaymentPct, loanTermInMonth, annualInterestRate, k, k);
    }
    SumAtLeast(s, 0);
  }
}
