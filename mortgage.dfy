/** The fixed-payment mortgage: the annuity payment and the month-by-month
    split of that payment into interest and principal. */
module Mortgage {
  import opened Compounding

  /** The amount borrowed: the house price less the downpayment. With a
      downpayment share between 0 and 1 it lies between nothing and the price. */
  function LoanAmount(total: real, downpaymentPct: real): (loan: real)
    ensures 0.0 <= total && 0.0 <= downpaymentPct <= 1.0 ==> 0.0 <= loan <= total
  {
    if 0.0 <= total && 0.0 <= downpaymentPct <= 1.0 then
      ScaleMonotone(total, 0.0, 1.0 - downpaymentPct);
      ScaleMonotone(total, 1.0 - downpaymentPct, 1.0);
      total * (1.0 - downpaymentPct)
    else
      total * (1.0 - downpaymentPct)
  }

  /** The untruncated balance still owed after `month` monthly payments of
      `payment`: each month the principal part of the payment is paid off. */
  function Balance(loan: real, annualRate: real, payment: real, month: nat): real
  {
    if month == 0 then loan
    else
      var owed := Balance(loan, annualRate, payment, month - 1);
      owed - (payment - owed * annualRate / 12.0)
  }

  /** The untruncated interest charged in month `month` on the balance then owed. */
  function InterestAt(loan: real, annualRate: real, payment: real, month: nat): real
  {
    Balance(loan, annualRate, payment, month) * annualRate / 12.0
  }

  /** The untruncated part of month `month`'s payment that reduces the balance. */
  function PrincipalAt(loan: real, annualRate: real, payment: real, month: nat): real
  {
    payment - InterestAt(loan, annualRate, payment, month)
  }

  /** The principal paid over the first `months` months. */
  function PrincipalPaid(loan: real, annualRate: real, payment: real, months: nat): real
  {
    if months == 0 then 0.0
    else PrincipalPaid(loan, annualRate, payment, months - 1) + PrincipalAt(loan, annualRate, payment, months - 1)
  }

  /** The fixed monthly payment (principal and interest) of a loan of
      `total * (1 - downpaymentPct)` over `loanTermInMonth` months: exactly the
      payment that leaves nothing owed after the last month, and, for a
      positive loan, more than the first month's interest. */
  function MonthlyPaymentToBank(total: real, downpaymentPct: real, loanTermInMonth: nat, annualInterestRate: real): (payment: real)
    requires 0.0 < annualInterestRate && 0 < loanTermInMonth
    ensures Balance(LoanAmount(total, downpaymentPct), annualInterestRate, payment, loanTermInMonth) == 0.0
    ensures 0.0 < LoanAmount(total, downpaymentPct) ==> LoanAmount(total, downpaymentPct) * annualInterestRate / 12.0 < payment
    ensures 0.0 == LoanAmount(total, downpaymentPct) ==> payment == 0.0
  {
    var loan := LoanAmount(total, downpaymentPct);
    var r := annualInterestRate / 12.0;
    var growth := Pow(1.0 + r, loanTermInMonth);
    PowAboveOne(1.0 + r, loanTermInMonth);
    var payment := loan * (r * growth) / (growth - 1.0);
    assert payment * (growth - 1.0) == loan * r * growth;
    AnnuityPayment(loan, annualInterestRate, loanTermInMonth, payment);
    payment
  }

  /** Any payment satisfying the annuity identity
      `payment * ((1+r)**n - 1) == loan * r * (1+r)**n` retires the loan in
      exactly `n` months, and pays more than the first month's interest on a
      positive loan. */
  lemma AnnuityPayment(loan: real, annualRate: real, loanTermInMonth: nat, payment: real)
    requires 0.0 < annualRate && 0 < loanTermInMonth
    requires payment * (Pow(1.0 + annualRate / 12.0, loanTermInMonth) - 1.0)
          == loan * (annualRate / 12.0) * Pow(1.0 + annualRate / 12.0, loanTermInMonth)
    ensures Balance(loan, annualRate, payment, loanTermInMonth) == 0.0
    ensures 0.0 < loan ==> loan * annualRate / 12.0 < payment
    ensures 0.0 == loan ==> payment == 0.0
  {
    var r := annualRate / 12.0;
    var growth := Pow(1.0 + r, loanTermInMonth);
    PowAboveOne(1.0 + r, loanTermInMonth);
    BalanceClosedForm(loan, annualRate, payment, loanTermInMonth);
    var owed := Balance(loan, annualRate, payment, loanTermInMonth);
    assert r * owed == 0.0;
    if 0.0 < loan {
      assert (payment - loan * r) * (growth - 1.0) == loan * r;
      assert 0.0 < loan * r;
    } else if loan == 0.0 {
      CancelPositive(payment, 0.0, growth - 1.0);
    }
  }

  /** Conversely, a payment that leaves nothing owed after `n` months meets
      the annuity identity. */
  lemma RetiringPaymentIsAnnuity(loan: real, annualRate: real, loanTermInMonth: nat, payment: real)
    requires 0.0 < annualRate && 0 < loanTermInMonth
    requires Balance(loan, annualRate, payment, loanTermInMonth) == 0.0
    ensures payment * (Pow(1.0 + annualRate / 12.0, loanTermInMonth) - 1.0)
         == loan * (annualRate / 12.0) * Pow(1.0 + annualRate / 12.0, loanTermInMonth)
  {
    BalanceClosedForm(loan, annualRate, payment, loanTermInMonth);
  }

  /** So at most one payment retires a loan in exactly `loanTermInMonth` months. */
  lemma RetiringPaymentIsUnique(loan: real, annualRate: real, loanTermInMonth: nat, x: real, y: real)
    requires 0.0 < annualRate && 0 < loanTermInMonth
    requires Balance(loan, annualRate, x, loanTermInMonth) == 0.0 && Balance(loan, annualRate, y, loanTermInMonth) == 0.0
    ensures x == y
  {
    RetiringPaymentIsAnnuity(loan, annualRate, loanTermInMonth, x);
    RetiringPaymentIsAnnuity(loan, annualRate, loanTermInMonth, y);
    PowAboveOne(1.0 + annualRate / 12.0, loanTermInMonth);
    SameAnnuityPayment(x, y, loan * (annualRate / 12.0), Pow(1.0 + annualRate / 12.0, loanTermInMonth));
  }

  /** Hence `MonthlyPaymentToBank` is the only payment that retires the loan
      in exactly `loanTermInMonth` months. */
  lemma MonthlyPaymentIsUnique(total: real, downpaymentPct: real, loanTermInMonth: nat, annualInterestRate: real, payment: real)
    requires 0.0 < annualInterestRate && 0 < loanTermInMonth
    requires Balance(LoanAmount(total, downpaymentPct), annualInterestRate, payment, loanTermInMonth) == 0.0
    ensures payment == MonthlyPaymentToBank(total, downpaymentPct, loanTermInMonth, annualInterestRate)
  {
    RetiringPaymentIsUnique(LoanAmount(total, downpaymentPct), annualInterestRate, loanTermInMonth,
                            payment, MonthlyPaymentToBank(total, downpaymentPct, loanTermInMonth, annualInterestRate));
  }

  /** Two payments meeting the same annuity identity are equal (a hint for
      the solver). */
  lemma SameAnnuityPayment(x: real, y: real, loanRate: real, growth: real)
    requires 1.0 < growth
    requires x * (growth - 1.0) == loanRate * growth && y * (growth - 1.0) == loanRate * growth
    ensures x == y
  {
    CancelPositive(x, y, growth - 1.0);
  }

  /** Closed form of the balance, multiplied through by the monthly rate `r`:
      `r * balance == loan * r * (1+r)**month - payment * ((1+r)**month - 1)`. */
  lemma {:induction false} BalanceClosedForm(loan: real, annualRate: real, payment: real, month: nat)
    ensures var r := annualRate / 12.0;
            r * Balance(loan, annualRate, payment, month)
            == loan * r * Pow(1.0 + r, month) - payment * (Pow(1.0 + r, month) - 1.0)
  {
    if month > 0 {
      var r := annualRate / 12.0;
      var owed := Balance(loan, annualRate, payment, month - 1);
      var p := Pow(1.0 + r, month - 1);
      var next := Balance(loan, annualRate, payment, month);
      var grown := Pow(1.0 + r, month);
      assert next == owed - (payment - owed * r);
      assert grown == (1.0 + r) * p;
      BalanceClosedForm(loan, annualRate, payment, month - 1);
      BalanceStepAlgebra(loan, r, payment, owed, p, next, grown);
    }
  }

  /** One month of `BalanceClosedForm`, as plain algebra on reals (a hint for
      the solver). */
  lemma BalanceStepAlgebra(loan: real, r: real, payment: real, owed: real, p: real, next: real, grown: real)
    requires r * owed == loan * r * p - payment * (p - 1.0)
    requires next == owed - (payment - owed * r) && grown == (1.0 + r) * p
    ensures r * next == loan * r * grown - payment * (grown - 1.0)
  {
  }

  /** Interest and principal together are always the whole payment. */
  lemma PaymentSplits(loan: real, annualRate: real, payment: real, month: nat)
    ensures InterestAt(loan, annualRate, payment, month) + PrincipalAt(loan, annualRate, payment, month) == payment
    ensures Balance(loan, annualRate, payment, month + 1)
         == Balance(loan, annualRate, payment, month) - PrincipalAt(loan, annualRate, payment, month)
  {
  }

  /** What is still owed is the loan less all principal paid so far. */
  lemma {:induction false} BalanceIsLoanLessPrincipalPaid(loan: real, annualRate: real, payment: real, months: nat)
    ensures Balance(loan, annualRate, payment, months) == loan - PrincipalPaid(loan, annualRate, payment, months)
  {
    if months > 0 {
      BalanceIsLoanLessPrincipalPaid(loan, annualRate, payment, months - 1);
    }
  }

  /** The principal part grows by the monthly growth factor every month. */
  lemma PrincipalCompounds(loan: real, annualRate: real, payment: real, month: nat)
    ensures PrincipalAt(loan, annualRate, payment, month + 1)
         == PrincipalAt(loan, annualRate, payment, month) * (1.0 + annualRate / 12.0)
  {
  }

  /** Hence month `month`'s principal is the first month's, compounded. */
  lemma {:induction false} PrincipalClosedForm(loan: real, annualRate: real, payment: real, month: nat)
    ensures PrincipalAt(loan, annualRate, payment, month)
         == (payment - loan * annualRate / 12.0) * Pow(1.0 + annualRate / 12.0, month)
  {
    if month > 0 {
      PrincipalClosedForm(loan, annualRate, payment, month - 1);
      PrincipalCompounds(loan, annualRate, payment, month - 1);
    }
  }

  /** When the payment covers at least the first month's interest and the rate
      is not negative, the principal part is never negative and never
      decreases from month to month. */
  lemma PrincipalNonDecreasing(loan: real, annualRate: real, payment: real, i: nat, j: nat)
    requires 0.0 <= annualRate && loan * annualRate / 12.0 <= payment && i <= j
    ensures 0.0 <= PrincipalAt(loan, annualRate, payment, i) <= PrincipalAt(loan, annualRate, payment, j)
  {
    var first := payment - loan * annualRate / 12.0;
    var g := 1.0 + annualRate / 12.0;
    PrincipalClosedForm(loan, annualRate, payment, i);
    PrincipalClosedForm(loan, annualRate, payment, j);
    PowAtLeastOne(g, i);
    PowMonotoneInExponent(g, i, j);
    ScaleMonotone(first, 0.0, Pow(g, i));
    ScaleMonotone(first, Pow(g, i), Pow(g, j));
  }

  /** Under the same conditions the interest part never increases: the
      percentage of interest goes down as principal is paid. */
  lemma InterestNonIncreasing(loan: real, annualRate: real, payment: real, i: nat, j: nat)
    requires 0.0 <= annualRate && loan * annualRate / 12.0 <= payment && i <= j
    ensures InterestAt(loan, annualRate, payment, j) <= InterestAt(loan, annualRate, payment, i)
  {
    PrincipalNonDecreasing(loan, annualRate, payment, i, j);
    PaymentSplits(loan, annualRate, payment, i);
    PaymentSplits(loan, annualRate, payment, j);
  }

  /** Under the same conditions the balance never increases. */
  lemma {:induction false} BalanceNonIncreasing(loan: real, annualRate: real, payment: real, i: nat, j: nat)
    requires 0.0 <= annualRate && loan * annualRate / 12.0 <= payment && i <= j
    ensures Balance(loan, annualRate, payment, j) <= Balance(loan, annualRate, payment, i)
  {
    if i < j {
      BalanceNonIncreasing(loan, annualRate, payment, i, j - 1);
      var g := 1.0 + annualRate / 12.0;
      PrincipalClosedForm(loan, annualRate, payment, j - 1);
      PowAtLeastOne(g, j - 1);
      ScaleMonotone(payment - loan * annualRate / 12.0, 0.0, Pow(g, j - 1));
    }
  }

  /** Within the loan term, the monthly payment of `MonthlyPaymentToBank`
      never overpays: the balance stays non-negative, so each month's interest
      and principal are both non-negative. */
  lemma BalanceNonNegativeWithinTerm(total: real, downpaymentPct: real, loanTermInMonth: nat, annualInterestRate: real, month: nat)
    requires 0.0 < annualInterestRate && 0 < loanTermInMonth
    requires 0.0 <= LoanAmount(total, downpaymentPct) && month <= loanTermInMonth
    ensures var loan, payment := LoanAmount(total, downpaymentPct), MonthlyPaymentToBank(total, downpaymentPct, loanTermInMonth, annualInterestRate);
            0.0 <= Balance(loan, annualInterestRate, payment, month)
            && 0.0 <= InterestAt(loan, annualInterestRate, payment, month)
            && 0.0 <= PrincipalAt(loan, annualInterestRate, payment, month)
  {
    var loan := LoanAmount(total, downpaymentPct);
    var payment := MonthlyPaymentToBank(total, downpaymentPct, loanTermInMonth, annualInterestRate);
    BalanceNonIncreasing(loan, annualInterestRate, payment, month, loanTermInMonth);
    PrincipalNonDecreasing(loan, annualInterestRate, payment, month, month);
    var b := Balance(loan, annualInterestRate, payment, month);
    assert 0.0 <= b * annualInterestRate;
  }
}
