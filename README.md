# Rent-versus-buy cost projection, in Dafny

A model of `huasuan.py`, a small program that asks whether renting or buying
a home costs less over a fixed number of months. The program builds four
monthly cost tables:
- the rent;
- the interest part of the mortgage payment;
- the principal part of the mortgage payment;
- the property tax.

It derives HOA dues and insurance from a closed formula, then sums everything
over the months lived in the home.

Python floats are modelled as exact `real`s. Python's `int()` is `Trunc`,
which truncates toward zero. `x ** n` is the recursive `Pow`.

The project has four modules:

- `Compounding` (compounding.dfy): `Pow`, `Trunc`, `Sum` and `Inflated`.
  `Inflated` is an amount that grows by `rate / 12` each month. Rent, HOA,
  insurance and the assessed value of the house all follow it.
- `Mortgage` (mortgage.dfy): the annuity payment `MonthlyPaymentToBank`.
  It also defines the untruncated balance, interest and principal of every
  month, as the amortisation loop computes them.
- `Series` (series.dfy): each of the four tables in closed form, entry by
  entry, with the properties each table has.
- `Huasuan` (huasuan.dfy): the program itself.
  - In the source the four tables are module-level lists. Here they are the
    `seq<int>` fields of one `CostTables` object.
  - The three builders are methods that append to those fields. Each one
    states the new table as the old table followed by the closed-form series.
  - `Init` runs all three builders.
  - The lookups `RentalCostByMonth`, `InterestCostByMonth`,
    `PrincipleCostByMonth` and `PropertyTaxByMonth` are plain index reads
    (huasuan.py:146-159). Their index must be in range, because Python
    raises `IndexError` otherwise.
  - The two reports are read-only methods with accumulator loops.
  - `Project` is one run of the program on fresh tables.
  - The configuration constants are the fields of a `Config` value.

Some of the code's behaviour is easy to misread, and the model keeps it as
written:

- The payment formula divides by zero when the interest rate is zero
  (huasuan.py:54). The model requires a positive rate.
- HOA and insurance enter the totals untruncated (huasuan.py:216-218), so the
  housing totals are `real`s.
- The builders append and never reset the tables (huasuan.py:70, 97-98,
  120). So every builder's contract relates the new table to the old one.
  Only on fresh tables (`Project`) is each table exactly one series.
- The recorded interest and principal of a month are truncated separately.
  Within the loan term, for a loan of at least zero, together they fall
  short of the monthly payment by less than two units
  (`Series.BankSeriesWithinPayment`). Untruncated, they add up to the payment
  exactly (`Mortgage.PaymentSplits`).

## Model

| member | source | states |
|---|---|---|
| `Compounding.Trunc` | huasuan.py:70 | `int()` on a number is the integer at most one unit nearer to zero: `0 <= t <= x < t + 1` for `x >= 0`, `t - 1 < x <= t <= 0` for `x < 0` |
| `Compounding.TruncMonotone` | huasuan.py:97-98 | truncation preserves order, so the recorded tables keep the order of the untruncated amounts |
| `Compounding.InflatedStep` | huasuan.py:68-71 | an inflated amount starts at its base and next month's value is this month's untruncated value times `1 + rate/12` (the carry-forward the loops do) |
| `Compounding.InflatedNonDecreasing` | huasuan.py:68-71 | a non-negative amount with non-negative inflation is non-negative and never shrinks from a month to a later one |
| `Compounding.InflatedRateMonotone` | huasuan.py:116-122 | a non-negative amount grown at a lower monthly rate (down to -100%) never exceeds the same amount grown at a higher rate |
| `Compounding.InflatedTotalClosedForm` | huasuan.py:162-169 | the HOA or insurance paid over `n` months is the geometric sum: `total * rate/12 == base * ((1 + rate/12)**n - 1)` |
| `Compounding.PowMonotoneInExponent` | huasuan.py:54 | with a base of at least one, `x ** i <= x ** j` whenever `i <= j` |
| `Compounding.PowAboveOne` | huasuan.py:54 | `(1 + r) ** n > 1` for `r > 0` and `n > 0`, so the payment formula never divides by zero under its precondition |
| `Mortgage.LoanAmount` | huasuan.py:52 | the loan is the price less the downpayment; with a downpayment share between 0 and 1 it lies between 0 and the price |
| `Mortgage.Balance` | huasuan.py:84-95 | definition: the untruncated balance after `month` payments, each month reduced by the payment less that month's interest |
| `Mortgage.InterestAt` | huasuan.py:92 | definition: the month's untruncated interest, the balance then owed times `r` |
| `Mortgage.PrincipalAt` | huasuan.py:93 | definition: the month's untruncated principal, the payment less that month's interest |
| `Mortgage.MonthlyPaymentToBank` | huasuan.py:35-54 | the monthly payment leaves a balance of exactly zero after `loanTermInMonth` months; it exceeds the first month's interest on a positive loan and is zero on a zero loan |
| `Mortgage.AnnuityPayment` | huasuan.py:52-54 | any payment meeting the annuity identity `payment * ((1+r)**n - 1) == loan * r * (1+r)**n` retires the loan in exactly `n` months and pays more than the first month's interest |
| `Mortgage.RetiringPaymentIsAnnuity` | huasuan.py:52-54 | conversely, any payment that leaves a zero balance after `n` months meets the annuity identity |
| `Mortgage.RetiringPaymentIsUnique` | huasuan.py:52-54 | at most one payment leaves a zero balance after exactly `n` months |
| `Mortgage.MonthlyPaymentIsUnique` | huasuan.py:35-54 | the payment formula gives the only payment that retires the loan in exactly the loan term |
| `Mortgage.BalanceClosedForm` | huasuan.py:84-95 | after `k` months of the amortisation loop, `r * balance == loan * r * (1+r)**k - payment * ((1+r)**k - 1)` |
| `Mortgage.PaymentSplits` | huasuan.py:91-95 | every month untruncated interest plus untruncated principal equals the monthly payment, and the balance drops by that month's principal |
| `Mortgage.BalanceIsLoanLessPrincipalPaid` | huasuan.py:84-95 | the remaining balance is the initial loan minus the sum of the untruncated principals paid so far |
| `Mortgage.PrincipalCompounds` | huasuan.py:91-95 | each month's principal part is the previous month's times `1 + r` |
| `Mortgage.PrincipalClosedForm` | huasuan.py:91-95 | month `k`'s principal is `(payment - loan * r) * (1+r)**k` |
| `Mortgage.PrincipalNonDecreasing` | huasuan.py:40-42 | when the payment covers the first month's interest, the principal part is non-negative and never decreases across months |
| `Mortgage.InterestNonIncreasing` | huasuan.py:40-42 | under the same condition the interest part never increases as principal is paid |
| `Mortgage.BalanceNonIncreasing` | huasuan.py:91-95 | under the same condition the remaining balance never increases |
| `Mortgage.BalanceNonNegativeWithinTerm` | huasuan.py:84-95 | with the annuity payment and a non-negative loan, up to the loan term the balance, the interest and the principal are all non-negative |
| `Series.IncRate` | huasuan.py:115-116 | the assessed-value growth rate is the smaller of the 2% cap and the inflation rate: at most both, and equal to one of them |
| `Series.RentalSeriesExtend` | huasuan.py:68-71 | building one more month of rent appends `int(initialRent * (1 + infl/12)**month)` |
| `Series.PropertyTaxSeriesExtend` | huasuan.py:118-122 | building one more month of tax appends `int(assessedValue(month) * taxRate / 12)` |
| `Series.BankSeriesExtend` | huasuan.py:91-98 | building one more month appends the truncated interest and the truncated principal of that month |
| `Series.RentalSeriesNonDecreasing` | huasuan.py:68-71 | with non-negative inflation and initial rent, recorded rents are non-negative and non-decreasing by month |
| `Series.PropertyTaxSeriesNonDecreasing` | huasuan.py:115-122 | with non-negative price, tax rate and inflation, recorded taxes are non-negative and non-decreasing by month |
| `Series.PropertyTaxSeriesCapped` | huasuan.py:113-122 | however high inflation is, each recorded tax is at most the tax on a value grown at the 2% cap |
| `Series.BankSeriesMonotone` | huasuan.py:91-98 | for a non-negative loan, recorded interest never increases and recorded principal is non-negative and never decreases |
| `Series.BankSeriesWithinPayment` | huasuan.py:91-98 | within the loan term, a month's recorded interest and principal are non-negative and add up to the payment less under two units |
| `Series.RentalTotalAtLeastFirstMonth` | huasuan.py:185-193 | with non-negative inflation, `n` months of recorded rent sum to at least `n` times the first month's rent |
| `Series.PrincipalRecordedNonNegative` | huasuan.py:223-224 | for a non-negative loan the recorded principal sums to a non-negative amount, so the pure cost never exceeds the total cost |
| `Huasuan.HOAByMonth` | huasuan.py:162-164 | the month's HOA dues, inflated and not truncated; with non-negative dues and inflation never below the first month's |
| `Huasuan.InsuranceByMonth` | huasuan.py:167-169 | the month's insurance, inflated and not truncated; with non-negative premium and inflation never below the first month's |
| `Huasuan.HOAAndInsuranceCompound` | huasuan.py:162-169 | HOA and insurance start at their monthly amounts in month 0 and grow by `1 + inflationRate/12` from each month to the next |
| `Huasuan.CostTables.constructor` | huasuan.py:29-32 | the four tables start empty |
| `Huasuan.CostTables.InitCostOfRental` | huasuan.py:57-71 | appends exactly the rental series of `termInMonth` months to the rent table and leaves the other three tables unchanged |
| `Huasuan.CostTables.InitCostOfBank` | huasuan.py:74-98 | appends the interest series and the principal series of `termInMonth` months, computed from the untruncated balance, and leaves the rent and tax tables unchanged |
| `Huasuan.CostTables.InitPropertyTax` | huasuan.py:101-122 | appends exactly the property-tax series of `termInMonth` months and leaves the other three tables unchanged |
| `Huasuan.CostTables.Init` | huasuan.py:125-143 | appends every table's series for the configured months to what the table held before |
| `Huasuan.CostTables.RentalCostByMonth` | huasuan.py:146-147 | definition: the rent recorded for the month; the month must lie within the table |
| `Huasuan.CostTables.InterestCostByMonth` | huasuan.py:150-151 | definition: the interest recorded for the month; the month must lie within the table |
| `Huasuan.CostTables.PrincipleCostByMonth` | huasuan.py:154-155 | definition: the principal recorded for the month; the month must lie within the table |
| `Huasuan.CostTables.PropertyTaxByMonth` | huasuan.py:158-159 | definition: the tax recorded for the month; the month must lie within the table |
| `Huasuan.CostTables.TotalRentalCost` | huasuan.py:172-193 | returns the sum of the first `termInMonth` recorded rents |
| `Huasuan.CostTables.TotalHousingCost` | huasuan.py:195-226 | the total is the sums of the first `termInMonth` recorded interest, principal and tax entries plus the untruncated HOA and insurance totals; the pure cost is that total less the recorded principal |
| `Huasuan.Project` | huasuan.py:229-233 | one run on fresh tables returns the sum of the rental series and the housing totals over the tables built from the configuration alone |

## Left out

- Printing: the report headers, the `%d`/`%5d` table rows and `main`'s three summary lines (huasuan.py:180-184, 190-191, 206-210, 220-221, 235-238). This includes the downpayment that line 237 adds only inside its print statement. Output formatting does not change the computed values.
- The constant definitions and the `__main__` entry point (huasuan.py:15-26, 241-242). The constants become the fields of `Config`.
- IEEE-754 rounding. All arithmetic is exact, so agreement with Python floats bit for bit is not modelled.
- The unimplemented TODO features: investment return, tax deduction, agent cost and remodelling (huasuan.py:5-9).
- Mortgage.MonthlyPaymentToBank: requires a positive interest rate and loan term. Python divides by zero when the rate is zero, and also when the term is zero, since then `(1 + r) ** 0 - 1 == 0` (huasuan.py:54). Negative rates are also excluded, although Python would compute a value for them unless `(1 + r) ** n == 1`.
- Huasuan.CostTables.InitCostOfBank: inherits the positive-rate precondition, because the source calls the payment formula before its loop.
- Month counts and month indices are `nat`. Python's `range(0, n)` with a negative `n` appends or sums nothing; the model does not take negative counts.
- Huasuan.CostTables.RentalCostByMonth, InterestCostByMonth, PrincipleCostByMonth, PropertyTaxByMonth, Huasuan.HOAByMonth and Huasuan.InsuranceByMonth take a `nat` month. In Python a negative index reads from the end of the list, and a negative month in `getHOAByMonth`/`getInsuranceByMonth` deflates the amount. Every caller in the source passes a month from `range(0, n)`, so no computed total depends on this.
- Horizons longer than the loan term. The builders still model them exactly, and `Trunc` handles a negative balance as `int()` does. The non-negativity lemmas (`Mortgage.BalanceNonNegativeWithinTerm`, `Series.BankSeriesWithinPayment`) require the horizon to be within the term. Past the term the balance turns negative, and truncating toward zero can then make a month's recorded interest and principal add up to more than the payment.
- Huasuan.CostTables.RentalCostByMonth: requires the month within the rent table. Python raises `IndexError` otherwise, and the model has no error path for it.
- Huasuan.CostTables.InterestCostByMonth: requires the month within the interest table, for the same reason.
- Huasuan.CostTables.PrincipleCostByMonth: requires the month within the principal table, for the same reason.
- Huasuan.CostTables.PropertyTaxByMonth: requires the month within the tax table, for the same reason.
- Huasuan.CostTables.TotalRentalCost: requires `termInMonth` within the rent table, because it reads every month through `RentalCostByMonth`.
- Huasuan.CostTables.TotalHousingCost: requires `termInMonth` within the interest, principal and tax tables, because it reads every month through the three lookups.
