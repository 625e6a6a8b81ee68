# Finance-Manager liabilities: the derived monthly expense

This project models the one piece of behaviour in the Finance-Manager Django models. Saving a
`Liability` recomputes its `monthly_expense` field. A short-term liability stores its `amount`.
A long-term one stores the result of `calculate_monthly_expense`:

- no end date gives `None`;
- otherwise the loan runs over `max(1, days // 30)` months;
- without interest, the payment is straight-line `amount / months`;
- with interest, it is the annuity (amortizing-loan) payment at `rate / 12 / 100` a month;
- when that formula divides by zero, it falls back to straight-line;
- the result is rounded to cents.

Modules:

- `Wrappers` (wrappers.dfy): `Option`, which stands for Python's `None`.
- `RealMath` (real_math.dfy): integer powers and `round(x, 2)` over exact reals, with their properties.
- `Amortization` (amortization.dfy): the month-by-month loan balance. This is the reference the payment
  is proved to settle. The balance gains a month's interest and then one payment is taken off.
- `FinModels` (models.dfy): the `Account` record, the calculation inputs (`LiabilityTerms`), the
  calculation itself, and the `Liability` class whose `Save` updates only `monthlyExpense`.

Dates are day numbers, so `(end_date - date).days` is integer subtraction. Python's `//` with divisor 30
is Dafny's `/`, because both round down, also for negative day counts. Amounts and rates are reals.

Two facts about the code that are easy to misread:

- `//` floors. For an end date before the start the quotient is negative, and `max(1, ·)` still
  gives 1 month.
- 1200 at 12% a year over 366 days (12 months) gives 106.62 (`FinModels.ScenarioAnnuity`).

The formula divides by zero over the reals in only two cases:

- a rate of -1200% a year, where `(1 + m) ** -months` is `0.0` to a negative power;
- a rate of -2400% a year with an even month count, where `(1 + m) ** -months` is 1.

So a positive rate never takes the fallback (`FinModels.FallbackIffDegenerate`).

## Model

| member | source | states |
|---|---|---|
| `RealMath.Pow` | fin_manager/models.py:54 | a nonzero base raised to a natural power is nonzero (positive for a positive base), so the negative power `1 / b ** n` exists |
| `RealMath.PowIsOne` | fin_manager/models.py:54 | `b ** n == 1` for `n >= 1` exactly when `b == 1`, or `b == -1` and `n` is even |
| `RealMath.RoundHalfEven` | fin_manager/models.py:50 | the result is an integer within one half of `x`, and an exact tie goes to the even neighbour |
| `RealMath.Round2` | fin_manager/models.py:55 | `round(x, 2)` is a whole number of cents within half a cent of `x`; at an exact half-cent tie it is the even cent |
| `RealMath.Round2OfCents` | fin_manager/models.py:57 | a value already in whole cents is left unchanged by `round(·, 2)` |
| `Amortization.BalanceClosedForm` | fin_manager/models.py:54 | after `k` payments the balance satisfies `m·B = m·A·(1+m)^k − p·((1+m)^k − 1)`, the identity the annuity formula solves for `B = 0` |
| `Amortization.BalanceWithoutInterest` | fin_manager/models.py:49-50 | at zero interest, `k` payments of `p` reduce the principal by exactly `k·p` |
| `FinModels.Months` | fin_manager/models.py:46-47 | the month count is at least 1; it is 1 exactly when the end date is under 60 days after the start (including end dates before the start); from 30 days on it is the number of whole 30-day periods |
| `FinModels.MonthlyRate` | fin_manager/models.py:52 | the monthly fraction is the annual percentage divided by 1200 |
| `FinModels.StraightLine` | fin_manager/models.py:50 | `months` straight-line payments add up to the amount exactly; the divisor is never zero because `months >= 1` |
| `FinModels.Annuity` | fin_manager/models.py:53-54 | when the formula does not raise, its payment times the denominator `1 − (1+m)^−months` is `amount·m`, and that denominator is nonzero |
| `FinModels.AnnuityDenominator` | fin_manager/models.py:54 | the denominator `1 − (1+m)^−months` times `(1+m)^months` is `(1+m)^months − 1`, so it is zero exactly when that power is 1 |
| `FinModels.Payment` | fin_manager/models.py:49-57 | the unrounded payment: straight-line when the rate is `None` or 0 (its `months` payments add up to the amount); otherwise the annuity payment, falling back to straight-line on `ZeroDivisionError`. `PaymentRepaysLoan` and `FallbackIffDegenerate` state what it is for the other rates |
| `FinModels.CalculateMonthlyExpense` | fin_manager/models.py:41-59 | a short-term liability gives its amount; a long-term one gives `None` exactly when it has no end date, and otherwise a whole number of cents |
| `FinModels.AnnuityDividesByZero` | fin_manager/models.py:53-56 | the formula raises `ZeroDivisionError` exactly for a monthly rate of 0, of −1, or of −2 over an even number of months |
| `FinModels.FallbackIffDegenerate` | fin_manager/models.py:52-57 | with a nonzero annual rate, the straight-line fallback is taken exactly for −1200%, or −2400% over an even month count, and never for a positive rate; when taken, the payment is `amount / months` |
| `FinModels.AnnuityRepaysLoan` | fin_manager/models.py:54 | the annuity payment, when it exists, brings the loan balance to exactly 0 after `months` payments |
| `FinModels.PaymentRepaysLoan` | fin_manager/models.py:47-57 | the unrounded payment (straight-line without interest, annuity with interest) settles the loan in exactly `months` payments at the monthly rate, for every non-degenerate rate |
| `FinModels.LongTermExpense` | fin_manager/models.py:42-57 | a long-term liability with an end date stores its payment rounded to cents, within half a cent of it; the payment settles the loan under interest, and is `amount / months` when the rate is absent, zero or degenerate |
| `FinModels.ScenarioShortTerm` | fin_manager/models.py:58-59 | a short-term liability of 1200 gives 1200 whatever its rate and end date |
| `FinModels.ScenarioStraightLine` | fin_manager/models.py:46-50 | 1200 over 366 days at rate 0 gives 12 months and 100.00 |
| `FinModels.ScenarioHalfCentTie` | fin_manager/models.py:46-50 | 0.25 over 60 days without a rate is 2 months of exactly 0.125, stored as the even cent 0.12 |
| `FinModels.ScenarioAnnuity` | fin_manager/models.py:52-55 | 1200 over 366 days at 12% gives 106.62 |
| `FinModels.Liability.constructor` | fin_manager/models.py:21-28 | a new record has the field defaults (amount 0, short-term, rate 0, no end date, monthly expense 0), and its monthly expense is already current |
| `FinModels.Liability.Save` | fin_manager/models.py:34-39 | only `monthlyExpense` may change; afterwards it equals the calculation on the current fields; short-term gives `amount`, long-term without an end date gives `None`; saving a record that is already current changes nothing |
| `FinModels.SaveTwice` | fin_manager/models.py:34-39 | two saves in a row with no change in between store the same monthly expense |

## Left out

- Django persistence: the write by `super().save`, the user foreign key and its cascade delete, the
  many-to-many link from `Account` to `Liability`, and the field flags (`blank`, `null`, `max_length`).
  The owning user is a plain number.
- `__str__` of both models: display formatting only.
- `Account` (the `FinModels.Account` datatype, fin_manager/models.py:7-15) is a plain record. Its aggregates are stored values that no code computes or checks.
- Floating point is not modelled. Rounding, powers and division are exact over the reals. The model
  therefore does not capture the following:
  - binary representation errors;
  - float underflow that makes `1 + m == 1` for a tiny nonzero rate;
  - the `OverflowError` that `(1 + m) ** -months` raises, uncaught, when the base is close to 0 and
    the month count is large.
- The default start date `datetime.now().date()` reads the clock once, when the module is imported.
  In the model it is a constructor parameter.
- Unused imports (`Sum`, `Count`, `F`, `Q`, `relativedelta`) have no behaviour.
