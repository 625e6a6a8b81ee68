/**
 * The finance-manager records and the one piece of behaviour they carry: the
 * monthly expense a liability derives, recomputed every time it is saved.
 *
 * Calendar dates are day numbers, so the difference of two dates in whole days
 * is integer subtraction. Money amounts and rates are exact reals.
 */
module FinModels {
  import opened Wrappers
  import opened RealMath
  import opened Amortization

  /** A named account owned by a user. It has no behaviour of its own: its
      aggregates are stored as given and never reconciled with liabilities. */
  datatype Account = Account(
    name: string,
    balance: real,
    income: real,
    expense: real,
    owner: nat,
    savingGoal: real,
    salary: real)

  /** The inputs of the monthly-expense calculation: every liability field the
      calculation reads. */
  datatype LiabilityTerms = LiabilityTerms(
    amount: real,
    date: int,
    longTerm: bool,
    interestRate: Option<real>,
    endDate: Option<int>)

  /** Number of 30-day months from `date` to `endDate`, never below one:
      `max(1, (endDate - date) // 30)`. */
  function Months(date: int, endDate: int): (months: nat)
    ensures months >= 1
    ensures months == 1 <==> endDate - date < 60
    ensures endDate - date >= 30 ==> 30 * months <= endDate - date < 30 * (months + 1)
  {
    var days := endDate - date;
    if days / 30 > 1 then days / 30 else 1
  }

  /** The nominal annual percentage converted to a monthly fraction. */
  function MonthlyRate(interestRate: real): (m: real)
    ensures m * 1200.0 == interestRate
  {
    interestRate / 12.0 / 100.0
  }

  /** The principal spread evenly over the months, ignoring interest. */
  function StraightLine(amount: real, months: nat): (p: real)
    requires months >= 1
    ensures p * months as real == amount
  {
    amount / months as real
  }

  /**
   * The annuity payment `amount * m / (1 - (1 + m) ** -months)`, or `None` where
   * evaluating it raises `ZeroDivisionError`: a zero base raised to a negative
   * power, or a zero denominator.
   */
  function Annuity(amount: real, m: real, months: nat): (r: Option<real>)
    ensures r.Some? ==> (1.0 + m != 0.0 || months == 0) && AnnuityDenominator(m, months) != 0.0
    ensures r.Some? ==> r.value * AnnuityDenominator(m, months) == amount * m
  {
    if 1.0 + m == 0.0 && months > 0 then None
    else
      var denominator := AnnuityDenominator(m, months);
      if denominator == 0.0 then None
      else
        var payment := amount * m / denominator;
        assert payment * denominator == amount * m;
        Some(payment)
  }

  /** `1 - (1 + m) ** -months`, for a base that may be raised to that power. */
  function AnnuityDenominator(m: real, months: nat): (d: real)
    requires 1.0 + m != 0.0 || months == 0
    ensures d * Pow(1.0 + m, months) == Pow(1.0 + m, months) - 1.0
  {
    1.0 - 1.0 / Pow(1.0 + m, months)
  }

  /** The unrounded monthly payment of a long-term liability over `months`:
      straight-line without interest, the annuity payment with interest, and
      straight-line again when the annuity formula divides by zero. */
  function Payment(amount: real, interestRate: Option<real>, months: nat): (p: real)
    requires months >= 1
    ensures interestRate == None || interestRate == Some(0.0) ==> p * months as real == amount
  {
    if interestRate == None || interestRate == Some(0.0) then
      StraightLine(amount, months)
    else
      match Annuity(amount, MonthlyRate(interestRate.value), months)
      case Some(p) => p
      case None => StraightLine(amount, months)
  }

  /** The monthly interest rate the payment is computed for: zero when the
      rate is absent. */
  function ScheduleRate(interestRate: Option<real>): (m: real)
  {
    match interestRate
    case None => 0.0
    case Some(rate) => MonthlyRate(rate)
  }

  /** A rate whose annuity formula divides by zero over `months` months. */
  predicate Degenerate(interestRate: real, months: nat)
  {
    interestRate == -1200.0 || (interestRate == -2400.0 && months % 2 == 0)
  }

  /** `calculate_monthly_expense`: `None` for a long-term liability without an end
      date, the rounded payment for one with an end date, and the amount itself
      for a short-term liability. */
  function CalculateMonthlyExpense(t: LiabilityTerms): (r: Option<real>)
    ensures !t.longTerm ==> r == Some(t.amount)
    ensures t.longTerm ==> (r.None? <==> t.endDate.None?)
    ensures r.Some? && t.longTerm ==> (r.value * 100.0).Floor as real == r.value * 100.0
  {
    if t.longTerm then
      match t.endDate
      case None => None
      case Some(endDate) => Some(Round2(Payment(t.amount, t.interestRate, Months(t.date, endDate))))
    else
      Some(t.amount)
  }

  /** The annuity formula divides by zero exactly for a zero monthly rate, a rate
      of -100% a month, or -200% a month over an even number of months. */
  lemma AnnuityDividesByZero(amount: real, m: real, months: nat)
    requires months >= 1
    ensures Annuity(amount, m, months).None? <==> m == 0.0 || m == -1.0 || (m == -2.0 && months % 2 == 0)
  {
    if 1.0 + m != 0.0 {
      var q := Pow(1.0 + m, months);
      assert 1.0 - 1.0 / q == 0.0 <==> q == 1.0;
      PowIsOne(1.0 + m, months);
    }
  }

  /** With a nonzero annual rate, the straight-line fallback is taken exactly for
      the degenerate rates; in particular never for a positive rate. */
  lemma FallbackIffDegenerate(amount: real, interestRate: real, months: nat)
    requires months >= 1 && interestRate != 0.0
    ensures Annuity(amount, MonthlyRate(interestRate), months).None? <==> Degenerate(interestRate, months)
    ensures Degenerate(interestRate, months) ==> Payment(amount, Some(interestRate), months) == StraightLine(amount, months)
    ensures interestRate > 0.0 ==> Annuity(amount, MonthlyRate(interestRate), months).Some?
  {
    AnnuityDividesByZero(amount, MonthlyRate(interestRate), months);
  }

  /** The annuity payment, when it exists, settles the loan in exactly `months`
      monthly payments. */
  lemma AnnuityRepaysLoan(amount: real, m: real, months: nat)
    requires Annuity(amount, m, months).Some?
    ensures Balance(amount, m, Annuity(amount, m, months).value, months) == 0.0
  {
    var p := Annuity(amount, m, months).value;
    var q := Pow(1.0 + m, months);
    var d := 1.0 - 1.0 / q;
    assert d != 0.0 && q != 0.0;
    assert p * d == amount * m;
    assert d * q == q - 1.0;
    assert p * (q - 1.0) == amount * m * q by {
      calc {
        p * (q - 1.0);
        p * (d * q);
        (p * d) * q;
        amount * m * q;
      }
    }
    BalanceClosedForm(amount, m, p, months);
    if m == 0.0 {
      PowOfOne(months);
      assert false;
    }
    assert Balance(amount, m, p, months) * m == 0.0;
  }

  /** The unrounded payment of a long-term liability settles it in exactly
      `months` payments at the monthly rate, unless the rate is degenerate. */
  lemma PaymentRepaysLoan(amount: real, interestRate: Option<real>, months: nat)
    requires months >= 1
    requires interestRate.Some? ==> !Degenerate(interestRate.value, months)
    ensures Balance(amount, ScheduleRate(interestRate), Payment(amount, interestRate, months), months) == 0.0
  {
    var p := Payment(amount, interestRate, months);
    if interestRate == None || interestRate == Some(0.0) {
      assert ScheduleRate(interestRate) == 0.0;
      BalanceWithoutInterest(amount, p, months);
    } else {
      FallbackIffDegenerate(amount, interestRate.value, months);
      AnnuityRepaysLoan(amount, MonthlyRate(interestRate.value), months);
    }
  }

  /** The stored expense of a long-term liability with an end date is the loan
      payment rounded to cents: within half a cent of a payment that settles the
      loan over the 30-day-month count, and straight-line when no interest applies
      or the formula degenerates. */
  lemma LongTermExpense(t: LiabilityTerms, endDate: int)
    requires t.longTerm && t.endDate == Some(endDate)
    ensures var months := Months(t.date, endDate);
            var p := Payment(t.amount, t.interestRate, months);
            && CalculateMonthlyExpense(t) == Some(Round2(p))
            && -0.005 <= Round2(p) - p <= 0.005
            && (t.interestRate.Some? && !Degenerate(t.interestRate.value, months) ==>
                  Balance(t.amount, ScheduleRate(t.interestRate), p, months) == 0.0)
            && (t.interestRate.None? || t.interestRate == Some(0.0) ||
                Degenerate(t.interestRate.value, months) ==>
                  p * months as real == t.amount)
  {
    var months := Months(t.date, endDate);
    var p := Payment(t.amount, t.interestRate, months);
    if t.interestRate.Some? && !Degenerate(t.interestRate.value, months) {
      PaymentRepaysLoan(t.amount, t.interestRate, months);
    }
    if t.interestRate.Some? && t.interestRate.value != 0.0 && Degenerate(t.interestRate.value, months) {
      FallbackIffDegenerate(t.amount, t.interestRate.value, months);
    }
  }

  /** A short-term liability of 1200 costs 1200 a month. */
  lemma ScenarioShortTerm(date: int)
    ensures CalculateMonthlyExpense(LiabilityTerms(1200.0, date, false, Some(12.0), None)) == Some(1200.0)
  {
  }

  /** 1200 over 366 days (12 months) without interest costs 100.00 a month. */
  lemma ScenarioStraightLine(date: int)
    ensures CalculateMonthlyExpense(LiabilityTerms(1200.0, date, true, Some(0.0), Some(date + 366))) == Some(100.0)
  {
    assert Months(date, date + 366) == 12;
    Round2OfCents(10000);
  }

  /** 0.25 over 60 days (2 months) without interest is exactly 0.125 a month,
      a half-cent tie, which rounds to the even cent 0.12. */
  lemma ScenarioHalfCentTie(date: int)
    ensures CalculateMonthlyExpense(LiabilityTerms(0.25, date, true, None, Some(date + 60))) == Some(0.12)
  {
    assert Months(date, date + 60) == 2;
  }

  /** 1200 over 366 days (12 months) at 12% a year costs 106.62 a month. */
  lemma ScenarioAnnuity(date: int)
    ensures CalculateMonthlyExpense(LiabilityTerms(1200.0, date, true, Some(12.0), Some(date + 366))) == Some(106.62)
  {
    assert Months(date, date + 366) == 12;
    assert MonthlyRate(12.0) == 0.01;
    assert Pow(1.01, 12) == 1.126825030131969720661201;
  }

  /** A liability record. Every field but `monthlyExpense` is written by callers;
      `monthlyExpense` is derived from the others whenever the record is saved. */
  class Liability {
    var name: string
    var amount: real
    var date: int
    var longTerm: bool
    var interestRate: Option<real>
    var endDate: Option<int>
    var monthlyExpense: Option<real>
    var owner: nat

    /** A new record with the field defaults: no amount, short-term, zero rate,
        no end date and a zero monthly expense. */
    constructor (name: string, date: int, owner: nat)
      ensures this.name == name && this.date == date && this.owner == owner
      ensures amount == 0.0 && !longTerm && interestRate == Some(0.0) && endDate == None
      ensures monthlyExpense == Some(0.0)
      ensures Current()
    {
      this.name := name;
      this.amount := 0.0;
      this.date := date;
      this.longTerm := false;
      this.interestRate := Some(0.0);
      this.endDate := None;
      this.monthlyExpense := Some(0.0);
      this.owner := owner;
    }

    function Terms(): LiabilityTerms
      reads this
    {
      LiabilityTerms(amount, date, longTerm, interestRate, endDate)
    }

    /** The stored monthly expense reflects the current inputs. */
    predicate Current()
      reads this
    {
      monthlyExpense == CalculateMonthlyExpense(Terms())
    }

    /** `save`: recompute the monthly expense from the current inputs before the
        record is written. No other field changes. */
    method Save()
      modifies this`monthlyExpense
      ensures Current()
      ensures !longTerm ==> monthlyExpense == Some(amount)
      ensures longTerm && endDate.None? ==> monthlyExpense.None?
      ensures old(Current()) ==> monthlyExpense == old(monthlyExpense)
    {
      if longTerm {
        monthlyExpense := CalculateMonthlyExpense(Terms());
      } else {
        monthlyExpense := Some(amount);
      }
    }
  }

  /** Saving twice without touching the inputs stores the same value twice. */
  method SaveTwice(l: Liability) returns (first: Option<real>, second: Option<real>)
    modifies l`monthlyExpense
    ensures first == second == l.monthlyExpense
  {
    l.Save();
    first := l.monthlyExpense;
    l.Save();
    second := l.monthlyExpense;
  }
}
