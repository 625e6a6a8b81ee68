/**
 * The loan schedule that the monthly payment is meant to settle: each month the
 * outstanding balance accrues interest at the monthly rate, then one payment is
 * made. This is the reference definition the calculated payment is proved to settle.
 */
module Amortization {
  import opened RealMath

  /** Outstanding balance after `k` monthly payments of `payment` on `principal`
      at monthly rate `m`. */
  function Balance(principal: real, m: real, payment: real, k: nat): (b: real)
  {
    if k == 0 then principal else Balance(principal, m, payment, k - 1) * (1.0 + m) - payment
  }

  /** Closed form of the schedule, scaled by `m` so that it holds for `m == 0` too:
      `m * B(k) == m * A * (1+m)^k - p * ((1+m)^k - 1)`. */
  lemma {:induction false} BalanceClosedForm(principal: real, m: real, payment: real, k: nat)
    ensures Balance(principal, m, payment, k) * m
         == principal * m * Pow(1.0 + m, k) - payment * (Pow(1.0 + m, k) - 1.0)
  {
    if k > 0 {
      var b, q := Balance(principal, m, payment, k - 1), Pow(1.0 + m, k - 1);
      BalanceClosedForm(principal, m, payment, k - 1);
      ClosedFormStep(principal, m, payment, b, q);
      assert Balance(principal, m, payment, k) == b * (1.0 + m) - payment;
      assert Pow(1.0 + m, k) == (1.0 + m) * q;
    }
  }

  /** One month of the closed form: if `m·b == m·A·q − p·(q − 1)` before the month,
      the same holds after it with `q` grown by one factor of `1 + m`. */
  lemma ClosedFormStep(principal: real, m: real, payment: real, b: real, q: real)
    requires b * m == principal * m * q - payment * (q - 1.0)
    ensures (b * (1.0 + m) - payment) * m
         == principal * m * ((1.0 + m) * q) - payment * ((1.0 + m) * q - 1.0)
  {
    calc {
      (b * (1.0 + m) - payment) * m;
      (b * m) * (1.0 + m) - payment * m;
      (principal * m * q - payment * (q - 1.0)) * (1.0 + m) - payment * m;
      principal * m * ((1.0 + m) * q) - payment * ((1.0 + m) * q - 1.0);
    }
  }

  /** Without interest, every payment comes straight off the principal. */
  lemma {:induction false} BalanceWithoutInterest(principal: real, payment: real, k: nat)
    ensures Balance(principal, 0.0, payment, k) == principal - k as real * payment
  {
    if k > 0 {
      BalanceWithoutInterest(principal, payment, k - 1);
    }
  }
}
