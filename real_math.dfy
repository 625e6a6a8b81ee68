/**
 * Exact real-valued stand-ins for the two pieces of floating-point numerics the
 * monthly-expense calculation uses: integer powers (`x ** n`) and Python's
 * `round(x, 2)`. Both are evaluated on the exact value, not on binary floats.
 */
module RealMath {

  function Abs(x: real): (r: real)
    ensures r >= 0.0 && (r == x || r == -x)
  {
    if x < 0.0 then -x else x
  }

  /** `b ** n` for a natural exponent. A nonzero base never gives zero, which is
      what makes the negative power `1 / b ** n` defined. */
  function Pow(b: real, n: nat): (r: real)
    ensures b != 0.0 ==> r != 0.0
    ensures b > 0.0 ==> r > 0.0
  {
    if n == 0 then 1.0 else b * Pow(b, n - 1)
  }

  lemma {:induction false} PowAbs(b: real, n: nat)
    ensures Abs(Pow(b, n)) == Pow(Abs(b), n)
  {
    if n > 0 {
      PowAbs(b, n - 1);
      var p := Pow(b, n - 1);
      assert Abs(b * p) == Abs(b) * Abs(p) by {
        if b < 0.0 && p < 0.0 {
          assert b * p == (-b) * (-p);
        }
      }
    }
  }

  lemma {:induction false} PowAboveOne(b: real, n: nat)
    requires b > 1.0 && n >= 1
    ensures Pow(b, n) > 1.0
  {
    if n > 1 {
      PowAboveOne(b, n - 1);
      var p := Pow(b, n - 1);
      assert b * p > 1.0 * p;
    }
  }

  lemma {:induction false} PowBelowOne(b: real, n: nat)
    requires 0.0 <= b < 1.0 && n >= 1
    ensures Pow(b, n) < 1.0
  {
    if n > 1 {
      PowBelowOne(b, n - 1);
      var p := Pow(b, n - 1);
      PowAbs(b, n - 1);
      assert p >= 0.0;
      assert b * p <= 1.0 * p;
    }
  }

  lemma {:induction false} PowMinusOne(n: nat)
    ensures Pow(-1.0, n) == if n % 2 == 0 then 1.0 else -1.0
  {
    if n > 0 {
      PowMinusOne(n - 1);
    }
  }

  /** For a positive exponent, `b ** n == 1` exactly when `b` is 1, or `b` is -1
      and `n` is even. */
  lemma PowIsOne(b: real, n: nat)
    requires n >= 1
    ensures Pow(b, n) == 1.0 <==> b == 1.0 || (b == -1.0 && n % 2 == 0)
  {
    PowAbs(b, n);
    if Abs(b) > 1.0 {
      PowAboveOne(Abs(b), n);
    } else if Abs(b) < 1.0 {
      PowBelowOne(Abs(b), n);
    } else if b == -1.0 {
      PowMinusOne(n);
    } else {
      assert b == 1.0;
      PowOfOne(n);
    }
  }

  lemma {:induction false} PowOfOne(n: nat)
    ensures Pow(1.0, n) == 1.0
  {
    if n > 0 {
      PowOfOne(n - 1);
    }
  }

  /** The integer nearest to `x`; a tie goes to the even neighbour (Python's
      rounding rule). */
  function RoundHalfEven(x: real): (k: int)
    ensures x - 0.5 <= k as real <= x + 0.5
    ensures (k as real - x == 0.5 || x - k as real == 0.5) ==> k % 2 == 0
  {
    var f := x.Floor;
    var frac := x - f as real;
    if frac < 0.5 then f
    else if frac > 0.5 then f + 1
    else if f % 2 == 0 then f
    else f + 1
  }

  /** Python's `round(x, 2)`: the nearest multiple of 0.01, ties to even. */
  function Round2(x: real): (r: real)
    ensures -0.005 <= r - x <= 0.005
    ensures (r * 100.0).Floor as real == r * 100.0
    ensures (r - x == 0.005 || x - r == 0.005) ==> (r * 100.0).Floor % 2 == 0
  {
    RoundHalfEven(x * 100.0) as real / 100.0
  }

  /** A value already expressed in whole cents is left alone. */
  lemma Round2OfCents(k: int)
    ensures Round2(k as real / 100.0) == k as real / 100.0
  {
    assert (k as real / 100.0) * 100.0 == k as real;
    assert (k as real).Floor == k;
  }
}
