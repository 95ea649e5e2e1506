/// Exact arithmetic of the level-payment (annuity) formula and of the
/// rounding to cents used when money is compared or reconciled.
module Money {

  /// b raised to a natural power.
  function Pow(b: real, n: nat): real
  {
    if n == 0 then 1.0 else b * Pow(b, n - 1)
  }

  lemma {:induction false} PowAboveOne(b: real, n: nat)
    requires b > 1.0 && n >= 1
    ensures Pow(b, n) > 1.0
  {
    if n > 1 {
      PowAboveOne(b, n - 1);
      var x := Pow(b, n - 1);
      assert b * x - x == (b - 1.0) * x;
      assert (b - 1.0) * x > 0.0;
    }
  }

  /// The level payment that amortizes `principal` over `n` periods at the
  /// periodic `rate`: rate * principal / (1 - (1 + rate)^-n), with (1 + rate)^-n
  /// written as 1 / Pow(1 + rate, n).
  function Annuity(rate: real, principal: real, n: nat): real
    requires rate > 0.0 && n >= 1
  {
    PowAboveOne(1.0 + rate, n);
    (rate * principal) / (1.0 - 1.0 / Pow(1.0 + rate, n))
  }

  /// The payment per unit of principal.
  function AnnuityFactor(rate: real, n: nat): real
    requires rate > 0.0 && n >= 1
  {
    Annuity(rate, 1.0, n)
  }

  /// The level payment is the principal times a factor that depends only on
  /// the rate and the number of periods; hence it is linear in the principal.
  lemma AnnuityIsScaled(rate: real, principal: real, n: nat)
    requires rate > 0.0 && n >= 1
    ensures Annuity(rate, principal, n) == principal * AnnuityFactor(rate, n)
  {
    PowAboveOne(1.0 + rate, n);
    var d := 1.0 - 1.0 / Pow(1.0 + rate, n);
    assert d != 0.0;
    assert (rate * principal) / d == principal * (rate / d);
  }

  lemma AnnuityAdditive(rate: real, a: real, b: real, n: nat)
    requires rate > 0.0 && n >= 1
    ensures Annuity(rate, a + b, n) == Annuity(rate, a, n) + Annuity(rate, b, n)
  {
    AnnuityIsScaled(rate, a + b, n);
    AnnuityIsScaled(rate, a, n);
    AnnuityIsScaled(rate, b, n);
    var f := AnnuityFactor(rate, n);
    assert (a + b) * f == a * f + b * f;
  }

  lemma AnnuityOfZero(rate: real, n: nat)
    requires rate > 0.0 && n >= 1
    ensures Annuity(rate, 0.0, n) == 0.0
  {
    AnnuityIsScaled(rate, 0.0, n);
  }

  /// The factor in closed form: with q = 1 + rate, it is rate * q^n / (q^n - 1).
  lemma FactorClosedForm(rate: real, n: nat)
    requires rate > 0.0 && n >= 1
    ensures Pow(1.0 + rate, n) > 1.0
    ensures AnnuityFactor(rate, n) * (Pow(1.0 + rate, n) - 1.0) == rate * Pow(1.0 + rate, n)
  {
    PowAboveOne(1.0 + rate, n);
    var p := Pow(1.0 + rate, n);
    var d := 1.0 - 1.0 / p;
    assert d * p == p - 1.0;
    var f := AnnuityFactor(rate, n);
    assert f == rate / d;
    assert f * d == rate;
    calc {
      f * (p - 1.0);
      f * (d * p);
      (f * d) * p;
      rate * p;
    }
  }

  /// The level payment is the annuity of the balance that remains after one
  /// level payment: re-amortizing after a period without extra payment gives
  /// the same payment again.
  lemma Reamortization(rate: real, balance: real, n: nat)
    requires rate > 0.0 && n >= 2
    ensures Annuity(rate, balance - (Annuity(rate, balance, n) - balance * rate), n - 1)
         == Annuity(rate, balance, n)
  {
    var fn, fm := AnnuityFactor(rate, n), AnnuityFactor(rate, n - 1);
    FactorStep(rate, n);
    var a := Annuity(rate, balance, n);
    var nb := balance - (a - balance * rate);
    AnnuityIsScaled(rate, balance, n);
    AnnuityIsScaled(rate, nb, n - 1);
    ScaledStep(rate, balance, fn, fm);
  }

  /// The factor of n periods and that of n - 1 periods are related by
  /// (1 + rate - f(n)) * f(n - 1) = f(n).
  lemma FactorStep(rate: real, n: nat)
    requires rate > 0.0 && n >= 2
    ensures ((1.0 + rate) - AnnuityFactor(rate, n)) * AnnuityFactor(rate, n - 1) == AnnuityFactor(rate, n)
  {
    var q := 1.0 + rate;
    FactorClosedForm(rate, n);
    FactorClosedForm(rate, n - 1);
    var x := Pow(q, n - 1);
    assert Pow(q, n) == q * x;
    FactorRecurrence(rate, x, AnnuityFactor(rate, n), AnnuityFactor(rate, n - 1));
  }

  /// With q = 1 + rate and x = q^(n-1) > 1, the factors fn = f(n) and
  /// fm = f(n - 1) satisfy (q - fn) * fm = fn.
  lemma FactorRecurrence(rate: real, x: real, fn: real, fm: real)
    requires rate > 0.0 && x > 1.0
    requires fn * ((1.0 + rate) * x - 1.0) == rate * ((1.0 + rate) * x)
    requires fm * (x - 1.0) == rate * x
    ensures ((1.0 + rate) - fn) * fm == fn
  {
    var q := 1.0 + rate;
    var a := q * x - 1.0;
    assert a > 0.0 by {
      assert q * x == x + rate * x;
      assert rate * x > 0.0;
    }
    assert (q - fn) * a == q * (x - 1.0) by {
      assert (q - fn) * a == q * a - fn * a;
      assert q * a - rate * (q * x) == q * (x - 1.0);
    }
    assert ((q - fn) * fm) * a == fn * a by {
      assert ((q - fn) * fm) * a == ((q - fn) * a) * fm;
      assert (q * (x - 1.0)) * fm == q * (fm * (x - 1.0));
    }
    CancelPositive((q - fn) * fm, fn, a);
  }

  lemma ScaledStep(rate: real, b: real, fn: real, fm: real)
    requires ((1.0 + rate) - fn) * fm == fn
    ensures (b - (b * fn - b * rate)) * fm == b * fn
  {
    assert b - (b * fn - b * rate) == b * ((1.0 + rate) - fn);
    assert b * ((1.0 + rate) - fn) * fm == b * (((1.0 + rate) - fn) * fm);
  }

  lemma OnePeriodFactor(rate: real, f: real, p: real)
    requires rate > 0.0 && p == 1.0 + rate && f * (p - 1.0) == rate * p
    ensures f == 1.0 + rate
  {
    assert p - 1.0 == rate;
    assert f * (p - 1.0) == f * rate;
    assert rate * p == (1.0 + rate) * rate;
    CancelPositive(f, 1.0 + rate, rate);
  }

  lemma CancelPositive(u: real, v: real, a: real)
    requires a > 0.0 && u * a == v * a
    ensures u == v
  {
    assert (u - v) * a == 0.0;
  }

  /// The balance left after paying `payment` for `n` periods with no extra
  /// payments, starting from `balance`.
  function Closing(rate: real, balance: real, payment: real, n: nat): real
    decreases n
  {
    if n == 0 then balance
    else Closing(rate, balance - (payment - balance * rate), payment, n - 1)
  }

  /// Paying the level payment for its whole term clears the balance exactly.
  lemma {:induction false} AnnuityPaysOff(rate: real, balance: real, n: nat)
    requires rate > 0.0 && n >= 1
    ensures Closing(rate, balance, Annuity(rate, balance, n), n) == 0.0
    decreases n
  {
    var a := Annuity(rate, balance, n);
    var nb := balance - (a - balance * rate);
    if n == 1 {
      AnnuityOnePeriod(rate, balance);
      assert nb == 0.0;
      assert Closing(rate, nb, a, 0) == nb;
    } else {
      Reamortization(rate, balance, n);
      AnnuityPaysOff(rate, nb, n - 1);
    }
  }

  /// Over a single period the level payment is the balance plus its interest.
  lemma AnnuityOnePeriod(rate: real, balance: real)
    requires rate > 0.0
    ensures Annuity(rate, balance, 1) == balance * (1.0 + rate)
  {
    FactorClosedForm(rate, 1);
    AnnuityIsScaled(rate, balance, 1);
    var f := AnnuityFactor(rate, 1);
    var p := Pow(1.0 + rate, 1);
    assert p == 1.0 + rate by {
      assert Pow(1.0 + rate, 0) == 1.0;
    }
    OnePeriodFactor(rate, f, p);
  }

  // ---------------------------------------------------------------------
  // Rounding

  /// Round to the nearest integer, halves to the even neighbour (the rule of
  /// Python's round and of its fixed-point formatting).
  function RoundHalfEven(y: real): (k: int)
    ensures -0.5 <= k as real - y <= 0.5
  {
    var f := y.Floor;
    var frac := y - f as real;
    if frac < 0.5 then f
    else if frac > 0.5 then f + 1
    else if f % 2 == 0 then f else f + 1
  }

  /// round(x, 2): x rounded to a whole number of cents.
  function Round2(x: real): (r: real)
    ensures -0.005 <= r - x <= 0.005
  {
    (RoundHalfEven(x * 100.0) as real) / 100.0
  }

  lemma RoundHalfEvenOfInteger(k: int)
    ensures RoundHalfEven(k as real) == k
  {
  }

  /// Rounding to cents is idempotent.
  lemma Round2Idempotent(x: real)
    ensures Round2(Round2(x)) == Round2(x)
  {
    var k := RoundHalfEven(x * 100.0);
    assert Round2(x) * 100.0 == k as real;
    RoundHalfEvenOfInteger(k);
  }

  /// A difference rounds to zero exactly when it is at most half a cent.
  lemma Round2ZeroIff(x: real)
    ensures Round2(x) == 0.0 <==> -0.005 <= x <= 0.005
  {
    var y := x * 100.0;
    var k := RoundHalfEven(y);
    assert Round2(x) == 0.0 <==> k == 0;
    if -0.005 <= x <= 0.005 {
      assert -0.5 <= y <= 0.5;
      if y < 0.0 {
        assert y.Floor == -1;
      } else if y < 0.5 {
        assert y.Floor == 0;
      } else {
        assert y.Floor == 0;
      }
    } else if x > 0.005 {
      assert y > 0.5;
    } else {
      assert y < -0.5;
    }
  }

  /// A money value as fixed-point text with two decimals shows: a minus sign
  /// when the value is negative (also when it rounds to zero), then the
  /// magnitude in whole cents.
  datatype Cents = Cents(negative: bool, hundredths: int)

  function FormatCents(x: real): (c: Cents)
    ensures c.negative <==> x < 0.0
    ensures c.hundredths >= 0
  {
    var magnitude := if x < 0.0 then -x else x;
    Cents(x < 0.0, RoundHalfEven(magnitude * 100.0))
  }

  /// A value just below zero and a value just above it that both round to
  /// nought cents show differently: the first as "-0.00", the second as
  /// "0.00".
  lemma NegativeZeroShowsDifferently(x: real, y: real)
    requires -0.005 <= x < 0.0 <= y <= 0.005
    ensures FormatCents(x).hundredths == FormatCents(y).hundredths == 0 && FormatCents(x) != FormatCents(y)
  {
    assert (-x * 100.0).Floor == 0;
    assert (y * 100.0).Floor == 0;
  }
}
