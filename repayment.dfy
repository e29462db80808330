/**
 * The repayment solver of the mortgage engine (`calculateRepayment`) and the
 * arithmetic it rests on, over exact reals.
 */
module Repayment {

  /** `x` raised to the natural power `n` (`Math.pow` over exact reals). */
  function Pow(x: real, n: nat): (r: real)
    ensures x > 0.0 ==> r > 0.0
    ensures x >= 1.0 ==> r >= 1.0
  {
    if n == 0 then 1.0 else x * Pow(x, n - 1)
  }

  /** `Math.round(x * 100) / 100`: nearest cent, halves rounded up. */
  function CentRound(x: real): (r: real)
    ensures x - 0.005 < r <= x + 0.005
    ensures (r * 100.0).Floor as real == r * 100.0
  {
    var cents := (x * 100.0 + 0.5).Floor;
    assert cents as real / 100.0 * 100.0 == cents as real;
    cents as real / 100.0
  }

  /** `Math.ceil` on a real. */
  function Ceil(x: real): (r: int)
    ensures x <= r as real < x + 1.0
  {
    -((-x).Floor)
  }

  /** The per-period rate for an annual percentage rate paid `ppy` times a year. */
  function PeriodRate(annualRate: real, ppy: int): real
    requires ppy > 0
  {
    annualRate / 100.0 / ppy as real
  }

  /**
   * `calculateRepayment`: the level payment that repays `principal` over
   * `periods` periods at `annualRate` percent a year. The degenerate case
   * (1 + i)^n == 1 with i != 0, which the source turns into a non-finite
   * number, yields 0 here.
   */
  function CalculateRepayment(principal: real, annualRate: real, periods: int, ppy: int): (r: real)
    requires ppy > 0
    ensures principal <= 0.0 || periods <= 0 ==> r == 0.0
    ensures principal > 0.0 && periods > 0 && annualRate == 0.0 ==> r * periods as real == principal
  {
    if principal <= 0.0 || periods <= 0 then 0.0
    else
      var i := PeriodRate(annualRate, ppy);
      PeriodRateSign(annualRate, ppy);
      if i == 0.0 then
        DivTimes(principal, periods as real);
        principal / periods as real
      else
        if Pow(1.0 + i, periods) == 1.0 then 0.0
        else
          AnnuityPayment(principal, i, Pow(1.0 + i, periods))
  }

  /** At a positive rate the payment exceeds the first period's interest, so the balance falls. */
  lemma PaymentExceedsInterest(principal: real, annualRate: real, periods: int, ppy: int)
    requires ppy > 0 && principal > 0.0 && periods > 0 && annualRate > 0.0
    ensures CalculateRepayment(principal, annualRate, periods, ppy) > principal * PeriodRate(annualRate, ppy)
  {
    var i := PeriodRate(annualRate, ppy);
    PeriodRateSign(annualRate, ppy);
    PowAboveOne(1.0 + i, periods);
    var q := Pow(1.0 + i, periods);
    RatioAboveOne(principal, i, q, AnnuityPayment(principal, i, q));
  }

  /** P * i * q / (q - 1) with q = (1 + i)^n: the standard annuity payment. */
  function AnnuityPayment(principal: real, i: real, q: real): (r: real)
    requires q != 1.0
    ensures r * (q - 1.0) == principal * i * q
  {
    DivTimes(principal * (i * q), q - 1.0);
    principal * (i * q) / (q - 1.0)
  }

  lemma DivTimes(x: real, y: real)
    requires y != 0.0
    ensures x / y * y == x
  {
  }

  /** The per-period rate has the sign of the annual rate. */
  lemma PeriodRateSign(annualRate: real, ppy: int)
    requires ppy > 0
    ensures PeriodRate(annualRate, ppy) == 0.0 <==> annualRate == 0.0
    ensures PeriodRate(annualRate, ppy) > 0.0 <==> annualRate > 0.0
    ensures PeriodRate(annualRate, ppy) >= 0.0 <==> annualRate >= 0.0
  {
  }

  lemma {:induction false} PowAboveOne(x: real, n: nat)
    requires x > 1.0 && n > 0
    ensures Pow(x, n) > 1.0
  {
    if n > 1 {
      PowAboveOne(x, n - 1);
      assert x * Pow(x, n - 1) > 1.0 * Pow(x, n - 1);
    }
  }

  /** A payment `a` with a * (q - 1) == p * i * q exceeds the interest p * i when q > 1. */
  lemma RatioAboveOne(p: real, i: real, q: real, a: real)
    requires p > 0.0 && i > 0.0 && q > 1.0
    requires a * (q - 1.0) == p * i * q
    ensures a > p * i
  {
    var x, d := p * i, q - 1.0;
    assert x > 0.0;
    assert a * d == x * d + x;
  }

  /** The balance left after `k` periods of `b := b * (1 + i) - pay`. */
  function Amortize(b: real, i: real, pay: real, k: nat): real
    decreases k
  {
    if k == 0 then b else Amortize(b * (1.0 + i) - pay, i, pay, k - 1)
  }

  /** 1 + q + ... + q^(k-1). */
  function Geo(q: real, k: nat): real {
    if k == 0 then 0.0 else Geo(q, k - 1) + Pow(q, k - 1)
  }

  lemma {:induction false} GeoTimes(q: real, k: nat)
    ensures Geo(q, k) * (q - 1.0) == Pow(q, k) - 1.0
  {
    if k > 0 {
      GeoTimes(q, k - 1);
      GeoStep(Geo(q, k), Pow(q, k), Geo(q, k - 1), Pow(q, k - 1), q);
    }
  }

  /** One more term of the geometric sum keeps sum · (q - 1) = q^k - 1. */
  lemma GeoStep(sum: real, power: real, g: real, p: real, q: real)
    requires sum == g + p && power == q * p && g * (q - 1.0) == p - 1.0
    ensures sum * (q - 1.0) == power - 1.0
  {
    assert sum * (q - 1.0) == g * (q - 1.0) + p * (q - 1.0);
  }

  /** Closed form of the balance: b * q^k - pay * (1 + q + ... + q^(k-1)). */
  lemma {:induction false} AmortizeClosedForm(b: real, i: real, pay: real, k: nat)
    ensures Amortize(b, i, pay, k) == b * Pow(1.0 + i, k) - pay * Geo(1.0 + i, k)
    decreases k
  {
    var q := 1.0 + i;
    if k > 0 {
      var nb := b * (1.0 + i) - pay;
      assert Amortize(b, i, pay, k) == Amortize(nb, i, pay, k - 1);
      AmortizeClosedForm(nb, i, pay, k - 1);
      var p, g := Pow(q, k - 1), Geo(q, k - 1);
      assert Pow(q, k) == q * p;
      assert Geo(q, k) == g + p;
      ClosedFormStep(b, q, pay, p, g);
    }
  }

  lemma ClosedFormStep(b: real, q: real, pay: real, p: real, g: real)
    ensures (b * q - pay) * p - pay * g == b * (q * p) - pay * (g + p)
  {
  }

  /**
   * The solver's promise: paying the computed amount every period for the
   * whole term takes the balance from `principal` to exactly zero.
   */
  lemma RepaymentClearsLoan(principal: real, annualRate: real, periods: int, ppy: int)
    requires ppy > 0 && principal > 0.0 && periods > 0
    requires annualRate == 0.0 || Pow(1.0 + PeriodRate(annualRate, ppy), periods) != 1.0
    ensures Amortize(principal, PeriodRate(annualRate, ppy), CalculateRepayment(principal, annualRate, periods, ppy), periods) == 0.0
  {
    var i := PeriodRate(annualRate, ppy);
    var pay := CalculateRepayment(principal, annualRate, periods, ppy);
    PeriodRateSign(annualRate, ppy);
    if i == 0.0 {
      ZeroRateClears(principal, pay, periods);
    } else {
      AnnuityClears(principal, i, periods);
    }
  }

  lemma ZeroRateClears(principal: real, pay: real, n: nat)
    requires pay * n as real == principal
    ensures Amortize(principal, 0.0, pay, n) == 0.0
  {
    AmortizeClosedForm(principal, 0.0, pay, n);
    GeoOfOne(n);
    PowOfOne(n);
  }

  lemma AnnuityClears(principal: real, i: real, n: nat)
    requires Pow(1.0 + i, n) != 1.0
    ensures Amortize(principal, i, AnnuityPayment(principal, i, Pow(1.0 + i, n)), n) == 0.0
  {
    var q, g := Pow(1.0 + i, n), Geo(1.0 + i, n);
    var pay := AnnuityPayment(principal, i, Pow(1.0 + i, n));
    GeoTimes(1.0 + i, n);
    AnnuityCancels(principal, i, n, g);
    AmortizeClosedForm(principal, i, pay, n);
  }

  /** With g * i == (1 + i)^n - 1, the annuity payment times g is principal * (1 + i)^n. */
  lemma AnnuityCancels(principal: real, i: real, n: nat, g: real)
    requires Pow(1.0 + i, n) != 1.0
    requires g * ((1.0 + i) - 1.0) == Pow(1.0 + i, n) - 1.0
    ensures AnnuityPayment(principal, i, Pow(1.0 + i, n)) * g == principal * Pow(1.0 + i, n)
  {
    var q := Pow(1.0 + i, n);
    assert g * i == q - 1.0;
    CancelFactor(principal, i, q, g, AnnuityPayment(principal, i, q));
  }

  lemma CancelFactor(p: real, i: real, q: real, g: real, a: real)
    requires q != 1.0 && g * i == q - 1.0
    requires a * (q - 1.0) == p * i * q
    ensures a * g == p * q
  {
    var d := q - 1.0;
    assert a * g * d == a * d * g;
    assert a * d * g == p * q * (g * i);
    assert a * g * d == p * q * d;
    MulCancel(a * g, p * q, d);
  }

  lemma MulCancel(x: real, y: real, d: real)
    requires d != 0.0 && x * d == y * d
    ensures x == y
  {
  }

  lemma {:induction false} GeoOfOne(k: nat)
    ensures Geo(1.0, k) == k as real
  {
    if k > 0 {
      GeoOfOne(k - 1);
      PowOfOne(k - 1);
    }
  }

  lemma {:induction false} PowOfOne(k: nat)
    ensures Pow(1.0, k) == 1.0
  {
    if k > 0 {
      PowOfOne(k - 1);
    }
  }
}
