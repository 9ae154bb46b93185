/** The systematic-investment-plan calculator (frontend/src/App.js, `calculateSIP`). */
module Sip {
  datatype Projection = Projection(futureValue: real, investedAmount: real, estimatedReturns: real)

  /** `Math.pow(x, n)` for a whole exponent. */
  function Pow(x: real, n: nat): real {
    if n == 0 then 1.0 else x * Pow(x, n - 1)
  }

  /** The monthly rate: a yearly percentage spread over twelve months. */
  function MonthlyRate(expectedReturn: real): (i: real)
    ensures i == 0.0 <==> expectedReturn == 0.0
    ensures expectedReturn >= 0.0 ==> i >= 0.0
  {
    expectedReturn / 100.0 / 12.0
  }

  /** `calculateSIP`: with a zero rate the value is what was paid in; otherwise the
      annuity-due formula. */
  function Calculate(monthlyInvestment: real, expectedReturn: real, years: nat): (r: Projection)
    ensures r.investedAmount == monthlyInvestment * (years * 12) as real
    ensures r.estimatedReturns == r.futureValue - r.investedAmount
    ensures MonthlyRate(expectedReturn) == 0.0 ==> r.estimatedReturns == 0.0
  {
    var i := MonthlyRate(expectedReturn);
    var n := years * 12;
    var m := monthlyInvestment;
    if i == 0.0 then Projection(m * n as real, m * n as real, 0.0)
    else
      var futureValue := m * (((Pow(1.0 + i, n) - 1.0) / i) * (1.0 + i));
      Projection(futureValue, m * n as real, futureValue - m * n as real)
  }

  /** Reference definition: `n` monthly deposits of `m`, each paid at the start of
      its month and growing by the factor `q` every month until the end. */
  function Accumulated(m: real, q: real, n: nat): real {
    if n == 0 then 0.0 else Accumulated(m, q, n - 1) + m * Pow(q, n)
  }

  /** The geometric sum behind the formula: (q^n - 1) q = (q - 1) * sum of q^k for k in 1..n. */
  lemma {:induction false} GeometricSum(m: real, q: real, n: nat)
    ensures Accumulated(m, q, n) * (q - 1.0) == m * (Pow(q, n) - 1.0) * q
  {
    if n > 0 {
      GeometricSum(m, q, n - 1);
      GeometricStep(Accumulated(m, q, n - 1), m, q, Pow(q, n - 1));
    }
  }

  /** One more deposit keeps the geometric identity. */
  lemma GeometricStep(a: real, m: real, q: real, p: real)
    requires a * (q - 1.0) == m * (p - 1.0) * q
    ensures (a + m * (q * p)) * (q - 1.0) == m * (q * p - 1.0) * q
  {
    calc {
      (a + m * (q * p)) * (q - 1.0);
      a * (q - 1.0) + m * (q * p) * (q - 1.0);
      m * (p - 1.0) * q + m * (q * p) * (q - 1.0);
      m * q * p - m * q + m * q * p * q - m * q * p;
      m * (q * p - 1.0) * q;
    }
  }

  /** The future value is exactly the deposits grown month by month, for every rate
      including zero. */
  lemma FutureValueIsDepositsGrown(monthlyInvestment: real, expectedReturn: real, years: nat)
    ensures Calculate(monthlyInvestment, expectedReturn, years).futureValue ==
            Accumulated(monthlyInvestment, 1.0 + MonthlyRate(expectedReturn), years * 12)
  {
    var i := MonthlyRate(expectedReturn);
    var n := years * 12;
    if i == 0.0 {
      DepositsWithoutGrowth(monthlyInvestment, n);
    } else {
      GeometricSum(monthlyInvestment, 1.0 + i, n);
      SolveForSum(Accumulated(monthlyInvestment, 1.0 + i, n), monthlyInvestment, i, Pow(1.0 + i, n));
    }
  }

  /** Dividing the geometric identity by the rate gives the formula's shape. */
  lemma SolveForSum(a: real, m: real, i: real, p: real)
    requires i != 0.0 && a * (1.0 + i - 1.0) == m * (p - 1.0) * (1.0 + i)
    ensures a == m * (((p - 1.0) / i) * (1.0 + i))
  {
    assert a * i == m * (p - 1.0) * (1.0 + i);
    calc {
      m * (((p - 1.0) / i) * (1.0 + i));
      (m * (p - 1.0) * (1.0 + i)) / i;
      (a * i) / i;
      a;
    }
  }

  /** Without growth the deposits just add up. */
  lemma {:induction false} DepositsWithoutGrowth(m: real, n: nat)
    ensures Accumulated(m, 1.0, n) == m * n as real
  {
    if n > 0 {
      DepositsWithoutGrowth(m, n - 1);
      PowOne(n);
    }
  }

  lemma {:induction false} PowOne(n: nat)
    ensures Pow(1.0, n) == 1.0
  {
    if n > 0 {
      PowOne(n - 1);
    }
  }

  /** With a non-negative deposit and rate the estimated returns are never negative. */
  lemma ReturnsNonNegative(monthlyInvestment: real, expectedReturn: real, years: nat)
    requires monthlyInvestment >= 0.0 && expectedReturn >= 0.0
    ensures Calculate(monthlyInvestment, expectedReturn, years).estimatedReturns >= 0.0
  {
    FutureValueIsDepositsGrown(monthlyInvestment, expectedReturn, years);
    AtLeastDeposits(monthlyInvestment, 1.0 + MonthlyRate(expectedReturn), years * 12);
  }

  /** Growth of at least 1 keeps every deposit at least its paid amount. */
  lemma {:induction false} AtLeastDeposits(m: real, q: real, n: nat)
    requires m >= 0.0 && q >= 1.0
    ensures Accumulated(m, q, n) >= m * n as real
  {
    if n > 0 {
      AtLeastDeposits(m, q, n - 1);
      PowAtLeastOne(q, n);
      assert m * Pow(q, n) >= m * 1.0;
    }
  }

  lemma {:induction false} PowAtLeastOne(q: real, n: nat)
    requires q >= 1.0
    ensures Pow(q, n) >= 1.0
  {
    if n > 0 {
      PowAtLeastOne(q, n - 1);
      assert q * Pow(q, n - 1) >= 1.0 * Pow(q, n - 1);
    }
  }
}
