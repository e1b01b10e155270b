/** Coverage percentages, rounded to two decimals (coveragePercent in
    internal/docstringcov/analyzer/analyzer.go), over exact rather than floating arithmetic. */
module Coverage {

  /** math.Round of a number that is not negative: half rounds up. */
  function Round(x: real): int {
    (x + 0.5).Floor
  }

  function CoveragePercent(documented: nat, total: nat): real {
    if total == 0 then 100.0 else
      var value := documented as real / total as real * 100.0;
      Round(value * 100.0) as real / 100.0
  }

  /** The share itself, in hundredths of a percent. */
  ghost function ExactHundredths(documented: nat, total: nat): real
    requires total > 0
  {
    10000.0 * documented as real / total as real
  }

  lemma RoundIsNear(x: real)
    ensures x - 0.5 < Round(x) as real <= x + 0.5
  {
  }

  lemma RoundIsMonotone(x: real, y: real)
    requires x <= y
    ensures Round(x) <= Round(y)
  {
    RoundIsNear(x);
    RoundIsNear(y);
  }

  lemma CoverageIsRoundedHundredths(documented: nat, total: nat)
    requires total > 0
    ensures CoveragePercent(documented, total) == Round(ExactHundredths(documented, total)) as real / 100.0
  {
    var d, t := documented as real, total as real;
    assert d / t * 100.0 * 100.0 == 10000.0 * d / t;
  }

  /** Rounding moves a percentage by at most half a hundredth. */
  lemma CoverageIsNear(documented: nat, total: nat)
    requires total > 0
    ensures var exact := ExactHundredths(documented, total) / 100.0;
            exact - 0.005 < CoveragePercent(documented, total) <= exact + 0.005
  {
    CoverageIsRoundedHundredths(documented, total);
    RoundIsNear(ExactHundredths(documented, total));
  }

  /** share <= share in whole numbers. */
  predicate NoBetter(d1: nat, t1: nat, d2: nat, t2: nat) {
    d1 * t2 <= d2 * t1
  }

  lemma DivideInequality(a: real, b: real, c: real, d: real)
    requires b > 0.0 && d > 0.0 && a * d <= c * b
    ensures a / b <= c / d
  {
    var x, y := a / b, c / d;
    assert x * b == a && y * d == c;
  }

  lemma DivideBound(n: real, t: real, c: real)
    requires t > 0.0
    ensures c <= n / t <==> c * t <= n
    ensures n / t <= c <==> n <= c * t
  {
    var x := n / t;
    assert x * t == n;
  }

  lemma CoverageIsMonotone(d1: nat, t1: nat, d2: nat, t2: nat)
    requires t1 > 0 && t2 > 0 && NoBetter(d1, t1, d2, t2)
    ensures CoveragePercent(d1, t1) <= CoveragePercent(d2, t2)
  {
    CoverageIsRoundedHundredths(d1, t1);
    CoverageIsRoundedHundredths(d2, t2);
    assert (10000 * d1) * t2 <= (10000 * d2) * t1;
    DivideInequality((10000 * d1) as real, t1 as real, (10000 * d2) as real, t2 as real);
    RoundIsMonotone(ExactHundredths(d1, t1), ExactHundredths(d2, t2));
  }

  /** 100 is reported exactly when at most one export in twenty thousand is missing; so for
      fewer than 20000 exports, exactly when none is. */
  lemma FullCoverage(documented: nat, total: nat)
    requires documented <= total
    ensures CoveragePercent(documented, total) == 100.0 <==> 20000 * (total - documented) <= total
    ensures total < 20000 ==> (CoveragePercent(documented, total) == 100.0 <==> documented == total)
  {
    if total > 0 {
      var n, t := 10000.0 * documented as real, total as real;
      var x := ExactHundredths(documented, total);
      CoverageIsRoundedHundredths(documented, total);
      RoundIsNear(x);
      DivideBound(n, t, 9999.5);
      DivideBound(n, t, 10000.0);
      assert CoveragePercent(documented, total) == 100.0 <==> Round(x) == 10000;
    }
  }
}
