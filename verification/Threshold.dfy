/** The pass or fail decision on a coverage report (enforceThreshold in
    cmd/docstringcov/main.go). */
module Threshold {
  import opened Wrappers
  import opened Coverage
  import opened Analyzer

  /** The reasons a report fails for; None when it passes. */
  datatype Failure = Failure(overall: bool, packages: seq<PackageResult>)

  /** Allowed for rounding when a coverage is compared with the threshold. */
  const SLACK := 0.000000001

  predicate FallsShort(coverage: real, threshold: real) {
    coverage + SLACK < threshold
  }

  predicate PackageFails(p: PackageResult, threshold: real) {
    p.documented + p.undocumented != 0 && FallsShort(p.coverage, threshold)
  }

  function FailingPackages(packages: seq<PackageResult>, threshold: real): seq<PackageResult> {
    if packages == [] then []
    else
      var last := packages[|packages| - 1];
      FailingPackages(packages[..|packages| - 1], threshold) + (if PackageFails(last, threshold) then [last] else [])
  }

  method EnforceThreshold(res: AnalysisResult, threshold: real) returns (failure: Option<Failure>)
    ensures threshold <= 0.0 ==> failure == None
    ensures threshold > 0.0 ==>
      var overall := res.totalExports > 0 && FallsShort(res.overallCoverage, threshold);
      var failing := FailingPackages(res.packages, threshold);
      failure == if overall || failing != [] then Some(Failure(overall, failing)) else None
  {
    if threshold <= 0.0 {
      return None;
    }
    var failing := [];
    for i := 0 to |res.packages|
      invariant failing == FailingPackages(res.packages[..i], threshold)
    {
      var pkg := res.packages[i];
      assert res.packages[..i + 1] == res.packages[..i] + [pkg];
      var total := pkg.documented + pkg.undocumented;
      if total == 0 {
        continue;
      }
      if pkg.coverage + SLACK < threshold {
        failing := failing + [pkg];
      }
    }
    assert res.packages[..|res.packages|] == res.packages;
    var overall := false;
    if res.totalExports > 0 && res.overallCoverage + SLACK < threshold {
      overall := true;
    }
    if !overall && |failing| == 0 {
      return None;
    }
    failure := Some(Failure(overall, failing));
  }

  lemma {:induction false} FailingPackagesAreThoseThatFail(
    packages: seq<PackageResult>, threshold: real, p: PackageResult)
    ensures p in FailingPackages(packages, threshold) <==> p in packages && PackageFails(p, threshold)
  {
    if packages != [] {
      FailingPackagesAreThoseThatFail(packages[..|packages| - 1], threshold, p);
      assert packages == packages[..|packages| - 1] + [packages[|packages| - 1]];
    }
  }

  // ---------------------------------------------------------------------------------------
  // The whole lies between its parts
  // ---------------------------------------------------------------------------------------

  function Total(p: PackageResult): nat {
    p.documented + p.undocumented
  }

  ghost predicate AllCounted(packages: seq<PackageResult>) {
    forall i | 0 <= i < |packages| :: Total(packages[i]) > 0
  }

  /** A share below that of the rest is below the mean (`below`), and one above it above. */
  lemma MeanOfTwo(d0: nat, t0: nat, d: nat, t: nat, di: nat, ti: nat)
    requires t0 > 0 && t > 0 && ti > 0
    ensures NoBetter(d0, t0, d, t) ==> NoBetter(d0, t0, d0 + d, t0 + t)
    ensures NoBetter(d, t, d0, t0) ==> NoBetter(d0 + d, t0 + t, d0, t0)
    ensures NoBetter(di, ti, d, t) && NoBetter(d, t, d0, t0) ==> NoBetter(di, ti, d0 + d, t0 + t)
    ensures NoBetter(d, t, di, ti) && NoBetter(d0, t0, d, t) ==> NoBetter(d0 + d, t0 + t, di, ti)
  {
    if NoBetter(di, ti, d, t) && NoBetter(d, t, d0, t0) {
      NoBetterIsTransitive(di, ti, d, t, d0, t0);
    }
    if NoBetter(d, t, di, ti) && NoBetter(d0, t0, d, t) {
      NoBetterIsTransitive(d0, t0, d, t, di, ti);
    }
  }

  lemma NoBetterIsTransitive(d1: nat, t1: nat, d2: nat, t2: nat, d3: nat, t3: nat)
    requires t2 > 0 && NoBetter(d1, t1, d2, t2) && NoBetter(d2, t2, d3, t3)
    ensures NoBetter(d1, t1, d3, t3)
  {
    assert (d1 * t2) * t3 <= (d2 * t1) * t3;
    assert (d2 * t3) * t1 <= (d3 * t2) * t1;
    assert (d1 * t3) * t2 <= (d3 * t1) * t2;
  }

  /** Among counted packages one has at most, and one at least, the overall share. */
  lemma {:induction false} Mediant(packages: seq<PackageResult>) returns (low: nat, high: nat)
    requires packages != [] && AllCounted(packages)
    ensures low < |packages| && high < |packages| && SumTotal(packages) > 0
    ensures NoBetter(packages[low].documented, Total(packages[low]), SumDocumented(packages), SumTotal(packages))
    ensures NoBetter(SumDocumented(packages), SumTotal(packages), packages[high].documented, Total(packages[high]))
  {
    var init, last := packages[..|packages| - 1], packages[|packages| - 1];
    if init == [] {
      return 0, 0;
    }
    var l, h := Mediant(init);
    var d, t := SumDocumented(init), SumTotal(init);
    MeanOfTwo(last.documented, Total(last), d, t, init[l].documented, Total(init[l]));
    MeanOfTwo(last.documented, Total(last), d, t, init[h].documented, Total(init[h]));
    low := if NoBetter(last.documented, Total(last), d, t) then |packages| - 1 else l;
    high := if NoBetter(last.documented, Total(last), d, t) then h else |packages| - 1;
  }

  /** The rounded overall coverage lies between two rounded package coverages. */
  lemma OverallBetweenPackages(res: AnalysisResult) returns (low: nat, high: nat)
    requires Accounts(res) && res.packages != []
    ensures low < |res.packages| && high < |res.packages|
    ensures res.packages[low].coverage <= res.overallCoverage <= res.packages[high].coverage
  {
    low, high := Mediant(res.packages);
    CoverageIsMonotone(res.packages[low].documented, Total(res.packages[low]), res.documentedExports, res.totalExports);
    CoverageIsMonotone(res.documentedExports, res.totalExports,
                       res.packages[high].documented, Total(res.packages[high]));
  }

  /** On the analyzer's own reports the overall reason never stands alone: when the overall
      coverage falls short, so does some package. */
  lemma OverallReasonIsRedundant(res: AnalysisResult, threshold: real)
    requires Accounts(res) && res.totalExports > 0 && FallsShort(res.overallCoverage, threshold)
    ensures FailingPackages(res.packages, threshold) != []
  {
    var low, high := OverallBetweenPackages(res);
    FailingPackagesAreThoseThatFail(res.packages, threshold, res.packages[low]);
  }

  /** The verdict in plain terms: a report of the analyzer passes when every package reaches the
      threshold, and a package a hundredth short of it is among those it fails for. */
  lemma VerdictOnReport(res: AnalysisResult, threshold: real)
    requires Accounts(res)
    ensures (forall i | 0 <= i < |res.packages| :: threshold <= res.packages[i].coverage) ==>
              FailingPackages(res.packages, threshold) == []
              && !(res.totalExports > 0 && FallsShort(res.overallCoverage, threshold))
    ensures forall i | 0 <= i < |res.packages| && res.packages[i].coverage <= threshold - 0.01 ::
              res.packages[i] in FailingPackages(res.packages, threshold)
  {
    var failing := FailingPackages(res.packages, threshold);
    if forall i | 0 <= i < |res.packages| :: threshold <= res.packages[i].coverage {
      if failing != [] {
        FailingPackagesAreThoseThatFail(res.packages, threshold, failing[0]);
      }
      if res.totalExports > 0 && FallsShort(res.overallCoverage, threshold) {
        OverallReasonIsRedundant(res, threshold);
      }
    }
    forall i | 0 <= i < |res.packages| && res.packages[i].coverage <= threshold - 0.01
      ensures res.packages[i] in failing
    {
      FailingPackagesAreThoseThatFail(res.packages, threshold, res.packages[i]);
      assert Counted(res.packages[i]);
    }
  }
}
