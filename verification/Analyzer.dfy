/** Docstring accounting over loaded packages (internal/docstringcov/analyzer/analyzer.go).
    Loading Go syntax is left out: a file is the symbols it declares and its package comment. */
module Analyzer {
  import opened Wrappers
  import opened Text
  import opened Ordering
  import opened Coverage

  datatype Kind = PackageKind | FuncKind | MethodKind | TypeKind

  datatype Reason = Missing | MismatchedPrefix | Formatting

  /** An exported declaration and the text of its comment, if it has one. */
  datatype Symbol = Symbol(name: string, kind: Kind, file: string, line: nat, doc: Option<string>)

  datatype MissingSymbol = MissingSymbol(symbol: string, kind: Kind, file: string, line: nat, reason: Reason)

  datatype Comment = Comment(text: string, line: nat)

  datatype SourceFile = SourceFile(name: string, doc: Option<Comment>, symbols: seq<Symbol>)

  /** What the loader says about a package. `firstFile` is the file its own symbol is reported in. */
  datatype Package = Package(
    name: string, path: string, firstFile: string, inModule: bool, hasGoFiles: bool,
    hasErrors: bool, files: seq<SourceFile>)

  datatype PackageResult = PackageResult(
    path: string, coverage: real, documented: nat, undocumented: nat, missing: seq<MissingSymbol>)

  datatype AnalysisResult = AnalysisResult(
    overallCoverage: real, documentedExports: nat, totalExports: nat, packages: seq<PackageResult>)

  datatype AnalysisError = NoPackages | NoSyntax(path: string)

  // ---------------------------------------------------------------------------------------
  // Judging one comment
  // ---------------------------------------------------------------------------------------

  function SpaceForNewline(s: string): (r: string)
    ensures |r| == |s| && forall i | 0 <= i < |s| :: r[i] == if s[i] == '\n' then ' ' else s[i]
  {
    seq(|s|, i requires 0 <= i < |s| => if s[i] == '\n' then ' ' else s[i])
  }

  function NormalizeDoc(doc: string): string {
    TrimSpace(SpaceForNewline(doc))
  }

  predicate LooksSentence(isUpper: char -> bool, text: string) {
    text != "" && isUpper(text[0]) && '.' in text
  }

  /** validatePackageComment and validateDocstring: None when the comment is fine. */
  function Judge(isUpper: char -> bool, prefix: string, doc: Option<string>): Option<Reason> {
    if doc.None? then Some(Missing) else
      var text := NormalizeDoc(doc.value);
      if text == "" then Some(Missing)
      else if !HasPrefix(text, prefix) then Some(MismatchedPrefix)
      else if !LooksSentence(isUpper, text) then Some(Formatting)
      else None
  }

  function DocProblem(isUpper: char -> bool, pkgName: string, sym: Symbol): Option<Reason> {
    if sym.kind.PackageKind? then Judge(isUpper, "Package " + pkgName, sym.doc) else Judge(isUpper, sym.name, sym.doc)
  }

  // ---------------------------------------------------------------------------------------
  // Collecting the symbols of a package
  // ---------------------------------------------------------------------------------------

  function FileSymbols(files: seq<SourceFile>): seq<Symbol> {
    if files == [] then [] else FileSymbols(files[..|files| - 1]) + files[|files| - 1].symbols
  }

  /** The first package comment among the files. */
  function PackageComment(files: seq<SourceFile>): Option<Comment> {
    if files == [] then None else if files[0].doc.Some? then files[0].doc else PackageComment(files[1..])
  }

  function PackageSymbol(pkg: Package): Symbol {
    var comment := PackageComment(pkg.files);
    Symbol(pkg.name, PackageKind, pkg.firstFile,
           if comment.Some? then comment.value.line else 1,
           if comment.Some? then Some(comment.value.text) else None)
  }

  lemma {:induction false} PackageCommentAppend(files: seq<SourceFile>, file: SourceFile)
    ensures PackageComment(files + [file]) == if PackageComment(files).Some? then PackageComment(files) else file.doc
  {
    if files != [] {
      assert (files + [file])[1..] == files[1..] + [file];
      PackageCommentAppend(files[1..], file);
    }
  }

  method CollectSymbols(pkg: Package) returns (symbols: seq<Symbol>)
    ensures symbols == FileSymbols(pkg.files) + [PackageSymbol(pkg)]
  {
    symbols := [];
    var firstLine := 1;
    var packageDoc: Option<Comment> := None;
    if |pkg.files| > 0 {
      packageDoc := pkg.files[0].doc;
      if packageDoc.Some? {
        firstLine := packageDoc.value.line;
      }
    }
    for i := 0 to |pkg.files|
      invariant symbols == FileSymbols(pkg.files[..i])
      invariant packageDoc == PackageComment(pkg.files[..if i == 0 && pkg.files != [] then 1 else i])
      invariant firstLine == if packageDoc.Some? then packageDoc.value.line else 1
    {
      var file := pkg.files[i];
      assert pkg.files[..i + 1] == pkg.files[..i] + [file];
      PackageCommentAppend(pkg.files[..i], file);
      symbols := symbols + file.symbols;
      if packageDoc.None? && file.doc.Some? {
        packageDoc := file.doc;
        firstLine := packageDoc.value.line;
      }
    }
    assert pkg.files[..|pkg.files|] == pkg.files;
    symbols := symbols + [Symbol(pkg.name, PackageKind, pkg.firstFile, firstLine,
                                 if packageDoc.Some? then Some(packageDoc.value.text) else None)];
  }

  // ---------------------------------------------------------------------------------------
  // One package
  // ---------------------------------------------------------------------------------------

  function CountFine(isUpper: char -> bool, pkgName: string, symbols: seq<Symbol>): nat {
    if symbols == [] then 0
    else CountFine(isUpper, pkgName, symbols[..|symbols| - 1])
         + (if DocProblem(isUpper, pkgName, symbols[|symbols| - 1]).None? then 1 else 0)
  }

  /** The records of the symbols whose comment is not fine, in the order they were met. */
  function Problems(isUpper: char -> bool, pkgName: string, symbols: seq<Symbol>): seq<MissingSymbol> {
    if symbols == [] then []
    else
      var sym := symbols[|symbols| - 1];
      var problem := DocProblem(isUpper, pkgName, sym);
      Problems(isUpper, pkgName, symbols[..|symbols| - 1])
      + (if problem.Some? then [MissingSymbol(sym.name, sym.kind, sym.file, sym.line, problem.value)] else [])
  }

  /** Every symbol is either fine or recorded, never both. */
  lemma {:induction false} EverySymbolCountedOnce(isUpper: char -> bool, pkgName: string, symbols: seq<Symbol>)
    ensures CountFine(isUpper, pkgName, symbols) + |Problems(isUpper, pkgName, symbols)| == |symbols|
  {
    if symbols != [] {
      EverySymbolCountedOnce(isUpper, pkgName, symbols[..|symbols| - 1]);
    }
  }

  /** By symbol, then by file. */
  predicate MissingBelow(m: MissingSymbol, n: MissingSymbol) {
    if m.symbol == n.symbol then Below(m.file, n.file) else Below(m.symbol, n.symbol)
  }

  lemma MissingBelowIsPreorder()
    ensures TotalPreorder(MissingBelow)
  {
    forall m, n ensures MissingBelow(m, n) || MissingBelow(n, m) {
      BelowIsTotal(m.symbol, n.symbol);
      BelowIsTotal(m.file, n.file);
    }
    forall m, n, o | MissingBelow(m, n) && MissingBelow(n, o) ensures MissingBelow(m, o) {
      BelowIsTotal(m.symbol, n.symbol);
      BelowIsTotal(n.symbol, o.symbol);
      if m.symbol == n.symbol == o.symbol {
        BelowIsTransitive(m.file, n.file, o.file);
      } else if m.symbol == o.symbol {
        BelowIsAntisymmetric(m.symbol, n.symbol);
      } else if m.symbol != n.symbol && n.symbol != o.symbol {
        BelowIsTransitive(m.symbol, n.symbol, o.symbol);
      }
    }
  }

  /** What analyzePackage promises of its result. */
  ghost predicate Summarizes(isUpper: char -> bool, pkg: Package, r: PackageResult) {
    var symbols := FileSymbols(pkg.files) + [PackageSymbol(pkg)];
    && r.path == pkg.path
    && r.documented == CountFine(isUpper, pkg.name, symbols)
    && r.documented + r.undocumented == |symbols|
    && Sorts(MissingBelow, Problems(isUpper, pkg.name, symbols), r.missing)
    && |r.missing| == r.undocumented
    && r.coverage == CoveragePercent(r.documented, r.documented + r.undocumented)
  }

  lemma SummaryOf(isUpper: char -> bool, pkg: Package, symbols: seq<Symbol>)
    requires symbols == FileSymbols(pkg.files) + [PackageSymbol(pkg)]
    ensures var fine := CountFine(isUpper, pkg.name, symbols);
            var missing := Sort(MissingBelow, Problems(isUpper, pkg.name, symbols));
            fine <= |symbols|
            && Summarizes(isUpper, pkg,
                           PackageResult(pkg.path, CoveragePercent(fine, |symbols|), fine, |symbols| - fine, missing))
  {
    var problems := Problems(isUpper, pkg.name, symbols);
    EverySymbolCountedOnce(isUpper, pkg.name, symbols);
    MissingBelowIsPreorder();
    SortSorts(MissingBelow, problems);
    assert |Sort(MissingBelow, problems)| == |multiset(Sort(MissingBelow, problems))|
           == |multiset(problems)| == |problems|;
  }

  method AnalyzePackage(isUpper: char -> bool, pkg: Package) returns (r: Result<PackageResult, AnalysisError>)
    ensures r.Err? <==> pkg.files == []
    ensures r.Err? ==> r.error == NoSyntax(pkg.path)
    ensures r.Ok? ==> Summarizes(isUpper, pkg, r.value)
  {
    if |pkg.files| == 0 {
      return Err(NoSyntax(pkg.path));
    }
    var symbols := CollectSymbols(pkg);
    var documented := 0;
    var missing: seq<MissingSymbol> := [];
    for i := 0 to |symbols|
      invariant documented == CountFine(isUpper, pkg.name, symbols[..i])
      invariant missing == Problems(isUpper, pkg.name, symbols[..i])
    {
      assert symbols[..i + 1] == symbols[..i] + [symbols[i]];
      var problem := DocProblem(isUpper, pkg.name, symbols[i]);
      if problem.None? {
        documented := documented + 1;
        continue;
      }
      missing := missing +
                 [MissingSymbol(symbols[i].name, symbols[i].kind, symbols[i].file, symbols[i].line, problem.value)];
    }
    assert symbols[..|symbols|] == symbols;
    SummaryOf(isUpper, pkg, symbols);
    missing := Sort(MissingBelow, missing);
    var total := |symbols|;
    r := Ok(PackageResult(pkg.path, CoveragePercent(documented, total), documented, total - documented, missing));
  }

  // ---------------------------------------------------------------------------------------
  // The whole repository
  // ---------------------------------------------------------------------------------------

  predicate ShouldConsider(pkg: Package) {
    pkg.inModule && pkg.hasGoFiles && !pkg.hasErrors
  }

  function Considered(pkgs: seq<Package>): seq<Package> {
    if pkgs == [] then []
    else Considered(pkgs[..|pkgs| - 1]) + (if ShouldConsider(pkgs[|pkgs| - 1]) then [pkgs[|pkgs| - 1]] else [])
  }

  function SumDocumented(results: seq<PackageResult>): nat {
    if results == [] then 0 else SumDocumented(results[..|results| - 1]) + results[|results| - 1].documented
  }

  function SumTotal(results: seq<PackageResult>): nat {
    if results == [] then 0
    else SumTotal(results[..|results| - 1]) + results[|results| - 1].documented + results[|results| - 1].undocumented
  }

  predicate PathBelow(p: PackageResult, q: PackageResult) {
    Below(p.path, q.path)
  }

  lemma PathBelowIsPreorder()
    ensures TotalPreorder(PathBelow)
  {
    forall p, q ensures PathBelow(p, q) || PathBelow(q, p) { BelowIsTotal(p.path, q.path); }
    forall p, q, r | PathBelow(p, q) && PathBelow(q, r) ensures PathBelow(p, r) {
      BelowIsTransitive(p.path, q.path, r.path);
    }
  }

  lemma {:induction false} SumsOfConcat(a: seq<PackageResult>, b: seq<PackageResult>)
    ensures SumDocumented(a + b) == SumDocumented(a) + SumDocumented(b)
    ensures SumTotal(a + b) == SumTotal(a) + SumTotal(b)
  {
    if b == [] {
      assert a + b == a;
    } else {
      assert (a + b)[..|a + b| - 1] == a + b[..|b| - 1];
      SumsOfConcat(a, b[..|b| - 1]);
    }
  }

  lemma WithoutOne<T>(a: seq<T>, left: seq<T>, x: T, right: seq<T>)
    requires a != [] && a[|a| - 1] == x && multiset(a) == multiset(left + [x] + right)
    ensures multiset(a[..|a| - 1]) == multiset(left + right)
  {
    assert a == a[..|a| - 1] + [x];
    var init, others := multiset(a[..|a| - 1]), multiset(left) + multiset(right);
    assert multiset(left + [x] + right) == others + multiset{x};
    assert init + multiset{x} == others + multiset{x};
    assert init == (init + multiset{x}) - multiset{x};
    assert others == (others + multiset{x}) - multiset{x};
    assert multiset(left + right) == others;
  }

  lemma {:induction false} SumsOfRearranged(a: seq<PackageResult>, b: seq<PackageResult>)
    requires multiset(a) == multiset(b)
    ensures SumDocumented(a) == SumDocumented(b) && SumTotal(a) == SumTotal(b)
    decreases |a|
  {
    if a == [] {
      assert |multiset(b)| == 0;
    } else {
      var last := a[|a| - 1];
      assert last in multiset(b);
      var k :| 0 <= k < |b| && b[k] == last;
      var left, right := b[..k], b[k + 1..];
      assert b == left + [last] + right;
      WithoutOne(a, left, last, right);
      SumsOfRearranged(a[..|a| - 1], left + right);
      SumsOfConcat(left, right);
      SumsOfConcat(left + [last], right);
      SumsOfConcat(left, [last]);
    }
  }

  /** A package has at least its package clause to document, and its coverage is its share. */
  predicate Counted(p: PackageResult) {
    p.documented + p.undocumented > 0 && p.coverage == CoveragePercent(p.documented, p.documented + p.undocumented)
  }

  /** What Analyze promises: totals are the sums over the packages, in the order of their paths,
      and the overall coverage is the share of the totals. */
  ghost predicate Accounts(result: AnalysisResult) {
    && Ordered(PathBelow, result.packages)
    && (forall i | 0 <= i < |result.packages| :: Counted(result.packages[i]))
    && result.documentedExports == SumDocumented(result.packages)
    && result.totalExports == SumTotal(result.packages)
    && result.overallCoverage == CoveragePercent(result.documentedExports, result.totalExports)
  }

  ghost predicate SummarizesAll(isUpper: char -> bool, pkgs: seq<Package>, results: seq<PackageResult>) {
    |results| == |pkgs| && forall i | 0 <= i < |pkgs| :: Summarizes(isUpper, pkgs[i], results[i])
  }

  lemma SummaryIsCounted(isUpper: char -> bool, pkg: Package, r: PackageResult)
    requires Summarizes(isUpper, pkg, r)
    ensures Counted(r)
  {
  }

  lemma RearrangedAreCounted(results: seq<PackageResult>, sorted: seq<PackageResult>)
    requires multiset(sorted) == multiset(results)
    requires forall i | 0 <= i < |results| :: Counted(results[i])
    ensures forall i | 0 <= i < |sorted| :: Counted(sorted[i])
  {
    forall i | 0 <= i < |sorted|
      ensures Counted(sorted[i])
    {
      assert sorted[i] in multiset(results);
    }
  }

  lemma ReportAccounts(isUpper: char -> bool, pkgs: seq<Package>, summaries: seq<PackageResult>)
    requires SummarizesAll(isUpper, pkgs, summaries)
    ensures var documented, total := SumDocumented(summaries), SumTotal(summaries);
            var sorted := Sort(PathBelow, summaries);
            && multiset(sorted) == multiset(summaries)
            && Accounts(AnalysisResult(CoveragePercent(documented, total), documented, total, sorted))
  {
    var sorted := Sort(PathBelow, summaries);
    PathBelowIsPreorder();
    SortSorts(PathBelow, summaries);
    SumsOfRearranged(sorted, summaries);
    forall i | 0 <= i < |summaries| ensures Counted(summaries[i]) {
      SummaryIsCounted(isUpper, pkgs[i], summaries[i]);
    }
    RearrangedAreCounted(summaries, sorted);
  }

  /** The path of the first package that cannot be analyzed. */
  function FirstWithoutSyntax(pkgs: seq<Package>): Option<string> {
    if pkgs == [] then None
    else
      var earlier, last := FirstWithoutSyntax(pkgs[..|pkgs| - 1]), pkgs[|pkgs| - 1];
      if earlier.None? && ShouldConsider(last) && last.files == [] then Some(last.path) else earlier
  }

  lemma {:induction false} FirstStaysFirst(pkgs: seq<Package>, n: nat)
    requires n <= |pkgs| && FirstWithoutSyntax(pkgs[..n]).Some?
    ensures FirstWithoutSyntax(pkgs) == FirstWithoutSyntax(pkgs[..n])
    decreases |pkgs|
  {
    if n < |pkgs| {
      assert pkgs[..|pkgs| - 1][..n] == pkgs[..n];
      FirstStaysFirst(pkgs[..|pkgs| - 1], n);
    } else {
      assert pkgs[..n] == pkgs;
    }
  }

  lemma OneMoreSummary(
    isUpper: char -> bool, pkgs: seq<Package>, results: seq<PackageResult>, pkg: Package, r: PackageResult)
    requires SummarizesAll(isUpper, pkgs, results) && Summarizes(isUpper, pkg, r)
    ensures SummarizesAll(isUpper, pkgs + [pkg], results + [r])
    ensures SumDocumented(results + [r]) == SumDocumented(results) + r.documented
    ensures SumTotal(results + [r]) == SumTotal(results) + r.documented + r.undocumented
  {
    assert (results + [r])[..|results|] == results;
  }

  /** The loop of Analyze. */
  method AnalyzeEach(isUpper: char -> bool, pkgs: seq<Package>)
    returns (packages: seq<PackageResult>, documented: nat, total: nat, failed: Option<AnalysisError>)
    ensures failed == if FirstWithoutSyntax(pkgs).Some? then Some(NoSyntax(FirstWithoutSyntax(pkgs).value)) else None
    ensures failed.None? ==> SummarizesAll(isUpper, Considered(pkgs), packages)
    ensures documented == SumDocumented(packages) && total == SumTotal(packages)
  {
    packages, documented, total := [], 0, 0;
    for i := 0 to |pkgs|
      invariant SummarizesAll(isUpper, Considered(pkgs[..i]), packages)
      invariant documented == SumDocumented(packages) && total == SumTotal(packages)
      invariant FirstWithoutSyntax(pkgs[..i]) == None
    {
      assert pkgs[..i + 1][..i] == pkgs[..i];
      if !ShouldConsider(pkgs[i]) {
        continue;
      }
      var one := AnalyzePackage(isUpper, pkgs[i]);
      if one.Err? {
        FirstStaysFirst(pkgs, i + 1);
        return packages, documented, total, Some(one.error);
      }
      OneMoreSummary(isUpper, Considered(pkgs[..i]), packages, pkgs[i], one.value);
      packages := packages + [one.value];
      documented := documented + one.value.documented;
      total := total + one.value.documented + one.value.undocumented;
    }
    assert pkgs[..|pkgs|] == pkgs;
    failed := None;
  }

  /** `summaries` are the results in the order the packages were loaded. */
  method Analyze(isUpper: char -> bool, pkgs: seq<Package>)
    returns (r: Result<AnalysisResult, AnalysisError>, ghost summaries: seq<PackageResult>)
    ensures r.Err? <==> pkgs == [] || FirstWithoutSyntax(pkgs).Some?
    ensures r.Err? ==> r.error == if pkgs == [] then NoPackages else NoSyntax(FirstWithoutSyntax(pkgs).value)
    ensures r.Ok? ==> Accounts(r.value)
    ensures r.Ok? ==>
              SummarizesAll(isUpper, Considered(pkgs), summaries) && multiset(r.value.packages) == multiset(summaries)
  {
    summaries := [];
    if |pkgs| == 0 {
      return Err(NoPackages), [];
    }
    var packages, documented, total, failed := AnalyzeEach(isUpper, pkgs);
    if failed.Some? {
      return Err(failed.value), [];
    }
    summaries := packages;
    ReportAccounts(isUpper, Considered(pkgs), summaries);
    packages := Sort(PathBelow, packages);
    r := Ok(AnalysisResult(CoveragePercent(documented, total), documented, total, packages));
  }
}
