/** What the analyzer's working functions amount to, said without them. */
module AnalyzerTheorems {
  import opened Wrappers
  import opened Text
  import opened Ordering
  import opened Analyzer

  // ---------------------------------------------------------------------------------------
  // Comments
  // ---------------------------------------------------------------------------------------

  /** What a comment has to start with. */
  function RequiredStart(pkgName: string, sym: Symbol): string {
    if sym.kind == PackageKind then "Package " + pkgName else sym.name
  }

  /** A comment is fine when, on one line and without white space around it, it starts with the
      right words, with an upper-case letter, and has a full stop somewhere. It is missing when
      nothing is left of it, and has the wrong start otherwise or is ill-formed. */
  lemma CommentIsFine(isUpper: char -> bool, pkgName: string, sym: Symbol)
    ensures var problem := DocProblem(isUpper, pkgName, sym);
            var text := if sym.doc.None? then "" else TrimSpace(SpaceForNewline(sym.doc.value));
            var start := RequiredStart(pkgName, sym);
            var started := |start| <= |text| && text[..|start|] == start;
            var formed := text != "" && isUpper(text[0]) && exists i :: 0 <= i < |text| && text[i] == '.';
            && (problem == None <==> started && formed)
            && (problem == Some(Missing) <==> text == "")
            && (problem == Some(MismatchedPrefix) <==> text != "" && !started)
            && (problem == Some(Formatting) <==> text != "" && started && !formed)
  {
  }

  predicate IsFine(isUpper: char -> bool, pkgName: string, sym: Symbol) {
    DocProblem(isUpper, pkgName, sym) == None
  }

  ghost function FineOnes(isUpper: char -> bool, pkgName: string, symbols: seq<Symbol>): set<nat> {
    set i: nat | i < |symbols| && IsFine(isUpper, pkgName, symbols[i])
  }

  lemma FineOnesOfLast(isUpper: char -> bool, pkgName: string, symbols: seq<Symbol>)
    requires symbols != []
    ensures var n := |symbols| - 1;
            FineOnes(isUpper, pkgName, symbols)
            == FineOnes(isUpper, pkgName, symbols[..n]) + (if IsFine(isUpper, pkgName, symbols[n]) then {n} else {})
  {
  }

  /** As many are counted as documented as there are symbols with a fine comment. */
  lemma {:induction false} CountFineCounts(isUpper: char -> bool, pkgName: string, symbols: seq<Symbol>)
    ensures CountFine(isUpper, pkgName, symbols) == |FineOnes(isUpper, pkgName, symbols)|
  {
    if symbols == [] {
      assert FineOnes(isUpper, pkgName, symbols) == {};
    } else {
      CountFineCounts(isUpper, pkgName, symbols[..|symbols| - 1]);
      FineOnesOfLast(isUpper, pkgName, symbols);
    }
  }

  /** The records are those of the symbols with a problem, each with its own particulars. */
  lemma {:induction false} ProblemsAreFaulty(
    isUpper: char -> bool, pkgName: string, symbols: seq<Symbol>, m: MissingSymbol)
    ensures m in Problems(isUpper, pkgName, symbols) <==>
            exists i :: 0 <= i < |symbols| &&
              var sym := symbols[i];
              && m.symbol == sym.name && m.kind == sym.kind && m.file == sym.file && m.line == sym.line
              && DocProblem(isUpper, pkgName, sym) == Some(m.reason)
  {
    if symbols != [] {
      var init, sym := symbols[..|symbols| - 1], symbols[|symbols| - 1];
      ProblemsAreFaulty(isUpper, pkgName, init, m);
      assert forall i | 0 <= i < |init| :: init[i] == symbols[i];
      if DocProblem(isUpper, pkgName, sym) == Some(m.reason) && m.symbol == sym.name && m.kind == sym.kind
         && m.file == sym.file && m.line == sym.line {
        assert m == MissingSymbol(sym.name, sym.kind, sym.file, sym.line, m.reason);
      }
    }
  }

  // ---------------------------------------------------------------------------------------
  // Files and packages
  // ---------------------------------------------------------------------------------------

  /** The package comment is that of the first file with one. */
  lemma {:induction false} PackageCommentIsFirst(files: seq<SourceFile>, c: Comment)
    ensures PackageComment(files) == Some(c) <==>
            exists i :: 0 <= i < |files| && files[i].doc == Some(c) && forall j | 0 <= j < i :: files[j].doc == None
  {
    if files != [] {
      var rest := files[1..];
      PackageCommentIsFirst(rest, c);
      if files[0].doc == None && PackageComment(rest) == Some(c) {
        var i :| 0 <= i < |rest| && rest[i].doc == Some(c) && forall j | 0 <= j < i :: rest[j].doc == None;
        assert files[i + 1].doc == Some(c);
        assert forall j | 0 <= j < i + 1 :: j > 0 ==> files[j] == rest[j - 1];
      }
      if i :| 0 < i < |files| && files[i].doc == Some(c) && forall j | 0 <= j < i :: files[j].doc == None {
        assert rest[i - 1].doc == Some(c);
        assert forall j | 0 <= j < i - 1 :: rest[j] == files[j + 1];
      }
    }
  }

  /** A package's own symbol stands for the first package comment, or for none, on line 1. */
  lemma PackageSymbolSays(pkg: Package)
    ensures var sym := PackageSymbol(pkg);
            && sym.name == pkg.name && sym.kind == PackageKind && sym.file == pkg.firstFile
            && ((forall i | 0 <= i < |pkg.files| :: pkg.files[i].doc == None) ==> sym.doc == None && sym.line == 1)
            && (forall i | 0 <= i < |pkg.files| && pkg.files[i].doc.Some? ::
                  (forall j | 0 <= j < i :: pkg.files[j].doc == None) ==>
                    sym.doc == Some(pkg.files[i].doc.value.text) && sym.line == pkg.files[i].doc.value.line)
  {
    var first := PackageComment(pkg.files);
    if first.Some? {
      PackageCommentIsFirst(pkg.files, first.value);
    }
    forall i | 0 <= i < |pkg.files| && pkg.files[i].doc.Some? && forall j | 0 <= j < i :: pkg.files[j].doc == None
      ensures first == pkg.files[i].doc
    {
      PackageCommentIsFirst(pkg.files, pkg.files[i].doc.value);
    }
  }

  lemma {:induction false} FileSymbolsAreAll(files: seq<SourceFile>, sym: Symbol)
    ensures sym in FileSymbols(files) <==> exists i :: 0 <= i < |files| && sym in files[i].symbols
  {
    if files != [] {
      var init := files[..|files| - 1];
      FileSymbolsAreAll(init, sym);
      assert forall i | 0 <= i < |init| :: init[i] == files[i];
    }
  }

  /** Packages of the module that have Go files and loaded without errors count, others do not. */
  lemma {:induction false} ConsideredAreSound(pkgs: seq<Package>, pkg: Package)
    ensures pkg in Considered(pkgs) <==> pkg in pkgs && pkg.inModule && pkg.hasGoFiles && !pkg.hasErrors
  {
    if pkgs != [] {
      ConsideredAreSound(pkgs[..|pkgs| - 1], pkg);
      assert pkgs == pkgs[..|pkgs| - 1] + [pkgs[|pkgs| - 1]];
    }
  }

  // ---------------------------------------------------------------------------------------
  // The order of reports
  // ---------------------------------------------------------------------------------------

  /** The first `n` characters are the same. */
  ghost predicate Agree(a: string, b: string, n: nat) {
    n <= |a| && n <= |b| && forall j | 0 <= j < n :: a[j] == b[j]
  }

  /** Position `i` is the first difference, and `a` has the smaller character there. */
  ghost predicate SmallerAt(a: string, b: string, i: nat) {
    i < |a| && i < |b| && Agree(a, b, i) && a[i] < b[i]
  }

  lemma AgreeTails(a: string, b: string, n: nat)
    requires a != [] && b != [] && a[0] == b[0]
    ensures Agree(a, b, n + 1) <==> Agree(a[1..], b[1..], n)
  {
    if Agree(a, b, n + 1) {
      assert forall j | 0 <= j < n :: a[1..][j] == a[j + 1] && b[1..][j] == b[j + 1];
    }
    if Agree(a[1..], b[1..], n) {
      assert forall j | 1 <= j < n + 1 :: a[j] == a[1..][j - 1] && b[j] == b[1..][j - 1];
    }
  }

  lemma SmallerInTails(a: string, b: string, i: nat)
    requires a != [] && b != [] && a[0] == b[0]
    ensures SmallerAt(a, b, i + 1) <==> SmallerAt(a[1..], b[1..], i)
  {
    AgreeTails(a, b, i);
  }

  /** The order of strings: a prefix comes first, otherwise the first difference decides. */
  lemma {:induction false} BelowIsLexicographic(a: string, b: string)
    ensures Below(a, b) <==> Agree(a, b, |a|) || exists i :: SmallerAt(a, b, i)
  {
    if a != [] && b != [] {
      if a[0] == b[0] {
        BelowIsLexicographic(a[1..], b[1..]);
        AgreeTails(a, b, |a| - 1);
        if i: nat :| SmallerAt(a[1..], b[1..], i) {
          SmallerInTails(a, b, i);
        }
        if i: nat :| SmallerAt(a, b, i) {
          assert i > 0;
          SmallerInTails(a, b, i - 1);
        }
      } else if a[0] < b[0] {
        assert SmallerAt(a, b, 0);
      }
    }
  }
}
