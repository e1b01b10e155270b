/** The string operations of the Go standard library that the program relies on.
    A string is a sequence of code points. */
module Text {

  /** unicode.IsSpace. */
  predicate IsSpace(c: char) {
    var n := c as int;
    || 9 <= n <= 13 || n == 32 || n == 0x85 || n == 0xA0 || n == 0x1680
    || 0x2000 <= n <= 0x200A || n == 0x2028 || n == 0x2029 || n == 0x202F || n == 0x205F || n == 0x3000
  }

  /** No white space at either end. */
  predicate Trimmed(s: string) {
    s == [] || (!IsSpace(s[0]) && !IsSpace(s[|s| - 1]))
  }

  function TrimLeft(s: string): (r: string)
    ensures r == [] || !IsSpace(r[0])
  {
    if s != [] && IsSpace(s[0]) then TrimLeft(s[1..]) else s
  }

  function TrimRight(s: string): (r: string)
    ensures r != [] ==> s != [] && (r[0] == s[0] && !IsSpace(r[|r| - 1]))
  {
    if s != [] && IsSpace(s[|s| - 1]) then TrimRight(s[..|s| - 1]) else s
  }

  /** strings.TrimSpace: the result is trimmed, and is `s` itself exactly when `s` was. */
  function TrimSpace(s: string): (r: string)
    ensures Trimmed(r)
    ensures r == s <==> Trimmed(s)
  {
    TrimRight(TrimLeft(s))
  }

  predicate AllSpace(s: string) {
    forall c | c in s :: IsSpace(c)
  }

  /** `r` is what is left of `s` without the white space `left` before and `right` after it. */
  predicate Cut(s: string, left: string, r: string, right: string) {
    s == left + r + right && AllSpace(left) && AllSpace(right)
  }

  lemma {:induction false} TrimLeftCuts(s: string) returns (left: string)
    ensures Cut(s, left, TrimLeft(s), [])
  {
    if s != [] && IsSpace(s[0]) {
      var rest := TrimLeftCuts(s[1..]);
      left := [s[0]] + rest;
      assert s == [s[0]] + s[1..];
    } else {
      left := [];
    }
  }

  lemma {:induction false} TrimRightCuts(s: string) returns (right: string)
    ensures Cut(s, [], TrimRight(s), right)
  {
    var n := |s|;
    if s != [] && IsSpace(s[n - 1]) {
      var rest := TrimRightCuts(s[..n - 1]);
      right := rest + [s[n - 1]];
      assert s == s[..n - 1] + [s[n - 1]];
    } else {
      right := [];
    }
  }

  /** Trimming takes white space away at the two ends and nothing else. */
  lemma TrimSpaceCuts(s: string)
    ensures exists left, right :: Cut(s, left, TrimSpace(s), right)
  {
    var left := TrimLeftCuts(s);
    var right := TrimRightCuts(TrimLeft(s));
    assert Cut(s, left, TrimSpace(s), right);
  }

  predicate HasPrefix(s: string, prefix: string) {
    prefix <= s
  }
}
