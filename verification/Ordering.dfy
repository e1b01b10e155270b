/** Lexicographic order on strings, and sorting by an order in which ties may fall either way
    (sort.Slice of the Go standard library). */
module Ordering {

  /** a <= b for Go strings. */
  predicate Below(a: string, b: string) {
    a == [] || (b != [] && (a[0] < b[0] || (a[0] == b[0] && Below(a[1..], b[1..]))))
  }

  lemma {:induction false} BelowIsTotal(a: string, b: string)
    ensures Below(a, b) || Below(b, a)
  {
    if a != [] && b != [] {
      BelowIsTotal(a[1..], b[1..]);
    }
  }

  lemma {:induction false} BelowIsTransitive(a: string, b: string, c: string)
    requires Below(a, b) && Below(b, c)
    ensures Below(a, c)
  {
    if a != [] && a[0] == b[0] == c[0] {
      BelowIsTransitive(a[1..], b[1..], c[1..]);
    }
  }

  lemma {:induction false} BelowIsAntisymmetric(a: string, b: string)
    requires Below(a, b) && Below(b, a)
    ensures a == b
  {
    if a != [] {
      BelowIsAntisymmetric(a[1..], b[1..]);
    }
  }

  ghost predicate TotalPreorder<T(!new)>(le: (T, T) -> bool) {
    && (forall x, y :: le(x, y) || le(y, x))
    && (forall x, y, z :: le(x, y) && le(y, z) ==> le(x, z))
  }

  ghost predicate Ordered<T>(le: (T, T) -> bool, s: seq<T>) {
    forall i, j | 0 <= i < j < |s| :: le(s[i], s[j])
  }

  /** `r` is `s` put in order. */
  ghost predicate Sorts<T>(le: (T, T) -> bool, s: seq<T>, r: seq<T>) {
    Ordered(le, r) && multiset(r) == multiset(s)
  }

  /** The first position whose element `x` may stand before. */
  function Place<T>(le: (T, T) -> bool, x: T, s: seq<T>): (k: nat)
    ensures k <= |s|
    ensures forall i | 0 <= i < k :: !le(x, s[i])
    ensures k < |s| ==> le(x, s[k])
  {
    if s == [] || le(x, s[0]) then 0 else 1 + Place(le, x, s[1..])
  }

  function Insert<T>(le: (T, T) -> bool, x: T, s: seq<T>): seq<T> {
    var k := Place(le, x, s);
    s[..k] + [x] + s[k..]
  }

  lemma InsertKeepsOrder<T(!new)>(le: (T, T) -> bool, x: T, s: seq<T>)
    requires TotalPreorder(le) && Ordered(le, s)
    ensures Ordered(le, Insert(le, x, s))
  {
    var k, r := Place(le, x, s), Insert(le, x, s);
    forall i, j | 0 <= i < j < |r|
      ensures le(r[i], r[j])
    {
      if i < k < j {
        assert r[i] == s[i] && r[j] == s[j - 1];
      } else if i == k {
        assert r[i] == x && r[j] == s[j - 1];
        assert j - 1 > k ==> le(s[k], s[j - 1]);
      } else if j == k {
        assert r[i] == s[i] && r[j] == x;
      } else {
        assert r[i] == (if i < k then s[i] else s[i - 1]);
        assert r[j] == (if j < k then s[j] else s[j - 1]);
      }
    }
  }

  lemma InsertKeepsElements<T>(le: (T, T) -> bool, x: T, s: seq<T>)
    ensures multiset(Insert(le, x, s)) == multiset(s) + multiset{x}
  {
    var k := Place(le, x, s);
    assert s == s[..k] + s[k..];
  }

  function Sort<T>(le: (T, T) -> bool, s: seq<T>): seq<T> {
    if s == [] then [] else Insert(le, s[0], Sort(le, s[1..]))
  }

  lemma {:induction false} SortKeepsElements<T>(le: (T, T) -> bool, s: seq<T>)
    ensures multiset(Sort(le, s)) == multiset(s)
  {
    if s != [] {
      SortKeepsElements(le, s[1..]);
      InsertKeepsElements(le, s[0], Sort(le, s[1..]));
      assert s == [s[0]] + s[1..];
    }
  }

  lemma {:induction false} SortSorts<T(!new)>(le: (T, T) -> bool, s: seq<T>)
    requires TotalPreorder(le)
    ensures Sorts(le, s, Sort(le, s))
  {
    SortKeepsElements(le, s);
    if s != [] {
      SortSorts(le, s[1..]);
      InsertKeepsOrder(le, s[0], Sort(le, s[1..]));
    }
  }
}
