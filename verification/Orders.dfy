/**
 Python's `sorted` over sets: strict total orders, the lexicographic order on
 sequences that `str` and `tuple` comparison use, and the one sequence that lists a
 set in increasing order.
 */
module Orders {

  ghost predicate StrictTotal<T(!new)>(before: (T, T) -> bool) {
    && (forall x :: !before(x, x))
    && (forall x, y, z :: before(x, y) && before(y, z) ==> before(x, z))
    && (forall x, y :: x == y || before(x, y) || before(y, x))
  }

  /** Every element comes before every later one; in particular none is repeated. */
  ghost predicate Ascending<T>(before: (T, T) -> bool, s: seq<T>) {
    forall i, j :: 0 <= i < j < |s| ==> before(s[i], s[j])
  }

  function Elements<T>(s: seq<T>): (r: set<T>) {
    set x | x in s
  }

  lemma DistinctCount<T>(s: seq<T>)
    requires forall i, j :: 0 <= i < j < |s| ==> s[i] != s[j]
    ensures |Elements(s)| == |s|
  {
    if s != [] {
      DistinctCount(s[1..]);
      assert Elements(s) == {s[0]} + Elements(s[1..]);
    }
  }

  predicate IsLeast<T(==)>(before: (T, T) -> bool, x: T, s: set<T>) {
    x in s && forall y | y in s :: y == x || before(x, y)
  }

  lemma LeastExists<T(!new)>(before: (T, T) -> bool, s: set<T>)
    requires StrictTotal(before)
    requires s != {}
    ensures exists x :: IsLeast(before, x, s)
  {
    var x :| x in s;
    if s == {x} {
      assert IsLeast(before, x, s);
    } else {
      LeastExists(before, s - {x});
      var y :| IsLeast(before, y, s - {x});
      var z := if before(x, y) then x else y;
      assert forall w | w in s :: w == x || w in s - {x};
      assert IsLeast(before, z, s);
    }
  }

  /** `sorted(s)` for a set `s`. */
  function Sorted<T(!new, ==)>(before: (T, T) -> bool, s: set<T>): (r: seq<T>)
    requires StrictTotal(before)
    ensures Ascending(before, r)
    ensures Elements(r) == s
    ensures |r| == |s|
  {
    if s == {} then []
    else
      LeastExists(before, s);
      var x :| IsLeast(before, x, s);
      var rest := Sorted(before, s - {x});
      ConsAscending(before, x, rest);
      [x] + rest
  }

  lemma ConsAscending<T>(before: (T, T) -> bool, x: T, rest: seq<T>)
    requires Ascending(before, rest)
    requires forall y | y in Elements(rest) :: before(x, y)
    ensures Ascending(before, [x] + rest)
    ensures Elements([x] + rest) == {x} + Elements(rest)
  {
    forall i, j | 0 <= i < j < |[x] + rest| ensures before(([x] + rest)[i], ([x] + rest)[j]) {
      assert rest[j - 1] in Elements(rest);
    }
  }

  /** An ascending listing is determined by its elements, so reports are reproducible. */
  lemma {:induction false} AscendingUnique<T(!new)>(before: (T, T) -> bool, s: seq<T>, t: seq<T>)
    requires StrictTotal(before)
    requires Ascending(before, s) && Ascending(before, t)
    requires Elements(s) == Elements(t)
    ensures s == t
  {
    if s + t == [] {
      assert |s| == |s + t| - |t| && |t| == |s + t| - |s|;
    } else {
      var x := (s + t)[0];
      assert x in Elements(s) && x in Elements(t);
      assert s[0] in Elements(t) && t[0] in Elements(s);
      assert s[0] == t[0];
      assert Elements(s[1..]) == Elements(s) - {s[0]} by { TailElements(before, s); }
      assert Elements(t[1..]) == Elements(t) - {t[0]} by { TailElements(before, t); }
      AscendingUnique(before, s[1..], t[1..]);
      assert s == [s[0]] + s[1..] && t == [t[0]] + t[1..];
    }
  }

  lemma TailElements<T(!new)>(before: (T, T) -> bool, s: seq<T>)
    requires StrictTotal(before)
    requires Ascending(before, s) && s != []
    ensures Elements(s[1..]) == Elements(s) - {s[0]}
  {
    forall x | x in Elements(s) - {s[0]} ensures x in s[1..] {
      var i :| 0 <= i < |s| && s[i] == x;
      assert s[1..][i - 1] == x;
    }
  }

  /** Lexicographic order, as Python compares strings and tuples. */
  predicate Lex<T(==)>(before: (T, T) -> bool, a: seq<T>, b: seq<T>) {
    b != [] && (a == [] || before(a[0], b[0]) || (a[0] == b[0] && Lex(before, a[1..], b[1..])))
  }

  lemma LexIrreflexive<T(!new)>(before: (T, T) -> bool, a: seq<T>)
    requires StrictTotal(before)
    ensures !Lex(before, a, a)
  {
  }

  lemma LexTransitive<T(!new)>(before: (T, T) -> bool, a: seq<T>, b: seq<T>, c: seq<T>)
    requires StrictTotal(before)
    requires Lex(before, a, b) && Lex(before, b, c)
    ensures Lex(before, a, c)
  {
    if a != [] && a[0] == b[0] == c[0] {
      LexTransitive(before, a[1..], b[1..], c[1..]);
    }
  }

  lemma LexConnected<T(!new)>(before: (T, T) -> bool, a: seq<T>, b: seq<T>)
    requires StrictTotal(before)
    ensures a == b || Lex(before, a, b) || Lex(before, b, a)
  {
    if a != [] && b != [] && a[0] == b[0] {
      LexConnected(before, a[1..], b[1..]);
      assert a == [a[0]] + a[1..] && b == [b[0]] + b[1..];
    }
  }

  predicate CharBefore(a: char, b: char) { a < b }

  /** `<` on `str`: code points, left to right. */
  predicate StringBefore(a: string, b: string) { Lex(CharBefore, a, b) }

  /** `<` on a tuple of `str`. */
  predicate ListBefore(a: seq<string>, b: seq<string>) { Lex(StringBefore, a, b) }

  /** `<` on a pair of `str`, as edges are sorted. */
  predicate PairBefore(a: (string, string), b: (string, string)) {
    StringBefore(a.0, b.0) || (a.0 == b.0 && StringBefore(a.1, b.1))
  }

  lemma StringOrder()
    ensures StrictTotal(StringBefore)
  {
    assert StrictTotal(CharBefore);
    forall x: string ensures !StringBefore(x, x) { LexIrreflexive(CharBefore, x); }
    forall x: string, y: string, z: string | StringBefore(x, y) && StringBefore(y, z) ensures StringBefore(x, z) {
      LexTransitive(CharBefore, x, y, z);
    }
    forall x: string, y: string ensures x == y || StringBefore(x, y) || StringBefore(y, x) {
      LexConnected(CharBefore, x, y);
    }
  }

  /** `sorted` over a set of names. */
  function SortedNames(s: set<string>): (r: seq<string>)
    ensures Ascending(StringBefore, r)
    ensures Elements(r) == s
    ensures |r| == |s|
  {
    StringOrder();
    Sorted(StringBefore, s)
  }

  lemma ListOrder()
    ensures StrictTotal(ListBefore)
  {
    StringOrder();
    forall x: seq<string> ensures !ListBefore(x, x) { LexIrreflexive(StringBefore, x); }
    forall x: seq<string>, y: seq<string>, z: seq<string> | ListBefore(x, y) && ListBefore(y, z)
      ensures ListBefore(x, z)
    {
      LexTransitive(StringBefore, x, y, z);
    }
    forall x: seq<string>, y: seq<string> ensures x == y || ListBefore(x, y) || ListBefore(y, x) {
      LexConnected(StringBefore, x, y);
    }
  }

  lemma PairOrder()
    ensures StrictTotal(PairBefore)
  {
    StringOrder();
  }

  /** `sorted` over a set of edges. */
  function SortedPairs(s: set<(string, string)>): (r: seq<(string, string)>)
    ensures Ascending(PairBefore, r)
    ensures Elements(r) == s
    ensures |r| == |s|
  {
    PairOrder();
    Sorted(PairBefore, s)
  }

  lemma PairsDistinct(s: seq<(string, string)>)
    requires Ascending(PairBefore, s)
    ensures forall i, j :: 0 <= i < j < |s| ==> s[i] != s[j]
    ensures |Elements(s)| == |s|
  {
    PairOrder();
    DistinctCount(s);
  }

  /** `sorted(names)` where only the names matter, not their order. */
  function InOrder(names: set<string>): (r: seq<string>)
    ensures forall n :: n in r <==> n in names
  {
    assert forall n :: n in SortedNames(names) <==> n in Elements(SortedNames(names));
    SortedNames(names)
  }

  lemma SubsetSize<T>(a: set<T>, b: set<T>)
    requires a <= b
    ensures |a| <= |b|
  {
    assert b == a + (b - a);
  }
}
