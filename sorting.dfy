/**
 * `sorted(set(xs))` for the orders the harness sorts by: an insertion sort
 * that drops duplicates, generic over a strict total order, and the code-point
 * lexicographic order Python uses on `str`.
 */
module Sorting {

  ghost predicate StrictTotalOrder<T(!new)>(lt: (T, T) -> bool)
  {
    && (forall a :: !lt(a, a))
    && (forall a, b, c :: lt(a, b) && lt(b, c) ==> lt(a, c))
    && (forall a, b :: a != b ==> lt(a, b) || lt(b, a))
  }

  predicate StrictlySorted<T>(s: seq<T>, lt: (T, T) -> bool)
  {
    forall i, j :: 0 <= i < j < |s| ==> lt(s[i], s[j])
  }

  function Elements<T>(s: seq<T>): set<T>
  {
    set x | x in s
  }

  /** Inserts `x` into a sorted sequence unless it is already there. */
  function InsertUnique<T(==)>(x: T, s: seq<T>, lt: (T, T) -> bool): seq<T>
  {
    if s == [] then [x]
    else if x == s[0] then s
    else if lt(x, s[0]) then [x] + s
    else [s[0]] + InsertUnique(x, s[1..], lt)
  }

  /** `sorted(set(xs))`: the distinct elements of `xs` in increasing order. */
  function SortUnique<T(==)>(xs: seq<T>, lt: (T, T) -> bool): seq<T>
  {
    if xs == [] then [] else InsertUnique(xs[|xs| - 1], SortUnique(xs[..|xs| - 1], lt), lt)
  }

  lemma {:induction false} InsertUniqueSorted<T(!new)>(x: T, s: seq<T>, lt: (T, T) -> bool)
    requires StrictTotalOrder(lt) && StrictlySorted(s, lt)
    ensures StrictlySorted(InsertUnique(x, s, lt), lt)
    ensures Elements(InsertUnique(x, s, lt)) == Elements(s) + {x}
  {
    if s != [] && x != s[0] {
      var tail := s[1..];
      TailSorted(s, lt);
      assert s == [s[0]] + tail;
      if lt(x, s[0]) {
        ConsSorted(x, s, lt);
      } else {
        InsertUniqueSorted(x, tail, lt);
        var rt := InsertUnique(x, tail, lt);
        assert forall y :: y in rt ==> lt(s[0], y) by {
          forall y | y in rt ensures lt(s[0], y) {
            assert y in Elements(rt);
          }
        }
        ConsSorted(s[0], rt, lt);
        assert forall y :: y in rt <==> y in Elements(rt);
        assert forall y :: y in tail <==> y in Elements(tail);
      }
    }
  }

  /** The tail of a strictly increasing sequence is strictly increasing and lies above the head. */
  lemma TailSorted<T(!new)>(s: seq<T>, lt: (T, T) -> bool)
    requires StrictlySorted(s, lt) && s != []
    ensures StrictlySorted(s[1..], lt)
    ensures forall y :: y in s[1..] ==> lt(s[0], y)
  {
    var tail := s[1..];
    forall i, j | 0 <= i < j < |tail| ensures lt(tail[i], tail[j]) {
      assert tail[i] == s[i + 1] && tail[j] == s[j + 1];
    }
    forall y | y in tail ensures lt(s[0], y) {
      var k :| 0 <= k < |tail| && tail[k] == y;
      assert s[k + 1] == y;
    }
  }

  /** An element below everything in a strictly increasing sequence can go in front of it. */
  lemma ConsSorted<T(!new)>(h: T, t: seq<T>, lt: (T, T) -> bool)
    requires StrictTotalOrder(lt) && StrictlySorted(t, lt)
    requires (t != [] ==> lt(h, t[0]))
    ensures StrictlySorted([h] + t, lt)
  {
    var r := [h] + t;
    forall i, j | 0 <= i < j < |r| ensures lt(r[i], r[j]) {
      if i > 0 {
        assert r[i] == t[i - 1] && r[j] == t[j - 1];
      } else if j > 1 {
        assert lt(t[0], t[j - 1]);
      }
    }
  }

  /** The result is strictly increasing and holds exactly the elements of `xs`. */
  lemma {:induction false} SortUniqueCorrect<T(!new)>(xs: seq<T>, lt: (T, T) -> bool)
    requires StrictTotalOrder(lt)
    ensures StrictlySorted(SortUnique(xs, lt), lt)
    ensures Elements(SortUnique(xs, lt)) == Elements(xs)
  {
    if xs != [] {
      var init := xs[..|xs| - 1];
      SortUniqueCorrect(init, lt);
      InsertUniqueSorted(xs[|xs| - 1], SortUnique(init, lt), lt);
      assert xs == init + [xs[|xs| - 1]];
      assert forall y :: y in xs <==> y in init || y == xs[|xs| - 1];
    }
  }

  /** A strictly increasing sequence has no repeated element. */
  lemma StrictlySortedDistinct<T(!new)>(s: seq<T>, lt: (T, T) -> bool, i: int, j: int)
    requires StrictTotalOrder(lt) && StrictlySorted(s, lt)
    requires 0 <= i < |s| && 0 <= j < |s| && i != j
    ensures s[i] != s[j]
  {
    if i < j { assert lt(s[i], s[j]); } else { assert lt(s[j], s[i]); }
  }

  /** Python's `<` on `str`: lexicographic by code point, a proper prefix first. */
  predicate StrLess(a: string, b: string)
  {
    if a == [] then b != []
    else if b == [] then false
    else if a[0] != b[0] then a[0] < b[0]
    else StrLess(a[1..], b[1..])
  }

  lemma {:induction false} StrLessIrreflexive(a: string)
    ensures !StrLess(a, a)
  {
    if a != [] { StrLessIrreflexive(a[1..]); }
  }

  lemma {:induction false} StrLessTransitive(a: string, b: string, c: string)
    requires StrLess(a, b) && StrLess(b, c)
    ensures StrLess(a, c)
  {
    if a != [] && b != [] && c != [] && a[0] == b[0] && b[0] == c[0] {
      StrLessTransitive(a[1..], b[1..], c[1..]);
    }
  }

  lemma {:induction false} StrLessTotal(a: string, b: string)
    requires a != b
    ensures StrLess(a, b) || StrLess(b, a)
  {
    if a != [] && b != [] && a[0] == b[0] {
      assert a == [a[0]] + a[1..] && b == [b[0]] + b[1..];
      StrLessTotal(a[1..], b[1..]);
    }
  }

  lemma StrLessIsStrictTotalOrder()
    ensures StrictTotalOrder(StrLess)
  {
    forall a ensures !StrLess(a, a) { StrLessIrreflexive(a); }
    forall a, b, c | StrLess(a, b) && StrLess(b, c) ensures StrLess(a, c) {
      StrLessTransitive(a, b, c);
    }
    forall a, b | a != b ensures StrLess(a, b) || StrLess(b, a) { StrLessTotal(a, b); }
  }

  /** Two strictly increasing sequences with the same elements are equal: `sorted(set(...))` is canonical. */
  lemma {:induction false} StrictlySortedUnique<T(!new)>(s: seq<T>, t: seq<T>, lt: (T, T) -> bool)
    requires StrictTotalOrder(lt) && StrictlySorted(s, lt) && StrictlySorted(t, lt)
    requires Elements(s) == Elements(t)
    ensures s == t
    decreases |s|
  {
    if s == [] {
      NoElementsMeansEmpty(t);
    } else {
      assert s[0] in Elements(t);
      assert t != [];
      assert t[0] in Elements(s);
      SortedStartsWithLeast(s, lt);
      SortedStartsWithLeast(t, lt);
      assert s[0] == t[0];
      var s', t' := s[1..], t[1..];
      assert StrictlySorted(s', lt) && StrictlySorted(t', lt) by {
        forall a, b | 0 <= a < b < |s'| ensures lt(s'[a], s'[b]) { assert s'[a] == s[a + 1] && s'[b] == s[b + 1]; }
        forall a, b | 0 <= a < b < |t'| ensures lt(t'[a], t'[b]) { assert t'[a] == t[a + 1] && t'[b] == t[b + 1]; }
      }
      assert Elements(s') == Elements(s) - {s[0]} by {
        forall y ensures y in Elements(s') <==> y in Elements(s) - {s[0]} {
          if y in Elements(s') {
            var a :| 0 <= a < |s'| && s'[a] == y;
            assert lt(s[0], s[a + 1]);
          }
          if y in Elements(s) && y != s[0] {
            var a :| 0 <= a < |s| && s[a] == y;
            assert s'[a - 1] == y;
          }
        }
      }
      assert Elements(t') == Elements(t) - {t[0]} by {
        forall y ensures y in Elements(t') <==> y in Elements(t) - {t[0]} {
          if y in Elements(t') {
            var a :| 0 <= a < |t'| && t'[a] == y;
            assert lt(t[0], t[a + 1]);
          }
          if y in Elements(t) && y != t[0] {
            var a :| 0 <= a < |t| && t[a] == y;
            assert t'[a - 1] == y;
          }
        }
      }
      StrictlySortedUnique(s', t', lt);
      assert s == [s[0]] + s' && t == [t[0]] + t';
    }
  }

  lemma NoElementsMeansEmpty<T>(t: seq<T>)
    ensures Elements(t) == {} ==> t == []
  {
    if t != [] {
      assert t[0] in Elements(t);
    }
  }

  /** Every other element of a strictly increasing sequence is above its first. */
  lemma SortedStartsWithLeast<T>(s: seq<T>, lt: (T, T) -> bool)
    requires StrictlySorted(s, lt) && s != []
    ensures forall y :: y in Elements(s) ==> y == s[0] || lt(s[0], y)
  {
    forall y | y in Elements(s) ensures y == s[0] || lt(s[0], y) {
      var a :| 0 <= a < |s| && s[a] == y;
      if a > 0 { assert lt(s[0], s[a]); }
    }
  }

  /** Python's `<` on tuples: lexicographic by element, a proper prefix first. */
  predicate LexLess<T(==)>(a: seq<T>, b: seq<T>, lt: (T, T) -> bool)
  {
    if a == [] then b != []
    else if b == [] then false
    else if a[0] != b[0] then lt(a[0], b[0])
    else LexLess(a[1..], b[1..], lt)
  }

  lemma {:induction false} LexLessIrreflexive<T(!new)>(a: seq<T>, lt: (T, T) -> bool)
    ensures !LexLess(a, a, lt)
  {
    if a != [] { LexLessIrreflexive(a[1..], lt); }
  }

  lemma {:induction false} LexLessTransitive<T(!new)>(a: seq<T>, b: seq<T>, c: seq<T>, lt: (T, T) -> bool)
    requires StrictTotalOrder(lt)
    requires LexLess(a, b, lt) && LexLess(b, c, lt)
    ensures LexLess(a, c, lt)
  {
    if a != [] && b != [] && c != [] {
      if a[0] == b[0] && b[0] == c[0] {
        LexLessTransitive(a[1..], b[1..], c[1..], lt);
      } else if a[0] != b[0] && b[0] != c[0] {
        assert lt(a[0], b[0]) && lt(b[0], c[0]);
        assert a[0] != c[0];
      }
    }
  }

  lemma {:induction false} LexLessTotal<T(!new)>(a: seq<T>, b: seq<T>, lt: (T, T) -> bool)
    requires StrictTotalOrder(lt)
    requires a != b
    ensures LexLess(a, b, lt) || LexLess(b, a, lt)
  {
    if a != [] && b != [] && a[0] == b[0] {
      assert a == [a[0]] + a[1..] && b == [b[0]] + b[1..];
      LexLessTotal(a[1..], b[1..], lt);
    }
  }

  /** Tuples of strings, compared the way Python compares them. */
  predicate TupleLess(a: seq<string>, b: seq<string>)
  {
    LexLess(a, b, StrLess)
  }

  lemma TupleLessIsStrictTotalOrder()
    ensures StrictTotalOrder(TupleLess)
  {
    StrLessIsStrictTotalOrder();
    forall a ensures !TupleLess(a, a) { LexLessIrreflexive(a, StrLess); }
    forall a, b, c | TupleLess(a, b) && TupleLess(b, c) ensures TupleLess(a, c) {
      LexLessTransitive(a, b, c, StrLess);
    }
    forall a, b | a != b ensures TupleLess(a, b) || TupleLess(b, a) { LexLessTotal(a, b, StrLess); }
  }
}
