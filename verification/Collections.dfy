/** Sequences and finite sets: sizes, distinct elements, and the least element of a total order. */
module Collections {

  lemma {:induction false} SubsetSize<T>(a: set<T>, b: set<T>)
    requires a <= b
    ensures |a| <= |b|
  {
    if a != {} {
      var x :| x in a;
      SubsetSize(a - {x}, b - {x});
    }
  }

  lemma SetUpdate<T>(before: set<T>, after: set<T>, r: T)
    requires before - {r} == after - {r}
    ensures |after| == |before| - (if r in before then 1 else 0) + (if r in after then 1 else 0)
  {
    assert before == if r in before then (before - {r}) + {r} else before - {r};
    assert after == if r in after then (after - {r}) + {r} else after - {r};
  }

  lemma Disjoint<T>(a: set<T>, b: set<T>)
    requires a !! b
    ensures |a + b| == |a| + |b|
  {
  }

  ghost predicate StrictTotal<T(!new)>(less: (T, T) -> bool, s: set<T>) {
    && (forall a | a in s :: !less(a, a))
    && (forall a, b | a in s && b in s :: a == b || less(a, b) || less(b, a))
    && (forall a, b, c | a in s && b in s && c in s && less(a, b) && less(b, c) :: less(a, c))
  }

  ghost predicate IsLeast<T(!new)>(less: (T, T) -> bool, s: set<T>, m: T) {
    m in s && forall x | x in s :: x == m || less(m, x)
  }

  lemma {:induction false} LeastExists<T(!new)>(less: (T, T) -> bool, s: set<T>) returns (m: T)
    requires s != {} && StrictTotal(less, s)
    ensures IsLeast(less, s, m)
  {
    var first :| first in s;
    m := first;
    if s - {first} != {} {
      var n := LeastExists(less, s - {first});
      if less(n, first) {
        m := n;
      }
    }
    forall x | x in s ensures x == m || less(m, x) {
      assert x == first || x in s - {first};
    }
  }

  // ---------------------------------------------------------------- sequences

  function Elements<T(==)>(list: seq<T>): (s: set<T>) {
    set x | x in list
  }

  predicate Distinct<T(==)>(list: seq<T>) {
    forall i, j | 0 <= i < j < |list| :: list[i] != list[j]
  }

  /** Counting the elements as a set detects every repetition. */
  lemma {:induction false} CountsDistinct<T>(list: seq<T>)
    ensures |Elements(list)| <= |list|
    ensures |Elements(list)| == |list| <==> Distinct(list)
  {
    if list != [] {
      var front, x := list[..|list| - 1], list[|list| - 1];
      CountsDistinct(front);
      assert Elements(list) == Elements(front) + {x};
      if x in front {
        var i :| 0 <= i < |front| && front[i] == x;
        assert list[i] == list[|list| - 1];
      } else {
        assert Distinct(front) ==> Distinct(list);
      }
      assert Distinct(list) ==> Distinct(front);
    }
  }

  lemma Grow<T>(before: seq<T>, list: seq<T>, k: nat)
    requires k < |list|
    ensures (before + list[..k]) + [list[k]] == before + list[..k + 1]
  {
  }

  lemma Regroup<T>(a: seq<T>, b: seq<T>, c: seq<T>)
    ensures (a + b) + c == a + (b + c)
  {
  }
}
