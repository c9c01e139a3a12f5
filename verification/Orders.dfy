/** Least elements of finite sets, for queries that order and limit their rows. */
module Orders {

  /** `before` decides between any two elements, and consistently. */
  ghost predicate OrdersAll<T(!new)>(before: (T, T) -> bool, s: set<T>) {
    && (forall a, b :: a in s && b in s && a != b ==> before(a, b) || before(b, a))
    && (forall a, b, c :: a in s && b in s && c in s && before(a, b) && before(b, c) ==> before(a, c))
  }

  ghost predicate IsLeast<T(!new)>(a: T, s: set<T>, before: (T, T) -> bool) {
    a in s && forall b :: b in s && b != a ==> before(a, b)
  }

  /** A total order has a least element in every nonempty finite set. */
  lemma {:induction false} LeastExists<T(!new)>(s: set<T>, before: (T, T) -> bool)
    requires s != {} && OrdersAll(before, s)
    ensures exists a :: IsLeast(a, s, before)
    decreases s
  {
    var x :| x in s;
    var rest := s - {x};
    if rest == {} {
      assert forall b :: b in s ==> b in rest || b == x;
      assert IsLeast(x, s, before);
    } else {
      LeastExists(rest, before);
      var a :| IsLeast(a, rest, before);
      LeastOfOneMore(s, x, a, before);
    }
  }

  lemma LeastOfOneMore<T(!new)>(s: set<T>, x: T, a: T, before: (T, T) -> bool)
    requires x in s && OrdersAll(before, s) && IsLeast(a, s - {x}, before)
    ensures exists least :: IsLeast(least, s, before)
  {
    var least := if before(x, a) then x else a;
    forall b | b in s && b != least ensures before(least, b) {
      assert b == x || b in s - {x};
    }
    assert IsLeast(least, s, before);
  }
}
