/** Minimum and maximum of a finite, non-empty set of integers: the model of
    Python's `min` and `max` applied to a set of hand totals. Both are only
    defined on non-empty sets, because `min(set())` and `max(set())` raise. */
module Extrema {

  /** A non-empty set has an element to pick. The solver does not link
      `s != {}` to an element of `s` on its own, so the case split makes it. */
  lemma HasElement(s: set<int>)
    requires s != {}
    ensures exists y :: y in s
  {
    if !exists y :: y in s {
      assert false;
    }
  }

  lemma {:induction false} MinExists(s: set<int>)
    requires s != {}
    ensures exists m :: m in s && forall x :: x in s ==> m <= x
  {
    HasElement(s);
    var y :| y in s;
    if s != {y} {
      MinExists(s - {y});
      var m :| m in s - {y} && forall x :: x in s - {y} ==> m <= x;
      forall x | x in s && x != y
        ensures m <= x
      {
        assert x in s - {y};
      }
    } else {
      assert forall x :: x in s ==> y <= x;
    }
  }

  lemma {:induction false} MaxExists(s: set<int>)
    requires s != {}
    ensures exists m :: m in s && forall x :: x in s ==> x <= m
  {
    HasElement(s);
    var y :| y in s;
    if s != {y} {
      MaxExists(s - {y});
      var m :| m in s - {y} && forall x :: x in s - {y} ==> x <= m;
      forall x | x in s && x != y
        ensures x <= m
      {
        assert x in s - {y};
      }
    } else {
      assert forall x :: x in s ==> x <= y;
    }
  }

  /** The least element of `s`. */
  function MinOf(s: set<int>): (m: int)
    requires s != {}
    ensures m in s
    ensures forall x :: x in s ==> m <= x
  {
    MinExists(s);
    var m :| m in s && forall x :: x in s ==> m <= x;
    m
  }

  /** The greatest element of `s`. */
  function MaxOf(s: set<int>): (m: int)
    requires s != {}
    ensures m in s
    ensures forall x :: x in s ==> x <= m
  {
    MaxExists(s);
    var m :| m in s && forall x :: x in s ==> x <= m;
    m
  }
}
