/**
 Finite sets of integer identifiers: their least element, and how cardinalities move when
 one element joins, leaves or is mapped.
 */
module Sets {

  ghost function Pick<T>(s: set<T>): (x: T)
    requires s != {}
    ensures x in s
  {
    var x :| x in s;
    x
  }

  /** The least element. Compiled code may use it: the choice is unique. */
  function Least(s: set<int>): (x: int)
    requires s != {}
    ensures x in s && forall y | y in s :: x <= y
  {
    LeastExists(s);
    var x :| x in s && forall y | y in s :: x <= y;
    x
  }

  lemma {:induction false} LeastExists(s: set<int>)
    requires s != {}
    ensures exists x :: x in s && forall y | y in s :: x <= y
  {
    var z := Pick(s);
    if s == {z} {
      assert forall y | y in s :: z <= y;
    } else {
      var rest := s - {z};
      LeastExists(rest);
      var x :| x in rest && forall y | y in rest :: x <= y;
      var w := if x <= z then x else z;
      assert forall y | y in s :: y == z || y in rest;
      assert w in s && forall y | y in s :: w <= y;
    }
  }

  lemma {:induction false} SubsetSize<T>(a: set<T>, b: set<T>)
    requires a <= b
    ensures |a| <= |b|
  {
    if a != {} {
      var x :| x in a;
      SubsetSize(a - {x}, b - {x});
    }
  }

  lemma DisjointSize<T>(a: set<T>, b: set<T>, whole: set<T>)
    requires a !! b && a + b <= whole
    ensures |a| + |b| <= |whole|
  {
    SubsetSize(a + b, whole);
    assert |a + b| == |a| + |b|;
  }

  /** A set covered by the values of a map restricted to some keys is no larger than those keys. */
  lemma {:induction false} CoverSize<K, T>(cover: set<T>, keys: set<K>, m: map<K, T>)
    requires keys <= m.Keys
    requires forall x | x in cover :: exists k :: k in keys && m[k] == x
    ensures |cover| <= |keys|
  {
    if cover != {} {
      var x :| x in cover;
      var k :| k in keys && m[k] == x;
      forall y | y in cover - {x}
        ensures exists j :: j in keys - {k} && m[j] == y
      {
        var j :| j in keys && m[j] == y;
        assert j in keys - {k};
      }
      CoverSize(cover - {x}, keys - {k}, m);
    }
  }
}
