/** `Array.prototype.sort(cmp)`: a stable sort driven by a comparator. A comparator
    result `cmp(a, b) <= 0` lets a stay in front of b; ties keep the input order. */
module Sorting {

  /** The comparator is total and transitive as a "may come first" relation,
      which is what a sort needs to produce an ordered result. */
  ghost predicate Consistent<T(!new)>(cmp: (T, T) -> real) {
    && (forall a, b :: cmp(a, b) <= 0.0 || cmp(b, a) <= 0.0)
    && (forall a, b, c :: cmp(a, b) <= 0.0 && cmp(b, c) <= 0.0 ==> cmp(a, c) <= 0.0)
  }

  /** Every element may come before every later one. */
  ghost predicate Ordered<T>(s: seq<T>, cmp: (T, T) -> real) {
    forall i, j :: 0 <= i < j < |s| ==> cmp(s[i], s[j]) <= 0.0
  }

  /** Places x in front of the first element it may precede. */
  function Insert<T>(x: T, s: seq<T>, cmp: (T, T) -> real): (r: seq<T>)
    ensures multiset(r) == multiset{x} + multiset(s)
  {
    if s == [] then [x]
    else if cmp(x, s[0]) <= 0.0 then [x] + s
    else
      assert s == [s[0]] + s[1..];
      [s[0]] + Insert(x, s[1..], cmp)
  }

  /** Insertion sort; each element goes in front of its ties, so equal elements
      keep their input order as in a stable sort. */
  function StableSort<T>(s: seq<T>, cmp: (T, T) -> real): (r: seq<T>)
    ensures multiset(r) == multiset(s)
  {
    if s == [] then []
    else
      assert s == [s[0]] + s[1..];
      Insert(s[0], StableSort(s[1..], cmp), cmp)
  }

  /** Every element of s[1..] may follow s[0] in an ordered s. */
  lemma HeadFirst<T>(s: seq<T>, cmp: (T, T) -> real, y: T)
    requires Ordered(s, cmp) && |s| > 0 && y in multiset(s[1..])
    ensures cmp(s[0], y) <= 0.0
  {
    var k :| 0 <= k < |s[1..]| && s[1..][k] == y;
    assert s[k + 1] == y;
  }

  /** Prepending an element that may precede every element keeps order. */
  lemma ConsOrdered<T>(y: T, t: seq<T>, cmp: (T, T) -> real)
    requires Ordered(t, cmp)
    requires forall j :: 0 <= j < |t| ==> cmp(y, t[j]) <= 0.0
    ensures Ordered([y] + t, cmp)
  {
    var r := [y] + t;
    forall i, j | 0 <= i < j < |r| ensures cmp(r[i], r[j]) <= 0.0 {
      if i > 0 {
        assert r[i] == t[i - 1] && r[j] == t[j - 1];
      }
    }
  }

  lemma {:induction false} InsertOrdered<T(!new)>(x: T, s: seq<T>, cmp: (T, T) -> real)
    requires Consistent(cmp) && Ordered(s, cmp)
    ensures Ordered(Insert(x, s, cmp), cmp)
  {
    if s == [] {
    } else if cmp(x, s[0]) <= 0.0 {
      forall j | 0 <= j < |s| ensures cmp(x, s[j]) <= 0.0 {
        if j > 0 {
          assert cmp(s[0], s[j]) <= 0.0;
        }
      }
      ConsOrdered(x, s, cmp);
    } else {
      assert Ordered(s[1..], cmp);
      InsertOrdered(x, s[1..], cmp);
      var t := Insert(x, s[1..], cmp);
      forall j | 0 <= j < |t| ensures cmp(s[0], t[j]) <= 0.0 {
        assert t[j] in multiset(t);
        if t[j] != x {
          HeadFirst(s, cmp, t[j]);
        }
      }
      ConsOrdered(s[0], t, cmp);
    }
  }

  /** The sort's output is ordered whenever the comparator is consistent. */
  lemma {:induction false} SortOrdered<T(!new)>(s: seq<T>, cmp: (T, T) -> real)
    requires Consistent(cmp)
    ensures Ordered(StableSort(s, cmp), cmp)
  {
    if s != [] {
      SortOrdered(s[1..], cmp);
      InsertOrdered(s[0], StableSort(s[1..], cmp), cmp);
    }
  }

  /** With a comparator that always answers 0 (every pair tied) the stable sort
      keeps the input order exactly. */
  lemma {:induction false} SortAllTied<T>(s: seq<T>, cmp: (T, T) -> real)
    requires forall a, b :: cmp(a, b) == 0.0
    ensures StableSort(s, cmp) == s
  {
    if s != [] {
      SortAllTied(s[1..], cmp);
    }
  }
}
