/** Sorting by a total order: what `sorted` and `sort` promise their callers. */
module Ordering {

  ghost predicate TotalOrder<T(!new)>(leq: (T, T) -> bool) {
    && (forall x, y :: leq(x, y) || leq(y, x))
    && (forall x, y, z :: leq(x, y) && leq(y, z) ==> leq(x, z))
  }

  /** No two different elements are equal in the order. */
  ghost predicate Separated<T(!new)>(s: seq<T>, leq: (T, T) -> bool) {
    forall x, y | x in s && y in s && leq(x, y) && leq(y, x) :: x == y
  }

  ghost predicate InOrder<T(!new)>(s: seq<T>, leq: (T, T) -> bool) {
    forall i, j | 0 <= i < j < |s| :: leq(s[i], s[j])
  }

  function Insert<T>(s: seq<T>, x: T, leq: (T, T) -> bool): (r: seq<T>)
    ensures |r| == |s| + 1
  {
    if s == [] then [x]
    else if leq(s[|s| - 1], x) then s + [x]
    else Insert(s[..|s| - 1], x, leq) + [s[|s| - 1]]
  }

  function Sorted<T>(s: seq<T>, leq: (T, T) -> bool): (r: seq<T>)
    ensures |r| == |s|
  {
    if s == [] then [] else Insert(Sorted(s[..|s| - 1], leq), s[|s| - 1], leq)
  }

  lemma {:induction false} InsertPermutes<T>(s: seq<T>, x: T, leq: (T, T) -> bool)
    ensures multiset(Insert(s, x, leq)) == multiset(s) + multiset{x}
  {
    if s != [] {
      assert s == s[..|s| - 1] + [s[|s| - 1]];
      if !leq(s[|s| - 1], x) {
        InsertPermutes(s[..|s| - 1], x, leq);
      }
    }
  }

  lemma {:induction false} InsertInOrder<T(!new)>(s: seq<T>, x: T, leq: (T, T) -> bool)
    requires TotalOrder(leq) && InOrder(s, leq)
    ensures InOrder(Insert(s, x, leq), leq)
  {
    if s != [] {
      var front, last := s[..|s| - 1], s[|s| - 1];
      if leq(last, x) {
        assert forall i | 0 <= i < |s| - 1 :: leq(s[i], last);
      } else {
        InsertInOrder(front, x, leq);
        InsertPermutes(front, x, leq);
        var r := Insert(front, x, leq);
        forall i | 0 <= i < |r|
          ensures leq(r[i], last)
        {
          assert r[i] in multiset(r);
          assert r[i] in multiset(front) || r[i] == x;
          assert r[i] in front || r[i] == x;
        }
      }
    }
  }

  lemma {:induction false} SortedIsSorted<T(!new)>(s: seq<T>, leq: (T, T) -> bool)
    requires TotalOrder(leq)
    ensures multiset(Sorted(s, leq)) == multiset(s) && InOrder(Sorted(s, leq), leq)
  {
    if s != [] {
      var front, last := s[..|s| - 1], s[|s| - 1];
      assert s == front + [last];
      SortedIsSorted(front, leq);
      InsertPermutes(Sorted(front, leq), last, leq);
      InsertInOrder(Sorted(front, leq), last, leq);
    }
  }

  lemma SameGreatest<T(!new)>(a: seq<T>, b: seq<T>, leq: (T, T) -> bool)
    requires TotalOrder(leq) && InOrder(a, leq) && InOrder(b, leq) && a != [] && b != []
    requires multiset(a) == multiset(b) && Separated(a, leq)
    ensures a[|a| - 1] == b[|b| - 1]
  {
    var x, y := a[|a| - 1], b[|b| - 1];
    assert y in multiset(b) && x in multiset(a);
    LastIsGreatest(a, y, leq);
    LastIsGreatest(b, x, leq);
    assert x in a && y in a;
  }

  lemma FrontOf<T>(s: seq<T>)
    requires s != []
    ensures multiset(s[..|s| - 1]) == multiset(s) - multiset{s[|s| - 1]}
    ensures s == s[..|s| - 1] + [s[|s| - 1]]
  {
    assert s == s[..|s| - 1] + [s[|s| - 1]];
  }

  lemma FrontInOrder<T(!new)>(s: seq<T>, leq: (T, T) -> bool)
    requires s != []
    ensures InOrder(s, leq) ==> InOrder(s[..|s| - 1], leq)
    ensures Separated(s, leq) ==> Separated(s[..|s| - 1], leq)
  {
  }

  /** There is only one way to put separated elements in order. */
  lemma {:induction false} OneOrder<T(!new)>(a: seq<T>, b: seq<T>, leq: (T, T) -> bool)
    requires TotalOrder(leq) && InOrder(a, leq) && InOrder(b, leq)
    requires multiset(a) == multiset(b) && Separated(a, leq)
    ensures a == b
  {
    assert |a| == |multiset(a)| == |multiset(b)| == |b|;
    if a != [] {
      SameGreatest(a, b, leq);
      FrontOf(a);
      FrontOf(b);
      FrontInOrder(a, leq);
      FrontInOrder(b, leq);
      OneOrder(a[..|a| - 1], b[..|b| - 1], leq);
    }
  }

  lemma LastIsGreatest<T(!new)>(s: seq<T>, x: T, leq: (T, T) -> bool)
    requires TotalOrder(leq) && InOrder(s, leq) && x in multiset(s)
    ensures leq(x, s[|s| - 1])
  {
    var i :| 0 <= i < |s| && s[i] == x;
  }

  /** Sorting does not see the order its input came in. */
  lemma SortedAnyOrder<T(!new)>(s: seq<T>, t: seq<T>, leq: (T, T) -> bool)
    requires TotalOrder(leq) && multiset(s) == multiset(t) && Separated(s, leq)
    ensures Sorted(s, leq) == Sorted(t, leq)
  {
    SortedIsSorted(s, leq);
    SortedIsSorted(t, leq);
    forall x | x in Sorted(s, leq)
      ensures x in s
    {
      assert x in multiset(Sorted(s, leq));
    }
    OneOrder(Sorted(s, leq), Sorted(t, leq), leq);
  }

  /** A cut through an ordered sequence separates the smaller elements from the greater ones. */
  lemma CutInOrder<T(!new)>(s: seq<T>, k: nat, leq: (T, T) -> bool)
    requires InOrder(s, leq) && k <= |s|
    ensures multiset(s[..k]) + multiset(s[k..]) == multiset(s) && InOrder(s[k..], leq)
    ensures forall x, y | x in s[..k] && y in s[k..] :: leq(x, y)
  {
    assert s == s[..k] + s[k..];
    forall x, y | x in s[..k] && y in s[k..]
      ensures leq(x, y)
    {
      var i :| 0 <= i < k && s[i] == x;
      var j :| 0 <= j < |s| - k && s[k..][j] == y;
      assert s[k + j] == y;
    }
  }

  lemma SameMultisetIn<T>(s: seq<T>, t: seq<T>, x: T)
    requires multiset(s) == multiset(t) && x in s
    ensures x in t
  {
    assert x in multiset(s);
  }

  /** The first of a sorted sequence is the least element. */
  lemma SortedHead<T(!new)>(s: seq<T>, leq: (T, T) -> bool)
    requires TotalOrder(leq) && s != []
    ensures Sorted(s, leq)[0] in s && forall x | x in s :: leq(Sorted(s, leq)[0], x)
  {
    SortedIsSorted(s, leq);
    var sorted := Sorted(s, leq);
    assert sorted[0] in multiset(sorted);
    forall x | x in s
      ensures leq(sorted[0], x)
    {
      assert x in multiset(s) && x in multiset(sorted);
      var i :| 0 <= i < |sorted| && sorted[i] == x;
    }
  }

  lemma {:induction false} InsertHead<T(!new)>(s: seq<T>, x: T, leq: (T, T) -> bool)
    requires TotalOrder(leq) && InOrder(s, leq) && s != []
    ensures Insert(s, x, leq)[0] == if leq(s[0], x) then s[0] else x
  {
    var front, last := s[..|s| - 1], s[|s| - 1];
    if leq(last, x) {
      assert leq(s[0], last);
    } else if front != [] {
      InsertHead(front, x, leq);
    }
  }

  /** The sort is stable: of several least elements the first one stays first. */
  lemma {:induction false} SortedTakesFirst<T(!new)>(s: seq<T>, leq: (T, T) -> bool) returns (i: nat)
    requires TotalOrder(leq) && s != []
    ensures i < |s| && Sorted(s, leq)[0] == s[i]
    ensures forall j | 0 <= j < |s| :: leq(s[i], s[j]) && (j < i ==> !leq(s[j], s[i]))
  {
    i := 0;
    if |s| > 1 {
      var front, last := s[..|s| - 1], s[|s| - 1];
      i := SortedTakesFirst(front, leq);
      SortedIsSorted(front, leq);
      InsertHead(Sorted(front, leq), last, leq);
      assert forall j | 0 <= j < |front| :: front[j] == s[j];
      if !leq(s[i], last) {
        i := |s| - 1;
      }
    }
  }

  // ---- Repetition -------------------------------------------------------------------------

  ghost predicate NoRepeats<T(!new)>(s: seq<T>) {
    forall i, j | 0 <= i < j < |s| :: s[i] != s[j]
  }

  function Elements<T(==)>(s: seq<T>): set<T> {
    set x | x in s
  }

  /** A sequence is free of repetition exactly when it has as many elements as places. */
  lemma {:induction false} CountIffNoRepeats<T(!new)>(s: seq<T>)
    ensures |Elements(s)| <= |s|
    ensures |Elements(s)| == |s| <==> NoRepeats(s)
  {
    if s != [] {
      var front, last := s[..|s| - 1], s[|s| - 1];
      CountIffNoRepeats(front);
      assert s == front + [last];
      assert Elements(s) == Elements(front) + {last};
      if NoRepeats(s) {
        assert last !in front;
      } else if last !in front {
        assert NoRepeats(front) ==> NoRepeats(s);
      }
    }
  }

  lemma {:induction false} SubsetSize<T>(a: set<T>, b: set<T>)
    requires a <= b
    ensures |a| <= |b|
  {
    if a != {} {
      var x :| x in a;
      SubsetSize(a - {x}, b - {x});
    }
  }
}
