/** Insertion sort over a strict weak order, which is all the sorts of the game promise. */
module Sorting {
  import opened Counting

  type Relation<!T> = (T, T) -> bool

  // A strict weak order: what neither comes before the other is alike.
  ghost predicate WeakOrder<T(!new)>(before: Relation<T>) {
    && (forall a, b :: before(a, b) ==> !before(b, a))
    && (forall a, b, c :: !before(a, b) && !before(b, c) ==> !before(a, c))
  }

  ghost predicate TotalOrder<T(!new)>(before: Relation<T>) {
    WeakOrder(before) && forall a, b :: a == b || before(a, b) || before(b, a)
  }

  function Inserted<T>(before: Relation<T>, sorted: seq<T>, x: T): seq<T> {
    if sorted == [] || !before(sorted[0], x) then [x] + sorted
    else [sorted[0]] + Inserted(before, sorted[1..], x)
  }

  function Sorted<T>(before: Relation<T>, s: seq<T>): seq<T> {
    if s == [] then [] else Inserted(before, Sorted(before, s[1..]), s[0])
  }

  ghost predicate InOrder<T>(before: Relation<T>, s: seq<T>) {
    forall i, j :: 0 <= i < j < |s| ==> !before(s[j], s[i])
  }

  lemma {:induction false} InsertedContents<T>(before: Relation<T>, sorted: seq<T>, x: T)
    ensures multiset(Inserted(before, sorted, x)) == multiset(sorted) + multiset{x}
  {
    if sorted != [] && before(sorted[0], x) {
      InsertedContents(before, sorted[1..], x);
      assert sorted == [sorted[0]] + sorted[1..];
    }
  }

  lemma {:induction false} InsertedInOrder<T(!new)>(before: Relation<T>, sorted: seq<T>, x: T)
    requires WeakOrder(before) && InOrder(before, sorted)
    ensures InOrder(before, Inserted(before, sorted, x))
  {
    if sorted != [] && before(sorted[0], x) {
      var rest := Inserted(before, sorted[1..], x);
      InsertedInOrder(before, sorted[1..], x);
      InsertedContents(before, sorted[1..], x);
      forall i | 0 <= i < |rest| ensures !before(rest[i], sorted[0]) {
        assert rest[i] in multiset(rest);
      }
    }
  }

  /** Sorting gives an ordered rearrangement. */
  lemma {:induction false} SortSorts<T(!new)>(before: Relation<T>, s: seq<T>)
    requires WeakOrder(before)
    ensures InOrder(before, Sorted(before, s)) && multiset(Sorted(before, s)) == multiset(s)
  {
    if s != [] {
      SortSorts(before, s[1..]);
      InsertedInOrder(before, Sorted(before, s[1..]), s[0]);
      InsertedContents(before, Sorted(before, s[1..]), s[0]);
      assert s == [s[0]] + s[1..];
    }
  }

  /** With the same members, and each as often. */
  lemma SortedMembers<T(!new)>(before: Relation<T>, s: seq<T>)
    requires WeakOrder(before)
    ensures |Sorted(before, s)| == |s| && forall x :: x in Sorted(before, s) <==> x in s
    ensures NoRepeats(s) ==> NoRepeats(Sorted(before, s))
  {
    SortSorts(before, s);
    var t := Sorted(before, s);
    assert |multiset(t)| == |multiset(s)|;
    assert forall x :: x in t <==> x in multiset(t);
    if NoRepeats(s) { SameMultisetNoRepeats(s, t); }
  }

  lemma HeadIsLeast<T(!new)>(before: Relation<T>, a: seq<T>, b: seq<T>)
    requires TotalOrder(before) && a != [] && multiset(a) == multiset(b) && InOrder(before, a) && InOrder(before, b)
    ensures b != [] && a[0] == b[0]
  {
    assert a[0] in multiset(b) && b != [];
    var j :| 0 <= j < |b| && b[j] == a[0];
    assert b[0] in multiset(a);
    var i :| 0 <= i < |a| && a[i] == b[0];
    assert !before(a[i], a[0]) && !before(b[j], b[0]);
  }

  /** In a total order a collection has one order. */
  lemma {:induction false} OrderUnique<T(!new)>(before: Relation<T>, a: seq<T>, b: seq<T>)
    requires TotalOrder(before) && multiset(a) == multiset(b) && InOrder(before, a) && InOrder(before, b)
    ensures a == b
  {
    assert |a| == |multiset(a)| == |multiset(b)| == |b|;
    if a != [] {
      HeadIsLeast(before, a, b);
      assert a == [a[0]] + a[1..] && b == [b[0]] + b[1..];
      assert multiset(a[1..]) == multiset(a) - multiset{a[0]};
      assert multiset(b[1..]) == multiset(b) - multiset{b[0]};
      OrderUnique(before, a[1..], b[1..]);
    }
  }
}
