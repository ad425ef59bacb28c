/** Stable sorting by a comparison, as Python's `sorted` does it, and the two facts the
    consolidation pipeline and the recall ranker rely on: a sort whose ties are
    impossible is determined by the bag it sorts, and a sort with ties keeps the order
    in which the ties came. */
module Sorting {

  ghost predicate TotalPreorder<T(!new)>(le: (T, T) -> bool) {
    && (forall a, b :: le(a, b) || le(b, a))
    && (forall a, b, c :: le(a, b) && le(b, c) ==> le(a, c))
  }

  ghost predicate Ordered<T>(le: (T, T) -> bool, xs: seq<T>) {
    forall i, j :: 0 <= i < j < |xs| ==> le(xs[i], xs[j])
  }

  /** No two different elements of xs tie. */
  ghost predicate Antisymmetric<T>(le: (T, T) -> bool, xs: seq<T>) {
    forall a, b :: a in xs && b in xs && le(a, b) && le(b, a) ==> a == b
  }

  /** Places x behind every element that does not come after it. */
  function Insert<T>(le: (T, T) -> bool, x: T, xs: seq<T>): seq<T> {
    if xs == [] then [x]
    else if le(xs[0], x) then [xs[0]] + Insert(le, x, xs[1..])
    else [x] + xs
  }

  function Sorted<T>(le: (T, T) -> bool, xs: seq<T>): seq<T> {
    if xs == [] then [] else Insert(le, xs[|xs| - 1], Sorted(le, xs[..|xs| - 1]))
  }

  lemma {:induction false} InsertKeepsBag<T>(le: (T, T) -> bool, x: T, xs: seq<T>)
    ensures multiset(Insert(le, x, xs)) == multiset(xs) + multiset{x}
  {
    if xs != [] {
      assert xs == [xs[0]] + xs[1..];
      InsertKeepsBag(le, x, xs[1..]);
    }
  }

  lemma {:induction false} SortedKeepsBag<T>(le: (T, T) -> bool, xs: seq<T>)
    ensures multiset(Sorted(le, xs)) == multiset(xs)
  {
    if xs != [] {
      var last := |xs| - 1;
      assert xs == xs[..last] + [xs[last]];
      SortedKeepsBag(le, xs[..last]);
      InsertKeepsBag(le, xs[last], Sorted(le, xs[..last]));
    }
  }

  lemma HasMember<T(!new)>(xs: seq<T>)
    ensures xs == [] || exists x :: x in xs
  {
    if xs != [] { assert xs[0] in xs; }
  }

  lemma SameBagSameMembers<T>(xs: seq<T>, ys: seq<T>)
    requires multiset(xs) == multiset(ys)
    ensures forall x :: x in xs <==> x in ys
    ensures |xs| == |ys|
  {
    forall x ensures x in xs <==> x in ys {
      assert x in xs <==> x in multiset(xs);
      assert x in ys <==> x in multiset(ys);
    }
    assert |multiset(xs)| == |xs| && |multiset(ys)| == |ys|;
  }

  /** `tie` decides what `le` leaves open. */
  predicate Then<T>(le: (T, T) -> bool, tie: (T, T) -> bool, a: T, b: T) {
    le(a, b) && (le(b, a) ==> tie(a, b))
  }

  lemma {:induction false} InsertIsStable<T(!new)>(le: (T, T) -> bool, tie: (T, T) -> bool, x: T, xs: seq<T>)
    requires TotalPreorder(le)
    requires Ordered((a, b) => Then(le, tie, a, b), xs)
    requires forall y :: y in xs ==> tie(y, x)
    ensures Ordered((a, b) => Then(le, tie, a, b), Insert(le, x, xs))
  {
    var both := (a, b) => Then(le, tie, a, b);
    var out := Insert(le, x, xs);
    if xs == [] {
    } else if le(xs[0], x) {
      var rest := xs[1..];
      InsertIsStable(le, tie, x, rest);
      InsertKeepsBag(le, x, rest);
      var tail := Insert(le, x, rest);
      forall j | 1 <= j < |out| ensures both(out[0], out[j]) {
        assert out[j] == tail[j - 1];
        assert out[j] in multiset(tail);
        assert out[j] in multiset(rest) + multiset{x};
        if out[j] in multiset(rest) {
          var m :| 0 <= m < |rest| && rest[m] == out[j];
          assert xs[m + 1] == out[j];
          assert both(xs[0], xs[m + 1]);
        }
      }
      forall i, j | 1 <= i < j < |out| ensures both(out[i], out[j]) {
        assert both(tail[i - 1], tail[j - 1]);
      }
    } else {
      forall j | 1 <= j < |out| ensures both(x, out[j]) {
        assert out[j] == xs[j - 1];
        if j > 1 { assert both(xs[0], xs[j - 1]); }
      }
    }
  }

  /** A stable sort of a list already ordered by `tie` is ordered by `le`, and by `tie`
      wherever `le` does not decide. */
  lemma {:induction false} SortedIsStable<T(!new)>(le: (T, T) -> bool, tie: (T, T) -> bool, xs: seq<T>)
    requires TotalPreorder(le)
    requires Ordered(tie, xs)
    ensures Ordered((a, b) => Then(le, tie, a, b), Sorted(le, xs))
  {
    if xs != [] {
      var last := |xs| - 1;
      var front := xs[..last];
      SortedIsStable(le, tie, front);
      SortedKeepsBag(le, front);
      SameBagSameMembers(front, Sorted(le, front));
      forall y | y in Sorted(le, front) ensures tie(y, xs[last]) {
        var m :| 0 <= m < |front| && front[m] == y;
        assert xs[m] == y;
      }
      InsertIsStable(le, tie, xs[last], Sorted(le, front));
    }
  }

  lemma SortedIsOrdered<T(!new)>(le: (T, T) -> bool, xs: seq<T>)
    requires TotalPreorder(le)
    ensures Ordered(le, Sorted(le, xs))
  {
    SortedIsStable(le, (a, b) => true, xs);
    var out := Sorted(le, xs);
    forall i, j | 0 <= i < j < |out| ensures le(out[i], out[j]) {
      assert ((a, b) => Then(le, (c, d) => true, a, b))(out[i], out[j]);
    }
  }

  lemma HeadsAgree<T(!new)>(le: (T, T) -> bool, xs: seq<T>, ys: seq<T>)
    requires Ordered(le, xs) && Ordered(le, ys)
    requires forall a :: le(a, a)
    requires xs != [] && multiset(xs) == multiset(ys)
    requires Antisymmetric(le, xs)
    ensures ys != [] && xs[0] == ys[0]
    ensures multiset(xs[1..]) == multiset(ys[1..])
  {
    SameBagSameMembers(xs, ys);
    assert xs[0] in xs && ys[0] in ys;
    HeadIsLeast(le, xs, ys[0]);
    HeadIsLeast(le, ys, xs[0]);
    TailBag(xs);
    TailBag(ys);
  }

  lemma HeadIsLeast<T(!new)>(le: (T, T) -> bool, xs: seq<T>, x: T)
    requires Ordered(le, xs) && x in xs && forall a :: le(a, a)
    ensures le(xs[0], x)
  {
    var i :| 0 <= i < |xs| && xs[i] == x;
  }

  lemma TailBag<T>(xs: seq<T>)
    requires xs != []
    ensures multiset(xs[1..]) == multiset(xs) - multiset{xs[0]}
  {
    assert xs == [xs[0]] + xs[1..];
  }

  /** One bag without ties has one ordered listing. */
  lemma {:induction false} OrderedIsUnique<T(!new)>(le: (T, T) -> bool, xs: seq<T>, ys: seq<T>)
    requires Ordered(le, xs) && Ordered(le, ys)
    requires forall a :: le(a, a)
    requires multiset(xs) == multiset(ys)
    requires Antisymmetric(le, xs)
    ensures xs == ys
  {
    if xs == [] {
      assert |multiset(ys)| == |ys|;
    } else {
      HeadsAgree(le, xs, ys);
      assert Antisymmetric(le, xs[1..]) by {
        assert forall a :: a in xs[1..] ==> a in xs;
      }
      OrderedIsUnique(le, xs[1..], ys[1..]);
      assert xs == [xs[0]] + xs[1..] && ys == [ys[0]] + ys[1..];
    }
  }

  /** Sorting cannot tell two listings of one tie-free bag apart. */
  lemma SortedForgetsOrder<T(!new)>(le: (T, T) -> bool, xs: seq<T>, ys: seq<T>)
    requires TotalPreorder(le)
    requires multiset(xs) == multiset(ys)
    requires Antisymmetric(le, xs)
    ensures Sorted(le, xs) == Sorted(le, ys)
  {
    SortedKeepsBag(le, xs);
    SortedKeepsBag(le, ys);
    SortedIsOrdered(le, xs);
    SortedIsOrdered(le, ys);
    SameBagSameMembers(xs, Sorted(le, xs));
    assert forall a :: le(a, a) by {
      forall a ensures le(a, a) { assert le(a, a) || le(a, a); }
    }
    OrderedIsUnique(le, Sorted(le, xs), Sorted(le, ys));
  }

  /** Some listing of a set: the iteration order of a Python set or dict. */
  ghost function Listing<T(!new)>(s: set<T>): (xs: seq<T>)
    ensures multiset(xs) == multiset(s)
    ensures |xs| == |s|
    ensures forall x :: x in xs <==> x in s
  {
    if s == {} then []
    else
      var x :| x in s;
      var rest := Listing(s - {x});
      assert multiset(s) == multiset(s - {x}) + multiset{x};
      assert forall y :: y in [x] + rest <==> y == x || y in rest;
      [x] + rest
  }

  /** The one ordered listing of a set. */
  ghost function SortedSet<T(!new)>(le: (T, T) -> bool, s: set<T>): seq<T> {
    Sorted(le, Listing(s))
  }

  ghost predicate AntisymmetricOn<T>(le: (T, T) -> bool, s: set<T>) {
    forall a, b :: a in s && b in s && le(a, b) && le(b, a) ==> a == b
  }

  lemma SortedSetMembers<T(!new)>(le: (T, T) -> bool, s: set<T>)
    requires TotalPreorder(le)
    ensures Ordered(le, SortedSet(le, s))
    ensures multiset(SortedSet(le, s)) == multiset(s)
    ensures |SortedSet(le, s)| == |s|
    ensures forall x :: x in SortedSet(le, s) <==> x in s
  {
    SortedIsOrdered(le, Listing(s));
    SortedKeepsBag(le, Listing(s));
    SameBagSameMembers(Listing(s), SortedSet(le, s));
  }

  lemma ListsOnce<T>(xs: seq<T>, s: set<T>)
    requires multiset(xs) == multiset(s)
    ensures forall i, j :: 0 <= i < j < |xs| ==> xs[i] != xs[j]
  {
    forall i, j | 0 <= i < j < |xs| ensures xs[i] != xs[j] {
      assert xs == xs[..j] + xs[j..];
      assert multiset(xs) == multiset(xs[..j]) + multiset(xs[j..]);
      assert xs[..j][i] in multiset(xs[..j]) && xs[j..][0] in multiset(xs[j..]);
      assert multiset(s)[xs[i]] <= 1;
    }
  }

  /** Whatever order a set was iterated in, sorting yields the same list. */
  lemma SortedOfAnyListing<T(!new)>(le: (T, T) -> bool, xs: seq<T>, s: set<T>)
    requires TotalPreorder(le)
    requires AntisymmetricOn(le, s)
    requires multiset(xs) == multiset(s)
    ensures Sorted(le, xs) == SortedSet(le, s)
  {
    SameBagSameMembers(xs, Listing(s));
    SortedForgetsOrder(le, xs, Listing(s));
  }

  /** A list that names every member of a set once is a listing of it. */
  lemma NamesEachOnce<T(!new)>(xs: seq<T>, s: set<T>)
    requires forall x :: x in xs <==> x in s
    requires forall i, j :: 0 <= i < j < |xs| ==> xs[i] != xs[j]
    ensures multiset(xs) == multiset(s)
  {
    forall x ensures multiset(xs)[x] == multiset(s)[x] {
      if x in xs {
        var i :| 0 <= i < |xs| && xs[i] == x;
        assert xs == xs[..i] + [x] + xs[i + 1..];
        assert x !in xs[..i] && x !in xs[i + 1..];
      }
    }
  }

  lemma {:induction false} InsertLast<T>(le: (T, T) -> bool, x: T, xs: seq<T>)
    requires forall y :: y in xs ==> le(y, x)
    ensures Insert(le, x, xs) == xs + [x]
  {
    if xs != [] {
      InsertLast(le, x, xs[1..]);
      assert xs == [xs[0]] + xs[1..];
    }
  }

  lemma OrderedFront<T>(le: (T, T) -> bool, front: seq<T>, last: T)
    requires Ordered(le, front + [last])
    ensures Ordered(le, front) && forall y :: y in front ==> le(y, last)
  {
    var xs := front + [last];
    forall y | y in front ensures le(y, last) {
      var i :| 0 <= i < |front| && front[i] == y;
      assert le(xs[i], xs[|front|]);
    }
    forall i, j | 0 <= i < j < |front| ensures le(front[i], front[j]) {
      assert le(xs[i], xs[j]);
    }
  }

  /** A stable sort leaves an ordered list alone, ties and all. */
  lemma {:induction false} SortedOfOrdered<T>(le: (T, T) -> bool, xs: seq<T>)
    requires Ordered(le, xs)
    ensures Sorted(le, xs) == xs
  {
    if xs != [] {
      var front, last := xs[..|xs| - 1], xs[|xs| - 1];
      assert xs == front + [last];
      OrderedFront(le, front, last);
      SortedOfOrdered(le, front);
      InsertLast(le, last, front);
    }
  }

  lemma {:induction false} SubsetIsSmaller<T>(a: set<T>, b: set<T>)
    requires a <= b
    ensures |a| <= |b|
  {
    if a != {} {
      var x :| x in a;
      SubsetIsSmaller(a - {x}, b - {x});
    }
  }
}
