/** The stable sort the components share, by a strict order on ranks. */
module StableSort {

  /** Inserts ahead of the first element that `x` does not follow, which keeps equal ranks in place. */
  function Insert<T>(less: (T, T) -> bool, x: T, xs: seq<T>): seq<T> {
    if xs == [] || !less(xs[0], x) then [x] + xs else [xs[0]] + Insert(less, x, xs[1..])
  }

  function Sorted<T>(less: (T, T) -> bool, xs: seq<T>): seq<T> {
    if xs == [] then [] else Insert(less, xs[0], Sorted(less, xs[1..]))
  }

  predicate Ordered<T>(less: (T, T) -> bool, xs: seq<T>) {
    forall i, j :: 0 <= i < j < |xs| ==> !less(xs[j], xs[i])
  }

  /** `less` is a strict order on ranks; elements of equal rank may differ. */
  ghost predicate Ranks<T(!new)>(less: (T, T) -> bool) {
    && (forall a, b :: less(a, b) ==> !less(b, a))
    && (forall a, b, c :: !less(b, a) && !less(c, b) ==> !less(c, a))
  }

  lemma {:induction false} InsertPermutes<T>(less: (T, T) -> bool, x: T, xs: seq<T>)
    ensures multiset(Insert(less, x, xs)) == multiset{x} + multiset(xs)
  {
    if xs != [] && less(xs[0], x) {
      InsertPermutes(less, x, xs[1..]);
      assert xs == [xs[0]] + xs[1..];
    }
  }

  lemma InsertMembers<T>(less: (T, T) -> bool, x: T, xs: seq<T>)
    ensures forall y :: y in Insert(less, x, xs) ==> y == x || y in xs
  {
    InsertPermutes(less, x, xs);
    forall y | y in Insert(less, x, xs) ensures y == x || y in xs {
      assert y in multiset(Insert(less, x, xs));
    }
  }

  lemma OrderedHead<T>(less: (T, T) -> bool, x: T, xs: seq<T>)
    requires Ordered(less, xs) && forall y :: y in xs ==> !less(y, x)
    ensures Ordered(less, [x] + xs)
  {
  }

  lemma OrderedTail<T>(less: (T, T) -> bool, xs: seq<T>)
    requires xs != [] && Ordered(less, xs)
    ensures Ordered(less, xs[1..]) && forall y :: y in xs[1..] ==> !less(y, xs[0])
  {
  }

  lemma {:induction false} InsertKeepsOrder<T(!new)>(less: (T, T) -> bool, x: T, xs: seq<T>)
    requires Ranks(less) && Ordered(less, xs)
    ensures Ordered(less, Insert(less, x, xs))
  {
    if xs != [] {
      var first, rest := xs[0], xs[1..];
      OrderedTail(less, xs);
      if less(first, x) {
        InsertKeepsOrder(less, x, rest);
        InsertMembers(less, x, rest);
        OrderedHead(less, first, Insert(less, x, rest));
      } else {
        forall y | y in xs ensures !less(y, x) {
          if y == first { assert !less(first, x); } else { assert !less(y, first) && !less(first, x); }
        }
        OrderedHead(less, x, xs);
      }
    }
  }

  /** Sorting permutes, and puts lower ranks first. */
  lemma {:induction false} SortedEffect<T(!new)>(less: (T, T) -> bool, xs: seq<T>)
    requires Ranks(less)
    ensures multiset(Sorted(less, xs)) == multiset(xs) && Ordered(less, Sorted(less, xs))
  {
    if xs != [] {
      SortedEffect(less, xs[1..]);
      InsertPermutes(less, xs[0], Sorted(less, xs[1..]));
      InsertKeepsOrder(less, xs[0], Sorted(less, xs[1..]));
      assert xs == [xs[0]] + xs[1..];
    }
  }

  /** The members of the rank of `x`, in order. */
  function OfRank<T>(less: (T, T) -> bool, x: T, xs: seq<T>): seq<T> {
    if xs == [] then []
    else (if !less(x, xs[0]) && !less(xs[0], x) then [xs[0]] else []) + OfRank(less, x, xs[1..])
  }

  lemma {:induction false} InsertIsStable<T(!new)>(less: (T, T) -> bool, x: T, y: T, ys: seq<T>)
    requires Ranks(less)
    ensures OfRank(less, x, Insert(less, y, ys)) == OfRank(less, x, [y] + ys)
  {
    assert ([y] + ys)[1..] == ys;
    if ys != [] && less(ys[0], y) {
      InsertIsStable(less, x, y, ys[1..]);
      var all := [ys[0]] + Insert(less, y, ys[1..]);
      assert all[1..] == Insert(less, y, ys[1..]) && ([y] + ys[1..])[1..] == ys[1..];
      assert !(!less(x, y) && !less(y, x) && !less(x, ys[0]) && !less(ys[0], x));
    }
  }

  /** Members of one rank keep their order. */
  lemma {:induction false} SortedIsStable<T(!new)>(less: (T, T) -> bool, x: T, xs: seq<T>)
    requires Ranks(less)
    ensures OfRank(less, x, Sorted(less, xs)) == OfRank(less, x, xs)
  {
    if xs != [] {
      SortedIsStable(less, x, xs[1..]);
      InsertIsStable(less, x, xs[0], Sorted(less, xs[1..]));
      assert ([xs[0]] + Sorted(less, xs[1..]))[1..] == Sorted(less, xs[1..]);
    }
  }

  lemma SameMembers<T>(xs: seq<T>, ys: seq<T>)
    requires multiset(xs) == multiset(ys)
    ensures |xs| == |ys| && forall x :: x in xs <==> x in ys
  {
    assert |multiset(xs)| == |multiset(ys)|;
    forall x ensures x in xs <==> x in ys {
      assert x in xs <==> x in multiset(xs);
      assert x in ys <==> x in multiset(ys);
    }
  }

  /** What is in order already stays as it is. */
  lemma {:induction false} SortedStays<T>(less: (T, T) -> bool, xs: seq<T>)
    requires Ordered(less, xs)
    ensures Sorted(less, xs) == xs
  {
    if xs != [] {
      OrderedTail(less, xs);
      SortedStays(less, xs[1..]);
      assert xs == [xs[0]] + xs[1..];
      assert xs[1..] != [] ==> xs[1] in xs[1..];
    }
  }

  /** Different members have different ranks. */
  ghost predicate Distinguishes<T>(less: (T, T) -> bool, xs: seq<T>) {
    forall a, b :: a in xs && b in xs && a != b ==> less(a, b) || less(b, a)
  }

  lemma FirstIsUnique<T>(less: (T, T) -> bool, xs: seq<T>, ys: seq<T>)
    requires xs != [] && ys != [] && ys[0] in xs && xs[0] in ys && Distinguishes(less, xs)
    requires Ordered(less, xs) && Ordered(less, ys)
    ensures xs[0] == ys[0]
  {
    var i :| 0 <= i < |xs| && xs[i] == ys[0];
    var j :| 0 <= j < |ys| && ys[j] == xs[0];
    assert i == 0 || !less(xs[i], xs[0]);
    assert j == 0 || !less(ys[j], ys[0]);
  }

  lemma TailMembers<T>(xs: seq<T>, ys: seq<T>)
    requires xs != [] && ys != [] && xs[0] == ys[0] && multiset(xs) == multiset(ys)
    ensures multiset(xs[1..]) == multiset(ys[1..])
  {
    assert xs == [xs[0]] + xs[1..] && ys == [ys[0]] + ys[1..];
    assert multiset(xs[1..]) == multiset(xs) - multiset{xs[0]};
    assert multiset(ys[1..]) == multiset(ys) - multiset{ys[0]};
  }

  /** Members of different ranks can be put in order in one way only. */
  lemma {:induction false} OrderIsUnique<T>(less: (T, T) -> bool, xs: seq<T>, ys: seq<T>)
    requires multiset(xs) == multiset(ys) && Distinguishes(less, xs)
    requires Ordered(less, xs) && Ordered(less, ys)
    ensures xs == ys
  {
    SameMembers(xs, ys);
    if xs != [] {
      FirstIsUnique(less, xs, ys);
      TailMembers(xs, ys);
      OrderedTail(less, xs);
      OrderedTail(less, ys);
      OrderIsUnique(less, xs[1..], ys[1..]);
      assert xs == [xs[0]] + xs[1..] && ys == [ys[0]] + ys[1..];
    }
  }

  /** The input order does not matter when members differ in rank. */
  lemma SortedIgnoresOrder<T(!new)>(less: (T, T) -> bool, xs: seq<T>, ys: seq<T>)
    requires Ranks(less) && multiset(xs) == multiset(ys) && Distinguishes(less, xs)
    ensures Sorted(less, xs) == Sorted(less, ys)
  {
    SortedEffect(less, xs);
    SortedEffect(less, ys);
    SameMembers(xs, Sorted(less, xs));
    OrderIsUnique(less, Sorted(less, xs), Sorted(less, ys));
  }

  lemma {:induction false} InsertBeforeLast<T>(less: (T, T) -> bool, x: T, xs: seq<T>, last: T)
    requires !less(last, x)
    ensures Insert(less, x, xs + [last]) == Insert(less, x, xs) + [last]
  {
    if xs == [] {
      assert xs + [last] == [last];
    } else {
      assert (xs + [last])[1..] == xs[1..] + [last];
      InsertBeforeLast(less, x, xs[1..], last);
    }
  }

  /** An element that precedes no other, added at the end, ends up last. */
  lemma {:induction false} SortedLast<T>(less: (T, T) -> bool, xs: seq<T>, last: T)
    requires forall x :: x in xs ==> !less(last, x)
    ensures Sorted(less, xs + [last]) == Sorted(less, xs) + [last]
  {
    if xs == [] {
      assert xs + [last] == [last] && [last][1..] == [];
    } else {
      assert (xs + [last])[1..] == xs[1..] + [last];
      SortedLast(less, xs[1..], last);
      InsertBeforeLast(less, xs[0], Sorted(less, xs[1..]), last);
    }
  }
}
