/** Lists that grow by members they do not have yet. */
module Lists {

  /** Appends each member of `ys` that is not there yet. */
  function AddNew<T(==)>(xs: seq<T>, ys: seq<T>): seq<T> {
    if ys == [] then xs
    else
      var front, y := AddNew(xs, ys[..|ys| - 1]), ys[|ys| - 1];
      if y in front then front else front + [y]
  }

  method AddMissing<T(==)>(xs: seq<T>, ys: seq<T>) returns (all: seq<T>)
    ensures all == AddNew(xs, ys)
  {
    all := xs;
    for i := 0 to |ys|
      invariant all == AddNew(xs, ys[..i])
    {
      assert ys[..i + 1][..i] == ys[..i];
      if ys[i] !in all { all := all + [ys[i]]; }
    }
    assert ys[..|ys|] == ys;
  }

  /** `ys` is `xs` followed by members that occur nowhere before. */
  ghost predicate AddsOnce<T>(xs: seq<T>, ys: seq<T>) {
    xs <= ys && forall i, j :: 0 <= i < j < |ys| && |xs| <= j ==> ys[i] != ys[j]
  }

  lemma {:induction false} AddNewEffect<T>(xs: seq<T>, ys: seq<T>)
    ensures AddsOnce(xs, AddNew(xs, ys))
    ensures forall x :: x in AddNew(xs, ys) <==> x in xs || x in ys
  {
    if ys != [] {
      AddNewEffect(xs, ys[..|ys| - 1]);
      assert ys == ys[..|ys| - 1] + [ys[|ys| - 1]];
    }
  }

  lemma AddsOnceTrans<T>(xs: seq<T>, ys: seq<T>, zs: seq<T>)
    requires AddsOnce(xs, ys) && AddsOnce(ys, zs)
    ensures AddsOnce(xs, zs)
  {
    forall i, j | 0 <= i < j < |zs| && |xs| <= j ensures zs[i] != zs[j] {
      if j < |ys| { assert zs[i] == ys[i] && zs[j] == ys[j]; }
    }
  }

  lemma {:induction false} AddNothingNew<T>(xs: seq<T>, ys: seq<T>)
    requires forall y :: y in ys ==> y in xs
    ensures AddNew(xs, ys) == xs
  {
    if ys != [] { AddNothingNew(xs, ys[..|ys| - 1]); }
  }
}
