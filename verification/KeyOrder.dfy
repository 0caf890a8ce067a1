/** The order in which an ordered set of keys is walked: by Origin, then by slug. */
module KeyOrder {
  import opened Artifacts

  predicate TextLess(a: string, b: string) {
    b != [] && (a == [] || a[0] < b[0] || (a[0] == b[0] && TextLess(a[1..], b[1..])))
  }

  /** Text is ordered by its first difference; a proper prefix comes first. */
  lemma {:induction false} TextLessExactly(a: string, b: string)
    ensures TextLess(a, b) <==> exists n: nat :: DiffersAt(a, b, n)
  {
    if a != [] && b != [] && a[0] == b[0] {
      TextLessExactly(a[1..], b[1..]);
      if n: nat :| DiffersAt(a[1..], b[1..], n) { DiffersLater(a, b, n); }
      if n: nat :| n > 0 && DiffersAt(a, b, n) {
        assert a[1..][..n - 1] == a[..n][1..] && b[1..][..n - 1] == b[..n][1..];
        assert DiffersAt(a[1..], b[1..], n - 1);
      }
    } else if TextLess(a, b) {
      assert DiffersAt(a, b, 0);
    } else {
      forall n: nat ensures !DiffersAt(a, b, n) {
        if 0 < n <= |a| && n <= |b| { assert a[..n][0] == a[0] && b[..n][0] == b[0]; }
      }
    }
  }

  /** The first `n` characters agree, and then `a` ends or has the smaller one. */
  predicate DiffersAt(a: string, b: string, n: nat) {
    n <= |a| && n < |b| && a[..n] == b[..n] && (n == |a| || a[n] < b[n])
  }

  lemma DiffersLater(a: string, b: string, n: nat)
    requires a != [] && b != [] && a[0] == b[0] && DiffersAt(a[1..], b[1..], n)
    ensures DiffersAt(a, b, n + 1)
  {
    assert a[..n + 1] == [a[0]] + a[1..][..n] && b[..n + 1] == [b[0]] + b[1..][..n];
  }

  predicate KeyLess(a: PodKey, b: PodKey) {
    a.0 < b.0 || (a.0 == b.0 && TextLess(a.1, b.1))
  }

  lemma {:induction false} TextOrder(a: string, b: string)
    ensures TextLess(a, b) ==> !TextLess(b, a) && a != b
    ensures TextLess(a, b) || TextLess(b, a) || a == b
  {
    if a != [] && b != [] && a[0] == b[0] {
      TextOrder(a[1..], b[1..]);
      assert a == [a[0]] + a[1..] && b == [b[0]] + b[1..];
    }
  }

  lemma {:induction false} TextTransitive(a: string, b: string, c: string)
    requires TextLess(a, b) && TextLess(b, c)
    ensures TextLess(a, c)
  {
    if a != [] && a[0] == b[0] && b[0] == c[0] {
      TextTransitive(a[1..], b[1..], c[1..]);
    }
  }

  predicate IsFirst(k: PodKey, s: set<PodKey>) {
    k in s && forall x :: x in s ==> x == k || KeyLess(k, x)
  }

  lemma {:induction false} FirstOf(s: set<PodKey>) returns (k: PodKey)
    requires s != {}
    ensures IsFirst(k, s)
    decreases |s|
  {
    var first :| first in s;
    k := first;
    var rest := s - {first};
    assert forall x :: x in s ==> x == first || x in rest;
    if rest != {} {
      var l := FirstOf(rest);
      TextOrder(first.1, l.1);
      if KeyLess(l, first) {
        k := l;
      } else {
        forall x | x in rest ensures KeyLess(first, x) {
          if x != l && first.0 == l.0 && l.0 == x.0 {
            TextTransitive(first.1, l.1, x.1);
          }
        }
      }
    }
  }

  lemma FirstIsUnique(s: set<PodKey>)
    requires s != {}
    ensures exists k :: IsFirst(k, s)
    ensures forall k, l :: IsFirst(k, s) && IsFirst(l, s) ==> k == l
  {
    var f := FirstOf(s);
    forall k, l | IsFirst(k, s) && IsFirst(l, s) ensures k == l {
      TextOrder(k.1, l.1);
    }
  }

  function First(s: set<PodKey>): (k: PodKey)
    requires s != {}
    ensures IsFirst(k, s)
  {
    FirstIsUnique(s);
    var k :| IsFirst(k, s);
    k
  }

  /** The keys of an ordered set, in iteration order. */
  function InOrder(s: set<PodKey>): (keys: seq<PodKey>)
    ensures forall k :: k in keys <==> k in s
    ensures |keys| == |s|
    ensures forall i, j :: 0 <= i < j < |keys| ==> KeyLess(keys[i], keys[j])
  {
    if s == {} then []
    else
      var rest := InOrder(s - {First(s)});
      assert forall i :: 0 <= i < |rest| ==> rest[i] in rest;
      [First(s)] + rest
  }
}
