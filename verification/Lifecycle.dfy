/** The grammar of lifecycle rows: what the complete log says about each key. */
module Lifecycle {
  import opened Artifacts
  import opened StreamLog

  predicate Opens(kind: EventKind) { kind.Admitted? || kind.Renewed? }

  /** The last row of `k` leaves it admitted. */
  predicate Open(h: seq<Entry>, k: PodKey) {
    h != [] && if h[|h| - 1].Key() == k then Opens(h[|h| - 1].kind) else Open(h[..|h| - 1], k)
  }

  /** Rows allowed after `h`: admission of a closed key, renewal and expiry of an open one, withdrawal of any. */
  predicate LegalNext(h: seq<Entry>, row: Entry) {
    match row.kind
    case Admitted => !Open(h, row.Key())
    case Renewed => Open(h, row.Key())
    case Expired => Open(h, row.Key())
    case Withdrawn => true
  }

  predicate Legal(h: seq<Entry>) {
    h == [] || (Legal(h[..|h| - 1]) && LegalNext(h[..|h| - 1], h[|h| - 1]))
  }

  lemma OpenAfter(h: seq<Entry>, row: Entry, k: PodKey)
    ensures Open(h + [row], k) == if row.Key() == k then Opens(row.kind) else Open(h, k)
  {
    assert (h + [row])[..|h|] == h;
  }

  lemma LegalAfter(h: seq<Entry>, row: Entry)
    ensures Legal(h + [row]) <==> Legal(h) && LegalNext(h, row)
  {
    assert (h + [row])[..|h|] == h;
  }

  lemma {:induction false} LegalPrefix(h: seq<Entry>, n: nat)
    requires Legal(h) && n <= |h|
    ensures Legal(h[..n])
    ensures n < |h| ==> LegalNext(h[..n], h[n])
    decreases |h|
  {
    if n == |h| {
      assert h[..n] == h;
    } else {
      var front := h[..|h| - 1];
      assert front[..n] == h[..n];
      LegalPrefix(front, n);
    }
  }

  lemma OpenStep(h: seq<Entry>, n: nat, k: PodKey)
    requires n < |h|
    ensures Open(h[..n + 1], k) == if h[n].Key() == k then Opens(h[n].kind) else Open(h[..n], k)
  {
    assert h[..n + 1] == h[..n] + [h[n]];
    OpenAfter(h[..n], h[n], k);
  }

  /** From row `i` to row `n` the key stays open, and all its rows are renewals. */
  predicate StaysOpen(h: seq<Entry>, k: PodKey, i: nat, n: nat)
    requires i < n <= |h|
  {
    Open(h[..n], k) && forall j :: i < j < n && h[j].Key() == k ==> h[j].kind.Renewed?
  }

  /** From row `m` to row `n` the key stays closed, and all its rows are withdrawals. */
  predicate StaysClosed(h: seq<Entry>, k: PodKey, m: nat, n: nat)
    requires m < n <= |h|
  {
    !Open(h[..n], k) && forall j :: m < j < n && h[j].Key() == k ==> h[j].kind.Withdrawn?
  }

  /**
   One epoch: from an admission at `i` up to the next admission of the key, its rows are
   renewals, then exactly one closing row at `m` (an expiry or a withdrawal), then only
   withdrawals of the closed key. When no row closes it, the key is open at the end.
   */
  lemma {:induction false} EpochShape(h: seq<Entry>, k: PodKey, i: nat, n: nat)
    returns (m: nat)
    requires Legal(h) && i < n <= |h|
    requires h[i].Key() == k && h[i].kind.Admitted?
    requires forall j :: i < j < n && h[j].Key() == k ==> !h[j].kind.Admitted?
    ensures i < m <= n
    ensures StaysOpen(h, k, i, m)
    ensures m < n ==>
      && h[m].Key() == k && (h[m].kind.Expired? || h[m].kind.Withdrawn?)
      && StaysClosed(h, k, m, n)
    decreases n
  {
    OpenStep(h, n - 1, k);
    LegalPrefix(h, n - 1);
    if n == i + 1 {
      m := n;
    } else {
      m := EpochShape(h, k, i, n - 1);
      if m == n - 1 && (h[n - 1].Key() != k || h[n - 1].kind.Renewed?) {
        m := n;
      }
    }
  }

  /** Between two consecutive admissions of a key there is exactly one closing row. */
  lemma ClosedOncePerEpoch(h: seq<Entry>, k: PodKey, i: nat, n: nat)
    returns (m: nat)
    requires Legal(h) && i < n < |h|
    requires h[i].Key() == k && h[i].kind.Admitted?
    requires h[n].Key() == k && h[n].kind.Admitted?
    requires forall j :: i < j < n && h[j].Key() == k ==> !h[j].kind.Admitted?
    ensures i < m < n
    ensures StaysOpen(h, k, i, m)
    ensures h[m].Key() == k && (h[m].kind.Expired? || h[m].kind.Withdrawn?)
    ensures StaysClosed(h, k, m, n)
  {
    m := EpochShape(h, k, i, n);
    LegalPrefix(h, n);
  }
}
