/** How many rows a read serves, which ones, and which reads are refused. */
module StreamPages {
  import opened Wrappers
  import opened Artifacts
  import opened StreamLog
  import opened Nodes
  import opened Cursors
  import opened BootstrapStream
  import opened BootstrapRuns
  import opened PeerServing
  import opened PeerStreams
  import CursorCoverage

  /** The rows a caller gets at most: 50 unless it asks, and between 1 and 100 if it does. */
  predicate IsWanted(limit: Option<nat>, n: nat) {
    match limit
    case None => n == 50
    case Some(asked) => if asked == 0 then n == 1 else if asked <= 100 then n == asked else n == 100
  }

  /** The retained rows after a position. */
  function Ahead(s: Stream, after: nat): set<nat> { set q | q in s.entries && q > after }

  /** `page` is the first `n` retained rows after the position, or all of them if they are fewer. */
  ghost predicate ServesFirst(s: Stream, after: nat, n: nat, page: Page) {
    && |page.entries| == (if |Ahead(s, after)| < n then |Ahead(s, after)| else n)
    && (forall i :: 0 <= i < |page.entries| ==> IsRowAhead(s, after, page.entries[i]))
    && (forall i, j :: 0 <= i < j < |page.entries| ==> page.entries[i].sequence < page.entries[j].sequence)
    && (forall q :: q in Ahead(s, after) ==> IsServed(s, page, q) || IsPast(page, q))
  }

  predicate IsRowAhead(s: Stream, after: nat, row: Entry) {
    row.sequence in Ahead(s, after) && row == s.entries[row.sequence]
  }

  predicate IsServed(s: Stream, page: Page, q: nat)
    requires q in s.entries
  {
    s.entries[q] in page.entries
  }

  predicate IsPast(page: Page, q: nat) { forall i :: 0 <= i < |page.entries| ==> page.entries[i].sequence < q }

  lemma AheadSize(s: Stream, next: nat, after: nat)
    requires Window(s, next)
    ensures var lo := Later(after + 1, Oldest(s));
      && (forall q :: q in Ahead(s, after) <==> lo <= q < next)
      && |Ahead(s, after)| == if lo < next then next - lo else 0
  {
    var lo := Later(after + 1, Oldest(s));
    WindowSize(s, next);
    if lo < next {
      IntervalSize(Ahead(s, after), lo, next);
    } else {
      assert Ahead(s, after) == {};
    }
  }

  /** `rows` are the retained rows from position `lo` on. */
  predicate Stretch(s: Stream, rows: seq<Entry>, lo: nat) {
    forall i :: 0 <= i < |rows| ==>
      rows[i].sequence == lo + i && rows[i].sequence in s.entries && rows[i] == s.entries[rows[i].sequence]
  }

  lemma RetainedRow(s: Stream, next: nat, q: nat)
    requires Window(s, next) && Oldest(s) <= q < next && 1 <= q
    ensures q in s.entries && s.entries[q] == s.history[q - 1] && s.history[q - 1].sequence == q
  {
    WindowSize(s, next);
  }

  lemma RowsAreStretch(s: Stream, next: nat, lo: nat, hi: nat)
    requires Window(s, next) && Oldest(s) <= lo <= hi <= next && 1 <= lo
    ensures |Rows(s.history, lo, hi)| == hi - lo && Stretch(s, Rows(s.history, lo, hi), lo)
  {
    var rows := Rows(s.history, lo, hi);
    forall i | 0 <= i < |rows|
      ensures rows[i].sequence == lo + i && lo + i in s.entries && rows[i] == s.entries[lo + i]
    {
      RetainedRow(s, next, lo + i);
      assert rows[i] == s.history[lo + i - 1];
    }
  }

  lemma StretchServesFirst(s: Stream, lo: nat, after: nat, n: nat, page: Page)
    requires Stretch(s, page.entries, lo)
    requires forall q :: q in Ahead(s, after) <==> lo <= q < lo + |Ahead(s, after)|
    requires |page.entries| == if |Ahead(s, after)| < n then |Ahead(s, after)| else n
    ensures ServesFirst(s, after, n, page)
  {
    forall q | q in Ahead(s, after) ensures IsServed(s, page, q) || IsPast(page, q) {
      if q < lo + |page.entries| {
        assert page.entries[q - lo].sequence == q;
        assert page.entries[q - lo] == s.entries[q];
      }
    }
  }

  lemma PageIsStretch(s: Stream, next: nat, after: nat, n: nat)
    requires Window(s, next)
    ensures var page, lo := PageAfter(s.entries, after, n), Later(after + 1, Oldest(s));
      && Stretch(s, page.entries, lo)
      && |page.entries| == if lo >= next then 0 else if next - lo < n then next - lo else n
  {
    var lo := Later(after + 1, Oldest(s));
    RangeIsHistory(s, next, after + 1, n);
    if lo < next { RowsAreStretch(s, next, lo, Earlier(lo + n, next)); }
  }

  lemma PageServesFirst(s: Stream, next: nat, after: nat, n: nat)
    requires Window(s, next)
    ensures ServesFirst(s, after, n, PageAfter(s.entries, after, n))
  {
    var lo, page := Later(after + 1, Oldest(s)), PageAfter(s.entries, after, n);
    AheadSize(s, next, after);
    PageIsStretch(s, next, after, n);
    StretchServesFirst(s, lo, after, n, page);
  }

  // ----- the Bootstrap stream -----

  /** The largest cursor a node accepts: its next sequence number, or 0 before its first row. */
  predicate IsHighWater(s: NodeState, mark: nat) {
    mark == if s.runtime.Some? then |s.stream.history| + 1 else 0
  }

  /** A read is refused exactly when the service is off or its cursor is no number or beyond the next row. */
  lemma ReadRefusedExactly(
    s: NodeState, cursor: Option<string>, limit: Option<nat>, enabled: bool, now: Time, mark: nat)
    requires NodeInv(s) && IsHighWater(s, mark)
    ensures var r := Read(s, cursor, limit, enabled, now);
      && (r.result == Err(BootstrapDisabled) <==> !enabled)
      && (r.result == Err(Malformed) <==> enabled && (Parse(cursor).None? || Parse(cursor).value > mark))
      && (r.result.Err? ==> r.state == s && (r.result.error.BootstrapDisabled? || r.result.error.Malformed?))
  {
    CursorCoverage.HighWaterIsNext(s);
  }

  /** Every other read serves the first rows after the cursor in the swept log, as many as are wanted. */
  lemma ReadServesFirst(s: NodeState, cursor: Option<string>, limit: Option<nat>, now: Time, n: nat)
    requires NodeInv(s) && IsWanted(limit, n)
    requires Read(s, cursor, limit, true, now).result.Ok?
    ensures var r := Read(s, cursor, limit, true, now);
      && r.state == Sweep(s, now) && r.result.value.limit == n
      && ServesFirst(r.state.stream, Parse(cursor).value, n, r.result.value)
  {
    SweepEffect(s, now);
    var t := Sweep(s, now);
    PageServesFirst(t.stream, t.Ensured().nextSequence, Parse(cursor).value, n);
  }

  // ----- the peer stream -----

  lemma PeerReadRefusedExactly(p: PeerService, cursor: Option<string>, limit: Option<nat>)
    requires PeerWindow(p)
    ensures var r := ReadPeer(p, cursor, limit);
      && (r == Err(ServiceDisabled) <==> !p.enabled)
      && (r == Err(BadCursor) <==>
            p.enabled && (Parse(cursor).None? || Parse(cursor).value > |p.stream.history| + 1))
  {
  }

  lemma PeerReadServesFirst(p: PeerService, cursor: Option<string>, limit: Option<nat>, n: nat)
    requires PeerWindow(p) && IsWanted(limit, n)
    requires ReadPeer(p, cursor, limit).Ok?
    ensures var page := ReadPeer(p, cursor, limit).value;
      page.limit == n && ServesFirst(p.stream, Parse(cursor).value, n, page)
  {
    PageServesFirst(p.stream, p.nextSequence, Parse(cursor).value, n);
  }
}
