/** How far one synchronization pass gets, and what it reports. */
module PassOutcomes {
  import opened Wrappers
  import opened Artifacts
  import opened StreamLog
  import opened Nodes
  import opened BootstrapStream
  import opened StreamSync
  import opened SyncRuns

  // ----- why a page fails -----

  /** What a bad entry is reported as. */
  function FailureOf(e: Entry): SyncFailure {
    match e.payload
    case WithdrawalPayload(_) => if e.kind.Withdrawn? then SignatureFailure else MalformedFailure
    case AnnouncementPayload(a) =>
      if e.kind.Withdrawn? then MalformedFailure
      else if a.addressValid then SignatureFailure else ValidationFailure
  }

  /** The first bad entry is reported as `failure`. */
  ghost predicate FailsWith(entries: seq<Entry>, failure: SyncFailure) {
    exists n :: 0 <= n < |entries| && IsBad(entries[n]) && failure == FailureOf(entries[n])
      && forall j :: 0 <= j < n ==> !IsBad(entries[j])
  }

  lemma EntryFailure(s: NodeState, url: string, e: Entry, now: Time, c: Counts)
    requires IsBad(e)
    ensures ApplyEntry(s, url, e, now, c).result == Err(FailureOf(e))
  {
  }

  /** A failing page is reported as its first bad entry. */
  lemma {:induction false} PageFailure(s: NodeState, url: string, entries: seq<Entry>, now: Time, c: Counts)
    requires HasBad(entries)
    ensures var r := ApplyEntries(s, url, entries, now, c).result; r.Err? && FailsWith(entries, r.error)
    decreases |entries|
  {
    var e, rest := entries[0], entries[1..];
    EntryOutcome(s, url, e, now, c);
    if IsBad(e) {
      EntryFailure(s, url, e, now, c);
    } else {
      var i :| 0 <= i < |entries| && IsBad(entries[i]);
      assert rest[i - 1] == entries[i];
      var first := ApplyEntry(s, url, e, now, c);
      PageFailure(first.state, url, rest, now, first.result.value);
      FailureLater(e, rest, ApplyEntries(first.state, url, rest, now, first.result.value).result.error);
      assert entries == [e] + rest;
    }
  }

  lemma FailureLater(e: Entry, rest: seq<Entry>, failure: SyncFailure)
    requires !IsBad(e) && FailsWith(rest, failure)
    ensures FailsWith([e] + rest, failure)
  {
    var n :| 0 <= n < |rest| && IsBad(rest[n]) && failure == FailureOf(rest[n])
      && forall j :: 0 <= j < n ==> !IsBad(rest[j]);
    var all := [e] + rest;
    assert all[n + 1] == rest[n];
    forall j | 0 <= j < n + 1 ensures !IsBad(all[j]) {
      if j > 0 { assert all[j] == rest[j - 1]; }
    }
  }

  // ----- the requests of a pass -----

  /** The cursor of request `i`: the persisted one first, then where the page before leads. */
  function Request(f: Feed, cursor: Option<string>, i: nat): Option<string> {
    if i == 0 then cursor else Some(KeyAt(f, CursorText(cursor), i))
  }

  function KeyOf(f: Feed, cursor: Option<string>, i: nat): string { KeyAt(f, CursorText(cursor), i) }

  lemma RequestAsks(f: Feed, cursor: Option<string>, i: nat)
    ensures CursorText(Request(f, cursor, i)) == KeyOf(f, cursor, i)
  {
    assert KeyAt(f, CursorText(cursor), 0) == CursorText(cursor);
  }

  /** A page goes on exactly when its key is not the end, and then leads to the next request. */
  lemma PageLeads(serve: Server, url: string, now: Time, cursor: Option<string>, i: nat)
    ensures var f := FeedOf(serve, url, now);
      var page := serve(KeyOf(f, cursor, i));
      && (GoesOn(page, Request(f, cursor, i)) <==> !EndsAt(f, KeyOf(f, cursor, i)))
      && (GoesOn(page, Request(f, cursor, i)) ==> page.nextCursor == Request(f, cursor, i + 1))
  {
    var f := FeedOf(serve, url, now);
    RequestAsks(f, cursor, i);
    assert KeyAt(f, CursorText(cursor), i + 1) == f.next(KeyAt(f, CursorText(cursor), i));
  }

  /** Pages `i .. n` of the stream. */
  function PagesOf(serve: Server, f: Feed, cursor: Option<string>, i: nat, n: nat): seq<Page>
    decreases n - i
  {
    if i >= n then [] else [serve(KeyOf(f, cursor, i))] + PagesOf(serve, f, cursor, i + 1, n)
  }

  lemma PagesCons(serve: Server, f: Feed, cursor: Option<string>, i: nat, n: nat)
    requires i < n
    ensures var pages := PagesOf(serve, f, cursor, i, n);
      pages != [] && pages[0] == serve(KeyOf(f, cursor, i)) && pages[1..] == PagesOf(serve, f, cursor, i + 1, n)
  {
  }

  /** Page `n - 1` is the last of the stream. */
  predicate EndsBefore(f: Feed, cursor: Option<string>, n: nat) { n > 0 && EndsAt(f, KeyOf(f, cursor, n - 1)) }

  /**
   Requests `0 .. n` are answered and no page before the last of them ends the stream; then the
   stream ends, or 32 pages are there, or request `n` fails.
   */
  ghost predicate StopsFetching(fetch: Fetch, f: Feed, cursor: Option<string>, n: nat) {
    && n <= 32
    && (forall i: nat :: i < n ==> fetch(i, Request(f, cursor, i)).Ok?)
    && (forall i: nat :: i < n ==> !EndsBefore(f, cursor, i))
    && (EndsBefore(f, cursor, n) || n == 32 || fetch(n, Request(f, cursor, n)).Err?)
  }

  /** The transport failure that a pass stopped by, if it was one. */
  function Broken(fetch: Fetch, f: Feed, cursor: Option<string>, n: nat): Option<SyncFailure> {
    if EndsBefore(f, cursor, n) || n == 32 then None
    else match fetch(n, Request(f, cursor, n)) case Err(e) => Some(e) case Ok(_) => None
  }

  lemma FetchGoesOn(fetch: Fetch, cursor: Option<string>, i: nat)
    requires i < MAX_PAGES_PER_ENDPOINT && fetch(i, cursor).Ok? && GoesOn(fetch(i, cursor).value, cursor)
    ensures var page := fetch(i, cursor).value;
      var rest := FetchFrom(fetch, page.nextCursor, i + 1);
      FetchFrom(fetch, cursor, i) == ([page] + rest.0, rest.1)
  {
  }

  lemma {:induction false} FetchYields(
    fetch: Fetch, serve: Server, url: string, now: Time, cursor: Option<string>, i: nat, n: nat)
    requires AnswersFrom(fetch, serve) && StopsFetching(fetch, FeedOf(serve, url, now), cursor, n)
    requires i <= n && (i == n ==> !EndsBefore(FeedOf(serve, url, now), cursor, n))
    ensures var f := FeedOf(serve, url, now);
      FetchFrom(fetch, Request(f, cursor, i), i) == (PagesOf(serve, f, cursor, i, n), Broken(fetch, f, cursor, n))
    decreases n - i
  {
    var f := FeedOf(serve, url, now);
    if i < n {
      RequestAsks(f, cursor, i);
      PageLeads(serve, url, now, cursor, i);
      var page := serve(KeyOf(f, cursor, i));
      assert fetch(i, Request(f, cursor, i)) == Ok(page);
      if i + 1 < n || !EndsBefore(f, cursor, n) {
        assert !EndsBefore(f, cursor, i + 1);
        FetchYields(fetch, serve, url, now, cursor, i + 1, n);
        FetchGoesOn(fetch, Request(f, cursor, i), i);
        assert page.nextCursor == Request(f, cursor, i + 1);
      } else {
        assert PagesOf(serve, f, cursor, i, n) == [page];
        assert FetchFrom(fetch, Request(f, cursor, i), i) == ([page], None);
      }
    }
  }

  // ----- draining -----

  /** The first `m` of `n` pages are good, and page `m` is bad unless that is all of them. */
  ghost predicate StopsApplying(f: Feed, cursor: Option<string>, m: nat, n: nat) {
    && m <= n && (forall i: nat :: i < m ==> !f.bad(KeyOf(f, cursor, i)))
    && (m < n ==> f.bad(KeyOf(f, cursor, m)))
  }

  lemma DrainStep(s: NodeState, url: string, serve: Server, now: Time, cursor: Option<string>, i: nat, applied: nat,
      c: Counts)
    ensures var f := FeedOf(serve, url, now);
      var d := DrainOne(s, url, serve(KeyOf(f, cursor, i)), Request(f, cursor, i), now, applied, c);
      if f.bad(KeyOf(f, cursor, i))
      then d.failure.Some? && FailsWith(serve(KeyOf(f, cursor, i)).entries, d.failure.value)
           && d.applied == applied && !d.ended
      else d.failure.None? && d.applied == applied + 1 && (d.ended <==> EndsBefore(f, cursor, i + 1))
           && (!d.ended ==> d.cursor == Request(f, cursor, i + 1))
  {
    var f := FeedOf(serve, url, now);
    RequestAsks(f, cursor, i);
    PageLeads(serve, url, now, cursor, i);
    DrainOneStep(s, url, serve, Request(f, cursor, i), now, applied, c);
    var page := serve(KeyOf(f, cursor, i));
    EntriesOutcome(s, url, page.entries, now, NO_COUNTS);
    if HasBad(page.entries) { PageFailure(s, url, page.entries, now, NO_COUNTS); }
  }

  lemma {:induction false} DrainYields(
    s: NodeState, url: string, serve: Server, now: Time, cursor: Option<string>, i: nat, m: nat, n: nat, applied: nat,
    c: Counts)
    requires var f := FeedOf(serve, url, now);
      StopsApplying(f, cursor, m, n) && forall j: nat :: j < n ==> !EndsBefore(f, cursor, j)
    requires i <= m && (i == n ==> !EndsBefore(FeedOf(serve, url, now), cursor, n))
    ensures var f := FeedOf(serve, url, now);
      var d := Drain(s, url, PagesOf(serve, f, cursor, i, n), Request(f, cursor, i), now, applied, c);
      && d.applied == applied + (m - i)
      && (if m < n then d.failure.Some? && FailsWith(serve(KeyOf(f, cursor, m)).entries, d.failure.value) && !d.ended
          else d.failure.None? && (d.ended <==> EndsBefore(f, cursor, n)))
    decreases n - i
  {
    if i < n {
      var f := FeedOf(serve, url, now);
      PagesCons(serve, f, cursor, i, n);
      DrainStep(s, url, serve, now, cursor, i, applied, c);
      DrainCases(s, url, PagesOf(serve, f, cursor, i, n), Request(f, cursor, i), now, applied, c);
      var d := DrainOne(s, url, serve(KeyOf(f, cursor, i)), Request(f, cursor, i), now, applied, c);
      if i < m && !d.ended { DrainYields(d.state, url, serve, now, cursor, i + 1, m, n, d.applied, d.counts); }
    }
  }

  // ----- one pass -----

  /**
   A pass gets exactly as far as its requests are answered and its pages are good: it fetches up
   to the end of the stream, 32 pages, or the first failing request, and applies the good pages
   before the first bad one. It reports that bad page, or else the failing request, or else success.
   */
  lemma PassAppliesExactly(
    s: NodeState, url: string, fetch: Fetch, serve: Server, cursor: Option<string>, now: Time, m: nat, n: nat)
    requires AnswersFrom(fetch, serve)
    requires StopsFetching(fetch, FeedOf(serve, url, now), cursor, n)
    requires StopsApplying(FeedOf(serve, url, now), cursor, m, n)
    ensures var f, d := FeedOf(serve, url, now), Pass(s, url, fetch, cursor, now);
      && d.applied == m && d.state.slots == Fold(f, s.slots, CursorText(cursor), m)
      && CursorText(d.cursor) == KeyOf(f, cursor, m)
      && (if m < n then d.failure.Some? && FailsWith(serve(KeyOf(f, cursor, m)).entries, d.failure.value)
          else d.failure == Broken(fetch, f, cursor, n))
  {
    var k := PassFolds(s, url, fetch, serve, cursor, now);
    FetchYields(fetch, serve, url, now, cursor, 0, n);
    DrainYields(s, url, serve, now, cursor, 0, m, n, 0, NO_COUNTS);
  }

  lemma {:induction false} FetchingStops(fetch: Fetch, f: Feed, cursor: Option<string>, i: nat) returns (n: nat)
    requires i <= 32 && (forall j: nat :: j < i ==> fetch(j, Request(f, cursor, j)).Ok?)
    requires forall j: nat :: j < i ==> !EndsBefore(f, cursor, j)
    ensures StopsFetching(fetch, f, cursor, n)
    decreases 32 - i
  {
    if EndsBefore(f, cursor, i) || i == 32 || fetch(i, Request(f, cursor, i)).Err? {
      n := i;
    } else {
      n := FetchingStops(fetch, f, cursor, i + 1);
    }
  }

  lemma {:induction false} ApplyingStops(f: Feed, cursor: Option<string>, n: nat) returns (m: nat)
    ensures StopsApplying(f, cursor, m, n)
  {
    if n == 0 {
      m := 0;
    } else {
      m := ApplyingStops(f, cursor, n - 1);
      if m == n - 1 && !f.bad(KeyOf(f, cursor, m)) { m := n; }
    }
  }

  /** Every pass over such a stream is one of these. */
  lemma EveryPassStops(fetch: Fetch, f: Feed, cursor: Option<string>) returns (m: nat, n: nat)
    ensures StopsFetching(fetch, f, cursor, n) && StopsApplying(f, cursor, m, n)
  {
    n := FetchingStops(fetch, f, cursor, 0);
    m := ApplyingStops(f, cursor, n);
  }

  /** With every request answered and every page good, a pass applies the whole stream, or its first 32 pages. */
  lemma HealthyPass(
    s: NodeState, url: string, fetch: Fetch, serve: Server, cursor: Option<string>, now: Time, n: nat, state: SyncState)
    requires AnswersFrom(fetch, serve) && forall i: nat, c :: fetch(i, c).Ok?
    requires var f := FeedOf(serve, url, now);
      && (forall i: nat :: i < n ==> !f.bad(KeyOf(f, cursor, i)) && !EndsBefore(f, cursor, i))
      && n <= 32 && (EndsBefore(f, cursor, n) || n == 32)
    ensures var d := Pass(s, url, fetch, cursor, now);
      && d.applied == n && d.failure.None?
      && Persisted(state, d, now) == SyncState(d.cursor, Some(now), Some(now), None)
  {
    PassAppliesExactly(s, url, fetch, serve, cursor, now, n, n);
  }

  /** A failing pass keeps the time of the last success, and records when and why it failed. */
  lemma FailureIsPersisted(s: NodeState, url: string, fetch: Fetch, state: SyncState, now: Time)
    requires Pass(s, url, fetch, state.cursor, now).failure.Some?
    ensures var d := Pass(s, url, fetch, state.cursor, now);
      Persisted(state, d, now) == SyncState(d.cursor, state.lastSuccessAt, Some(now), d.failure)
  {
    PersistedCursor(s, url, fetch, state, now);
  }
}
