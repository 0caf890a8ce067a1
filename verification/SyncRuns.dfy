/** Page atomicity, and resumption of an interrupted synchronization, over any number of passes. */
module SyncRuns {
  import opened Wrappers
  import opened Artifacts
  import opened Retention
  import opened Convergence
  import opened SlotMaps
  import opened StreamLog
  import opened Nodes
  import opened PeerServing
  import opened PodAnnouncements
  import opened BootstrapStream
  import opened StreamSync
  import opened Redelivery

  // ----- a page as deliveries -----

  /** What an entry delivers, if anything. */
  function DeliveryOf(e: Entry, url: string, now: Time): Option<Delivery> {
    match e.kind
    case Expired => None
    case Withdrawn => if e.payload.WithdrawalPayload? then Some(OfWithdrawal(e.payload.withdrawal, None, now)) else None
    case _ =>
      if e.payload.AnnouncementPayload? then Some(OfAnnouncement(e.payload.announcement, FromBootstrap(url), now))
      else None
  }

  /** Entries that fail their page: a payload of the wrong type, or an artifact that does not verify. */
  predicate IsBad(e: Entry) {
    match e.kind
    case Expired => false
    case Withdrawn => !e.payload.WithdrawalPayload? || !e.payload.withdrawal.Verify()
    case _ => !e.payload.AnnouncementPayload? || !Usable(e.payload.announcement)
  }

  predicate HasBad(entries: seq<Entry>) {
    exists i :: 0 <= i < |entries| && IsBad(entries[i])
  }

  function DeliveriesOf(entries: seq<Entry>, url: string, now: Time): seq<Delivery> {
    if entries == [] then []
    else
      var first := DeliveryOf(entries[0], url, now);
      (if first.Some? then [first.value] else []) + DeliveriesOf(entries[1..], url, now)
  }

  lemma DeliverAllCons(s: Slots, d: Delivery, ds: seq<Delivery>)
    ensures DeliverAll(s, [d] + ds) == DeliverAll(DeliverAt(s, d), ds)
    decreases |ds|
  {
    var all := [d] + ds;
    if ds == [] {
      assert all[..0] == [];
    } else {
      assert all[..|all| - 1] == [d] + ds[..|ds| - 1];
      DeliverAllCons(s, d, ds[..|ds| - 1]);
    }
  }

  /** Whether an entry fails its page depends on the entry alone, never on the node. */
  lemma EntryOutcome(s: NodeState, url: string, e: Entry, now: Time, c: Counts)
    ensures var r := ApplyEntry(s, url, e, now, c);
      && (r.result.Err? <==> IsBad(e))
      && (r.result.Ok? ==>
            r.state.slots == match DeliveryOf(e, url, now) case None => s.slots case Some(d) => DeliverAt(s.slots, d))
  {
  }

  /** A page applies exactly when it has no bad entry, and then it is its deliveries in order. */
  lemma {:induction false} EntriesOutcome(s: NodeState, url: string, entries: seq<Entry>, now: Time, c: Counts)
    ensures var r := ApplyEntries(s, url, entries, now, c);
      && (r.result.Err? <==> HasBad(entries))
      && (r.result.Ok? ==> r.state.slots == DeliverAll(s.slots, DeliveriesOf(entries, url, now)))
    decreases |entries|
  {
    if entries != [] {
      var e, rest := entries[0], entries[1..];
      EntryOutcome(s, url, e, now, c);
      assert HasBad(entries) <==> IsBad(e) || HasBad(rest) by {
        if HasBad(rest) {
          var i :| 0 <= i < |rest| && IsBad(rest[i]);
          assert entries[i + 1] == rest[i];
        }
      }
      var first := ApplyEntry(s, url, e, now, c);
      if first.result.Ok? {
        EntriesOutcome(first.state, url, rest, now, first.result.value);
        var d := DeliveryOf(e, url, now);
        if d.Some? {
          DeliverAllCons(s.slots, d.value, DeliveriesOf(rest, url, now));
        } else {
          assert [] + DeliveriesOf(rest, url, now) == DeliveriesOf(rest, url, now);
        }
      }
    }
  }

  lemma {:induction false} DeliveriesAreBatch(entries: seq<Entry>, url: string, now: Time)
    ensures Batch(DeliveriesOf(entries, url, now), FromBootstrap(url), now)
  {
    if entries != [] {
      DeliveriesAreBatch(entries[1..], url, now);
    }
  }

  // ----- atomicity -----

  /** Announcements of the page that were retained before its first bad entry. */
  function RetainedBeforeFailure(s: NodeState, url: string, entries: seq<Entry>, now: Time): seq<Announcement>
    decreases |entries|
  {
    if entries == [] || IsBad(entries[0]) then []
    else
      var e := entries[0];
      var next := ApplyEntry(s, url, e, now, NO_COUNTS).state;
      (if (e.kind.Admitted? || e.kind.Renewed?) && Retain(s, e.payload.announcement, FromBootstrap(url), now).result.Ok?
       then [e.payload.announcement] else [])
      + RetainedBeforeFailure(next, url, entries[1..], now)
  }

  lemma ApplyEntryIgnoresCounts(s: NodeState, url: string, e: Entry, now: Time, c: Counts)
    ensures ApplyEntry(s, url, e, now, c).state == ApplyEntry(s, url, e, now, NO_COUNTS).state
  {
  }

  /** Outside the two maps, a page touches the peer stream only: one projection per retained announcement. */
  lemma {:induction false} EntriesFootprint(s: NodeState, url: string, entries: seq<Entry>, now: Time, c: Counts)
    ensures var t := ApplyEntries(s, url, entries, now, c).state;
      t.(slots := s.slots) == s.(peer := ProjectAll(s.peer, RetainedBeforeFailure(s, url, entries, now), now))
    decreases |entries|
  {
    if entries != [] {
      EntryOutcome(s, url, entries[0], now, c);
      ApplyEntryIgnoresCounts(s, url, entries[0], now, c);
      EntryFootprint(s, url, entries[0], now, c);
      var first := ApplyEntry(s, url, entries[0], now, c);
      if first.result.Ok? {
        EntriesFootprint(first.state, url, entries[1..], now, first.result.value);
        var l := RetainedBeforeFailure(s, url, entries, now);
        var rest := RetainedBeforeFailure(first.state, url, entries[1..], now);
        if l != rest {
          assert l[1..] == rest;
        }
      }
    }
  }

  lemma EntryFootprint(s: NodeState, url: string, e: Entry, now: Time, c: Counts)
    ensures var t := ApplyEntry(s, url, e, now, c).state;
      t.(slots := s.slots) == s.(peer :=
        if (e.kind.Admitted? || e.kind.Renewed?) && !IsBad(e)
            && Retain(s, e.payload.announcement, FromBootstrap(url), now).result.Ok?
        then Project(s.peer, e.payload.announcement, now) else s.peer)
  {
  }

  /**
   Page atomicity: a hard failure restores both maps exactly; the only residue is in the peer
   stream, one appended row per announcement retained before the failure while serving is on.
   */
  lemma FailedPageResidue(s: NodeState, url: string, page: Page, now: Time)
    requires HasBad(page.entries)
    ensures var r := ApplyPage(s, url, page, now);
      && r.result.Err?
      && r.state == s.(peer := ProjectAll(s.peer, RetainedBeforeFailure(s, url, page.entries, now), now))
  {
    EntriesOutcome(s, url, page.entries, now, NO_COUNTS);
    EntriesFootprint(s, url, page.entries, now, NO_COUNTS);
  }

  lemma {:induction false} RetainedVerify(s: NodeState, url: string, entries: seq<Entry>, now: Time)
    ensures forall i :: 0 <= i < |RetainedBeforeFailure(s, url, entries, now)| ==>
      RetainedBeforeFailure(s, url, entries, now)[i].Verify()
          && RetainedBeforeFailure(s, url, entries, now)[i].LeaseIsActive(now)
    decreases |entries|
  {
    if entries != [] && !IsBad(entries[0]) {
      RetainedVerify(ApplyEntry(s, url, entries[0], now, NO_COUNTS).state, url, entries[1..], now);
    }
  }

  // ----- resumption -----

  /**
   A stream as a client experiences it: what applying the page at a cursor does to the maps,
   which cursor is requested after it, and whether the page is bad.
   */
  datatype Feed = Feed(step: (Slots, string) -> Slots, next: string -> string, bad: string -> bool)

  /** The cursor of the n-th page. */
  function KeyAt(f: Feed, key: string, n: nat): string {
    if n == 0 then key else f.next(KeyAt(f, key, n - 1))
  }

  /** Both maps after the first `n` pages, each applied once. */
  function Fold(f: Feed, s: Slots, key: string, n: nat): Slots {
    if n == 0 then s else f.step(Fold(f, s, key, n - 1), KeyAt(f, key, n - 1))
  }

  /** The first `n` pages are good. */
  predicate GoodUpTo(f: Feed, key: string, n: nat) {
    forall i :: 0 <= i < n ==> !f.bad(KeyAt(f, key, i))
  }

  /** A page that repeats its own cursor, or has none, ends the stream. */
  predicate EndsAt(f: Feed, key: string) { f.next(key) == key }

  /** `n` good pages lead from `s` at cursor `from` to `t` at cursor `to`. */
  predicate Progress(f: Feed, s: Slots, t: Slots, from: string, to: string, n: nat) {
    t == Fold(f, s, from, n) && to == KeyAt(f, from, n) && GoodUpTo(f, from, n)
  }

  lemma {:induction false} KeyAtAdds(f: Feed, key: string, m: nat, n: nat)
    ensures KeyAt(f, KeyAt(f, key, m), n) == KeyAt(f, key, m + n)
  {
    if n > 0 { KeyAtAdds(f, key, m, n - 1); }
  }

  lemma {:induction false} FoldAdds(f: Feed, s: Slots, key: string, m: nat, n: nat)
    ensures Fold(f, Fold(f, s, key, m), KeyAt(f, key, m), n) == Fold(f, s, key, m + n)
  {
    if n > 0 {
      FoldAdds(f, s, key, m, n - 1);
      KeyAtAdds(f, key, m, n - 1);
    }
  }

  lemma ProgressAdds(f: Feed, s: Slots, t: Slots, u: Slots, a: string, b: string, c: string, m: nat, n: nat)
    requires Progress(f, s, t, a, b, m) && Progress(f, t, u, b, c, n)
    ensures Progress(f, s, u, a, c, m + n)
  {
    KeyAtAdds(f, a, m, n);
    FoldAdds(f, s, a, m, n);
    forall i | 0 <= i < m + n ensures !f.bad(KeyAt(f, a, i)) {
      if i >= m { KeyAtAdds(f, a, m, i - m); }
    }
  }

  lemma OnePage(f: Feed, s: Slots, key: string)
    requires !f.bad(key)
    ensures Progress(f, s, f.step(s, key), key, f.next(key), 1)
  {
    assert KeyAt(f, key, 0) == key && Fold(f, s, key, 0) == s;
    assert KeyAt(f, key, 1) == f.next(key) && Fold(f, s, key, 1) == f.step(s, key);
  }

  /** A server that does not change: the page it gives for each cursor. */
  type Server = string -> Page

  /** Each request is answered by the server or fails in transport. */
  ghost predicate AnswersFrom(fetch: Fetch, serve: Server) {
    forall i: nat, c :: fetch(i, c).Ok? ==> fetch(i, c).value == serve(CursorText(c))
  }

  function FeedOf(serve: Server, url: string, now: Time): Feed {
    Feed((s, key) => DeliverAll(s, DeliveriesOf(serve(key).entries, url, now)),
         key => CursorText(Or(serve(key).nextCursor, Some(key))),
         key => HasBad(serve(key).entries))
  }

  /** Draining one page of the stream is one step of the feed, or stops before a bad page. */
  lemma DrainOneStep(
    s: NodeState, url: string, serve: Server, cursor: Option<string>, now: Time, applied: nat, c: Counts)
    ensures var f, key := FeedOf(serve, url, now), CursorText(cursor);
      var d := DrainOne(s, url, serve(key), cursor, now, applied, c);
      && (d.failure.Some? <==> f.bad(key))
      && (d.failure.None? ==>
            && d.state.slots == f.step(s.slots, key) && CursorText(d.cursor) == f.next(key)
            && d.applied == applied + 1 && (d.ended <==> EndsAt(f, key)))
      && (d.failure.Some? ==> d.state.slots == s.slots && d.cursor == cursor && d.applied == applied && !d.ended)
      && (d.failure.None? && !d.ended ==> d.cursor == serve(key).nextCursor)
  {
    var page := serve(CursorText(cursor));
    EntriesOutcome(s, url, page.entries, now, NO_COUNTS);
  }

  /** Pages the server gives one after another from `cursor` on. */
  predicate Chain(serve: Server, pages: seq<Page>, cursor: Option<string>)
    decreases |pages|
  {
    pages != [] ==>
      && pages[0] == serve(CursorText(cursor))
      && (|pages| > 1 ==> GoesOn(pages[0], cursor))
      && Chain(serve, pages[1..], pages[0].nextCursor)
  }

  lemma {:induction false} FetchedIsChain(fetch: Fetch, serve: Server, cursor: Option<string>, i: nat)
    requires AnswersFrom(fetch, serve)
    ensures Chain(serve, FetchFrom(fetch, cursor, i).0, cursor)
    decreases MAX_PAGES_PER_ENDPOINT - i
  {
    if i < MAX_PAGES_PER_ENDPOINT && fetch(i, cursor).Ok? {
      var page := fetch(i, cursor).value;
      assert page == serve(CursorText(cursor));
      if GoesOn(page, cursor) {
        FetchedIsChain(fetch, serve, page.nextCursor, i + 1);
        assert FetchFrom(fetch, cursor, i).0[1..] == FetchFrom(fetch, page.nextCursor, i + 1).0;
      }
    }
  }

  lemma DrainCases(
    s: NodeState, url: string, pages: seq<Page>, cursor: Option<string>, now: Time, applied: nat, c: Counts)
    requires pages != []
    ensures var d := DrainOne(s, url, pages[0], cursor, now, applied, c);
      Drain(s, url, pages, cursor, now, applied, c) ==
        if d.failure.Some? || d.ended then d
        else Drain(d.state, url, pages[1..], d.cursor, now, d.applied, d.counts)
  {
  }

  /** Draining fetched pages is folding that many pages of the stream. */
  lemma {:induction false} DrainFolds(
    s: NodeState, url: string, serve: Server, pages: seq<Page>, cursor: Option<string>, now: Time, applied: nat,
        c: Counts)
    returns (n: nat)
    requires Chain(serve, pages, cursor)
    ensures var d := Drain(s, url, pages, cursor, now, applied, c);
      && d.applied == applied + n
      && Progress(FeedOf(serve, url, now), s.slots, d.state.slots, CursorText(cursor), CursorText(d.cursor), n)
    decreases |pages|
  {
    n := 0;
    if pages != [] {
      var f, key := FeedOf(serve, url, now), CursorText(cursor);
      DrainOneStep(s, url, serve, cursor, now, applied, c);
      var d := DrainOne(s, url, pages[0], cursor, now, applied, c);
      if d.failure.None? {
        OnePage(f, s.slots, key);
        n := 1;
        if !d.ended {
          var m := DrainFolds(d.state, url, serve, pages[1..], d.cursor, now, d.applied, d.counts);
          var end := Drain(d.state, url, pages[1..], d.cursor, now, d.applied, d.counts);
          DrainCases(s, url, pages, cursor, now, applied, c);
          ProgressAdds(f, s.slots, d.state.slots, end.state.slots, key, f.next(key), CursorText(end.cursor), 1, m);
          n := 1 + m;
        }
      }
    }
  }

  /** The node and the persisted cursor after a sequence of passes, each with its own failures. */
  function Passes(s: NodeState, url: string, fetches: seq<Fetch>, cursor: Option<string>, now: Time)
    : (NodeState, Option<string>)
  {
    if fetches == [] then (s, cursor)
    else
      var before := Passes(s, url, fetches[..|fetches| - 1], cursor, now);
      var d := Pass(before.0, url, fetches[|fetches| - 1], before.1, now);
      (d.state, d.cursor)
  }

  lemma PassFolds(s: NodeState, url: string, fetch: Fetch, serve: Server, cursor: Option<string>, now: Time)
      returns (n: nat)
    requires AnswersFrom(fetch, serve)
    ensures var d := Pass(s, url, fetch, cursor, now);
      && d.applied == n
      && Progress(FeedOf(serve, url, now), s.slots, d.state.slots, CursorText(cursor), CursorText(d.cursor), n)
  {
    FetchedIsChain(fetch, serve, cursor, 0);
    n := DrainFolds(s, url, serve, FetchFrom(fetch, cursor, 0).0, cursor, now, 0, NO_COUNTS);
  }

  /**
   However passes are broken off by transport failures, page caps or bad pages, the maps are
   the fold of the first `n` pages and the persisted cursor requests page `n`, which is the
   first one not applied; no bad page is ever among them.
   */
  lemma {:induction false} PassesFoldAPrefix(
    s: NodeState, url: string, fetches: seq<Fetch>, serve: Server, cursor: Option<string>, now: Time) returns (n: nat)
    requires forall i :: 0 <= i < |fetches| ==> AnswersFrom(fetches[i], serve)
    ensures var end := Passes(s, url, fetches, cursor, now);
      Progress(FeedOf(serve, url, now), s.slots, end.0.slots, CursorText(cursor), CursorText(end.1), n)
  {
    n := 0;
    if fetches != [] {
      var front, last := fetches[..|fetches| - 1], fetches[|fetches| - 1];
      var m := PassesFoldAPrefix(s, url, front, serve, cursor, now);
      var before, after := Passes(s, url, front, cursor, now), Passes(s, url, fetches, cursor, now);
      var k := PassFolds(before.0, url, last, serve, before.1, now);
      ProgressAdds(FeedOf(serve, url, now), s.slots, before.0.slots, after.0.slots,
                   CursorText(cursor), CursorText(before.1), CursorText(after.1), m, k);
      n := m + k;
    }
  }

  /** Applying the page at `key` a second time changes nothing. */
  ghost predicate Repeatable(f: Feed) {
    forall s, key :: SoundSlots(s) ==> SoundSlots(f.step(s, key)) && f.step(f.step(s, key), key) == f.step(s, key)
  }

  lemma FeedIsRepeatable(serve: Server, url: string, now: Time)
    ensures Repeatable(FeedOf(serve, url, now))
  {
    var f := FeedOf(serve, url, now);
    forall s, key | SoundSlots(s)
      ensures SoundSlots(f.step(s, key)) && f.step(f.step(s, key), key) == f.step(s, key)
    {
      var ds := DeliveriesOf(serve(key).entries, url, now);
      DeliveriesAreBatch(serve(key).entries, url, now);
      DeliverAllKeepsSound(s, ds);
      RedeliveryChangesNothing(s, ds, FromBootstrap(url), now);
    }
  }

  lemma {:induction false} FoldKeepsSound(f: Feed, s: Slots, key: string, n: nat)
    requires SoundSlots(s) && Repeatable(f)
    ensures SoundSlots(Fold(f, s, key, n))
  {
    if n > 0 { FoldKeepsSound(f, s, key, n - 1); }
  }

  /** Fetching the last page again and again changes nothing more. */
  lemma {:induction false} FoldStopsAtEnd(f: Feed, s: Slots, key: string, last: nat, extra: nat)
    requires SoundSlots(s) && Repeatable(f) && EndsAt(f, KeyAt(f, key, last))
    ensures KeyAt(f, key, last + extra) == KeyAt(f, key, last)
    ensures Fold(f, s, key, last + 1 + extra) == Fold(f, s, key, last + 1)
  {
    if extra > 0 {
      FoldStopsAtEnd(f, s, key, last, extra - 1);
      FoldKeepsSound(f, s, key, last);
    }
  }

  /**
   Resuming equals never being interrupted: once passes have got past the last page of the
   stream, however they were broken off and however often the last page was fetched again,
   both maps are those of folding every page exactly once.
   */
  lemma ResumeEqualsUninterrupted(
    s: NodeState, url: string, fetches: seq<Fetch>, serve: Server, cursor: Option<string>, now: Time, last: nat)
    returns (n: nat)
    requires SoundSlots(s.slots)
    requires forall i :: 0 <= i < |fetches| ==> AnswersFrom(fetches[i], serve)
    requires EndsAt(FeedOf(serve, url, now), KeyAt(FeedOf(serve, url, now), CursorText(cursor), last))
    ensures var f := FeedOf(serve, url, now);
      var end := Passes(s, url, fetches, cursor, now);
      && CursorText(end.1) == KeyAt(f, CursorText(cursor), n)
      && GoodUpTo(f, CursorText(cursor), n)
      && end.0.slots == Fold(f, s.slots, CursorText(cursor), if n <= last then n else last + 1)
  {
    n := PassesFoldAPrefix(s, url, fetches, serve, cursor, now);
    if n > last {
      FeedIsRepeatable(serve, url, now);
      FoldStopsAtEnd(FeedOf(serve, url, now), s.slots, CursorText(cursor), last, n - last - 1);
    }
  }

  lemma {:induction false} CursorMovesWithPages(s: NodeState, url: string, pages: seq<Page>, cursor: Option<string>,
      now: Time, applied: nat, c: Counts)
    ensures var d := Drain(s, url, pages, cursor, now, applied, c);
      d.applied >= applied && (d.applied == applied ==> d.cursor == cursor)
    decreases |pages|
  {
    if pages != [] {
      var d := DrainOne(s, url, pages[0], cursor, now, applied, c);
      CursorMovesWithPages(d.state, url, pages[1..], d.cursor, now, d.applied, d.counts);
    }
  }

  /** The persisted cursor is the one the drain stopped at, on success and on failure alike. */
  lemma PersistedCursor(s: NodeState, url: string, fetch: Fetch, state: SyncState, now: Time)
    ensures var d := Pass(s, url, fetch, state.cursor, now);
      Persisted(state, d, now).cursor == d.cursor
  {
    CursorMovesWithPages(s, url, FetchFrom(fetch, state.cursor, 0).0, state.cursor, now, 0, NO_COUNTS);
  }

  /** A pass whose first request is answered with a good page applies at least that page. */
  lemma PassProgresses(s: NodeState, url: string, fetch: Fetch, serve: Server, cursor: Option<string>, now: Time)
    requires AnswersFrom(fetch, serve)
    requires fetch(0, cursor).Ok? && !HasBad(serve(CursorText(cursor)).entries)
    ensures Pass(s, url, fetch, cursor, now).applied >= 1
  {
    DrainOneStep(s, url, serve, cursor, now, 0, NO_COUNTS);
    var pages := FetchFrom(fetch, cursor, 0).0;
    assert pages[0] == serve(CursorText(cursor));
    var d := DrainOne(s, url, pages[0], cursor, now, 0, NO_COUNTS);
    CursorMovesWithPages(d.state, url, pages[1..], d.cursor, now, d.applied, d.counts);
  }
}
