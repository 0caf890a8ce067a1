/**
 Outbound stream synchronization: fetching pages, applying each page as a unit, and persisting
 the cursor of the first page not applied yet.
 */
module StreamSync {
  import opened Wrappers
  import opened Artifacts
  import opened StreamLog
  import opened Nodes
  import opened PodAnnouncements
  import opened BootstrapStream

  const MAX_PAGES_PER_ENDPOINT: nat := 32

  /** Answers the n-th request of a pass: a page, or a transport failure. */
  type Fetch = (nat, Option<string>) -> Result<Page, SyncFailure>

  datatype Fetched = Fetched(pages: seq<Page>, start: Option<string>, error: Option<SyncFailure>)

  function CursorText(cursor: Option<string>): string {
    if cursor.Some? then cursor.value else ""
  }

  /** Whether the stream goes on after `page`, which was requested at `cursor`. */
  predicate GoesOn(page: Page, cursor: Option<string>) {
    page.nextCursor.Some? && page.nextCursor.value != CursorText(cursor)
  }

  // ----- fetching -----

  /** The pages that requests `i ..` of a pass get from `cursor` on, and the failure that ends them. */
  function FetchFrom(fetch: Fetch, cursor: Option<string>, i: nat): (seq<Page>, Option<SyncFailure>)
    decreases MAX_PAGES_PER_ENDPOINT - i
  {
    if i >= MAX_PAGES_PER_ENDPOINT then ([], None)
    else
      match fetch(i, cursor)
      case Err(e) => ([], Some(e))
      case Ok(page) =>
        if GoesOn(page, cursor) then
          var rest := FetchFrom(fetch, page.nextCursor, i + 1);
          ([page] + rest.0, rest.1)
        else ([page], None)
  }

  method FetchStreamPages(start: Option<string>, fetch: Fetch) returns (fetched: Fetched)
    ensures fetched.start == start
    ensures (fetched.pages, fetched.error) == FetchFrom(fetch, start, 0)
    ensures |fetched.pages| <= MAX_PAGES_PER_ENDPOINT
  {
    ghost var goal := FetchFrom(fetch, start, 0);
    var pages: seq<Page> := [];
    var cursor := start;
    var i := 0;
    assert [] + goal.0 == goal.0;
    while i < MAX_PAGES_PER_ENDPOINT
      invariant 0 <= i <= MAX_PAGES_PER_ENDPOINT && |pages| == i
      invariant goal == Prepended(pages, FetchFrom(fetch, cursor, i))
    {
      var answer := fetch(i, cursor);
      if answer.Err? {
        assert pages + [] == pages;
        return Fetched(pages, start, Some(answer.error));
      }
      var page := answer.value;
      PrependOne(pages, page, FetchFrom(fetch, page.nextCursor, i + 1));
      pages := pages + [page];
      if !GoesOn(page, cursor) {
        return Fetched(pages, start, None);
      }
      cursor := page.nextCursor;
      i := i + 1;
    }
    assert pages + [] == pages;
    return Fetched(pages, start, None);
  }

  ghost function Prepended(pages: seq<Page>, rest: (seq<Page>, Option<SyncFailure>)): (seq<Page>, Option<SyncFailure>) {
    (pages + rest.0, rest.1)
  }

  lemma PrependOne(pages: seq<Page>, page: Page, rest: (seq<Page>, Option<SyncFailure>))
    ensures Prepended(pages, ([page] + rest.0, rest.1)) == Prepended(pages + [page], rest)
  {
    assert pages + ([page] + rest.0) == pages + [page] + rest.0;
  }

  // ----- applying one page -----

  /** How many announcements and withdrawals a page, or a pass, retained. */
  datatype Counts = Counts(announcements: nat, withdrawals: nat)

  /** Stale, expired and withdrawn artifacts are skipped; anything else fails the page. */
  function HardFailure(e: StoreError): Option<SyncFailure> {
    match e
    case AnnouncementStale => None
    case AnnouncementExpired => None
    case AnnouncementWithdrawn => None
    case WithdrawalStale => None
    case InvalidSignature => Some(SignatureFailure)
    case Validation => Some(ValidationFailure)
    case NotFound => Some(ProtocolFailure)
    case Duplicate => Some(ProtocolFailure)
    case TenantBoundary => Some(ProtocolFailure)
    case UntrustedPeer => Some(ProtocolFailure)
  }

  function Tally<T>(s: NodeState, r: Result<T, StoreError>, yes: Counts, no: Counts): Done<Counts, SyncFailure> {
    if r.Ok? then Done(s, Ok(yes))
    else if HardFailure(r.error).None? then Done(s, Ok(no))
    else Done(s, Err(HardFailure(r.error).value))
  }

  function ApplyEntry(s: NodeState, url: string, e: Entry, now: Time, c: Counts): Done<Counts, SyncFailure> {
    match e.kind
    case Expired => Done(s, Ok(c))
    case Withdrawn =>
      if !e.payload.WithdrawalPayload? then Done(s, Err(MalformedFailure))
      else
        var kept := RetainWithdrawal(s, e.payload.withdrawal, None, now);
        Tally(kept.state, kept.result, c.(withdrawals := c.withdrawals + 1), c)
    case _ =>
      if !e.payload.AnnouncementPayload? then Done(s, Err(MalformedFailure))
      else
        var kept := Retain(s, e.payload.announcement, FromBootstrap(url), now);
        Tally(kept.state, kept.result, c.(announcements := c.announcements + 1), c)
  }

  function ApplyEntries(s: NodeState, url: string, entries: seq<Entry>, now: Time, c: Counts): Done<Counts, SyncFailure>
    decreases |entries|
  {
    if entries == [] then Done(s, Ok(c))
    else
      var first := ApplyEntry(s, url, entries[0], now, c);
      if first.result.Err? then first else ApplyEntries(first.state, url, entries[1..], now, first.result.value)
  }

  const NO_COUNTS := Counts(0, 0)

  /** A hard failure restores the two maps, and only those. */
  function ApplyPage(s: NodeState, url: string, page: Page, now: Time): Done<Counts, SyncFailure> {
    var r := ApplyEntries(s, url, page.entries, now, NO_COUNTS);
    if r.result.Ok? then r else Done(r.state.(slots := s.slots), r.result)
  }

  method ApplyStreamPage(store: Store, url: string, page: Page, now: Time) returns (r: Result<Counts, SyncFailure>)
    modifies store`announcements, store`withdrawals, store`peerNextSequence, store`peerEntries, store`peerHistory
    ensures Done(store.View(), r) == ApplyEntries(old(store.View()), url, page.entries, now, NO_COUNTS)
  {
    var c := NO_COUNTS;
    for i := 0 to |page.entries|
      invariant ApplyEntries(store.View(), url, page.entries[i..], now, c)
        == ApplyEntries(old(store.View()), url, page.entries, now, NO_COUNTS)
    {
      var e := page.entries[i];
      assert page.entries[i..][0] == e && page.entries[i..][1..] == page.entries[i + 1..];
      var step := ApplyStreamEntry(store, url, e, now, c);
      if step.Err? { return step; }
      c := step.value;
    }
    return Ok(c);
  }

  method ApplyStreamEntry(store: Store, url: string, e: Entry, now: Time, c: Counts)
      returns (r: Result<Counts, SyncFailure>)
    modifies store`announcements, store`withdrawals, store`peerNextSequence, store`peerEntries, store`peerHistory
    ensures Done(store.View(), r) == ApplyEntry(old(store.View()), url, e, now, c)
  {
    match e.kind
    case Expired =>
      return Ok(c);
    case Withdrawn =>
      if !e.payload.WithdrawalPayload? { return Err(MalformedFailure); }
      var kept := RetainVerifiedPodWithdrawal(store, e.payload.withdrawal, None, now);
      if kept.Ok? { return Ok(c.(withdrawals := c.withdrawals + 1)); }
      if HardFailure(kept.error).Some? { return Err(HardFailure(kept.error).value); }
      return Ok(c);
    case _ =>
      if !e.payload.AnnouncementPayload? { return Err(MalformedFailure); }
      var kept := RetainVerifiedPodAnnouncement(store, e.payload.announcement, FromBootstrap(url), now);
      if kept.Ok? { return Ok(c.(announcements := c.announcements + 1)); }
      if HardFailure(kept.error).Some? { return Err(HardFailure(kept.error).value); }
      return Ok(c);
  }

  method ApplyPageStaged(store: Store, url: string, page: Page, now: Time) returns (r: Result<Counts, SyncFailure>)
    modifies store`announcements, store`withdrawals, store`peerNextSequence, store`peerEntries, store`peerHistory
    ensures Done(store.View(), r) == ApplyPage(old(store.View()), url, page, now)
  {
    var beforeAnnouncements, beforeWithdrawals := store.announcements, store.withdrawals;
    r := ApplyStreamPage(store, url, page, now);
    if r.Err? {
      store.announcements := beforeAnnouncements;
      store.withdrawals := beforeWithdrawals;
    }
  }

  // ----- draining fetched pages -----

  datatype Drained = Drained(
    state: NodeState,
    applied: nat,
    counts: Counts,
    cursor: Option<string>,
    failure: Option<SyncFailure>,
    ended: bool)

  /** Applies the page requested at `cursor` and moves the cursor past it, unless it fails. */
  function DrainOne(s: NodeState, url: string, page: Page, cursor: Option<string>, now: Time, applied: nat,
      c: Counts): Drained {
    var r := ApplyPage(s, url, page, now);
    match r.result
    case Err(e) => Drained(r.state, applied, c, cursor, Some(e), false)
    case Ok(n) =>
      Drained(r.state, applied + 1, Counts(c.announcements + n.announcements, c.withdrawals + n.withdrawals),
              Or(page.nextCursor, cursor), None, !GoesOn(page, cursor))
  }

  /** Applies pages in order, stopping at the end of the stream or at the first bad page. */
  function Drain(s: NodeState, url: string, pages: seq<Page>, cursor: Option<string>, now: Time, applied: nat,
      c: Counts): Drained
    decreases |pages|
  {
    if pages == [] then Drained(s, applied, c, cursor, None, false)
    else
      var d := DrainOne(s, url, pages[0], cursor, now, applied, c);
      if d.failure.Some? || d.ended then d
      else Drain(d.state, url, pages[1..], d.cursor, now, d.applied, d.counts)
  }

  /** What one pass does: the pages it applied, the cursor to persist, and why it stopped. */
  function Pass(s: NodeState, url: string, fetch: Fetch, cursor: Option<string>, now: Time): Drained {
    var fetched := FetchFrom(fetch, cursor, 0);
    var d := Drain(s, url, fetched.0, cursor, now, 0, NO_COUNTS);
    if d.failure.None? && !d.ended then d.(failure := fetched.1) else d
  }

  method DrainPage(store: Store, url: string, page: Page, cursor: Option<string>, now: Time, applied: nat, c: Counts)
    returns (applied': nat, c': Counts, cursor': Option<string>, failure: Option<SyncFailure>, ended: bool)
    modifies store`announcements, store`withdrawals, store`peerNextSequence, store`peerEntries, store`peerHistory
    ensures DrainOne(old(store.View()), url, page, cursor, now, applied, c)
      == Drained(store.View(), applied', c', cursor', failure, ended)
  {
    applied', c', cursor', failure, ended := applied, c, cursor, None, false;
    var r := ApplyPageStaged(store, url, page, now);
    match r
    case Err(e) =>
      failure := Some(e);
    case Ok(n) =>
      applied', c' := applied + 1, Counts(c.announcements + n.announcements, c.withdrawals + n.withdrawals);
      if GoesOn(page, cursor) {
        cursor' := page.nextCursor;
      } else {
        cursor', ended := Or(page.nextCursor, cursor), true;
      }
  }

  method DrainStreamPages(store: Store, url: string, fetched: Fetched, now: Time)
    returns (applied: nat, counts: Counts, cursor: Option<string>, failure: Option<SyncFailure>)
    modifies store`announcements, store`withdrawals, store`peerNextSequence, store`peerEntries, store`peerHistory
    ensures var d := Drain(old(store.View()), url, fetched.pages, fetched.start, now, 0, NO_COUNTS);
      && store.View() == d.state && applied == d.applied && counts == d.counts && cursor == d.cursor
      && failure == if d.failure.None? && !d.ended then fetched.error else d.failure
  {
    cursor, applied, counts, failure := fetched.start, 0, NO_COUNTS, None;
    var i, ended := 0, false;
    while i < |fetched.pages| && !ended && failure.None?
      invariant 0 <= i <= |fetched.pages|
      invariant Drain(old(store.View()), url, fetched.pages, fetched.start, now, 0, NO_COUNTS)
        == if ended || failure.Some? then Drained(store.View(), applied, counts, cursor, failure, ended)
           else Drain(store.View(), url, fetched.pages[i..], cursor, now, applied, counts)
      decreases |fetched.pages| - i
    {
      assert fetched.pages[i..][0] == fetched.pages[i] && fetched.pages[i..][1..] == fetched.pages[i + 1..];
      applied, counts, cursor, failure, ended := DrainPage(store, url, fetched.pages[i], cursor, now, applied, counts);
      i := i + 1;
    }
    if failure.None? && !ended {
      failure := fetched.error;
    }
  }

  /** Progress to persist after a pass. */
  function Persisted(state: SyncState, d: Drained, now: Time): SyncState {
    if d.failure.Some?
    then SyncState(if d.applied > 0 then d.cursor else state.cursor, state.lastSuccessAt, Some(now), d.failure)
    else SyncState(d.cursor, Some(now), Some(now), None)
  }

  /** One pass over one configured endpoint: fetch without touching the store, then apply and persist. */
  method SyncBootstrapEndpoint(store: Store, id: Uuid, url: string, fetch: Fetch, now: Time) returns (ok: bool)
    modifies store
    ensures var state := if id in old(store.syncStates) then old(store.syncStates)[id] else EMPTY_SYNC_STATE;
      var d := Pass(old(store.View()), url, fetch, state.cursor, now);
      && store.View() == d.state
      && store.syncStates == old(store.syncStates)[id := Persisted(state, d, now)]
      && ok == d.failure.None?
    ensures store.endpoints == old(store.endpoints)
  {
    var state := if id in store.syncStates then store.syncStates[id] else EMPTY_SYNC_STATE;
    var fetched := FetchStreamPages(state.cursor, fetch);
    var applied, counts, cursor, failure := DrainStreamPages(store, url, fetched, now);
    if failure.Some? {
      var kept := if applied > 0 then cursor else state.cursor;
      store.syncStates := store.syncStates[id := SyncState(kept, state.lastSuccessAt, Some(now), failure)];
      return false;
    }
    store.syncStates := store.syncStates[id := SyncState(cursor, Some(now), Some(now), None)];
    return true;
  }
}
