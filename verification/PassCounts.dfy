/** How many announcements and withdrawals a page, or a whole pass, reports as retained. */
module PassCounts {
  import opened Wrappers
  import opened Artifacts
  import opened Retention
  import opened SlotMaps
  import opened StreamLog
  import opened Nodes
  import opened StreamSync
  import opened SyncRuns
  import opened PassOutcomes

  // ----- one page -----

  /** Both maps after the first `i` entries of a page. */
  function MapsAt(s: Slots, entries: seq<Entry>, i: nat, url: string, now: Time): Slots
    requires i <= |entries|
  {
    DeliverAll(s, DeliveriesOf(entries[..i], url, now))
  }

  /** Entry `i` carries an announcement that is retained when its turn comes. */
  predicate Announces(s: Slots, entries: seq<Entry>, i: nat, url: string, now: Time)
    requires i < |entries|
  {
    var e := entries[i];
    && (e.kind.Admitted? || e.kind.Renewed?) && e.payload.AnnouncementPayload?
    && var a := e.payload.announcement;
       Announce(MapsAt(s, entries, i, url, now).At(a.Key()), a, FromBootstrap(url), now).result.Ok?
  }

  /** Entry `i` carries a withdrawal that is retained when its turn comes. */
  predicate Withdraws(s: Slots, entries: seq<Entry>, i: nat, url: string, now: Time)
    requires i < |entries|
  {
    var e := entries[i];
    && e.kind.Withdrawn? && e.payload.WithdrawalPayload?
    && var w := e.payload.withdrawal;
       Withdraw(MapsAt(s, entries, i, url, now).At(w.Key()), w, None, now).result.Ok?
  }

  function Announcing(s: Slots, entries: seq<Entry>, url: string, now: Time): set<nat> {
    set i: nat | i < |entries| && Announces(s, entries, i, url, now)
  }

  function Withdrawing(s: Slots, entries: seq<Entry>, url: string, now: Time): set<nat> {
    set i: nat | i < |entries| && Withdraws(s, entries, i, url, now)
  }

  lemma {:induction false} ApplyEntriesSnoc(
    s: NodeState, url: string, front: seq<Entry>, e: Entry, now: Time, c: Counts)
    ensures ApplyEntries(s, url, front + [e], now, c) ==
      var r := ApplyEntries(s, url, front, now, c);
      if r.result.Err? then r else ApplyEntry(r.state, url, e, now, r.result.value)
    decreases |front|
  {
    var all := front + [e];
    if front == [] {
      assert all[1..] == [];
    } else {
      assert all[1..] == front[1..] + [e];
      var first := ApplyEntry(s, url, front[0], now, c);
      if first.result.Ok? { ApplyEntriesSnoc(first.state, url, front[1..], e, now, first.result.value); }
    }
  }

  /** Sets of positions that agree below `n`, the second with `n` besides or not. */
  lemma SetSnoc(s: set<nat>, t: set<nat>, n: nat)
    requires forall i :: i in s ==> i < n
    requires forall i :: i in t ==> i <= n
    requires forall i :: 0 <= i < n ==> (i in t <==> i in s)
    ensures |t| == |s| + if n in t then 1 else 0
  {
    assert t - {n} == s;
  }

  lemma SamePrefix(s: Slots, front: seq<Entry>, e: Entry, i: nat, url: string, now: Time)
    requires i < |front|
    ensures Announces(s, front + [e], i, url, now) <==> Announces(s, front, i, url, now)
    ensures Withdraws(s, front + [e], i, url, now) <==> Withdraws(s, front, i, url, now)
  {
    assert (front + [e])[..i] == front[..i];
  }

  lemma AnnouncingSnoc(s: Slots, front: seq<Entry>, e: Entry, url: string, now: Time)
    ensures var all, n := front + [e], |front|;
      |Announcing(s, all, url, now)| ==
        |Announcing(s, front, url, now)| + (if Announces(s, all, n, url, now) then 1 else 0)
  {
    var all, n := front + [e], |front|;
    var before, after := Announcing(s, front, url, now), Announcing(s, all, url, now);
    forall i: nat | i < n ensures i in after <==> i in before { SamePrefix(s, front, e, i, url, now); }
    SetSnoc(before, after, n);
  }

  lemma WithdrawingSnoc(s: Slots, front: seq<Entry>, e: Entry, url: string, now: Time)
    ensures var all, n := front + [e], |front|;
      |Withdrawing(s, all, url, now)| ==
        |Withdrawing(s, front, url, now)| + (if Withdraws(s, all, n, url, now) then 1 else 0)
  {
    var all, n := front + [e], |front|;
    var before, after := Withdrawing(s, front, url, now), Withdrawing(s, all, url, now);
    forall i: nat | i < n ensures i in after <==> i in before { SamePrefix(s, front, e, i, url, now); }
    SetSnoc(before, after, n);
  }

  /** One entry counts exactly when it is retained. */
  lemma EntryCounts(s: NodeState, url: string, e: Entry, now: Time, c: Counts)
    requires !IsBad(e)
    ensures ApplyEntry(s, url, e, now, c).result == Ok(
      Counts(c.announcements + (if Announces(s.slots, [e], 0, url, now) then 1 else 0),
             c.withdrawals + (if Withdraws(s.slots, [e], 0, url, now) then 1 else 0)))
  {
    EntryOutcome(s, url, e, now, c);
    assert MapsAt(s.slots, [e], 0, url, now) == s.slots;
  }

  lemma SameTurn(s: Slots, front: seq<Entry>, e: Entry, url: string, now: Time)
    ensures var t := DeliverAll(s, DeliveriesOf(front, url, now));
      && (Announces(s, front + [e], |front|, url, now) <==> Announces(t, [e], 0, url, now))
      && (Withdraws(s, front + [e], |front|, url, now) <==> Withdraws(t, [e], 0, url, now))
  {
    var t := DeliverAll(s, DeliveriesOf(front, url, now));
    assert (front + [e])[..|front|] == front;
    assert MapsAt(t, [e], 0, url, now) == t;
  }

  lemma PageCountsSnoc(s: NodeState, url: string, front: seq<Entry>, e: Entry, now: Time)
    requires !HasBad(front) && !IsBad(e)
    requires ApplyEntries(s, url, front, now, NO_COUNTS).result == Ok(
      Counts(|Announcing(s.slots, front, url, now)|, |Withdrawing(s.slots, front, url, now)|))
    ensures var all := front + [e];
      ApplyEntries(s, url, all, now, NO_COUNTS).result == Ok(
        Counts(|Announcing(s.slots, all, url, now)|, |Withdrawing(s.slots, all, url, now)|))
  {
    EntriesOutcome(s, url, front, now, NO_COUNTS);
    ApplyEntriesSnoc(s, url, front, e, now, NO_COUNTS);
    var r := ApplyEntries(s, url, front, now, NO_COUNTS);
    EntryCounts(r.state, url, e, now, r.result.value);
    SameTurn(s.slots, front, e, url, now);
    AnnouncingSnoc(s.slots, front, e, url, now);
    WithdrawingSnoc(s.slots, front, e, url, now);
  }

  lemma GoodPrefix(front: seq<Entry>, e: Entry)
    requires !HasBad(front + [e])
    ensures !HasBad(front) && !IsBad(e)
  {
    var all := front + [e];
    forall i | 0 <= i < |front| ensures !IsBad(front[i]) { assert front[i] == all[i]; }
    assert all[|front|] == e;
  }

  /** A good page reports how many of its announcements, and of its withdrawals, were retained in their turn. */
  lemma {:induction false} PageCounts(s: NodeState, url: string, entries: seq<Entry>, now: Time)
    requires !HasBad(entries)
    ensures ApplyEntries(s, url, entries, now, NO_COUNTS).result == Ok(
      Counts(|Announcing(s.slots, entries, url, now)|, |Withdrawing(s.slots, entries, url, now)|))
  {
    if entries == [] {
      assert Announcing(s.slots, entries, url, now) == {} && Withdrawing(s.slots, entries, url, now) == {};
    } else {
      var front, e := entries[..|entries| - 1], entries[|entries| - 1];
      assert entries == front + [e];
      GoodPrefix(front, e);
      PageCounts(s, url, front, now);
      PageCountsSnoc(s, url, front, e, now);
    }
  }

  // ----- one pass -----

  function Sum(g: nat -> nat, n: nat): nat { if n == 0 then 0 else Sum(g, n - 1) + g(n - 1) }

  /** What page `i` of the stream retains, when the pages before it were applied once each. */
  function AnnouncedBy(serve: Server, s: Slots, url: string, cursor: Option<string>, now: Time): nat -> nat {
    var f := FeedOf(serve, url, now);
    (i: nat) => |Announcing(Fold(f, s, CursorText(cursor), i), serve(KeyOf(f, cursor, i)).entries, url, now)|
  }

  function WithdrawnBy(serve: Server, s: Slots, url: string, cursor: Option<string>, now: Time): nat -> nat {
    var f := FeedOf(serve, url, now);
    (i: nat) => |Withdrawing(Fold(f, s, CursorText(cursor), i), serve(KeyOf(f, cursor, i)).entries, url, now)|
  }

  /** What the first `n` pages retain together. */
  function Totals(serve: Server, s: Slots, url: string, cursor: Option<string>, now: Time, n: nat): Counts {
    Counts(Sum(AnnouncedBy(serve, s, url, cursor, now), n), Sum(WithdrawnBy(serve, s, url, cursor, now), n))
  }

  lemma StepCounts(s: NodeState, start: Slots, url: string, serve: Server, now: Time, cursor: Option<string>, i: nat,
      applied: nat)
    requires var f := FeedOf(serve, url, now);
      s.slots == Fold(f, start, CursorText(cursor), i) && !f.bad(KeyOf(f, cursor, i))
    ensures var f := FeedOf(serve, url, now);
      var d := DrainOne(s, url, serve(KeyOf(f, cursor, i)), Request(f, cursor, i), now, applied,
          Totals(serve, start, url, cursor, now, i));
      && d.counts == Totals(serve, start, url, cursor, now, i + 1)
      && d.state.slots == Fold(f, start, CursorText(cursor), i + 1)
  {
    var f := FeedOf(serve, url, now);
    RequestAsks(f, cursor, i);
    PageCounts(s, url, serve(KeyOf(f, cursor, i)).entries, now);
    DrainOneStep(s, url, serve, Request(f, cursor, i), now, applied, Totals(serve, start, url, cursor, now, i));
  }

  /** Pages `i .. n` of a pass, the pages before them having retained their share. */
  ghost predicate DrainsTo(
    s: NodeState, start: Slots, url: string, serve: Server, now: Time, cursor: Option<string>, i: nat, m: nat, n: nat,
    applied: nat)
  {
    var f, c := FeedOf(serve, url, now), Totals(serve, start, url, cursor, now, i);
    Drain(s, url, PagesOf(serve, f, cursor, i, n), Request(f, cursor, i), now, applied, c).counts ==
      Totals(serve, start, url, cursor, now, m)
  }

  /** A bad page leaves the counts; a good one adds its share, and the rest follows. */
  lemma DrainsOnePage(
    s: NodeState, start: Slots, url: string, serve: Server, now: Time, cursor: Option<string>, i: nat, k: nat, m: nat,
    n: nat, applied: nat)
    requires k == i + 1 <= n && i <= m && s.slots == Fold(FeedOf(serve, url, now), start, CursorText(cursor), i)
    requires FeedOf(serve, url, now).bad(KeyOf(FeedOf(serve, url, now), cursor, i)) <==> i == m
    requires EndsBefore(FeedOf(serve, url, now), cursor, k) && i < m ==> k == m
    requires i < m ==> forall t: NodeState, a: nat ::
        t.slots == Fold(FeedOf(serve, url, now), start, CursorText(cursor), k) ==>
          DrainsTo(t, start, url, serve, now, cursor, k, m, n, a)
    ensures DrainsTo(s, start, url, serve, now, cursor, i, m, n, applied)
  {
    var f, c := FeedOf(serve, url, now), Totals(serve, start, url, cursor, now, i);
    PagesCons(serve, f, cursor, i, n);
    DrainStep(s, url, serve, now, cursor, i, applied, c);
    DrainCases(s, url, PagesOf(serve, f, cursor, i, n), Request(f, cursor, i), now, applied, c);
    if i < m {
      StepCounts(s, start, url, serve, now, cursor, i, applied);
      var d := DrainOne(s, url, serve(KeyOf(f, cursor, i)), Request(f, cursor, i), now, applied, c);
      assert DrainsTo(d.state, start, url, serve, now, cursor, k, m, n, d.applied);
    }
  }

  lemma {:induction false} DrainCounts(
    s: NodeState, start: Slots, url: string, serve: Server, now: Time, cursor: Option<string>, i: nat, m: nat, n: nat,
    applied: nat)
    requires StopsApplying(FeedOf(serve, url, now), cursor, m, n) && i <= m
    requires forall j: nat :: j < n ==> !EndsBefore(FeedOf(serve, url, now), cursor, j)
    requires s.slots == Fold(FeedOf(serve, url, now), start, CursorText(cursor), i)
    ensures DrainsTo(s, start, url, serve, now, cursor, i, m, n, applied)
    decreases n - i
  {
    if i < n {
      var k := i + 1;
      forall t: NodeState, a: nat
        | i < m && t.slots == Fold(FeedOf(serve, url, now), start, CursorText(cursor), k)
        ensures DrainsTo(t, start, url, serve, now, cursor, k, m, n, a)
      {
        DrainCounts(t, start, url, serve, now, cursor, k, m, n, a);
      }
      DrainsOnePage(s, start, url, serve, now, cursor, i, k, m, n, applied);
    }
  }

  lemma PassCountsDrain(s: NodeState, url: string, fetch: Fetch, cursor: Option<string>, now: Time)
    ensures Pass(s, url, fetch, cursor, now).counts ==
      Drain(s, url, FetchFrom(fetch, cursor, 0).0, cursor, now, 0, NO_COUNTS).counts
  {
  }

  lemma NothingYet(serve: Server, s: Slots, url: string, cursor: Option<string>, now: Time)
    ensures Totals(serve, s, url, cursor, now, 0) == NO_COUNTS
    ensures var f := FeedOf(serve, url, now);
      Request(f, cursor, 0) == cursor && Fold(f, s, CursorText(cursor), 0) == s
  {
  }

  /** A pass reports what the pages it applied retained, each in its turn. */
  lemma PassCountsExactly(
    s: NodeState, url: string, fetch: Fetch, serve: Server, cursor: Option<string>, now: Time, m: nat, n: nat)
    requires AnswersFrom(fetch, serve)
    requires StopsFetching(fetch, FeedOf(serve, url, now), cursor, n)
    requires StopsApplying(FeedOf(serve, url, now), cursor, m, n)
    ensures Pass(s, url, fetch, cursor, now).counts == Totals(serve, s.slots, url, cursor, now, m)
  {
    PassCountsDrain(s, url, fetch, cursor, now);
    NothingYet(serve, s.slots, url, cursor, now);
    FetchYields(fetch, serve, url, now, cursor, 0, n);
    DrainCounts(s, s.slots, url, serve, now, cursor, 0, m, n, 0);
  }
}
