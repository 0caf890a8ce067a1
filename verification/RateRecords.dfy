/**
 The rate limits at any reading of the clock: what the stored lists are after any admissions,
 what the check counts, and exactly which admission overfills a one-hour window.
 */
module RateRecords {
  import opened Artifacts
  import opened RateWindow

  // ----- what recording leaves -----

  /** What is stored of a complete list: each admission prunes what is not recent to it, then joins. */
  function Stored(full: seq<Time>): seq<Time> {
    if full == [] then []
    else Recent(Stored(full[..|full| - 1]), full[|full| - 1]) + [full[|full| - 1]]
  }

  /** What the check counts at `now`. */
  function CountStored(full: seq<Time>, now: Time): nat { |Recent(Stored(full), now)| }

  /** The stored lists are what recording leaves of the complete past. */
  ghost predicate Exact(t: Attempts, l: Ledger) {
    t.network == Stored(Times(l)) && forall who :: StoredFor(t, who) == Stored(TimesOf(l, who))
  }

  lemma StoredSteps(full: seq<Time>, now: Time)
    ensures Stored(full + [now]) == Recent(Stored(full), now) + [now]
  {
    assert (full + [now])[..|full|] == full;
  }

  lemma ExactInitially()
    ensures Exact(NO_ATTEMPTS, [])
  {
    assert Times([]) == [];
    assert forall who :: TimesOf([], who) == [] && StoredFor(NO_ATTEMPTS, who) == [];
  }

  lemma RecordKeepsExact(t: Attempts, l: Ledger, who: NodeId, now: Time)
    requires Exact(t, l)
    ensures Exact(Record(t, who, now), l + [(who, now)])
  {
    LedgerSteps(l, who, now);
    StoredSteps(Times(l), now);
    forall o ensures StoredFor(Record(t, who, now), o) == Stored(TimesOf(l + [(who, now)], o)) {
      if o == who { StoredSteps(TimesOf(l, o), now); }
    }
  }

  /** The check lets an admission of `who` pass. */
  predicate Passes(l: Ledger, who: NodeId, now: Time, limits: Limits) {
    CountStored(Times(l), now) < limits.network && CountStored(TimesOf(l, who), now) < limits.each
  }

  // ----- against the windows of the complete past -----

  lemma {:induction false} RecentTwice(times: seq<Time>, early: Time, now: Time)
    requires early <= now
    ensures Recent(Recent(times, early), now) == Recent(times, now)
  {
    if times != [] {
      var front, t := times[..|times| - 1], times[|times| - 1];
      RecentTwice(front, early, now);
      RecentSteps(Recent(front, early), t, now);
    }
  }

  lemma {:induction false} RecentOfRecords(full: seq<Time>, now: Time)
    requires forall i :: 0 <= i < |full| ==> full[i] <= now
    ensures Recent(Stored(full), now) == Recent(full, now)
  {
    if full != [] {
      var front, t := full[..|full| - 1], full[|full| - 1];
      RecentOfRecords(front, now);
      RecentTwice(Stored(front), t, now);
      RecentSteps(Recent(Stored(front), t), t, now);
    }
  }

  /** A reading behind no admission counts the window that ends there exactly. */
  lemma NothingIsLost(full: seq<Time>, now: Time)
    requires forall i :: 0 <= i < |full| ==> full[i] <= now
    ensures CountStored(full, now) == InWindow(full, now)
  {
    RecentOfRecords(full, now);
    RecentCountsWindow(full, now);
  }

  /** The window that ends at the later of `now` and the last admission. */
  function CountSeen(full: seq<Time>, now: Time): nat {
    if full == [] then 0
    else if now < full[|full| - 1] then InWindow(full, full[|full| - 1])
    else InWindow(full, now)
  }

  lemma {:induction false} AllRecent(times: seq<Time>, now: Time)
    requires forall i :: 0 <= i < |times| ==> times[i] > now - RATE_WINDOW
    ensures Recent(times, now) == times
  {
    if times != [] { AllRecent(times[..|times| - 1], now); }
  }

  lemma {:induction false} RecentAre(times: seq<Time>, now: Time)
    ensures forall i :: 0 <= i < |Recent(times, now)| ==> Recent(times, now)[i] > now - RATE_WINDOW
  {
    if times != [] { RecentAre(times[..|times| - 1], now); }
  }

  lemma AscendingCounts(full: seq<Time>, now: Time)
    requires Ascending(full)
    ensures CountStored(full, now) == CountSeen(full, now)
  {
    if full != [] {
      var front, last := full[..|full| - 1], full[|full| - 1];
      if now < last {
        RecentAre(Stored(front), last);
        AllRecent(Stored(full), now);
        RecentOfRecords(front, last);
        RecentCountsWindow(front, last);
      } else {
        NothingIsLost(full, now);
      }
    }
  }

  /** What the stored lists refuse after admissions in ascending order, at any reading. */
  lemma LimitsDecideAnytime(t: Attempts, l: Ledger, clock: Time, limits: Limits, who: NodeId, now: Time)
    requires Kept(t, l, clock, limits) && Exact(t, l)
    ensures WouldExceed(t, who, now, limits) <==>
      CountSeen(Times(l), now) >= limits.network || CountSeen(TimesOf(l, who), now) >= limits.each
  {
    AscendingCounts(Times(l), now);
    AscendingCounts(TimesOf(l, who), now);
  }

  // ----- overfilling a window -----

  /** Some window holds more than `cap` in `after`, and more than it held in `before`. */
  ghost predicate Overfills(before: seq<Time>, after: seq<Time>, cap: nat) {
    exists end :: InWindow(after, end) > cap && InWindow(after, end) > InWindow(before, end)
  }

  /** The hour that ends at `now`, or one that ends with an admission less than an hour later, is full. */
  predicate FullAhead(full: seq<Time>, now: Time, cap: nat) {
    || InWindow(full, now) >= cap
    || exists i :: 0 <= i < |full| && now < full[i] < now + RATE_WINDOW && InWindow(full, full[i]) >= cap
  }

  /** What lies in one window lies in the other. */
  lemma {:induction false} WiderWindow(full: seq<Time>, end: Time, other: Time)
    requires forall i :: 0 <= i < |full| && end - RATE_WINDOW < full[i] <= end ==>
      other - RATE_WINDOW < full[i] <= other
    ensures InWindow(full, end) <= InWindow(full, other)
  {
    if full != [] { WiderWindow(full[..|full| - 1], end, other); }
  }

  /** The latest admission after `now` and up to `end`, if there is one. */
  lemma {:induction false} LatestBetween(full: seq<Time>, now: Time, end: Time) returns (i: nat)
    ensures i <= |full|
    ensures i < |full| ==> now < full[i] <= end
    ensures forall j :: 0 <= j < |full| && now < full[j] <= end ==> i < |full| && full[j] <= full[i]
  {
    if full == [] {
      i := 0;
    } else {
      var front, last := full[..|full| - 1], |full| - 1;
      i := LatestBetween(front, now, end);
      if now < full[last] <= end {
        if i == last || full[i] < full[last] { i := last; }
      } else if i == last {
        i := |full|;
      }
    }
  }

  /** Of all windows that `now` falls into, the ones at `now` and at later admissions are enough to look at. */
  lemma FullAheadExactly(full: seq<Time>, now: Time, cap: nat)
    ensures FullAhead(full, now, cap) <==> exists end :: now <= end < now + RATE_WINDOW && InWindow(full, end) >= cap
  {
    if end :| now <= end < now + RATE_WINDOW && InWindow(full, end) >= cap {
      var i := LatestBetween(full, now, end);
      WiderWindow(full, end, if i < |full| then full[i] else now);
    }
  }

  /** One admission more overfills a window exactly when a window it falls into was full. */
  lemma OneMoreOverfills(full: seq<Time>, now: Time, cap: nat)
    ensures Overfills(full, full + [now], cap) <==> FullAhead(full, now, cap)
  {
    FullAheadExactly(full, now, cap);
    if Overfills(full, full + [now], cap) {
      var end :| InWindow(full + [now], end) > cap && InWindow(full + [now], end) > InWindow(full, end);
      InWindowSteps(full, now, end);
    }
    if FullAhead(full, now, cap) {
      var end :| now <= end < now + RATE_WINDOW && InWindow(full, end) >= cap;
      InWindowSteps(full, now, end);
      assert InWindow(full + [now], end) > cap;
    }
  }

  /** Passing the check into a full window takes a reading behind some admission. */
  lemma OnlyWhenSetBack(full: seq<Time>, now: Time, cap: nat)
    requires CountStored(full, now) < cap && FullAhead(full, now, cap)
    ensures exists i :: 0 <= i < |full| && now < full[i]
  {
    if forall i :: 0 <= i < |full| ==> full[i] <= now { NothingIsLost(full, now); }
  }

  /**
   For any past and any reading: an admission attempt overfills a window of everyone, or of its
   submitter, exactly when the check lets it pass although a window it falls into is full; it
   never overfills one of anyone else.
   */
  lemma AttemptOverfillsExactly(l: Ledger, m: Ledger, who: NodeId, now: Time, limits: Limits, o: NodeId)
    requires m == if Passes(l, who, now, limits) then l + [(who, now)] else l
    ensures Overfills(Times(l), Times(m), limits.network) <==>
      Passes(l, who, now, limits) && FullAhead(Times(l), now, limits.network)
    ensures Overfills(TimesOf(l, o), TimesOf(m, o), limits.each) <==>
      o == who && Passes(l, who, now, limits) && FullAhead(TimesOf(l, o), now, limits.each)
    ensures Overfills(Times(l), Times(m), limits.network) || Overfills(TimesOf(l, o), TimesOf(m, o), limits.each) ==>
      exists i :: 0 <= i < |l| && now < l[i].1
  {
    LedgerSteps(l, who, now);
    OneMoreOverfills(Times(l), now, limits.network);
    OneMoreOverfills(TimesOf(l, o), now, limits.each);
    if m != l && FullAhead(Times(l), now, limits.network) { OnlyWhenSetBack(Times(l), now, limits.network); }
    if m != l && o == who && FullAhead(TimesOf(l, o), now, limits.each) {
      OnlyWhenSetBack(TimesOf(l, o), now, limits.each);
      TimesOfAreTimes(l, o, now);
    }
  }

  lemma {:induction false} TimesOfAreTimes(l: Ledger, who: NodeId, now: Time)
    requires exists i :: 0 <= i < |TimesOf(l, who)| && now < TimesOf(l, who)[i]
    ensures exists i :: 0 <= i < |l| && now < l[i].1
  {
    if l[|l| - 1].1 <= now {
      var front := l[..|l| - 1];
      var i :| 0 <= i < |TimesOf(l, who)| && now < TimesOf(l, who)[i];
      assert now < TimesOf(front, who)[i];
      TimesOfAreTimes(front, who, now);
      var j :| 0 <= j < |front| && now < front[j].1;
      assert l[j] == front[j];
    }
  }
}
