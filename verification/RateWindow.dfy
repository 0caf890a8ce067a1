/**
 Sliding-window admission limits. Only recent timestamps are stored; this module shows that
 the pruned lists still bound every one-hour window of the complete admission history.
 */
module RateWindow {
  import opened Wrappers
  import opened Artifacts

  const RATE_WINDOW: Time := HOUR

  /** Stored timestamps, network-wide and per submitting node. */
  datatype Attempts = Attempts(network: seq<Time>, byNode: map<NodeId, seq<Time>>)

  const NO_ATTEMPTS := Attempts([], map[])

  datatype Limits = Limits(network: nat, each: nat)

  /** Timestamps inside the window that ends at `now`. */
  function Recent(times: seq<Time>, now: Time): seq<Time> {
    if times == [] then []
    else
      var rest := Recent(times[..|times| - 1], now);
      if times[|times| - 1] > now - RATE_WINDOW then rest + [times[|times| - 1]] else rest
  }

  function StoredFor(t: Attempts, who: NodeId): seq<Time> {
    if who in t.byNode then t.byNode[who] else []
  }

  predicate WouldExceed(t: Attempts, who: NodeId, now: Time, limits: Limits) {
    |Recent(t.network, now)| >= limits.network || |Recent(StoredFor(t, who), now)| >= limits.each
  }

  function Record(t: Attempts, who: NodeId, now: Time): Attempts {
    Attempts(Recent(t.network, now) + [now], t.byNode[who := Recent(StoredFor(t, who), now) + [now]])
  }

  // ----- one list against its complete history -----

  ghost predicate Ascending(full: seq<Time>) {
    forall i, j :: 0 <= i < j < |full| ==> full[i] <= full[j]
  }

  /** Any `cap + 1` consecutive admissions take at least one whole window. */
  ghost predicate Spaced(full: seq<Time>, cap: nat) {
    forall i, j :: 0 <= i && j == i + cap && j < |full| ==> full[j] - full[i] >= RATE_WINDOW
  }

  /** `stored` is the unpruned end of `full`, nothing pruned is recent, and the limit was always kept. */
  ghost predicate Faithful(full: seq<Time>, stored: seq<Time>, clock: Time, cap: nat) {
    && |stored| <= |full| && |stored| <= cap
    && stored == full[|full| - |stored|..]
    && Ascending(full) && Spaced(full, cap)
    && (forall i :: 0 <= i < |full| ==> full[i] <= clock)
    && (forall i :: 0 <= i < |full| - |stored| ==> full[i] <= clock - RATE_WINDOW)
  }

  /** In an ascending list the recent timestamps are its end. */
  lemma {:induction false} RecentIsSuffix(times: seq<Time>, now: Time)
    requires Ascending(times)
    ensures |Recent(times, now)| <= |times|
    ensures Recent(times, now) == times[|times| - |Recent(times, now)|..]
    ensures forall i :: 0 <= i < |times| - |Recent(times, now)| ==> times[i] <= now - RATE_WINDOW
    ensures forall i :: |times| - |Recent(times, now)| <= i < |times| ==> times[i] > now - RATE_WINDOW
  {
    if times != [] {
      var front, t := times[..|times| - 1], times[|times| - 1];
      RecentIsSuffix(front, now);
      var rest := Recent(front, now);
      var cut := |front| - |rest|;
      assert rest != [] ==> front[cut] <= t;
      if t > now - RATE_WINDOW {
        assert times[cut..] == front[cut..] + [t];
      } else {
        assert rest == [] && times[|times|..] == [];
      }
    }
  }

  lemma TickKeepsFaithful(full: seq<Time>, stored: seq<Time>, clock: Time, now: Time, cap: nat)
    requires Faithful(full, stored, clock, cap) && now >= clock
    ensures Faithful(full, stored, now, cap)
  {
  }

  /** Recent stored timestamps are the recent end of the complete history. */
  lemma RecentOfStored(full: seq<Time>, stored: seq<Time>, clock: Time, now: Time, cap: nat)
    requires Faithful(full, stored, clock, cap) && now >= clock
    ensures |Recent(stored, now)| <= |full|
    ensures Recent(stored, now) == full[|full| - |Recent(stored, now)|..]
    ensures forall i :: 0 <= i < |full| - |Recent(stored, now)| ==> full[i] <= now - RATE_WINDOW
  {
    var cut := |full| - |stored|;
    assert forall i :: 0 <= i < |stored| ==> stored[i] == full[cut + i];
    RecentIsSuffix(stored, now);
    forall i | 0 <= i < |full| - |Recent(stored, now)| ensures full[i] <= now - RATE_WINDOW {
      if i >= cut { assert full[i] == stored[i - cut]; }
    }
  }

  lemma SpacedExtends(full: seq<Time>, now: Time, cap: nat)
    requires Spaced(full, cap)
    requires |full| >= cap ==> cap > 0 && full[|full| - cap] <= now - RATE_WINDOW
    ensures Spaced(full + [now], cap)
  {
    var all := full + [now];
    forall i, j | 0 <= i && j == i + cap && j < |all|
      ensures all[j] - all[i] >= RATE_WINDOW
    {
      if j < |full| {
        assert full[j] - full[i] >= RATE_WINDOW;
      }
    }
  }

  lemma PushKeepsFaithful(full: seq<Time>, cut: nat, now: Time, cap: nat)
    requires cut <= |full| && |full| - cut < cap
    requires Ascending(full) && Spaced(full + [now], cap)
    requires forall i :: 0 <= i < |full| ==> full[i] <= now
    requires forall i :: 0 <= i < cut ==> full[i] <= now - RATE_WINDOW
    ensures Faithful(full + [now], full[cut..] + [now], now, cap)
  {
    var all := full + [now];
    assert all[cut..] == full[cut..] + [now];
    assert |all| - |all[cut..]| == cut;
  }

  lemma AdmitKeepsFaithful(full: seq<Time>, stored: seq<Time>, clock: Time, now: Time, cap: nat)
    requires Faithful(full, stored, clock, cap) && now >= clock
    requires |Recent(stored, now)| < cap
    ensures Faithful(full + [now], Recent(stored, now) + [now], now, cap)
  {
    RecentOfStored(full, stored, clock, now, cap);
    SpacedExtends(full, now, cap);
    PushKeepsFaithful(full, |full| - |Recent(stored, now)|, now, cap);
  }

  /** How many admissions fall in the window `(end - one hour, end]`. */
  function InWindow(full: seq<Time>, end: Time): nat {
    if full == [] then 0
    else
      InWindow(full[..|full| - 1], end)
        + if end - RATE_WINDOW < full[|full| - 1] <= end then 1 else 0
  }

  /** The admissions of a window stand together in the history. */
  lemma {:induction false} WindowIsRun(full: seq<Time>, end: Time) returns (lo: nat, hi: nat)
    requires Ascending(full)
    ensures lo <= hi <= |full| && hi - lo == InWindow(full, end)
    ensures forall i :: lo <= i < hi ==> end - RATE_WINDOW < full[i] <= end
    ensures forall i :: 0 <= i < lo ==> full[i] <= end - RATE_WINDOW
    ensures forall i :: hi <= i < |full| ==> full[i] > end
  {
    if full == [] {
      lo, hi := 0, 0;
    } else {
      lo, hi := WindowIsRun(full[..|full| - 1], end);
      var t := full[|full| - 1];
      if t <= end {
        hi := |full|;
        if t <= end - RATE_WINDOW { lo := |full|; }
      }
    }
  }

  /** A kept limit bounds every window, wherever it ends. */
  lemma EveryWindowIsBounded(full: seq<Time>, end: Time, cap: nat)
    requires Ascending(full) && Spaced(full, cap)
    ensures InWindow(full, end) <= cap
  {
    var lo, hi := WindowIsRun(full, end);
    assert lo + cap < |full| ==> full[lo + cap] - full[lo] >= RATE_WINDOW;
  }

  // ----- the whole ledger -----

  /** One admission: who submitted, and when it was accepted. */
  type Ledger = seq<(NodeId, Time)>

  function Times(l: Ledger): seq<Time> {
    seq(|l|, i requires 0 <= i < |l| => l[i].1)
  }

  function TimesOf(l: Ledger, who: NodeId): seq<Time> {
    if l == [] then []
    else
      var rest := TimesOf(l[..|l| - 1], who);
      if l[|l| - 1].0 == who then rest + [l[|l| - 1].1] else rest
  }

  ghost predicate Kept(t: Attempts, l: Ledger, clock: Time, limits: Limits) {
    && Faithful(Times(l), t.network, clock, limits.network)
    && forall who :: Faithful(TimesOf(l, who), StoredFor(t, who), clock, limits.each)
  }

  lemma KeptInitially(clock: Time, limits: Limits)
    ensures Kept(NO_ATTEMPTS, [], clock, limits)
  {
    assert Times([]) == [];
    assert Faithful([], [], clock, limits.network) && Faithful([], [], clock, limits.each);
    assert forall who :: TimesOf([], who) == [] && StoredFor(NO_ATTEMPTS, who) == [];
  }

  lemma TickKeeps(t: Attempts, l: Ledger, clock: Time, now: Time, limits: Limits)
    requires Kept(t, l, clock, limits) && now >= clock
    ensures Kept(t, l, now, limits)
  {
    TickKeepsFaithful(Times(l), t.network, clock, now, limits.network);
    forall who ensures Faithful(TimesOf(l, who), StoredFor(t, who), now, limits.each) {
      TickKeepsFaithful(TimesOf(l, who), StoredFor(t, who), clock, now, limits.each);
    }
  }

  /** An admission that passed the check keeps the limits of everyone. */
  lemma RecordKeeps(t: Attempts, l: Ledger, clock: Time, who: NodeId, now: Time, limits: Limits)
    requires Kept(t, l, clock, limits) && now >= clock
    requires !WouldExceed(t, who, now, limits)
    ensures Kept(Record(t, who, now), l + [(who, now)], now, limits)
  {
    var m := l + [(who, now)];
    assert m[..|m| - 1] == l;
    assert Times(m) == Times(l) + [now];
    AdmitKeepsFaithful(Times(l), t.network, clock, now, limits.network);
    forall o ensures Faithful(TimesOf(m, o), StoredFor(Record(t, who, now), o), now, limits.each) {
      if o == who {
        AdmitKeepsFaithful(TimesOf(l, o), StoredFor(t, o), clock, now, limits.each);
      } else {
        TickKeepsFaithful(TimesOf(l, o), StoredFor(t, o), clock, now, limits.each);
      }
    }
  }

  /** Every window of the complete history respects both limits, and so do the stored lists. */
  lemma LimitsHold(t: Attempts, l: Ledger, clock: Time, limits: Limits, who: NodeId, end: Time)
    requires Kept(t, l, clock, limits)
    ensures InWindow(Times(l), end) <= limits.network
    ensures InWindow(TimesOf(l, who), end) <= limits.each
    ensures |t.network| <= limits.network && |StoredFor(t, who)| <= limits.each
  {
    EveryWindowIsBounded(Times(l), end, limits.network);
    EveryWindowIsBounded(TimesOf(l, who), end, limits.each);
  }

  lemma {:induction false} RecentCountsWindow(full: seq<Time>, now: Time)
    requires forall i :: 0 <= i < |full| ==> full[i] <= now
    ensures |Recent(full, now)| == InWindow(full, now)
  {
    if full != [] { RecentCountsWindow(full[..|full| - 1], now); }
  }

  /** Timestamps that are out of the window can be pruned from the front. */
  lemma {:induction false} RecentIgnoresPruned(full: seq<Time>, cut: nat, now: Time)
    requires cut <= |full| && forall i :: 0 <= i < cut ==> full[i] <= now - RATE_WINDOW
    ensures Recent(full[cut..], now) == Recent(full, now)
    decreases |full|
  {
    if full != [] {
      var front, t := full[..|full| - 1], full[|full| - 1];
      if cut == |full| {
        RecentIgnoresPruned(front, cut - 1, now);
        assert front[cut - 1..] == [] && full[cut..] == [];
      } else {
        RecentIgnoresPruned(front, cut, now);
        assert full[cut..] == front[cut..] + [t];
        RecentSteps(front[cut..], t, now);
      }
    }
  }

  lemma PrunedCountsWindow(full: seq<Time>, stored: seq<Time>, cut: nat, now: Time)
    requires cut <= |full| && stored == full[cut..]
    requires forall i :: 0 <= i < cut ==> full[i] <= now - RATE_WINDOW
    requires forall i :: 0 <= i < |full| ==> full[i] <= now
    ensures |Recent(stored, now)| == InWindow(full, now)
  {
    RecentIgnoresPruned(full, cut, now);
    RecentCountsWindow(full, now);
  }

  /** The pruned list counts the current window of the complete history exactly. */
  lemma RecentIsWindow(full: seq<Time>, stored: seq<Time>, clock: Time, now: Time, cap: nat)
    requires Faithful(full, stored, clock, cap) && now >= clock
    ensures |Recent(stored, now)| == InWindow(full, now)
  {
    PrunedCountsWindow(full, stored, |full| - |stored|, now);
  }

  /** Refusing on the pruned lists is refusing on the complete history. */
  lemma LimitsDecide(t: Attempts, l: Ledger, clock: Time, limits: Limits, who: NodeId, now: Time)
    requires Kept(t, l, clock, limits) && now >= clock
    ensures WouldExceed(t, who, now, limits) <==>
      InWindow(Times(l), now) >= limits.network || InWindow(TimesOf(l, who), now) >= limits.each
  {
    RecentIsWindow(Times(l), t.network, clock, now, limits.network);
    RecentIsWindow(TimesOf(l, who), StoredFor(t, who), clock, now, limits.each);
  }

  // ----- real hours -----

  /** The admissions of everyone, or of one node, in the 3,600 seconds up to `end`, by their place in the ledger. */
  function HourOf(l: Ledger, who: Option<NodeId>, end: Time): set<nat> {
    set i | 0 <= i < |l| && end - 3_600_000_000_000 < l[i].1 <= end && (who.Some? ==> l[i].0 == who.value)
  }

  lemma HourSteps(l: Ledger, who: Option<NodeId>, end: Time)
    requires l != []
    ensures var front, last := HourOf(l[..|l| - 1], who, end), |l| - 1;
      && HourOf(l, who, end) == front + (if last in HourOf(l, who, end) then {last} else {})
      && last !in front
  {
    assert forall i :: 0 <= i < |l| - 1 ==> l[..|l| - 1][i] == l[i];
  }

  /** A window of the ledger is an hour. */
  lemma {:induction false} WindowsAreHours(l: Ledger, who: NodeId, end: Time)
    ensures |HourOf(l, None, end)| == InWindow(Times(l), end)
    ensures |HourOf(l, Some(who), end)| == InWindow(TimesOf(l, who), end)
  {
    if l != [] {
      WindowsAreHours(l[..|l| - 1], who, end);
      HourSteps(l, None, end);
      HourSteps(l, Some(who), end);
      assert Times(l)[..|l| - 1] == Times(l[..|l| - 1]);
    }
  }

  // ----- one more admission -----

  lemma RecentSteps(times: seq<Time>, t: Time, now: Time)
    ensures Recent(times + [t], now) == if t > now - RATE_WINDOW then Recent(times, now) + [t] else Recent(times, now)
  {
    assert (times + [t])[..|times|] == times;
  }

  lemma InWindowSteps(full: seq<Time>, t: Time, end: Time)
    ensures InWindow(full + [t], end) == InWindow(full, end) + if end - RATE_WINDOW < t <= end then 1 else 0
  {
    assert (full + [t])[..|full|] == full;
  }

  lemma LedgerSteps(l: Ledger, who: NodeId, now: Time)
    ensures Times(l + [(who, now)]) == Times(l) + [now]
    ensures forall o :: TimesOf(l + [(who, now)], o) == TimesOf(l, o) + if o == who then [now] else []
  {
    assert (l + [(who, now)])[..|l|] == l;
  }
}
