/** Concrete runs from an empty node in which the code does what the exact conditions say it can. */
module Scenarios {
  import opened Wrappers
  import opened Artifacts
  import opened Retention
  import opened SlotMaps
  import opened RateWindow
  import opened RateRecords
  import opened Nodes
  import opened Cursors
  import opened PodAnnouncements
  import opened BootstrapStream
  import opened BootstrapAdmission
  import opened BootstrapRuns
  import opened BootstrapLimits
  import opened AdmissionDecision
  import opened BackwardClock
  import opened FutureCursors

  const ORIGIN: NodeId := 1
  const KEY: PodKey := (ORIGIN, "pod")

  function Me(): Signer { Signer(ORIGIN, "", "key", CURRENT_PROTOCOL_VERSION) }

  function Ann(slug: string, id: Uuid, at: Time): Announcement {
    Announcement(id, ORIGIN, Me(), slug, "", "", "", 1, None, at, at + LEASE_DURATION, true, true)
  }

  /** The manifest of that announcement's Pod. */
  function Manifest(slug: string): ManifestView {
    ManifestView(CURRENT_PROTOCOL_VERSION, slug, "", "", 1, None, true, None)
  }

  function SubmitOf(slug: string, id: Uuid, at: Time, now: Time): Step {
    Submit(Ann(slug, id, at), 100, Ok(Manifest(slug)), true, now)
  }

  lemma NotBlank(s: string)
    requires s != [] && !IsSpace(s[0]) && !IsSpace(s[|s| - 1])
    ensures Trim(s) == s
  {
  }

  /** Nothing but the node's own state can stand in the way of such a submission. */
  lemma SubmissionIsInOrder(slug: string, id: Uuid, at: Time)
    requires slug != [] && !IsSpace(slug[0]) && !IsSpace(slug[|slug| - 1])
    ensures WellFormed(ORIGIN, Me(), slug) && Confirmed(Ann(slug, id, at), Ok(Manifest(slug)))
  {
    NotBlank(slug);
    NotBlank("key");
  }

  /** The key is admitted and holds that announcement and no withdrawal. */
  predicate Holds(s: NodeState, k: PodKey, a: Announcement) {
    s.IsAdmitted(k) && k in s.slots.announcements && s.slots.announcements[k].announcement == a
        && k !in s.slots.withdrawals
  }

  lemma {:induction false} InWindowShort(full: seq<Time>, end: Time)
    ensures InWindow(full, end) <= |full|
  {
    if full != [] { InWindowShort(full[..|full| - 1], end); }
  }

  lemma {:induction false} TimesOfShort(l: Ledger, who: NodeId)
    ensures |TimesOf(l, who)| <= |l|
  {
    if l != [] { TimesOfShort(l[..|l| - 1], who); }
  }

  /** With few admissions ever, no reading of the clock meets a rate limit. */
  lemma FewAdmissions(steps: seq<Step>, clock: Time, now: Time)
    requires ClockForward(steps, clock) && |ApplyAll(NEW_NODE, steps).ledger| < 24
    ensures !RateLimitWouldExceed(ApplyAll(NEW_NODE, steps).runtime, ORIGIN, now)
  {
    var l := ApplyAll(NEW_NODE, steps).ledger;
    CheckAnytime(steps, clock, ORIGIN, now);
    TimesOfShort(l, ORIGIN);
    forall end ensures InWindow(Times(l), end) < 24 && InWindow(TimesOf(l, ORIGIN), end) < 24 {
      InWindowShort(Times(l), end);
      InWindowShort(TimesOf(l, ORIGIN), end);
    }
  }

  /** The node's state lets the submission in. */
  predicate LetsIn(s: NodeState, slug: string, id: Uuid, at: Time, now: Time) {
    && slug != [] && !IsSpace(slug[0]) && !IsSpace(slug[|slug| - 1])
    && !RateLimitWouldExceed(s.runtime, ORIGIN, now) && !IsReplay(s, Ann(slug, id, at))
    && (s.IsAdmitted((ORIGIN, slug)) || |ActiveOf(s.slots, s.runtime, ORIGIN, now)| < 8)
    && Retainable(s.slots, Ann(slug, id, at), now)
  }

  /** What an accepted submission changes. */
  ghost predicate Enters(s: NodeState, t: NodeState, slug: string, id: Uuid, at: Time, now: Time) {
    var k := (ORIGIN, slug);
    && t.runtime.Some?
    && t.Ensured().admittedKeys == s.Ensured().admittedKeys + {k} && Holds(t, k, Ann(slug, id, at))
    && t.slots.announcements.Keys == s.slots.announcements.Keys + {k}
    && (forall x :: x in s.slots.announcements && x != k ==> t.slots.announcements[x] == s.slots.announcements[x])
    && t.slots.withdrawals == s.slots.withdrawals - {k}
    && t.ledger == s.ledger + [(ORIGIN, now)] && |t.stream.history| == |s.stream.history| + 1
  }

  lemma SubmissionEnters(s: NodeState, slug: string, id: Uuid, at: Time, now: Time)
    requires NodeInv(s) && LetsIn(s, slug, id, at, now)
    ensures Enters(s, Admit(s, Ann(slug, id, at), 100, Ok(Manifest(slug)), true, now).state, slug, id, at, now)
  {
    var a := Ann(slug, id, at);
    SubmissionIsInOrder(slug, id, at);
    AcceptanceEffect(s, a, 100, Ok(Manifest(slug)), now);
    RetainedExactly(s, a, LOCAL, now);
    RetainedIsLeased(s, a, now);
    RetainKeeps(s, a, LOCAL, now);
  }

  lemma RunSnoc(steps: seq<Step>, step: Step)
    ensures ApplyAll(NEW_NODE, steps + [step]) == Apply(ApplyAll(NEW_NODE, steps), step)
  {
    assert (steps + [step])[..|steps|] == steps;
  }

  // ----- renewals of one key -----

  /** The key is admitted at time 1 and renewed once every nanosecond. */
  function Renewals(n: nat): seq<Step> {
    if n == 0 then [] else Renewals(n - 1) + [SubmitOf("pod", n, n, n)]
  }

  function Stamps(n: nat): seq<Time> {
    if n == 0 then [] else Stamps(n - 1) + [n]
  }

  lemma {:induction false} RenewalsForward(n: nat)
    ensures |Renewals(n)| == n && forall i :: 0 <= i < n ==> Renewals(n)[i].now == i + 1
  {
    if n > 0 { RenewalsForward(n - 1); }
  }

  lemma {:induction false} StampCounts(n: nat)
    requires n <= 24
    ensures |Stamps(n)| == n && InWindow(Stamps(n), HALF_HOUR) == n && InWindow(Stamps(n), 2 * HOUR) == 0
    ensures InWindow(Stamps(n), 0) == 0
    ensures n > 0 ==> Stamps(n)[n - 1] == n
  {
    if n > 0 {
      StampCounts(n - 1);
      InWindowSteps(Stamps(n - 1), n, HALF_HOUR);
      InWindowSteps(Stamps(n - 1), n, 2 * HOUR);
      InWindowSteps(Stamps(n - 1), n, 0);
    }
  }

  /** The state after `n` renewals. */
  ghost predicate Renewed(s: NodeState, n: nat) {
    && (n == 0 ==> s == NEW_NODE) && (n > 0 ==> Holds(s, KEY, Ann("pod", n, n)) && s.runtime.Some?)
    && |s.ledger| == n && Times(s.ledger) == Stamps(n) && TimesOf(s.ledger, ORIGIN) == Stamps(n)
    && |s.stream.history| == n
  }

  lemma CanRenew(s: NodeState, n: nat, id: Uuid, now: Time)
    requires Renewed(s, n) && n < id && id - 30 * DAY < now < id + 30 * DAY
    requires !RateLimitWouldExceed(s.runtime, ORIGIN, now)
    ensures LetsIn(s, "pod", id, id, now)
  {
    if n == 0 { assert |ActiveOf(s.slots, s.runtime, ORIGIN, now)| == 0; }
  }

  lemma RenewStep(s: NodeState, t: NodeState, n: nat)
    requires Renewed(s, n) && Enters(s, t, "pod", n + 1, n + 1, n + 1)
    ensures Renewed(t, n + 1)
  {
    LedgerSteps(s.ledger, ORIGIN, n + 1);
  }

  lemma NothingRenewed()
    ensures Renewed(NEW_NODE, 0)
  {
    assert Times([]) == [];
  }

  lemma {:induction false} AfterRenewals(n: nat)
    requires n <= 24
    ensures Renewed(ApplyAll(NEW_NODE, Renewals(n)), n)
  {
    if n == 0 {
      NothingRenewed();
    } else {
      AfterRenewals(n - 1);
      RenewalsForward(n - 1);
      RenewRun(Renewals(n - 1), Renewals(n), n - 1);
    }
  }

  lemma RenewOnce(s: NodeState, n: nat)
    requires NodeInv(s) && Renewed(s, n) && !RateLimitWouldExceed(s.runtime, ORIGIN, n + 1)
    ensures Renewed(Apply(s, SubmitOf("pod", n + 1, n + 1, n + 1)), n + 1)
  {
    CanRenew(s, n, n + 1, n + 1);
    SubmissionEnters(s, "pod", n + 1, n + 1, n + 1);
    RenewStep(s, Apply(s, SubmitOf("pod", n + 1, n + 1, n + 1)), n);
  }

  lemma RenewRun(steps: seq<Step>, all: seq<Step>, n: nat)
    requires n < 24 && ClockForward(steps, n + 1) && Renewed(ApplyAll(NEW_NODE, steps), n)
    requires all == steps + [SubmitOf("pod", n + 1, n + 1, n + 1)]
    ensures Renewed(ApplyAll(NEW_NODE, all), n + 1)
  {
    FewAdmissions(steps, n + 1, n + 1);
    RunKeepsInv(steps);
    RenewOnce(ApplyAll(NEW_NODE, steps), n);
    RunSnoc(steps, SubmitOf("pod", n + 1, n + 1, n + 1));
  }

  const HALF_HOUR: Time := 1_800_000_000_000

  /** 24 renewals within an hour, one two hours after the start. */
  function BusyThenLater(): seq<Step> { Renewals(24) + [SubmitOf("pod", 25, 25, 2 * HOUR)] }

  /** The state after those. */
  ghost predicate Later25(s: NodeState) {
    && Holds(s, KEY, Ann("pod", 25, 25))
    && Times(s.ledger) == Stamps(24) + [2 * HOUR] && TimesOf(s.ledger, ORIGIN) == Stamps(24) + [2 * HOUR]
  }

  lemma LaterStep(s: NodeState, t: NodeState)
    requires Renewed(s, 24) && Enters(s, t, "pod", 25, 25, 2 * HOUR)
    ensures Later25(t)
  {
    LedgerSteps(s.ledger, ORIGIN, 2 * HOUR);
  }

  lemma BusyForward()
    ensures ClockForward(Renewals(24), 24) && ClockForward(BusyThenLater(), 2 * HOUR)
  {
    RenewalsForward(24);
    var all := BusyThenLater();
    assert forall i :: 0 <= i < 24 ==> all[i] == Renewals(24)[i];
  }

  /** Nothing of the first hour is in the window when the later renewal is checked. */
  lemma LaterPasses()
    ensures !RateLimitWouldExceed(ApplyAll(NEW_NODE, Renewals(24)).runtime, ORIGIN, 2 * HOUR)
  {
    BusyForward();
    AfterRenewals(24);
    StampCounts(24);
    CheckAnytime(Renewals(24), 24, ORIGIN, 2 * HOUR);
  }

  lemma LaterOnce(s: NodeState)
    requires NodeInv(s) && Renewed(s, 24) && !RateLimitWouldExceed(s.runtime, ORIGIN, 2 * HOUR)
    ensures Later25(Apply(s, SubmitOf("pod", 25, 25, 2 * HOUR)))
  {
    CanRenew(s, 24, 25, 2 * HOUR);
    SubmissionEnters(s, "pod", 25, 25, 2 * HOUR);
    LaterStep(s, Apply(s, SubmitOf("pod", 25, 25, 2 * HOUR)));
  }

  lemma AfterLater()
    ensures Later25(ApplyAll(NEW_NODE, BusyThenLater()))
  {
    AfterRenewals(24);
    LaterPasses();
    RunKeepsInv(Renewals(24));
    LaterOnce(ApplyAll(NEW_NODE, Renewals(24)));
    RunSnoc(Renewals(24), SubmitOf("pod", 25, 25, 2 * HOUR));
  }

  /** What the windows hold after the later renewal, and after one more at `now` in the first half hour. */
  lemma LaterCounts(now: Time)
    requires 0 <= now <= HALF_HOUR
    ensures var all := Stamps(24) + [2 * HOUR];
      InWindow(all, 2 * HOUR) == 1 && CountSeen(all, now) == 1 && InWindow(all + [now], HALF_HOUR) == 25
      && InWindow(all + [0], 0) == 1
  {
    var all := Stamps(24) + [2 * HOUR];
    StampCounts(24);
    InWindowSteps(Stamps(24), 2 * HOUR, 0);
    InWindowSteps(Stamps(24), 2 * HOUR, HALF_HOUR);
    InWindowSteps(Stamps(24), 2 * HOUR, 2 * HOUR);
    InWindowSteps(all, now, HALF_HOUR);
    InWindowSteps(all, 0, 0);
  }

  /** The hour up to half past zero holds 25 admissions of the Origin. */
  predicate Overfull(s: NodeState) { InWindow(TimesOf(s.ledger, ORIGIN), HALF_HOUR) == 25 }

  lemma SetBackStep(s: NodeState, t: NodeState, now: Time)
    requires 0 <= now <= HALF_HOUR
    requires Later25(s) && Enters(s, t, "pod", 26, 26, now)
    ensures Overfull(t) && (now == 0 ==> InWindow(TimesOf(t.ledger, ORIGIN), 0) == 1)
  {
    LedgerSteps(s.ledger, ORIGIN, now);
    LaterCounts(now);
  }

  lemma SetBackIsLetIn(s: NodeState, now: Time)
    requires 0 <= now <= HALF_HOUR
    requires Later25(s) && !RateLimitWouldExceed(s.runtime, ORIGIN, now)
    ensures LetsIn(s, "pod", 26, 26, now)
  {
  }

  lemma SetBackOnce(s: NodeState, now: Time)
    requires 0 <= now <= HALF_HOUR
    requires NodeInv(s) && Later25(s) && !RateLimitWouldExceed(s.runtime, ORIGIN, now)
    ensures var t := Apply(s, SubmitOf("pod", 26, 26, now));
      Overfull(t) && (now == 0 ==> InWindow(TimesOf(t.ledger, ORIGIN), 0) == 1)
  {
    SetBackIsLetIn(s, now);
    SubmissionEnters(s, "pod", 26, 26, now);
    SetBackStep(s, Apply(s, SubmitOf("pod", 26, 26, now)), now);
  }

  lemma SetBackOverfills(now: Time)
    requires 0 <= now <= HALF_HOUR
    ensures var t := Apply(ApplyAll(NEW_NODE, BusyThenLater()), SubmitOf("pod", 26, 26, now));
      Overfull(t) && (now == 0 ==> InWindow(TimesOf(t.ledger, ORIGIN), 0) == 1)
  {
    BusyForward();
    AfterLater();
    LaterCounts(now);
    RunKeepsInv(BusyThenLater());
    CheckAnytime(BusyThenLater(), 2 * HOUR, ORIGIN, now);
    SetBackOnce(ApplyAll(NEW_NODE, BusyThenLater()), now);
  }

  /** With the clock set back by an hour and a half, a 25th admission of the Origin enters one hour. */
  lemma BackwardClockOverfills()
    ensures ClockForward(BusyThenLater(), 2 * HOUR)
    ensures Overfull(Apply(ApplyAll(NEW_NODE, BusyThenLater()), SubmitOf("pod", 26, 26, HALF_HOUR)))
  {
    BusyForward();
    SetBackOverfills(HALF_HOUR);
  }

  /** Set back to zero, it is the only one in the hour that ends there, and overfills one that ends later. */
  lemma LaterHourOverfills()
    ensures var t := Apply(ApplyAll(NEW_NODE, BusyThenLater()), SubmitOf("pod", 26, 26, 0));
      InWindow(TimesOf(t.ledger, ORIGIN), 0) == 1 && Overfull(t)
  {
    SetBackOverfills(0);
  }

  // ----- withdrawals of an admitted key -----

  function Wd(id: Uuid, at: Time): Withdrawal { Withdrawal(id, ORIGIN, Me(), "pod", None, None, at, true) }

  /** The admitted key is ended by a withdrawal that is not projected; the sweep loses it without a row. */
  lemma UnprojectedWithdrawalLosesKey()
    ensures var s := ApplyAll(NEW_NODE, Renewals(1));
      var t := Sweep(RetainWithdrawal(s, Wd(1, 2), None, 3).state, 4);
      && s.IsAdmitted(KEY) && RetainWithdrawal(s, Wd(1, 2), None, 3).result.Ok?
      && Replays(s) && !Replays(t) && !t.IsAdmitted(KEY)
  {
    AfterRenewals(1);
    RunKeepsInv(Renewals(1));
    UnprojectedLoses(ApplyAll(NEW_NODE, Renewals(1)));
  }

  lemma UnprojectedLoses(s: NodeState)
    requires NodeInv(s) && Renewed(s, 1)
    ensures var t := Sweep(RetainWithdrawal(s, Wd(1, 2), None, 3).state, 4);
      && s.IsAdmitted(KEY) && RetainWithdrawal(s, Wd(1, 2), None, 3).result.Ok?
      && Replays(s) && !Replays(t) && !t.IsAdmitted(KEY)
  {
    WithdrawalRetainedExactly(s, Wd(1, 2), None, 3);
    UnprojectedWithdrawalBreaksReplay(s, Wd(1, 2), None, 3, 4);
    LostWithoutAnnouncement(s, Wd(1, 2), 3, 4);
  }

  lemma LostWithoutAnnouncement(s: NodeState, w: Withdrawal, at: Time, now: Time)
    requires NodeInv(s) && RetainWithdrawal(s, w, None, at).result.Ok? && s.IsAdmitted(w.Key())
    requires s.slots.announcements[w.Key()].announcement.announcedAt <= w.withdrawnAt
    ensures !Sweep(RetainWithdrawal(s, w, None, at).state, now).IsAdmitted(w.Key())
  {
    var t := RetainWithdrawal(s, w, None, at).state;
    WithdrawKeepsRest(s, w, None, at);
    DeliverAtOne(s.slots, OfWithdrawal(w, None, at), w.Key());
    assert t.slots.At(w.Key()).ann.None?;
    SweepEffect(t, now);
  }

  /** A withdrawal older than the announcement closes the admitted key, and the announcement stays on offer. */
  lemma OlderWithdrawalOnlyCloses()
    ensures var s := ApplyAll(NEW_NODE, Renewals(1));
      var r := AdmitWithdrawal(s, Wd(1, 0), 100, true, 2);
      && s.IsAdmitted(KEY) && r.result.Ok? && !r.state.IsAdmitted(KEY)
      && Discoverable(r.state.slots.At(KEY), 2) == Some(Ann("pod", 1, 1))
  {
    AfterRenewals(1);
    RenewalsForward(1);
    RunKeepsInv(Renewals(1));
    FewAdmissions(Renewals(1), 1, 2);
    OlderCloses(ApplyAll(NEW_NODE, Renewals(1)));
  }

  lemma OlderCloses(s: NodeState)
    requires NodeInv(s) && Renewed(s, 1) && !RateLimitWouldExceed(s.runtime, ORIGIN, 2)
    ensures var r := AdmitWithdrawal(s, Wd(1, 0), 100, true, 2);
      && s.IsAdmitted(KEY) && r.result.Ok? && !r.state.IsAdmitted(KEY)
      && Discoverable(r.state.slots.At(KEY), 2) == Some(Ann("pod", 1, 1))
  {
    SubmissionIsInOrder("pod", 1, 1);
    WithdrawalAcceptanceEffect(s, Wd(1, 0), 100, 2);
    DeliverAtOne(s.slots, OfWithdrawal(Wd(1, 0), None, 2), KEY);
  }

  // ----- the row after the high-water mark -----

  /** Of a node with one row: cursor 2 is accepted, and row 2 can be got from cursor 1 but never from it. */
  ghost predicate SkipsSecondRow(s: NodeState, t: NodeState) {
    && Read(s, Some(Encode(2)), None, true, 2).result.Ok? && |t.stream.history| == 2
    && !CanGet(t, 2, t.stream.history[1]) && CanGet(t, 1, t.stream.history[1])
  }

  /** A reader that resumes at the accepted cursor 2 never gets row 2, whatever happens later. */
  lemma SecondRowIsSkipped()
    ensures SkipsSecondRow(ApplyAll(NEW_NODE, Renewals(1)), ApplyAll(NEW_NODE, Renewals(2)))
  {
    AfterRenewals(1);
    RenewalsForward(1);
    RunKeepsInv(Renewals(1));
    FewAdmissions(Renewals(1), 1, 2);
    SecondSkips(ApplyAll(NEW_NODE, Renewals(1)));
    RunSnoc(Renewals(1), SubmitOf("pod", 2, 2, 2));
  }

  lemma SecondSkips(s: NodeState)
    requires NodeInv(s) && Renewed(s, 1) && !RateLimitWouldExceed(s.runtime, ORIGIN, 2)
    ensures SkipsSecondRow(s, Apply(s, SubmitOf("pod", 2, 2, 2)))
  {
    RenewOnce(s, 1);
    CursorCoverage.HighWaterIsNext(s);
    FutureCursorSkipsRow(s, 2, SubmitOf("pod", 2, 2, 2), 2);
    FutureCursorSkipsRow(s, 1, SubmitOf("pod", 2, 2, 2), 2);
  }

  // ----- eight keys, one lapsed -----

  function Slug(n: nat): string { seq(n, i => 'a') }

  /** Eight Pods of one Origin, all submitted after a day; the first was announced a day earlier. */
  function Fill(n: nat): seq<Step> {
    if n == 0 then [] else Fill(n - 1) + [SubmitOf(Slug(n), n, AtOf(n), DAY)]
  }

  function Filled(n: nat): set<PodKey> {
    set i | 1 <= i <= n :: (ORIGIN, Slug(i))
  }

  lemma {:induction false} FillTimes(n: nat)
    ensures |Fill(n)| == n && forall i :: 0 <= i < n ==> Fill(n)[i].now == DAY
  {
    if n > 0 { FillTimes(n - 1); }
  }

  lemma FillForward(n: nat, clock: Time)
    requires clock >= DAY
    ensures ClockForward(Fill(n), clock)
  {
    FillTimes(n);
  }

  lemma FilledSteps(n: nat)
    requires n > 0
    ensures Filled(n) == Filled(n - 1) + {(ORIGIN, Slug(n))} && (ORIGIN, Slug(n)) !in Filled(n - 1)
  {
    forall i | 1 <= i < n ensures Slug(i) != Slug(n) {
      assert |Slug(i)| == i && |Slug(n)| == n;
    }
  }

  /** Exactly these keys are kept and admitted. */
  predicate HasFilled(s: NodeState, n: nat) {
    && s.Ensured().admittedKeys == Filled(n) && s.slots.announcements.Keys == Filled(n) && s.slots.withdrawals == map[]
    && |s.ledger| == n && |AdmittedOf(s, ORIGIN)| == n
    && (n > 0 ==> Holds(s, (ORIGIN, Slug(1)), Ann(Slug(1), 1, 0)))
  }

  function AtOf(n: nat): Time { if n == 1 then 0 else DAY }

  lemma FillOne(s: NodeState, t: NodeState, n: nat)
    requires n > 0 && HasFilled(s, n - 1) && Enters(s, t, Slug(n), n, AtOf(n), DAY)
    ensures HasFilled(t, n)
  {
    FilledSteps(n);
    OneMoreAdmitted(s, t, (ORIGIN, Slug(n)));
    if n > 1 { assert (ORIGIN, Slug(1)) in Filled(n - 1); }
  }

  lemma CanFill(s: NodeState, n: nat)
    requires 0 < n <= 8 && HasFilled(s, n - 1) && !RateLimitWouldExceed(s.runtime, ORIGIN, DAY)
    ensures LetsIn(s, Slug(n), n, AtOf(n), DAY)
  {
    FilledSteps(n);
    ActiveFew(s, DAY);
  }

  lemma ActiveFew(s: NodeState, now: Time)
    ensures |ActiveOf(s.slots, s.runtime, ORIGIN, now)| <= |AdmittedOf(s, ORIGIN)|
  {
    SubsetSize(ActiveOf(s.slots, s.runtime, ORIGIN, now), AdmittedOf(s, ORIGIN));
  }

  lemma {:induction false} AfterFill(n: nat)
    requires n <= 8
    ensures HasFilled(ApplyAll(NEW_NODE, Fill(n)), n)
  {
    if n == 0 {
      NothingFilled();
    } else {
      AfterFill(n - 1);
      FillForward(n - 1, DAY);
      FillRun(Fill(n - 1), Fill(n), n);
    }
  }

  lemma FillNext(s: NodeState, n: nat)
    requires NodeInv(s) && 0 < n <= 8 && HasFilled(s, n - 1) && !RateLimitWouldExceed(s.runtime, ORIGIN, DAY)
    ensures HasFilled(Apply(s, SubmitOf(Slug(n), n, AtOf(n), DAY)), n)
  {
    CanFill(s, n);
    SubmissionEnters(s, Slug(n), n, AtOf(n), DAY);
    FillOne(s, Apply(s, SubmitOf(Slug(n), n, AtOf(n), DAY)), n);
  }

  lemma FillRun(steps: seq<Step>, all: seq<Step>, n: nat)
    requires 0 < n <= 8 && ClockForward(steps, DAY) && HasFilled(ApplyAll(NEW_NODE, steps), n - 1)
    requires all == steps + [SubmitOf(Slug(n), n, AtOf(n), DAY)]
    ensures HasFilled(ApplyAll(NEW_NODE, all), n)
  {
    FewAdmissions(steps, DAY, DAY);
    RunKeepsInv(steps);
    FillNext(ApplyAll(NEW_NODE, steps), n);
    RunSnoc(steps, SubmitOf(Slug(n), n, AtOf(n), DAY));
  }

  lemma NothingFilled()
    ensures HasFilled(NEW_NODE, 0)
  {
    assert AdmittedOf(NEW_NODE, ORIGIN) == {} && Filled(0) == {};
  }

  lemma NinthIsSubmittable(s: NodeState)
    requires NodeInv(s) && HasFilled(s, 8) && !RateLimitWouldExceed(s.runtime, ORIGIN, 30 * DAY)
    ensures Submittable(s, Ann(Slug(9), 9, DAY), 100, Ok(Manifest(Slug(9))), 30 * DAY)
    ensures !Fresh(s, ORIGIN, 30 * DAY)
  {
    var a := Ann(Slug(9), 9, DAY);
    FilledSteps(9);
    SubmissionIsInOrder(Slug(9), 9, DAY);
    ConfirmedExactly(a, Manifest(Slug(9)));
    GateOpensExactly(true, 100, MAX_ANNOUNCEMENT_PAYLOAD_BYTES, ORIGIN, Me(), Slug(9));
    RetainedExactly(s, a, LOCAL, 30 * DAY);
    assert (ORIGIN, Slug(1)) in AdmittedOf(s, ORIGIN) && IsLapsed(s.slots, (ORIGIN, Slug(1)), 30 * DAY);
  }

  /** On day thirty the first lease has lapsed unswept, and the Origin gets a ninth admitted key. */
  lemma NinthKeyIsAdmitted()
    ensures var s := ApplyAll(NEW_NODE, Fill(8));
      && ClockForward(Fill(8), 30 * DAY) && |AdmittedOf(s, ORIGIN)| == 8
      && |AdmittedOf(Apply(s, SubmitOf(Slug(9), 9, DAY, 30 * DAY)), ORIGIN)| == 9
  {
    var s := ApplyAll(NEW_NODE, Fill(8));
    AfterFill(8);
    FillForward(8, 30 * DAY);
    RunKeepsInv(Fill(8));
    FewAdmissions(Fill(8), 30 * DAY, 30 * DAY);
    NinthIsSubmittable(s);
    NinthEnters(s);
  }

  lemma NinthEnters(s: NodeState)
    requires NodeInv(s) && HasFilled(s, 8) && !Fresh(s, ORIGIN, 30 * DAY)
    requires Submittable(s, Ann(Slug(9), 9, DAY), 100, Ok(Manifest(Slug(9))), 30 * DAY)
    ensures |AdmittedOf(Apply(s, SubmitOf(Slug(9), 9, DAY, 30 * DAY)), ORIGIN)| == 9
  {
    NinthKeyExactlyWhenOneLapsed(s, Ann(Slug(9), 9, DAY), 100, Ok(Manifest(Slug(9))), 30 * DAY);
  }
}
