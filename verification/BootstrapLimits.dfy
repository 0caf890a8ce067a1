/** Admission limits, Origin quotas and rejections of a Bootstrap node, over whole runs. */
module BootstrapLimits {
  import opened Wrappers
  import opened Artifacts
  import opened Retention
  import opened Rejection
  import opened SlotMaps
  import opened RateWindow
  import opened RateRecords
  import opened Nodes
  import opened PodAnnouncements
  import opened BootstrapStream
  import opened BootstrapAdmission
  import opened BootstrapRuns

  // ----- the ledger is the record of acceptances -----

  /** The step is a submission that was accepted and not recognised as a replay. */
  predicate Accepts(s: NodeState, step: Step) {
    match step
    case Submit(a, bytes, probe, enabled, now) =>
      var r := Admit(s, a, bytes, probe, enabled, now).result;
      r.Ok? && !r.value.outcome.Idempotent?
    case SubmitWithdrawal(w, bytes, enabled, now) =>
      var r := AdmitWithdrawal(s, w, bytes, enabled, now).result;
      r.Ok? && !r.value.idempotent
    case _ => false
  }

  function Submitter(step: Step): NodeId {
    match step
    case Submit(a, _, _, _, _) => a.origin
    case SubmitWithdrawal(w, _, _, _) => w.origin
    case _ => 0
  }

  lemma {:induction false} ExpireAllFrame(s: NodeState, l: seq<Announcement>, now: Time)
    requires s.runtime.Some?
    ensures OnlyLifecycle(s, ExpireAll(s, l, now))
    ensures ExpireAll(s, l, now).Ensured().admittedKeys <= s.Ensured().admittedKeys
  {
    if l != [] {
      ExpireAllFrame(s, l[..|l| - 1], now);
    }
  }

  lemma SweepFrame(s: NodeState, now: Time)
    ensures OnlyLifecycle(s, Sweep(s, now))
    ensures Sweep(s, now).Ensured().admittedKeys <= s.Ensured().admittedKeys
  {
    ExpireAllFrame(DropOrphans(s), Lapsed(s.slots, KeyOrder.InOrder(s.Ensured().admittedKeys), now), now);
  }

  /** What an operation did to the stored timestamps and to the complete ledger. */
  predicate Recorded(s: NodeState, t: NodeState, accepted: bool, who: NodeId, now: Time) {
    if accepted
    then t.ledger == s.ledger + [(who, now)]
         && t.Ensured().admissions == Record(s.Ensured().admissions, who, now)
         && !WouldExceed(s.Ensured().admissions, who, now, ADMISSION_LIMITS)
    else t.ledger == s.ledger && t.Ensured().admissions == s.Ensured().admissions
  }

  lemma SubmitRecords(s: NodeState, a: Announcement, bytes: nat, probe: Result<ManifestView, ProbeError>,
      enabled: bool, now: Time)
    ensures var r := Admit(s, a, bytes, probe, enabled, now);
      Recorded(s, r.state, r.result.Ok? && !r.result.value.outcome.Idempotent?, a.origin, now)
  {
  }

  lemma SubmitWithdrawalRecords(s: NodeState, w: Withdrawal, bytes: nat, enabled: bool, now: Time)
    ensures var r := AdmitWithdrawal(s, w, bytes, enabled, now);
      Recorded(s, r.state, r.result.Ok? && !r.result.value.idempotent, w.origin, now)
  {
  }

  /** The ledger grows by exactly the accepted submissions, each of which passed the limits. */
  lemma StepRecords(s: NodeState, step: Step)
    ensures Recorded(s, Apply(s, step), Accepts(s, step), Submitter(step), step.now)
  {
    match step
    case Submit(a, bytes, probe, enabled, now) => SubmitRecords(s, a, bytes, probe, enabled, now);
    case SubmitWithdrawal(w, bytes, enabled, now) => SubmitWithdrawalRecords(s, w, bytes, enabled, now);
    case SweepExpiry(now) => SweepFrame(s, now);
    case ReadPage(cursor, limit, enabled, now) => SweepFrame(s, now);
    case Receive(a, from, now) =>
    case ReceiveWithdrawal(w, peer, now) =>
  }

  ghost predicate RateInv(s: NodeState, clock: Time) {
    Kept(s.Ensured().admissions, s.ledger, clock, ADMISSION_LIMITS)
  }

  lemma StepKeepsRate(s: NodeState, step: Step, clock: Time)
    requires RateInv(s, clock) && step.now >= clock
    ensures RateInv(Apply(s, step), step.now)
  {
    StepRecords(s, step);
    if Accepts(s, step) {
      RecordKeeps(s.Ensured().admissions, s.ledger, clock, Submitter(step), step.now, ADMISSION_LIMITS);
    } else {
      TickKeeps(s.Ensured().admissions, s.ledger, clock, step.now, ADMISSION_LIMITS);
    }
  }

  predicate ClockForward(steps: seq<Step>, clock: Time) {
    && (forall i, j :: 0 <= i < j < |steps| ==> steps[i].now <= steps[j].now)
    && (forall i :: 0 <= i < |steps| ==> steps[i].now <= clock)
  }

  lemma {:induction false} RunKeepsRate(steps: seq<Step>, clock: Time)
    requires ClockForward(steps, clock)
    ensures RateInv(ApplyAll(NEW_NODE, steps), clock)
  {
    if steps == [] {
      KeptInitially(clock, ADMISSION_LIMITS);
    } else {
      var front, last := steps[..|steps| - 1], steps[|steps| - 1];
      RunKeepsRate(front, last.now);
      var s, t := ApplyAll(NEW_NODE, front), ApplyAll(NEW_NODE, steps);
      StepKeepsRate(s, last, last.now);
      TickKeeps(t.Ensured().admissions, t.ledger, last.now, clock, ADMISSION_LIMITS);
    }
  }

  lemma StepKeepsExact(s: NodeState, step: Step)
    requires Exact(s.Ensured().admissions, s.ledger)
    ensures Exact(Apply(s, step).Ensured().admissions, Apply(s, step).ledger)
  {
    StepRecords(s, step);
    if Accepts(s, step) { RecordKeepsExact(s.Ensured().admissions, s.ledger, Submitter(step), step.now); }
  }

  /** After any run, whatever the clock did, the stored lists are what recording leaves of the ledger. */
  lemma {:induction false} RunKeepsExact(steps: seq<Step>)
    ensures Exact(ApplyAll(NEW_NODE, steps).Ensured().admissions, ApplyAll(NEW_NODE, steps).ledger)
  {
    if steps == [] {
      ExactInitially();
    } else {
      RunKeepsExact(steps[..|steps| - 1]);
      StepKeepsExact(ApplyAll(NEW_NODE, steps[..|steps| - 1]), steps[|steps| - 1]);
    }
  }

  /**
   Over every run with a non-decreasing clock, every one-hour window holds at most 512 accepted
   admissions, and at most 24 of any one Origin; the stored lists never grow beyond that.
   */
  lemma AdmissionsAreLimited(steps: seq<Step>, clock: Time, who: NodeId, end: Time)
    requires ClockForward(steps, clock)
    ensures var s := ApplyAll(NEW_NODE, steps);
      && |HourOf(s.ledger, None, end)| <= 512
      && |HourOf(s.ledger, Some(who), end)| <= 24
      && |s.Ensured().admissions.network| <= 512
      && |StoredFor(s.Ensured().admissions, who)| <= 24
  {
    RunKeepsRate(steps, clock);
    var s := ApplyAll(NEW_NODE, steps);
    LimitsHold(s.Ensured().admissions, s.ledger, clock, ADMISSION_LIMITS, who, end);
    WindowsAreHours(s.ledger, who, end);
  }

  // ----- the Origin quota -----

  function AdmittedOf(s: NodeState, origin: NodeId): set<PodKey> {
    set k | k in s.Ensured().admittedKeys && k.0 == origin
  }

  /** No admitted key of `origin` has lapsed without being swept. */
  predicate Fresh(s: NodeState, origin: NodeId, now: Time) {
    forall k :: k in AdmittedOf(s, origin) ==> !IsLapsed(s.slots, k, now)
  }

  lemma ActiveAreFresh(s: NodeState, origin: NodeId, now: Time)
    requires NodeInv(s)
    ensures ActiveOf(s.slots, s.runtime, origin, now)
         == set k | k in AdmittedOf(s, origin) && !IsLapsed(s.slots, k, now)
    ensures Fresh(s, origin, now) ==> ActiveOf(s.slots, s.runtime, origin, now) == AdmittedOf(s, origin)
  {
    forall k | s.IsAdmitted(k)
      ensures Discoverable(s.slots.At(k), now).Some? <==> !IsLapsed(s.slots, k, now)
    {
      assert k in s.slots.announcements && k !in s.slots.withdrawals;
    }
  }

  lemma SubmitAdmits(s: NodeState, a: Announcement, bytes: nat, probe: Result<ManifestView, ProbeError>,
      enabled: bool, now: Time)
    ensures AdmitsWithinQuota(s, Admit(s, a, bytes, probe, enabled, now).state, a.Key(), now)
  {
  }

  lemma SubmitWithdrawalAdmits(s: NodeState, w: Withdrawal, bytes: nat, enabled: bool, now: Time)
    ensures AdmitWithdrawal(s, w, bytes, enabled, now).state.Ensured().admittedKeys <= s.Ensured().admittedKeys
  {
  }

  /** A step adds no admitted key, or the key of a submission that met fewer than eight active ones. */
  lemma StepAdmits(s: NodeState, step: Step)
    requires NodeInv(s)
    ensures if step.Submit?
      then AdmitsWithinQuota(s, Apply(s, step), step.a.Key(), step.now)
      else Apply(s, step).Ensured().admittedKeys <= s.Ensured().admittedKeys
  {
    match step
    case Submit(a, bytes, probe, enabled, now) => SubmitAdmits(s, a, bytes, probe, enabled, now);
    case SubmitWithdrawal(w, bytes, enabled, now) => SubmitWithdrawalAdmits(s, w, bytes, enabled, now);
    case SweepExpiry(now) => SweepFrame(s, now);
    case ReadPage(cursor, limit, enabled, now) => SweepFrame(s, now);
    case Receive(a, from, now) =>
    case ReceiveWithdrawal(w, peer, now) =>
  }

  lemma SubsetSize<T>(small: set<T>, big: set<T>)
    requires small <= big
    ensures |small| <= |big|
  {
    var rest := big - small;
    assert big == small + rest;
  }

  /** At most one key joins, and only while fewer than eight are admitted. */
  lemma OneMoreKey(s: NodeState, t: NodeState, origin: NodeId, key: PodKey)
    requires |AdmittedOf(s, origin)| <= MAX_ACTIVE_ANNOUNCEMENTS_PER_ORIGIN
    requires forall k :: k in AdmittedOf(t, origin) && k !in AdmittedOf(s, origin) ==>
      k == key && |AdmittedOf(s, origin)| < MAX_ACTIVE_ANNOUNCEMENTS_PER_ORIGIN
    ensures |AdmittedOf(t, origin)| <= MAX_ACTIVE_ANNOUNCEMENTS_PER_ORIGIN
  {
    var before, after := AdmittedOf(s, origin), AdmittedOf(t, origin);
    if after <= before {
      SubsetSize(after, before);
    } else {
      var k :| k in after && k !in before;
      SubsetSize(after, before + {key});
    }
  }

  /** `t` admits nothing new, or only `key` while its Origin has fewer than eight active keys. */
  predicate AdmitsWithinQuota(s: NodeState, t: NodeState, key: PodKey, now: Time) {
    forall k :: k in t.Ensured().admittedKeys && k !in s.Ensured().admittedKeys ==>
      k == key && |ActiveOf(s.slots, s.runtime, key.0, now)| < MAX_ACTIVE_ANNOUNCEMENTS_PER_ORIGIN
  }

  lemma WithinQuotaKeepsBound(s: NodeState, t: NodeState, key: PodKey, now: Time, origin: NodeId)
    requires NodeInv(s) && |AdmittedOf(s, origin)| <= MAX_ACTIVE_ANNOUNCEMENTS_PER_ORIGIN
    requires AdmitsWithinQuota(s, t, key, now)
    requires t.Ensured().admittedKeys <= s.Ensured().admittedKeys || Fresh(s, key.0, now)
    ensures |AdmittedOf(t, origin)| <= MAX_ACTIVE_ANNOUNCEMENTS_PER_ORIGIN
  {
    if Fresh(s, key.0, now) {
      ActiveAreFresh(s, key.0, now);
    }
    OneMoreKey(s, t, origin, key);
  }

  /** A step keeps the Origin at no more than eight admitted keys, if submissions meet no lapsed one. */
  lemma StepKeepsQuota(s: NodeState, step: Step, origin: NodeId)
    requires NodeInv(s) && |AdmittedOf(s, origin)| <= MAX_ACTIVE_ANNOUNCEMENTS_PER_ORIGIN
    requires step.Submit? ==> Fresh(s, step.a.origin, step.now)
    ensures |AdmittedOf(Apply(s, step), origin)| <= MAX_ACTIVE_ANNOUNCEMENTS_PER_ORIGIN
  {
    StepAdmits(s, step);
    WithinQuotaKeepsBound(s, Apply(s, step), if step.Submit? then step.a.Key() else (0, ""), step.now, origin);
  }

  /** No admitted key at all has lapsed without being swept. */
  predicate AllFresh(s: NodeState, now: Time) {
    forall k :: k in s.Ensured().admittedKeys ==> !IsLapsed(s.slots, k, now)
  }

  /** The step sweeps expiry at `now`: a sweep, or a page read that was served. */
  predicate Sweeps(s: NodeState, step: Step, now: Time) {
    match step
    case SweepExpiry(at) => at == now
    case ReadPage(cursor, limit, enabled, at) => at == now && Read(s, cursor, limit, enabled, at).result.Ok?
    case _ => false
  }

  lemma SweptIsFresh(s: NodeState, step: Step, now: Time)
    requires NodeInv(s) && Sweeps(s, step, now)
    ensures AllFresh(Apply(s, step), now)
  {
    SweepEffect(s, now);
    assert Apply(s, step) == Sweep(s, now);
  }

  /** Every announcement kept after the change was kept before it or has a running lease. */
  predicate Renews(s: Slots, t: Slots, now: Time) {
    forall k :: k in t.announcements ==>
      (k in s.announcements && s.announcements[k] == t.announcements[k])
          || t.announcements[k].announcement.LeaseIsActive(now)
  }

  lemma DeliveryRenews(s: Slots, d: Delivery)
    ensures Renews(s, DeliverAt(s, d), d.at)
  {
    var t := DeliverAt(s, d);
    forall k | k in t.announcements
      ensures (k in s.announcements && s.announcements[k] == t.announcements[k])
           || t.announcements[k].announcement.LeaseIsActive(d.at)
    {
      DeliverAtOne(s, d, k);
      assert t.At(k).ann == Some(t.announcements[k]);
    }
  }

  /** Admitted keys stay fresh when only kept announcements change, and every added key is held. */
  lemma RenewalStaysFresh(s: NodeState, t: NodeState, now: Time)
    requires AllFresh(s, now) && Renews(s.slots, t.slots, now)
    requires forall k :: k in t.Ensured().admittedKeys && k !in s.Ensured().admittedKeys ==>
      k in t.slots.announcements && t.slots.announcements[k].announcement.LeaseIsActive(now)
    ensures AllFresh(t, now)
  {
  }

  lemma RetainedIsLeased(s: NodeState, a: Announcement, now: Time)
    requires Retain(s, a, LOCAL, now).result.Ok?
    ensures var t := Retain(s, a, LOCAL, now).state.slots;
      a.Key() in t.announcements && t.announcements[a.Key()].announcement == a && a.LeaseIsActive(now)
  {
    DeliverAtOne(s.slots, OfAnnouncement(a, LOCAL, now), a.Key());
    var t := Retain(s, a, LOCAL, now).state.slots;
    assert t.At(a.Key()).ann.Some?;
  }

  lemma RetainStaysFresh(s: NodeState, a: Announcement, from: Provenance, now: Time)
    requires AllFresh(s, now)
    ensures AllFresh(Retain(s, a, from, now).state, now)
  {
    DeliveryRenews(s.slots, OfAnnouncement(a, from, now));
    RenewalStaysFresh(s, Retain(s, a, from, now).state, now);
  }

  lemma AcceptedStaysFresh(s: NodeState, isNew: bool, a: Announcement, now: Time)
    requires NodeInv(s) && AllFresh(s, now) && isNew == !s.IsAdmitted(a.Key())
    requires a.Key() in s.slots.announcements && a.Key() !in s.slots.withdrawals
    requires s.slots.announcements[a.Key()].announcement.LeaseIsActive(now)
    ensures AllFresh(Accepted(s, isNew, a, now), now)
  {
    AcceptedKeeps(s, isNew, a, now);
  }

  lemma SubmitStaysFresh(
    s: NodeState, a: Announcement, bytes: nat, probe: Result<ManifestView, ProbeError>, enabled: bool, now: Time)
    requires NodeInv(s) && AllFresh(s, now)
    ensures AllFresh(Admit(s, a, bytes, probe, enabled, now).state, now)
  {
    var kept := Retain(s, a, LOCAL, now);
    RetainKeeps(s, a, LOCAL, now);
    RetainStaysFresh(s, a, LOCAL, now);
    if kept.result.Ok? {
      RetainedIsLeased(s, a, now);
      AcceptedStaysFresh(kept.state, !s.IsAdmitted(a.Key()), a, now);
    }
    SubmitEnds(s, kept.state, Admit(s, a, bytes, probe, enabled, now).state, a, bytes, probe, enabled, now);
  }

  /** The four ways a submission can end, seen as what it leaves in the slots and the admitted set. */
  lemma SubmitEnds(
    s: NodeState, kept: NodeState, t: NodeState,
    a: Announcement, bytes: nat, probe: Result<ManifestView, ProbeError>, enabled: bool, now: Time)
    requires t == Admit(s, a, bytes, probe, enabled, now).state && kept == Retain(s, a, LOCAL, now).state
    requires AllFresh(s, now) && AllFresh(kept, now)
    requires Retain(s, a, LOCAL, now).result.Ok? ==> AllFresh(Accepted(kept, !s.IsAdmitted(a.Key()), a, now), now)
    ensures AllFresh(t, now)
  {
    SubmitCases(s, a, bytes, probe, enabled, now);
  }

  lemma WithdrawalStaysFresh(s: NodeState, w: Withdrawal, bytes: nat, enabled: bool, peer: Option<Uuid>, now: Time)
    requires AllFresh(s, now)
    ensures AllFresh(AdmitWithdrawal(s, w, bytes, enabled, now).state, now)
    ensures AllFresh(RetainAndProject(s, w, peer, now), now)
  {
    DeliveryRenews(s.slots, OfWithdrawal(w, None, now));
    DeliveryRenews(s.slots, OfWithdrawal(w, peer, now));
    RenewalStaysFresh(s, AdmitWithdrawal(s, w, bytes, enabled, now).state, now);
    RenewalStaysFresh(s, RetainAndProject(s, w, peer, now), now);
  }

  /** Until the clock moves, no operation leaves a lapsed key admitted. */
  lemma StepStaysFresh(s: NodeState, step: Step)
    requires NodeInv(s) && AllFresh(s, step.now)
    ensures AllFresh(Apply(s, step), step.now)
  {
    match step
    case Submit(a, bytes, probe, enabled, now) => SubmitStaysFresh(s, a, bytes, probe, enabled, now);
    case SubmitWithdrawal(w, bytes, enabled, now) => WithdrawalStaysFresh(s, w, bytes, enabled, None, now);
    case SweepExpiry(now) => SweepFrame(s, now);
    case ReadPage(cursor, limit, enabled, now) => SweepFrame(s, now);
    case Receive(a, from, now) =>
      RetainStaysFresh(s, a, from, now);
    case ReceiveWithdrawal(w, peer, now) => WithdrawalStaysFresh(s, w, 0, true, peer, now);
  }

  /** The run has swept at `now`, and the clock has not moved since. */
  predicate SweptAt(steps: seq<Step>, now: Time) {
    steps != [] &&
    var front, last := steps[..|steps| - 1], steps[|steps| - 1];
    last.now == now && (Sweeps(ApplyAll(NEW_NODE, front), last, now) || SweptAt(front, now))
  }

  lemma {:induction false} SweptAtIsFresh(steps: seq<Step>, now: Time)
    requires SweptAt(steps, now)
    ensures AllFresh(ApplyAll(NEW_NODE, steps), now)
  {
    var front, last := steps[..|steps| - 1], steps[|steps| - 1];
    RunKeepsInv(front);
    if Sweeps(ApplyAll(NEW_NODE, front), last, now) {
      SweptIsFresh(ApplyAll(NEW_NODE, front), last, now);
    } else {
      SweptAtIsFresh(front, now);
      StepStaysFresh(ApplyAll(NEW_NODE, front), last);
    }
  }

  /** Every submission comes after a sweep or a served read at the same instant. */
  predicate SweepsFirst(steps: seq<Step>) {
    forall i :: 0 <= i < |steps| && steps[i].Submit? ==> SweptAt(steps[..i], steps[i].now)
  }

  /** Runs that sweep at each instant before submissions never admit a ninth key of an Origin. */
  lemma {:induction false} QuotaHoldsWhenSwept(steps: seq<Step>, origin: NodeId)
    requires SweepsFirst(steps)
    ensures |AdmittedOf(ApplyAll(NEW_NODE, steps), origin)| <= MAX_ACTIVE_ANNOUNCEMENTS_PER_ORIGIN
  {
    if steps == [] {
      assert AdmittedOf(NEW_NODE, origin) == {};
    } else {
      var front, last := steps[..|steps| - 1], steps[|steps| - 1];
      assert SweepsFirst(front) by {
        forall i | 0 <= i < |front| && front[i].Submit? ensures SweptAt(front[..i], front[i].now) {
          assert front[..i] == steps[..i] && front[i] == steps[i];
        }
      }
      QuotaHoldsWhenSwept(front, origin);
      RunKeepsInv(front);
      if last.Submit? {
        assert steps[..|front|] == front;
        SweptAtIsFresh(front, last.now);
      }
      StepKeepsQuota(ApplyAll(NEW_NODE, front), last, origin);
    }
  }

  /** With every other gate passed, the active count alone decides a new key. */
  lemma QuotaDecides(s: NodeState, a: Announcement, bytes: nat, probe: Result<ManifestView, ProbeError>, now: Time)
    requires Submittable(s, a, bytes, probe, now)
    ensures var r := Admit(s, a, bytes, probe, true, now);
      if |ActiveOf(s.slots, s.runtime, a.origin, now)| < MAX_ACTIVE_ANNOUNCEMENTS_PER_ORIGIN
      then r.state == Accepted(Retain(s, a, LOCAL, now).state, true, a, now)
      else r.state.runtime == s.runtime
  {
  }

  /** A new key that passes every gate but, perhaps, the quota. */
  predicate Submittable(s: NodeState, a: Announcement, bytes: nat, probe: Result<ManifestView, ProbeError>, now: Time) {
    && !s.IsAdmitted(a.Key())
    && GateRefusal(true, bytes, MAX_ANNOUNCEMENT_PAYLOAD_BYTES, a.origin, a.signer, a.slug).None?
    && !RateLimitWouldExceed(s.runtime, a.origin, now)
    && probe.Ok? && ManifestMismatchOf(a, probe.value).None?
    && Announce(s.slots.At(a.Key()), a, LOCAL, now).result.Ok?
  }

  /** One lapsed key among eight leaves room for a ninth. */
  lemma LapsedLeavesRoom(s: NodeState, origin: NodeId, now: Time)
    requires NodeInv(s) && |AdmittedOf(s, origin)| == MAX_ACTIVE_ANNOUNCEMENTS_PER_ORIGIN
    ensures |ActiveOf(s.slots, s.runtime, origin, now)| < MAX_ACTIVE_ANNOUNCEMENTS_PER_ORIGIN <==>
        !Fresh(s, origin, now)
  {
    ActiveAreFresh(s, origin, now);
    var active, admitted := ActiveOf(s.slots, s.runtime, origin, now), AdmittedOf(s, origin);
    if !Fresh(s, origin, now) {
      var k :| k in admitted && IsLapsed(s.slots, k, now);
      SubsetSize(active, admitted - {k});
    }
  }

  lemma OneMoreAdmitted(s: NodeState, t: NodeState, key: PodKey)
    requires key !in s.Ensured().admittedKeys && t.Ensured().admittedKeys == s.Ensured().admittedKeys + {key}
    ensures |AdmittedOf(t, key.0)| == |AdmittedOf(s, key.0)| + 1
  {
    assert AdmittedOf(t, key.0) == AdmittedOf(s, key.0) + {key};
  }

  lemma AcceptedAdmitsOneMore(s: NodeState, a: Announcement, now: Time)
    requires NodeInv(s) && !s.IsAdmitted(a.Key()) && Retain(s, a, LOCAL, now).result.Ok?
    ensures |AdmittedOf(Accepted(Retain(s, a, LOCAL, now).state, true, a, now), a.origin)| ==
        |AdmittedOf(s, a.origin)| + 1
  {
    RetainKeeps(s, a, LOCAL, now);
    AcceptedKeeps(Retain(s, a, LOCAL, now).state, true, a, now);
    OneMoreAdmitted(s, Accepted(Retain(s, a, LOCAL, now).state, true, a, now), a.Key());
  }

  /**
   Without the sweep the quota is not a bound: an Origin with eight admitted keys gets a ninth
   exactly when one of the eight has lapsed, every other gate being passed.
   */
  lemma NinthKeyExactlyWhenOneLapsed(
    s: NodeState, a: Announcement, bytes: nat, probe: Result<ManifestView, ProbeError>, now: Time)
    requires NodeInv(s) && |AdmittedOf(s, a.origin)| == MAX_ACTIVE_ANNOUNCEMENTS_PER_ORIGIN
    requires Submittable(s, a, bytes, probe, now)
    ensures |AdmittedOf(Admit(s, a, bytes, probe, true, now).state, a.origin)| == 9 <==> !Fresh(s, a.origin, now)
  {
    QuotaDecides(s, a, bytes, probe, now);
    LapsedLeavesRoom(s, a.origin, now);
    AcceptedAdmitsOneMore(s, a, now);
  }

  // ----- rejections -----

  ghost predicate AlikeSlots(s: Slots, t: Slots) {
    forall k :: Alike(s.At(k), t.At(k))
  }

  /**
   A rejected submission leaves the log, the admitted set, the rate lists and the peer stream
   as they were, and every slot as it was up to a superseded withdrawal.
   */
  lemma RejectedSubmissionIsHarmless(
    s: NodeState, a: Announcement, bytes: nat, probe: Result<ManifestView, ProbeError>, enabled: bool, now: Time)
    requires NodeInv(s)
    requires Admit(s, a, bytes, probe, enabled, now).result.Err?
    ensures var t := Admit(s, a, bytes, probe, enabled, now).state;
      && t.stream == s.stream && t.runtime == s.runtime && t.ledger == s.ledger && t.peer == s.peer
      && AlikeSlots(s.slots, t.slots)
  {
    var t := Admit(s, a, bytes, probe, enabled, now).state;
    assert t.slots == s.slots
        || (t.slots == AnnounceAt(s.slots, a, LOCAL, now) && Announce(s.slots.At(a.Key()), a, LOCAL, now).result.Err?);
    RejectedSlots(s.slots, t.slots, a, now);
  }

  lemma RejectedSlots(s: Slots, t: Slots, a: Announcement, now: Time)
    requires SoundSlots(s)
    requires t == s || (t == AnnounceAt(s, a, LOCAL, now) && Announce(s.At(a.Key()), a, LOCAL, now).result.Err?)
    ensures AlikeSlots(s, t)
  {
    var d := OfAnnouncement(a, LOCAL, now);
    forall k ensures Alike(s.At(k), t.At(k)) {
      DeliverAtOne(s, d, k);
      RejectionIsHarmless(s.At(k), d);
    }
  }

  /** A rejected withdrawal changes nothing but the audits. */
  lemma RejectedWithdrawalIsHarmless(s: NodeState, w: Withdrawal, bytes: nat, enabled: bool, now: Time)
    requires AdmitWithdrawal(s, w, bytes, enabled, now).result.Err?
    ensures AdmitWithdrawal(s, w, bytes, enabled, now).state.(audits := s.audits) == s
  {
    PutUnchanged(s.slots, w.Key());
  }
}
