/**
 The rate limits of a Bootstrap node whatever its clock does: exactly which operations put more
 admissions into a one-hour window than the limits allow.
 */
module BackwardClock {
  import opened Wrappers
  import opened Artifacts
  import opened RateWindow
  import opened RateRecords
  import opened Nodes
  import opened BootstrapAdmission
  import opened BootstrapRuns
  import opened BootstrapLimits
  import opened AdmissionDecision

  /** After a run with a forward clock, the rate check at any reading, in terms of the complete past. */
  lemma CheckAnytime(steps: seq<Step>, clock: Time, origin: NodeId, now: Time)
    requires ClockForward(steps, clock)
    ensures var s := ApplyAll(NEW_NODE, steps);
      RateLimitWouldExceed(s.runtime, origin, now) <==>
        CountSeen(Times(s.ledger), now) >= 512 || CountSeen(TimesOf(s.ledger, origin), now) >= 24
  {
    var s := ApplyAll(NEW_NODE, steps);
    RunKeepsExact(steps);
    RunKeepsRate(steps, clock);
    LimitsDecideAnytime(s.Ensured().admissions, s.ledger, clock, ADMISSION_LIMITS, origin, now);
  }

  // ----- every operation -----

  /** The admissions of everyone, or of one Origin. */
  function Admissions(l: Ledger, who: Option<NodeId>): seq<Time> {
    if who.None? then Times(l) else TimesOf(l, who.value)
  }

  function Cap(who: Option<NodeId>): nat { if who.None? then 512 else 24 }

  /** The step is accepted, counts for `who`, and falls into a window that is full already. */
  predicate Overfilling(s: NodeState, step: Step, who: Option<NodeId>) {
    && Accepts(s, step) && (who.Some? ==> who.value == Submitter(step))
    && FullAhead(Admissions(s.ledger, who), step.now, Cap(who))
  }

  /** An operation in any state overfills a window, wherever it ends, exactly when it is such a step. */
  lemma StepOverfillsExactly(s: NodeState, step: Step, who: Option<NodeId>)
    ensures Overfills(Admissions(s.ledger, who), Admissions(Apply(s, step).ledger, who), Cap(who))
      <==> Overfilling(s, step, who)
  {
    StepRecords(s, step);
    if Accepts(s, step) {
      LedgerSteps(s.ledger, Submitter(step), step.now);
      OneMoreOverfills(Admissions(s.ledger, who), step.now, Cap(who));
    }
  }

  /** Windows only fill up. */
  lemma StepFills(s: NodeState, step: Step, who: Option<NodeId>, end: Time)
    ensures InWindow(Admissions(s.ledger, who), end) <= InWindow(Admissions(Apply(s, step).ledger, who), end)
  {
    StepRecords(s, step);
    if Accepts(s, step) {
      LedgerSteps(s.ledger, Submitter(step), step.now);
      InWindowSteps(Admissions(s.ledger, who), step.now, end);
    }
  }

  ghost predicate WithinLimit(s: NodeState, who: Option<NodeId>) {
    forall end :: |HourOf(s.ledger, who, end)| <= Cap(who)
  }

  lemma HoursAreWindows(l: Ledger, who: Option<NodeId>, end: Time)
    ensures |HourOf(l, who, end)| == InWindow(Admissions(l, who), end)
  {
    WindowsAreHours(l, if who.Some? then who.value else 0, end);
  }

  lemma StepStaysWithinExactly(s: NodeState, step: Step, who: Option<NodeId>)
    ensures WithinLimit(Apply(s, step), who) <==> WithinLimit(s, who) && !Overfilling(s, step, who)
  {
    var before, after := Admissions(s.ledger, who), Admissions(Apply(s, step).ledger, who);
    StepOverfillsExactly(s, step, who);
    forall end
      ensures |HourOf(s.ledger, who, end)| == InWindow(before, end) <= InWindow(after, end)
      ensures |HourOf(Apply(s, step).ledger, who, end)| == InWindow(after, end)
    {
      StepFills(s, step, who, end);
      HoursAreWindows(s.ledger, who, end);
      HoursAreWindows(Apply(s, step).ledger, who, end);
    }
    if WithinLimit(s, who) && !Overfilling(s, step, who) {
      forall end ensures InWindow(after, end) <= Cap(who) {
        assert |HourOf(s.ledger, who, end)| <= Cap(who);
      }
    }
  }

  /** No step of the run was of that kind. */
  predicate NeverOverfilling(steps: seq<Step>, who: Option<NodeId>) {
    steps == []
    || (NeverOverfilling(steps[..|steps| - 1], who)
        && !Overfilling(ApplyAll(NEW_NODE, steps[..|steps| - 1]), steps[|steps| - 1], who))
  }

  /**
   After any run, whatever its clock did, every one-hour window holds at most 512 admissions, or
   24 of an Origin, if and only if no accepted submission fell into a window that was full already.
   */
  lemma {:induction false} LimitHoldsExactly(steps: seq<Step>, who: Option<NodeId>)
    ensures WithinLimit(ApplyAll(NEW_NODE, steps), who) <==> NeverOverfilling(steps, who)
  {
    if steps == [] {
      assert forall end :: HourOf([], who, end) == {};
    } else {
      LimitHoldsExactly(steps[..|steps| - 1], who);
      StepStaysWithinExactly(ApplyAll(NEW_NODE, steps[..|steps| - 1]), steps[|steps| - 1], who);
    }
  }

  // ----- told before the call -----

  /**
   After any run, a submission at any reading, every other gate being passed, overfills a window
   of everyone or of its Origin exactly when the check lets it pass although a window it falls
   into is full. That takes a clock set back behind some admission.
   */
  lemma OverfilledExactly(
    steps: seq<Step>, a: Announcement, bytes: nat, probe: Result<ManifestView, ProbeError>, now: Time)
    requires OtherwiseAcceptable(ApplyAll(NEW_NODE, steps), a, bytes, probe, now)
    ensures var l := ApplyAll(NEW_NODE, steps).ledger;
      var m := Admit(ApplyAll(NEW_NODE, steps), a, bytes, probe, true, now).state.ledger;
      OverfillsWhenFull(l, m, a.origin, now)
  {
    var s := ApplyAll(NEW_NODE, steps);
    RunKeepsInv(steps);
    RateDecides(steps, a.origin, now);
    RateAloneDecides(s, a, bytes, probe, now);
    if !RateLimitWouldExceed(s.runtime, a.origin, now) { AcceptanceEffect(s, a, bytes, probe, now); }
    AttemptOverfillsExactly(
      s.ledger, Admit(s, a, bytes, probe, true, now).state.ledger, a.origin, now, ADMISSION_LIMITS, a.origin);
  }

  /** The same for a submitted withdrawal, which counts for the same limits. */
  lemma WithdrawalOverfillsExactly(steps: seq<Step>, w: Withdrawal, bytes: nat, now: Time)
    requires OtherwiseAcceptableWithdrawal(ApplyAll(NEW_NODE, steps), w, bytes)
    ensures var l := ApplyAll(NEW_NODE, steps).ledger;
      var m := AdmitWithdrawal(ApplyAll(NEW_NODE, steps), w, bytes, true, now).state.ledger;
      OverfillsWhenFull(l, m, w.origin, now)
  {
    var s := ApplyAll(NEW_NODE, steps);
    RunKeepsInv(steps);
    RateDecides(steps, w.origin, now);
    RateAloneDecidesWithdrawal(s, w, bytes, now);
    AttemptOverfillsExactly(
      s.ledger, AdmitWithdrawal(s, w, bytes, true, now).state.ledger, w.origin, now, ADMISSION_LIMITS, w.origin);
  }

  /** From `l` to `m` a window was overfilled exactly when the check passes at `now` into a full one. */
  ghost predicate OverfillsWhenFull(l: Ledger, m: Ledger, origin: NodeId, now: Time) {
    var pass := Passes(l, origin, now, ADMISSION_LIMITS);
    var all, mine := Overfills(Times(l), Times(m), 512), Overfills(TimesOf(l, origin), TimesOf(m, origin), 24);
    && (all <==> pass && FullAhead(Times(l), now, 512))
    && (mine <==> pass && FullAhead(TimesOf(l, origin), now, 24))
    && (all || mine ==> exists i :: 0 <= i < |l| && now < l[i].1)
  }
}
