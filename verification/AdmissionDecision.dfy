/** Exactly which submissions a Bootstrap node accepts, in terms of the complete past of the node. */
module AdmissionDecision {
  import opened Wrappers
  import opened Artifacts
  import opened Retention
  import opened Convergence
  import opened SlotMaps
  import opened RateWindow
  import opened RateRecords
  import opened Nodes
  import opened Cursors
  import opened PodAnnouncements
  import opened BootstrapAdmission
  import opened BootstrapRuns
  import opened BootstrapLimits

  /** Sender and protocol are in order. */
  predicate WellFormed(origin: NodeId, signer: Signer, slug: string) {
    && origin == signer.nodeId && Trim(signer.publicKey) != [] && Trim(slug) != []
    && signer.protocolVersion == CURRENT_PROTOCOL_VERSION
  }

  /** Fewer than 512 admissions in the hour that ends now, and fewer than 24 of this Origin. */
  predicate RateLeft(ledger: Ledger, origin: NodeId, now: Time) {
    |HourOf(ledger, None, now)| < 512 && |HourOf(ledger, Some(origin), now)| < 24
  }

  /** The probe saw the public manifest that the announcement describes. */
  predicate Confirmed(a: Announcement, probe: Result<ManifestView, ProbeError>) {
    && probe.Ok? && probe.value.visibilityPublic && probe.value.slug == a.slug && probe.value.name == a.name
    && probe.value.subject == a.subject && probe.value.packageVersion == a.packageVersion
    && probe.value.latestEventHash == a.latestEventHash
        && (probe.value.origin.Some? ==> probe.value.origin.value == a.origin)
    && probe.value.protocolVersion == CURRENT_PROTOCOL_VERSION
  }

  /** Verified, leased, later than the kept withdrawal, and not outranked by the kept announcement. */
  predicate Retainable(s: Slots, a: Announcement, now: Time) {
    && Usable(a) && now < a.expiresAt
    && (a.Key() in s.withdrawals ==> s.withdrawals[a.Key()].withdrawal.withdrawnAt < a.announcedAt)
    && (a.Key() in s.announcements ==> !Outranks(s.announcements[a.Key()].announcement, a))
  }

  lemma RetainedExactly(s: NodeState, a: Announcement, from: Provenance, now: Time)
    requires SoundSlots(s.slots)
    ensures Retain(s, a, from, now).result.Ok? <==> Retainable(s.slots, a, now)
  {
    assert Sound(s.slots.At(a.Key()));
    if a.Verify() && a.Key() in s.slots.announcements {
      PreferenceIgnoresClock(s.slots.announcements[a.Key()].announcement, a, now);
    }
  }

  /**
   The rate check after any run, in terms of the complete past; unless the clock was set back,
   it looks at the hour that ends now.
   */
  lemma RateDecides(steps: seq<Step>, origin: NodeId, now: Time)
    ensures var s := ApplyAll(NEW_NODE, steps);
      && (RateLimitWouldExceed(s.runtime, origin, now) <==> !Passes(s.ledger, origin, now, ADMISSION_LIMITS))
      && (ClockForward(steps, now) ==>
            (Passes(s.ledger, origin, now, ADMISSION_LIMITS) <==> RateLeft(s.ledger, origin, now)))
  {
    RunKeepsExact(steps);
    if ClockForward(steps, now) {
      var s := ApplyAll(NEW_NODE, steps);
      RunKeepsRate(steps, now);
      NothingIsLost(Times(s.ledger), now);
      NothingIsLost(TimesOf(s.ledger, origin), now);
      WindowsAreHours(s.ledger, origin, now);
    }
  }

  lemma ConfirmedExactly(a: Announcement, view: ManifestView)
    ensures ManifestMismatchOf(a, view).None? <==> Confirmed(a, Ok(view))
  {
  }

  lemma AdmissionRefusedExactly(s: NodeState, a: Announcement, probe: Result<ManifestView, ProbeError>, now: Time)
    ensures AdmissionRefusal(s, a, probe, now).None? <==>
      !RateLimitWouldExceed(s.runtime, a.origin, now) && Confirmed(a, probe)
      && (s.IsAdmitted(a.Key()) || |ActiveOf(s.slots, s.runtime, a.origin, now)| < 8)
  {
    if probe.Ok? {
      ConfirmedExactly(a, probe.value);
      assert probe == Ok(probe.value);
    }
  }

  lemma GateOpensExactly(enabled: bool, bytes: nat, maxBytes: nat, origin: NodeId, signer: Signer, slug: string)
    ensures GateRefusal(enabled, bytes, maxBytes, origin, signer, slug).None? <==>
      enabled && bytes <= maxBytes && WellFormed(origin, signer, slug)
  {
  }

  /** After any run, whatever the clock did, an announcement is accepted exactly under these conditions. */
  lemma AcceptedExactly(steps: seq<Step>, a: Announcement, bytes: nat, probe: Result<ManifestView, ProbeError>,
      enabled: bool, now: Time)
    ensures var s := ApplyAll(NEW_NODE, steps);
      Admit(s, a, bytes, probe, enabled, now).result.Ok? <==>
        && enabled && bytes <= 16_384 && WellFormed(a.origin, a.signer, a.slug)
        && (IsReplay(s, a)
            || (Passes(s.ledger, a.origin, now, ADMISSION_LIMITS) && Confirmed(a, probe)
                && (s.IsAdmitted(a.Key()) || |ActiveOf(s.slots, s.runtime, a.origin, now)| < 8)
                && Retainable(s.slots, a, now)))
    ensures ClockForward(steps, now) ==>
      (Passes(ApplyAll(NEW_NODE, steps).ledger, a.origin, now, ADMISSION_LIMITS)
       <==> RateLeft(ApplyAll(NEW_NODE, steps).ledger, a.origin, now))
  {
    var s := ApplyAll(NEW_NODE, steps);
    RunKeepsInv(steps);
    RateDecides(steps, a.origin, now);
    GateOpensExactly(enabled, bytes, MAX_ANNOUNCEMENT_PAYLOAD_BYTES, a.origin, a.signer, a.slug);
    AdmissionRefusedExactly(s, a, probe, now);
    RetainedExactly(s, a, LOCAL, now);
  }

  /** Every gate but the rate limit is passed, and the submission is no replay. */
  predicate OtherwiseAcceptable(
    s: NodeState, a: Announcement, bytes: nat, probe: Result<ManifestView, ProbeError>, now: Time)
  {
    && bytes <= 16_384 && WellFormed(a.origin, a.signer, a.slug) && Confirmed(a, probe)
    && !IsReplay(s, a) && (s.IsAdmitted(a.Key()) || |ActiveOf(s.slots, s.runtime, a.origin, now)| < 8)
    && Retainable(s.slots, a, now)
  }

  /** Such a submission is decided by the rate limit, and refused without a trace in the limits. */
  lemma RateAloneDecides(
    s: NodeState, a: Announcement, bytes: nat, probe: Result<ManifestView, ProbeError>, now: Time)
    requires NodeInv(s) && OtherwiseAcceptable(s, a, bytes, probe, now)
    ensures var r := Admit(s, a, bytes, probe, true, now);
      if RateLimitWouldExceed(s.runtime, a.origin, now) then r.result == Err(RateLimited) && r.state.ledger == s.ledger
      else r.result.Ok? && r.state == Accepted(Retain(s, a, LOCAL, now).state, !s.IsAdmitted(a.Key()), a, now)
  {
    GateOpensExactly(true, bytes, MAX_ANNOUNCEMENT_PAYLOAD_BYTES, a.origin, a.signer, a.slug);
    RetainedExactly(s, a, LOCAL, now);
    ConfirmedExactly(a, probe.value);
  }

  /**
   With a forward clock and every other gate passed, a submission is refused for its rate exactly
   when the 3,600 seconds up to it hold 512 admissions, or 24 of its Origin.
   */
  lemma RateRefusesExactly(
    steps: seq<Step>, a: Announcement, bytes: nat, probe: Result<ManifestView, ProbeError>, now: Time)
    requires ClockForward(steps, now) && OtherwiseAcceptable(ApplyAll(NEW_NODE, steps), a, bytes, probe, now)
    ensures var s := ApplyAll(NEW_NODE, steps);
      var r := Admit(s, a, bytes, probe, true, now).result;
      && (r == Err(RateLimited) <==>
            |HourOf(s.ledger, None, now)| >= 512 || |HourOf(s.ledger, Some(a.origin), now)| >= 24)
      && (r == Err(RateLimited) || r.Ok?)
  {
    RunKeepsInv(steps);
    RateDecides(steps, a.origin, now);
    RateAloneDecides(ApplyAll(NEW_NODE, steps), a, bytes, probe, now);
  }

  /** What an accepted submission leaves behind. */
  lemma AcceptanceEffect(s: NodeState, a: Announcement, bytes: nat, probe: Result<ManifestView, ProbeError>, now: Time)
    requires NodeInv(s) && OtherwiseAcceptable(s, a, bytes, probe, now)
    requires !RateLimitWouldExceed(s.runtime, a.origin, now)
    ensures var t := Admit(s, a, bytes, probe, true, now).state;
      && NodeInv(t) && t.Ensured().admittedKeys == s.Ensured().admittedKeys + {a.Key()}
      && t.slots == AnnounceAt(s.slots, a, LOCAL, now) && t.ledger == s.ledger + [(a.origin, now)]
      && t.runtime.Some? && |t.stream.history| == |s.stream.history| + 1
  {
    RateAloneDecides(s, a, bytes, probe, now);
    RetainedExactly(s, a, LOCAL, now);
    RetainKeeps(s, a, LOCAL, now);
    AcceptedKeeps(Retain(s, a, LOCAL, now).state, !s.IsAdmitted(a.Key()), a, now);
  }

  /** No kept withdrawal is later, and it does not name another announcement that the kept one supersedes. */
  predicate WithdrawalRetainable(s: Slots, w: Withdrawal) {
    && Authentic(w)
    && (w.Key() in s.withdrawals ==> s.withdrawals[w.Key()].withdrawal.withdrawnAt <= w.withdrawnAt)
    && (w.covers.Some? && w.Key() in s.announcements ==>
          s.announcements[w.Key()].announcement.id == w.covers.value
          || s.announcements[w.Key()].announcement.announcedAt <= w.withdrawnAt)
  }

  lemma WithdrawalRetainedExactly(s: NodeState, w: Withdrawal, peer: Option<Uuid>, now: Time)
    requires SoundSlots(s.slots)
    ensures RetainWithdrawal(s, w, peer, now).result.Ok? <==>
      WithdrawalRetainable(s.slots, w)
          || (w.Key() in s.slots.withdrawals && s.slots.withdrawals[w.Key()].withdrawal == w)
  {
    assert Sound(s.slots.At(w.Key()));
  }

  /** After any run, whatever the clock did, a withdrawal is accepted exactly under these conditions. */
  lemma WithdrawalAcceptedExactly(steps: seq<Step>, w: Withdrawal, bytes: nat, enabled: bool, now: Time)
    ensures var s := ApplyAll(NEW_NODE, steps);
      AdmitWithdrawal(s, w, bytes, enabled, now).result.Ok? <==>
        && enabled && bytes <= 8_192 && WellFormed(w.origin, w.signer, w.slug)
        && ((w.Key() in s.slots.withdrawals && s.slots.withdrawals[w.Key()].withdrawal == w)
            || (Passes(s.ledger, w.origin, now, ADMISSION_LIMITS) && WithdrawalRetainable(s.slots, w)))
    ensures ClockForward(steps, now) ==>
      (Passes(ApplyAll(NEW_NODE, steps).ledger, w.origin, now, ADMISSION_LIMITS)
       <==> RateLeft(ApplyAll(NEW_NODE, steps).ledger, w.origin, now))
  {
    var s := ApplyAll(NEW_NODE, steps);
    RunKeepsInv(steps);
    RateDecides(steps, w.origin, now);
    GateOpensExactly(enabled, bytes, MAX_WITHDRAWAL_PAYLOAD_BYTES, w.origin, w.signer, w.slug);
    WithdrawalRetainedExactly(s, w, None, now);
  }

  predicate IsWithdrawalReplay(s: NodeState, w: Withdrawal) {
    w.Key() in s.slots.withdrawals && s.slots.withdrawals[w.Key()].withdrawal == w
  }

  /** Every gate but the rate limit is passed, and the withdrawal is no replay. */
  predicate OtherwiseAcceptableWithdrawal(s: NodeState, w: Withdrawal, bytes: nat) {
    && bytes <= 8_192 && WellFormed(w.origin, w.signer, w.slug)
    && !IsWithdrawalReplay(s, w) && WithdrawalRetainable(s.slots, w)
  }

  /** Such a withdrawal is decided by the rate limit, and refused without a trace in the limits. */
  lemma RateAloneDecidesWithdrawal(s: NodeState, w: Withdrawal, bytes: nat, now: Time)
    requires NodeInv(s) && OtherwiseAcceptableWithdrawal(s, w, bytes)
    ensures var r := AdmitWithdrawal(s, w, bytes, true, now);
      if RateLimitWouldExceed(s.runtime, w.origin, now) then r.result == Err(RateLimited) && r.state.ledger == s.ledger
      else r.result.Ok? && r.state.ledger == s.ledger + [(w.origin, now)]
  {
    GateOpensExactly(true, bytes, MAX_WITHDRAWAL_PAYLOAD_BYTES, w.origin, w.signer, w.slug);
    WithdrawalRetainedExactly(s, w, None, now);
  }

  /** What an accepted withdrawal of an admitted key leaves behind. */
  lemma WithdrawalAcceptanceEffect(s: NodeState, w: Withdrawal, bytes: nat, now: Time)
    requires NodeInv(s) && s.IsAdmitted(w.Key())
    requires bytes <= 8_192 && WellFormed(w.origin, w.signer, w.slug) && WithdrawalRetainable(s.slots, w)
    requires !RateLimitWouldExceed(s.runtime, w.origin, now)
    ensures var r := AdmitWithdrawal(s, w, bytes, true, now);
      && r.result.Ok? && !r.state.IsAdmitted(w.Key())
      && r.state.slots == WithdrawAt(s.slots, w, None, now) && r.state.ledger == s.ledger + [(w.origin, now)]
  {
    GateOpensExactly(true, bytes, MAX_WITHDRAWAL_PAYLOAD_BYTES, w.origin, w.signer, w.slug);
    WithdrawalRetainedExactly(s, w, None, now);
    assert w.Key() !in s.slots.withdrawals;
  }
}
