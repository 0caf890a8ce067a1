/** What a Bootstrap node answers and records: outcomes, reasons, rows and audits. */
module AdmissionOutcomes {
  import opened Wrappers
  import opened Artifacts
  import opened Retention
  import opened Convergence
  import opened SlotMaps
  import opened StreamLog
  import opened KeyOrder
  import opened Nodes
  import opened Cursors
  import opened PodAnnouncements
  import opened BootstrapStream
  import opened BootstrapAdmission
  import opened AdmissionDecision

  // ----- accepted announcements -----

  /** The next row of the log: its position, when, what, and which artifact. */
  function NextRow(s: NodeState, kind: EventKind, origin: NodeId, slug: string, payload: Payload, now: Time): Entry {
    Entry(|s.stream.history| + 1, now, kind, origin, slug, payload)
  }

  lemma OkAcceptance(s: NodeState, a: Announcement, bytes: nat, probe: Result<ManifestView, ProbeError>, now: Time)
    requires Admit(s, a, bytes, probe, true, now).result.Ok? && !IsReplay(s, a)
    ensures var r, kept := Admit(s, a, bytes, probe, true, now), Retain(s, a, LOCAL, now);
      var isNew := !s.IsAdmitted(a.Key());
      && kept.result.Ok? && r.state == Accepted(kept.state, isNew, a, now)
      && r.result.value == Acceptance(if isNew then NewlyAdmitted else LeaseRenewed, kept.result.value,
                                      Some(s.Ensured().nextSequence))
  {
  }

  lemma AcceptedRow(s: NodeState, isNew: bool, a: Announcement, now: Time)
    ensures var t, next := Accepted(s, isNew, a, now), s.Ensured().nextSequence;
      && t.audits == s.audits
      && t.stream.history == s.stream.history
           + [Entry(next, now, if isNew then Admitted else Renewed, a.origin, a.slug, AnnouncementPayload(a))]
  {
  }

  lemma KeptRecord(s: NodeState, a: Announcement, now: Time)
    requires Retain(s, a, LOCAL, now).result.Ok?
    ensures var r := Retain(s, a, LOCAL, now);
      && r.result.value.announcement == a && r.result.value.receivedAt == now
      && r.state.stream == s.stream && r.state.runtime == s.runtime && r.state.audits == s.audits
  {
  }

  /**
   A submission that is accepted and no replay is answered as an admission when its key was not
   admitted and as a renewal when it was, and leaves exactly that row.
   */
  lemma AcceptedOutcome(s: NodeState, a: Announcement, bytes: nat, probe: Result<ManifestView, ProbeError>, now: Time)
    requires s.Ensured().nextSequence == |s.stream.history| + 1
    requires Admit(s, a, bytes, probe, true, now).result.Ok? && !IsReplay(s, a)
    ensures var r, known := Admit(s, a, bytes, probe, true, now), s.IsAdmitted(a.Key());
      && r.result.value.known.announcement == a && r.result.value.known.receivedAt == now
      && r.result.value.sequence == Some(|s.stream.history| + 1)
      && r.result.value.outcome == (if known then LeaseRenewed else NewlyAdmitted)
      && r.state.audits == s.audits
      && r.state.stream.history == s.stream.history
           + [NextRow(s, if known then Renewed else Admitted, a.origin, a.slug, AnnouncementPayload(a), now)]
  {
    OkAcceptance(s, a, bytes, probe, now);
    KeptRecord(s, a, now);
    AcceptedRow(Retain(s, a, LOCAL, now).state, !s.IsAdmitted(a.Key()), a, now);
  }

  /** The exact announcement an admitted key holds is answered as a replay, whatever the limits, and changes nothing. */
  lemma ReplayOutcome(s: NodeState, a: Announcement, bytes: nat, probe: Result<ManifestView, ProbeError>, now: Time)
    requires bytes <= 16_384 && WellFormed(a.origin, a.signer, a.slug)
    ensures var r := Admit(s, a, bytes, probe, true, now);
      && (r.result.Ok? && r.result.value.outcome.Idempotent? <==>
            s.IsAdmitted(a.Key()) && a.Key() in s.slots.announcements
            && s.slots.announcements[a.Key()].announcement == a)
      && (r.result.Ok? && r.result.value.outcome.Idempotent? ==> r.state == s)
  {
    GateOpensExactly(true, bytes, MAX_ANNOUNCEMENT_PAYLOAD_BYTES, a.origin, a.signer, a.slug);
  }

  // ----- refused announcements -----

  /** Why the submission is refused before it is looked at together with the node. */
  function EarlyReason(enabled: bool, bytes: nat, most: nat, origin: NodeId, signer: Signer, slug: string)
    : Option<RejectionReason>
  {
    if !enabled then Some(BootstrapDisabled)
    else if bytes > most then Some(PayloadTooLarge)
    else if !(origin == signer.nodeId && Trim(signer.publicKey) != [] && Trim(slug) != []) then Some(InvalidIdentity)
    else if signer.protocolVersion != "stumble/1.0" then Some(IncompatibleProtocol)
    else None
  }

  /** Why a probe's answer does not confirm the announcement. */
  function ProbeReason(a: Announcement, probe: Result<ManifestView, ProbeError>): Option<RejectionReason> {
    match probe
    case Err(Unreachable) => Some(UnreachableOrigin)
    case Err(NoManifest) => Some(ManifestUnavailable)
    case Ok(view) =>
      if Confirmed(a, probe) then None
      else if Confirmed(a, Ok(view.(protocolVersion := "stumble/1.0"))) then Some(IncompatibleProtocol)
      else Some(ManifestMismatch)
  }

  /** Why the announcement cannot be retained. */
  function RetentionReason(s: Slots, a: Announcement, now: Time): Option<RejectionReason> {
    if Retainable(s, a, now) then None
    else if !a.addressValid then Some(Malformed)
    else if !Usable(a) then Some(RejectionReason.InvalidSignature)
    else if now >= a.expiresAt then Some(StaleLease)
    else if a.Key() in s.withdrawals && s.withdrawals[a.Key()].withdrawal.withdrawnAt >= a.announcedAt
    then Some(RejectionReason.AnnouncementWithdrawn)
    else Some(StaleLease)
  }

  /** The first reason against the submission, if there is one. */
  function ReasonAgainst(s: NodeState, a: Announcement, bytes: nat, probe: Result<ManifestView, ProbeError>,
      enabled: bool, now: Time): Option<RejectionReason> {
    var early := EarlyReason(enabled, bytes, 16_384, a.origin, a.signer, a.slug);
    if early.Some? then early
    else if IsReplay(s, a) then None
    else if RateLimitWouldExceed(s.runtime, a.origin, now) then Some(RateLimited)
    else if ProbeReason(a, probe).Some? then ProbeReason(a, probe)
    else if !s.IsAdmitted(a.Key()) && |ActiveOf(s.slots, s.runtime, a.origin, now)| >= 8 then Some(OriginQuotaExceeded)
    else RetentionReason(s.slots, a, now)
  }

  lemma EarlyReasonExactly(enabled: bool, bytes: nat, most: nat, origin: NodeId, signer: Signer, slug: string)
    ensures GateRefusal(enabled, bytes, most, origin, signer, slug) ==
      EarlyReason(enabled, bytes, most, origin, signer, slug)
  {
  }

  lemma ProbeReasonExactly(a: Announcement, view: ManifestView)
    ensures ManifestMismatchOf(a, view) == ProbeReason(a, Ok(view))
  {
  }

  lemma RetentionReasonExactly(s: NodeState, a: Announcement, now: Time)
    requires SoundSlots(s.slots)
    ensures var r := Retain(s, a, LOCAL, now).result;
      RetentionReason(s.slots, a, now) == if r.Err? then Some(MapStoreError(r.error)) else None
  {
    RetainedExactly(s, a, LOCAL, now);
    assert Sound(s.slots.At(a.Key()));
  }

  /** A refused submission is answered with the first reason against it. */
  lemma RefusalReason(s: NodeState, a: Announcement, bytes: nat, probe: Result<ManifestView, ProbeError>,
      enabled: bool, now: Time)
    requires SoundSlots(s.slots)
    ensures var r, reason := Admit(s, a, bytes, probe, enabled, now).result,
        ReasonAgainst(s, a, bytes, probe, enabled, now);
      (r.Err? <==> reason.Some?) && (r.Err? ==> r.error == reason.value)
  {
    EarlyReasonExactly(enabled, bytes, MAX_ANNOUNCEMENT_PAYLOAD_BYTES, a.origin, a.signer, a.slug);
    if probe.Ok? { ProbeReasonExactly(a, probe.value); }
    RetentionReasonExactly(s, a, now);
  }

  lemma RefusalRejects(s: NodeState, a: Announcement, bytes: nat, probe: Result<ManifestView, ProbeError>,
      enabled: bool, now: Time)
    requires Admit(s, a, bytes, probe, enabled, now).result.Err?
    ensures var r := Admit(s, a, bytes, probe, enabled, now);
      r.state.audits == Reject(s, Audit(a.origin, a.signer.publicKey, a.slug, r.result.error, now)).audits
  {
  }

  /** Every refusal is audited with its subject, its reason and its time. */
  lemma RefusalIsAudited(s: NodeState, a: Announcement, bytes: nat, probe: Result<ManifestView, ProbeError>,
      enabled: bool, now: Time)
    requires Admit(s, a, bytes, probe, enabled, now).result.Err?
    ensures var r := Admit(s, a, bytes, probe, enabled, now);
      var audit := Audit(a.origin, a.signer.publicKey, a.slug, r.result.error, now);
      && r.state.audits != [] && r.state.audits[|r.state.audits| - 1] == audit
      && r.state.audits == Survivors(s.audits + [audit], now)
  {
    var audit := Audit(a.origin, a.signer.publicKey, a.slug, Admit(s, a, bytes, probe, enabled, now).result.error, now);
    RefusalRejects(s, a, bytes, probe, enabled, now);
    PruningKeepsSurvivors(s.audits + [audit], now);
    AuditsAreBounded(s, audit);
  }

  // ----- withdrawals -----

  /** The first reason against a submitted withdrawal, if there is one. */
  function ReasonAgainstWithdrawal(s: NodeState, w: Withdrawal, bytes: nat, enabled: bool, now: Time)
    : Option<RejectionReason>
  {
    var early := EarlyReason(enabled, bytes, 8_192, w.origin, w.signer, w.slug);
    if early.Some? then early
    else if IsWithdrawalReplay(s, w) then None
    else if RateLimitWouldExceed(s.runtime, w.origin, now) then Some(RateLimited)
    else if !Authentic(w) then Some(RejectionReason.InvalidSignature)
    else if !WithdrawalRetainable(s.slots, w) then Some(StaleLease)
    else None
  }

  lemma WithdrawalRefusalReason(s: NodeState, w: Withdrawal, bytes: nat, enabled: bool, now: Time)
    requires SoundSlots(s.slots)
    ensures var r, reason := AdmitWithdrawal(s, w, bytes, enabled, now).result,
        ReasonAgainstWithdrawal(s, w, bytes, enabled, now);
      (r.Err? <==> reason.Some?) && (r.Err? ==> r.error == reason.value)
  {
    EarlyReasonExactly(enabled, bytes, MAX_WITHDRAWAL_PAYLOAD_BYTES, w.origin, w.signer, w.slug);
    WithdrawalRetainedExactly(s, w, None, now);
  }

  lemma OkWithdrawal(s: NodeState, w: Withdrawal, bytes: nat, enabled: bool, now: Time)
    requires AdmitWithdrawal(s, w, bytes, enabled, now).result.Ok?
    ensures var r, kept := AdmitWithdrawal(s, w, bytes, enabled, now), RetainWithdrawal(s, w, None, now);
      && (r.result.value.idempotent <==> IsWithdrawalReplay(s, w))
      && (IsWithdrawalReplay(s, w) ==> r.state == s)
      && (!IsWithdrawalReplay(s, w) ==>
            && kept.result.Ok? && r.state == WithdrawalRow(RecordAdmission(kept.state, w.origin, now), w, now)
            && r.result.value.known == kept.result.value
            && r.result.value.sequence == Some(s.Ensured().nextSequence))
  {
  }

  lemma WithdrawalRowWritten(s: NodeState, w: Withdrawal, now: Time)
    ensures WithdrawalRow(s, w, now).stream.history ==
      s.stream.history + [Entry(s.Ensured().nextSequence, now, Withdrawn, w.origin, w.slug, WithdrawalPayload(w))]
  {
  }

  lemma KeptWithdrawal(s: NodeState, w: Withdrawal, now: Time)
    requires RetainWithdrawal(s, w, None, now).result.Ok? && !IsWithdrawalReplay(s, w)
    ensures var r := RetainWithdrawal(s, w, None, now);
      && r.result.value == KnownWithdrawal(w, None, now)
      && r.state.stream == s.stream && r.state.runtime == s.runtime
  {
  }

  lemma WithdrawalRefusalRejects(s: NodeState, w: Withdrawal, bytes: nat, enabled: bool, now: Time)
    requires AdmitWithdrawal(s, w, bytes, enabled, now).result.Err?
    ensures var r := AdmitWithdrawal(s, w, bytes, enabled, now);
      r.state.audits == Reject(s, Audit(w.origin, w.signer.publicKey, w.slug, r.result.error, now)).audits
  {
  }

  /** Every refused withdrawal is audited likewise. */
  lemma WithdrawalRefusalIsAudited(s: NodeState, w: Withdrawal, bytes: nat, enabled: bool, now: Time)
    requires AdmitWithdrawal(s, w, bytes, enabled, now).result.Err?
    ensures var r := AdmitWithdrawal(s, w, bytes, enabled, now);
      var audit := Audit(w.origin, w.signer.publicKey, w.slug, r.result.error, now);
      && r.state.audits != [] && r.state.audits[|r.state.audits| - 1] == audit
      && r.state.audits == Survivors(s.audits + [audit], now)
  {
    var reason := AdmitWithdrawal(s, w, bytes, enabled, now).result.error;
    var audit := Audit(w.origin, w.signer.publicKey, w.slug, reason, now);
    WithdrawalRefusalRejects(s, w, bytes, enabled, now);
    PruningKeepsSurvivors(s.audits + [audit], now);
    AuditsAreBounded(s, audit);
  }

  /** An accepted withdrawal leaves one row, whether or not its key was admitted; a repetition leaves none. */
  lemma WithdrawalOutcome(s: NodeState, w: Withdrawal, bytes: nat, enabled: bool, now: Time)
    requires s.Ensured().nextSequence == |s.stream.history| + 1
    requires AdmitWithdrawal(s, w, bytes, enabled, now).result.Ok?
    ensures var r := AdmitWithdrawal(s, w, bytes, enabled, now);
      && (r.result.value.idempotent <==> IsWithdrawalReplay(s, w))
      && (r.result.value.idempotent ==> r.state == s)
      && (!r.result.value.idempotent ==>
            && r.result.value.sequence == Some(|s.stream.history| + 1)
            && r.result.value.known == KnownWithdrawal(w, None, now)
            && r.state.stream.history ==
                 s.stream.history + [NextRow(s, Withdrawn, w.origin, w.slug, WithdrawalPayload(w), now)])
  {
    OkWithdrawal(s, w, bytes, enabled, now);
    if !IsWithdrawalReplay(s, w) {
      KeptWithdrawal(s, w, now);
      WithdrawalRowWritten(RecordAdmission(RetainWithdrawal(s, w, None, now).state, w.origin, now), w, now);
    }
  }

  // ----- the sweep -----

  /** The row that closes the `i`-th of `keys`. */
  function ClosingRow(s: NodeState, key: PodKey, i: nat, now: Time): Entry
    requires key in s.slots.announcements
  {
    Entry(|s.stream.history| + 1 + i, now, Expired, key.0, key.1,
          AnnouncementPayload(s.slots.announcements[key].announcement))
  }

  /** The admitted keys whose lease is over, by Origin and slug. */
  function LapsedKeys(s: NodeState, now: Time): set<PodKey> {
    set k | k in s.Ensured().admittedKeys && k in s.slots.announcements
            && s.slots.announcements[k].announcement.expiresAt <= now
  }

  /** `a` is kept under its key in `keys`, and its lease is over. */
  predicate IsOver(s: Slots, keys: seq<PodKey>, a: Announcement, now: Time) {
    && a.Key() in keys && a.Key() in s.announcements && s.announcements[a.Key()].announcement == a
    && a.expiresAt <= now
  }

  lemma {:induction false} LapsedMembers(s: Slots, keys: seq<PodKey>, a: Announcement, now: Time)
    requires SoundSlots(s)
    ensures a in Lapsed(s, keys, now) <==> IsOver(s, keys, a, now)
  {
    if keys != [] {
      var front, k := keys[..|keys| - 1], keys[|keys| - 1];
      LapsedMembers(s, front, a, now);
      assert keys == front + [k];
      assert OwnKey(s.At(k), k);
    }
  }

  predicate ByKey(l: seq<Announcement>) {
    forall i, j :: 0 <= i < j < |l| ==> KeyLess(l[i].Key(), l[j].Key())
  }

  lemma ByKeySnoc(l: seq<Announcement>, a: Announcement)
    requires ByKey(l) && forall i :: 0 <= i < |l| ==> KeyLess(l[i].Key(), a.Key())
    ensures ByKey(l + [a])
  {
  }

  lemma {:induction false} LapsedByKey(s: Slots, keys: seq<PodKey>, now: Time)
    requires SoundSlots(s) && forall i, j :: 0 <= i < j < |keys| ==> KeyLess(keys[i], keys[j])
    ensures ByKey(Lapsed(s, keys, now))
  {
    if keys != [] {
      var front, k := keys[..|keys| - 1], keys[|keys| - 1];
      LapsedByKey(s, front, now);
      var before := Lapsed(s, front, now);
      forall i | 0 <= i < |before| ensures KeyLess(before[i].Key(), k) {
        LapsedMembers(s, front, before[i], now);
      }
      if k in s.announcements {
        assert OwnKey(s.At(k), k);
        ByKeySnoc(before, s.announcements[k].announcement);
      }
    }
  }

  /** From position `n` on, `t` has one row for each of `l`. */
  predicate HasExpiredRows(t: seq<Entry>, n: nat, l: seq<Announcement>, now: Time) {
    && |t| == n + |l|
    && forall i :: 0 <= i < |l| ==>
         t[n + i] == Entry(n + 1 + i, now, Expired, l[i].origin, l[i].slug, AnnouncementPayload(l[i]))
  }

  lemma OneExpiredRow(s: NodeState, a: Announcement, now: Time)
    requires s.Ensured().nextSequence == |s.stream.history| + 1
    ensures var t, n := ExpireOne(s, a, now), |s.stream.history|;
      && t.stream.history ==
           s.stream.history + [Entry(n + 1, now, Expired, a.origin, a.slug, AnnouncementPayload(a))]
      && t.Ensured().nextSequence == n + 2
  {
  }

  lemma ExpiredRowsSnoc(t: seq<Entry>, n: nat, l: seq<Announcement>, now: Time)
    requires l != [] && t != [] && HasExpiredRows(t[..|t| - 1], n, l[..|l| - 1], now)
    requires var a := l[|l| - 1];
      t[|t| - 1] == Entry(|t|, now, Expired, a.origin, a.slug, AnnouncementPayload(a))
    ensures HasExpiredRows(t, n, l, now)
  {
    var front := t[..|t| - 1];
    forall i | 0 <= i < |l| - 1 ensures t[n + i] == front[n + i] && l[i] == l[..|l| - 1][i] {}
  }

  lemma {:induction false} ExpiredRows(s: NodeState, l: seq<Announcement>, now: Time)
    requires s.Ensured().nextSequence == |s.stream.history| + 1
    ensures var t := ExpireAll(s, l, now);
      && s.stream.history <= t.stream.history && HasExpiredRows(t.stream.history, |s.stream.history|, l, now)
      && t.Ensured().nextSequence == |t.stream.history| + 1
  {
    if l != [] {
      var before := ExpireAll(s, l[..|l| - 1], now);
      var t := ExpireAll(s, l, now).stream.history;
      ExpiredRows(s, l[..|l| - 1], now);
      OneExpiredRow(before, l[|l| - 1], now);
      assert t[..|t| - 1] == before.stream.history;
      ExpiredRowsSnoc(t, |s.stream.history|, l, now);
    }
  }

  function KeysOf(l: seq<Announcement>): seq<PodKey> { seq(|l|, i requires 0 <= i < |l| => l[i].Key()) }

  lemma LapsedKeysAre(s: NodeState, l: seq<Announcement>, now: Time)
    requires SoundSlots(s.slots)
    requires forall a :: a in l <==> IsOver(s.slots, InOrder(s.Ensured().admittedKeys), a, now)
    ensures forall k :: k in KeysOf(l) <==> k in LapsedKeys(s, now)
  {
    forall k ensures k in KeysOf(l) <==> k in LapsedKeys(s, now) {
      if k in LapsedKeys(s, now) {
        var a := s.slots.announcements[k].announcement;
        assert OwnKey(s.slots.At(k), k) && a in l;
        var i :| 0 <= i < |l| && l[i] == a;
        assert KeysOf(l)[i] == k;
      }
      if i :| 0 <= i < |l| && KeysOf(l)[i] == k { assert l[i] in l; }
    }
  }

  lemma RowsAreClosing(s: NodeState, t: seq<Entry>, l: seq<Announcement>, now: Time)
    requires HasExpiredRows(t, |s.stream.history|, l, now)
    requires forall a :: a in l ==>
                           && a.Key() in s.slots.announcements
                           && s.slots.announcements[a.Key()].announcement == a
    ensures var keys := KeysOf(l);
      forall i :: 0 <= i < |keys| ==>
        keys[i] in s.slots.announcements && t[|s.stream.history| + i] == ClosingRow(s, keys[i], i, now)
  {
    forall i | 0 <= i < |l|
      ensures l[i].Key() in s.slots.announcements
      ensures t[|s.stream.history| + i] == ClosingRow(s, l[i].Key(), i, now)
    {
      assert l[i] in l;
    }
  }

  lemma OrphansLeaveLog(s: NodeState)
    ensures DropOrphans(s).stream == s.stream
    ensures DropOrphans(s).Ensured().nextSequence == s.Ensured().nextSequence
  {
  }

  lemma SweepIsExpiry(s: NodeState, l: seq<Announcement>, now: Time)
    requires l == Lapsed(s.slots, InOrder(s.Ensured().admittedKeys), now)
    ensures Sweep(s, now) == ExpireAll(DropOrphans(s), l, now)
  {
  }

  /** The rows of a sweep, in terms of the lapsed announcements it finds. */
  lemma SweepWrites(s: NodeState, now: Time) returns (l: seq<Announcement>)
    requires SoundSlots(s.slots) && s.Ensured().nextSequence == |s.stream.history| + 1
    ensures forall a :: a in l <==> IsOver(s.slots, InOrder(s.Ensured().admittedKeys), a, now)
    ensures forall i, j :: 0 <= i < j < |l| ==> KeyLess(l[i].Key(), l[j].Key())
    ensures var h, t := s.stream.history, Sweep(s, now).stream.history;
      h <= t && HasExpiredRows(t, |h|, l, now)
  {
    var keys := InOrder(s.Ensured().admittedKeys);
    l := Lapsed(s.slots, keys, now);
    LapsedByKey(s.slots, keys, now);
    forall a ensures a in l <==> IsOver(s.slots, keys, a, now) { LapsedMembers(s.slots, keys, a, now); }
    OrphansLeaveLog(s);
    var t := DropOrphans(s);
    ExpiredRows(t, l, now);
    SweepIsExpiry(s, l, now);
  }

  /** A sweep appends one `Expired` row for each lapsed admitted key, by Origin and slug, and no other. */
  lemma SweepRows(s: NodeState, now: Time) returns (keys: seq<PodKey>)
    requires SoundSlots(s.slots) && s.Ensured().nextSequence == |s.stream.history| + 1
    ensures forall k :: k in keys <==> k in LapsedKeys(s, now)
    ensures forall i, j :: 0 <= i < j < |keys| ==> KeyLess(keys[i], keys[j])
    ensures var h, t := s.stream.history, Sweep(s, now).stream.history;
      && |t| == |h| + |keys| && h <= t
      && forall i :: 0 <= i < |keys| ==>
           keys[i] in s.slots.announcements && t[|h| + i] == ClosingRow(s, keys[i], i, now)
  {
    var l := SweepWrites(s, now);
    LapsedKeysAre(s, l, now);
    RowsAreClosing(s, Sweep(s, now).stream.history, l, now);
    keys := KeysOf(l);
  }
}
