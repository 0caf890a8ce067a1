/** Open Bootstrap admission of announcements and withdrawals. */
module BootstrapAdmission {
  import opened Wrappers
  import opened Artifacts
  import opened Retention
  import opened SlotMaps
  import opened StreamLog
  import opened RateWindow
  import opened Nodes
  import opened Cursors
  import opened PodAnnouncements
  import opened BootstrapStream

  const MAX_ANNOUNCEMENT_PAYLOAD_BYTES: nat := 16_384
  const MAX_WITHDRAWAL_PAYLOAD_BYTES: nat := 8_192
  const ADMISSION_LIMITS := Limits(512, 24)
  const MAX_ACTIVE_ANNOUNCEMENTS_PER_ORIGIN: nat := 8

  /** What a probe of the Origin's public manifest saw. */
  datatype ManifestView = ManifestView(
    protocolVersion: string,
    slug: string,
    name: string,
    subject: string,
    packageVersion: int,
    latestEventHash: Option<string>,
    visibilityPublic: bool,
    origin: Option<NodeId>)

  datatype ProbeError = Unreachable | NoManifest

  /** Exactly one of the admission outcomes. */
  datatype OutcomeKind = NewlyAdmitted | LeaseRenewed | Idempotent

  datatype Acceptance = Acceptance(outcome: OutcomeKind, known: KnownAnnouncement, sequence: Option<nat>)

  datatype WithdrawalAcceptance = WithdrawalAcceptance(idempotent: bool, known: KnownWithdrawal, sequence: Option<nat>)

  /** Maps a retention failure onto a stable rejection reason. */
  function MapStoreError(e: StoreError): RejectionReason {
    match e
    case InvalidSignature => RejectionReason.InvalidSignature
    case AnnouncementExpired => StaleLease
    case AnnouncementStale => StaleLease
    case WithdrawalStale => StaleLease
    case AnnouncementWithdrawn => RejectionReason.AnnouncementWithdrawn
    case Validation => Malformed
    case NotFound => Malformed
    case Duplicate => Malformed
    case TenantBoundary => Malformed
    case UntrustedPeer => Malformed
  }

  function ManifestMismatchOf(a: Announcement, v: ManifestView): Option<RejectionReason> {
    if !v.visibilityPublic || v.slug != a.slug || v.name != a.name || v.subject != a.subject
       || v.packageVersion != a.packageVersion || v.latestEventHash != a.latestEventHash
       || (v.origin.Some? && v.origin.value != a.origin)
    then Some(ManifestMismatch)
    else if v.protocolVersion != CURRENT_PROTOCOL_VERSION then Some(IncompatibleProtocol)
    else None
  }

  /** The gates that look at the submission alone. */
  function GateRefusal(enabled: bool, bytes: nat, maxBytes: nat, origin: NodeId, signer: Signer, slug: string)
    : Option<RejectionReason>
  {
    if !enabled then Some(BootstrapDisabled)
    else if bytes > maxBytes then Some(PayloadTooLarge)
    else if origin != signer.nodeId || Trim(signer.publicKey) == [] || Trim(slug) == [] then Some(InvalidIdentity)
    else if signer.protocolVersion != CURRENT_PROTOCOL_VERSION then Some(IncompatibleProtocol)
    else None
  }

  predicate RateLimitWouldExceed(rt: Option<Runtime>, origin: NodeId, now: Time) {
    rt.Some? && WouldExceed(rt.value.admissions, origin, now, ADMISSION_LIMITS)
  }

  function RecordAdmission(s: NodeState, origin: NodeId, now: Time): NodeState {
    var rt := s.Ensured();
    s.(runtime := Some(rt.(admissions := Record(rt.admissions, origin, now))), ledger := s.ledger + [(origin, now)])
  }

  method RecordAdmissionAttempt(store: Store, origin: NodeId, now: Time)
    modifies store`runtime, store`ledger
    ensures store.View() == RecordAdmission(old(store.View()), origin, now)
  {
    var rt := store.EnsureBootstrapRuntime();
    var network := Recent(rt.admissions.network, now) + [now];
    var mine := Recent(StoredFor(rt.admissions, origin), now) + [now];
    store.runtime := Some(rt.(admissions := Attempts(network, rt.admissions.byNode[origin := mine])));
    store.ledger := store.ledger + [(origin, now)];
  }

  /** Admitted keys of one Origin whose kept announcement is on offer at `now`. */
  function ActiveOf(slots: Slots, runtime: Option<Runtime>, origin: NodeId, now: Time): set<PodKey> {
    if runtime.None? then {}
    else set k | k in runtime.value.admittedKeys && k.0 == origin && Discoverable(slots.At(k), now).Some?
  }

  function AuditOf(origin: NodeId, signer: Signer, slug: string, reason: RejectionReason, now: Time): Audit {
    Audit(origin, signer.publicKey, slug, reason, now)
  }

  function Refuse<T>(s: NodeState, origin: NodeId, signer: Signer, slug: string, reason: RejectionReason, now: Time)
    : Done<T, RejectionReason>
  {
    Done(Reject(s, AuditOf(origin, signer, slug, reason, now)), Err(reason))
  }

  /** The refusals that look at the node and the Origin, after the idempotent replay. */
  function AdmissionRefusal(s: NodeState, a: Announcement, probe: Result<ManifestView, ProbeError>, now: Time)
    : Option<RejectionReason>
  {
    if RateLimitWouldExceed(s.runtime, a.origin, now) then Some(RateLimited)
    else
      match probe
      case Err(Unreachable) => Some(UnreachableOrigin)
      case Err(NoManifest) => Some(ManifestUnavailable)
      case Ok(view) =>
        if ManifestMismatchOf(a, view).Some? then ManifestMismatchOf(a, view)
        else if !s.IsAdmitted(a.Key())
            && |ActiveOf(s.slots, s.runtime, a.origin, now)| >= MAX_ACTIVE_ANNOUNCEMENTS_PER_ORIGIN
        then Some(OriginQuotaExceeded)
        else None
  }

  predicate IsReplay(s: NodeState, a: Announcement) {
    s.IsAdmitted(a.Key()) && a.Key() in s.slots.announcements && s.slots.announcements[a.Key()].announcement == a
  }

  /** Marks the key, records the admission and writes its lifecycle row. */
  function Accepted(s: NodeState, isNew: bool, a: Announcement, now: Time): NodeState {
    AppendRow(RecordAdmission(Mark(s, a.Key()), a.origin, now), if isNew then Admitted else Renewed,
              a.Key(), AnnouncementPayload(a), now)
  }

  function Admit(s: NodeState, a: Announcement, bytes: nat, probe: Result<ManifestView, ProbeError>, enabled: bool,
      now: Time)
    : Done<Acceptance, RejectionReason>
  {
    var gate := GateRefusal(enabled, bytes, MAX_ANNOUNCEMENT_PAYLOAD_BYTES, a.origin, a.signer, a.slug);
    if gate.Some? then Refuse(s, a.origin, a.signer, a.slug, gate.value, now)
    else if IsReplay(s, a) then Done(s, Ok(Acceptance(Idempotent, s.slots.announcements[a.Key()], None)))
    else
      var refusal := AdmissionRefusal(s, a, probe, now);
      if refusal.Some? then Refuse(s, a.origin, a.signer, a.slug, refusal.value, now)
      else
        var kept := Retain(s, a, LOCAL, now);
        match kept.result
        case Err(e) => Refuse(kept.state, a.origin, a.signer, a.slug, MapStoreError(e), now)
        case Ok(known) =>
          var isNew := !s.IsAdmitted(a.Key());
          Done(Accepted(kept.state, isNew, a, now),
               Ok(Acceptance(if isNew then NewlyAdmitted else LeaseRenewed, known, Some(s.Ensured().nextSequence))))
  }

  /** Every accepted withdrawal leaves a row, whether or not its key was admitted. */
  function WithdrawalRow(s: NodeState, w: Withdrawal, now: Time): NodeState {
    if s.IsAdmitted(w.Key()) then ProjectWithdrawal(s, w, now)
    else AppendRow(s, Withdrawn, w.Key(), WithdrawalPayload(w), now)
  }

  function AdmitWithdrawal(s: NodeState, w: Withdrawal, bytes: nat, enabled: bool, now: Time)
    : Done<WithdrawalAcceptance, RejectionReason>
  {
    var gate := GateRefusal(enabled, bytes, MAX_WITHDRAWAL_PAYLOAD_BYTES, w.origin, w.signer, w.slug);
    if gate.Some? then Refuse(s, w.origin, w.signer, w.slug, gate.value, now)
    else if w.Key() in s.slots.withdrawals && s.slots.withdrawals[w.Key()].withdrawal == w then
      Done(s, Ok(WithdrawalAcceptance(true, s.slots.withdrawals[w.Key()], None)))
    else if RateLimitWouldExceed(s.runtime, w.origin, now) then Refuse(s, w.origin, w.signer, w.slug, RateLimited, now)
    else
      var kept := RetainWithdrawal(s, w, None, now);
      match kept.result
      case Err(e) => Refuse(kept.state, w.origin, w.signer, w.slug, MapStoreError(e), now)
      case Ok(known) =>
        Done(WithdrawalRow(RecordAdmission(kept.state, w.origin, now), w, now),
             Ok(WithdrawalAcceptance(false, known, Some(s.Ensured().nextSequence))))
  }

  // ----- the operations on the store -----

  method AdmitBootstrapAnnouncement(
    store: Store, a: Announcement, bytes: nat, probe: Result<ManifestView, ProbeError>, enabled: bool, now: Time)
    returns (r: Result<Acceptance, RejectionReason>)
    modifies store
    ensures Done(store.View(), r) == Admit(old(store.View()), a, bytes, probe, enabled, now)
  {
    var gate := GateRefusal(enabled, bytes, MAX_ANNOUNCEMENT_PAYLOAD_BYTES, a.origin, a.signer, a.slug);
    if gate.Some? {
      RejectSubmission(store, AuditOf(a.origin, a.signer, a.slug, gate.value, now));
      return Err(gate.value);
    }
    var key := a.Key();
    var isNew := !(store.runtime.Some? && key in store.runtime.value.admittedKeys);
    if !isNew && key in store.announcements && store.announcements[key].announcement == a {
      return Ok(Acceptance(Idempotent, store.announcements[key], None));
    }
    var refusal := CheckAdmission(store, a, probe, isNew, now);
    if refusal.Some? {
      RejectSubmission(store, AuditOf(a.origin, a.signer, a.slug, refusal.value, now));
      return Err(refusal.value);
    }
    var kept := RetainVerifiedPodAnnouncement(store, a, LOCAL, now);
    if kept.Err? {
      RejectSubmission(store, AuditOf(a.origin, a.signer, a.slug, MapStoreError(kept.error), now));
      return Err(MapStoreError(kept.error));
    }
    MarkBootstrapAdmitted(store, key);
    RecordAdmissionAttempt(store, a.origin, now);
    var kind := if isNew then Admitted else Renewed;
    var sequence := AppendStreamEntry(store, kind, key, AnnouncementPayload(a), now);
    return Ok(Acceptance(if isNew then NewlyAdmitted else LeaseRenewed, kept.value, Some(sequence)));
  }

  method CheckAdmission(store: Store, a: Announcement, probe: Result<ManifestView, ProbeError>, isNew: bool, now: Time)
    returns (refusal: Option<RejectionReason>)
    requires isNew == !store.View().IsAdmitted(a.Key())
    ensures refusal == AdmissionRefusal(store.View(), a, probe, now)
  {
    if RateLimitWouldExceed(store.runtime, a.origin, now) { return Some(RateLimited); }
    if probe.Err? {
      return Some(if probe.error.Unreachable? then UnreachableOrigin else ManifestUnavailable);
    }
    var mismatch := ManifestMismatchOf(a, probe.value);
    if mismatch.Some? { return mismatch; }
    if isNew {
      var active := ActiveOf(SlotMaps.Slots.Slots(store.announcements, store.withdrawals), store.runtime, a.origin,
          now);
      if |active| >= MAX_ACTIVE_ANNOUNCEMENTS_PER_ORIGIN { return Some(OriginQuotaExceeded); }
    }
    return None;
  }

  method AdmitBootstrapWithdrawal(store: Store, w: Withdrawal, bytes: nat, enabled: bool, now: Time)
    returns (r: Result<WithdrawalAcceptance, RejectionReason>)
    modifies store
    ensures Done(store.View(), r) == AdmitWithdrawal(old(store.View()), w, bytes, enabled, now)
  {
    var gate := GateRefusal(enabled, bytes, MAX_WITHDRAWAL_PAYLOAD_BYTES, w.origin, w.signer, w.slug);
    if gate.Some? {
      RejectSubmission(store, AuditOf(w.origin, w.signer, w.slug, gate.value, now));
      return Err(gate.value);
    }
    var key := w.Key();
    if key in store.withdrawals && store.withdrawals[key].withdrawal == w {
      return Ok(WithdrawalAcceptance(true, store.withdrawals[key], None));
    }
    if RateLimitWouldExceed(store.runtime, w.origin, now) {
      RejectSubmission(store, AuditOf(w.origin, w.signer, w.slug, RateLimited, now));
      return Err(RateLimited);
    }
    var kept := RetainVerifiedPodWithdrawal(store, w, None, now);
    if kept.Err? {
      RejectSubmission(store, AuditOf(w.origin, w.signer, w.slug, MapStoreError(kept.error), now));
      return Err(MapStoreError(kept.error));
    }
    RecordAdmissionAttempt(store, w.origin, now);
    var sequence := ProjectBootstrapWithdrawal(store, w, now);
    if sequence.None? {
      var q := AppendStreamEntry(store, Withdrawn, key, WithdrawalPayload(w), now);
      sequence := Some(q);
    }
    return Ok(WithdrawalAcceptance(false, kept.value, sequence));
  }
}
