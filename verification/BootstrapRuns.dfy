/** Safety of a Bootstrap node over whole runs. */
module BootstrapRuns {
  import opened Wrappers
  import opened Artifacts
  import opened Retention
  import opened SlotMaps
  import opened StreamLog
  import opened KeyOrder
  import opened Nodes
  import opened PeerServing
  import opened PodAnnouncements
  import opened BootstrapStream
  import opened BootstrapAdmission
  import opened Lifecycle

  /** One operation on the node. Withdrawals from other paths are retained, then projected. */
  datatype Step =
    | Submit(a: Announcement, bytes: nat, probe: Result<ManifestView, ProbeError>, enabled: bool, now: Time)
    | SubmitWithdrawal(w: Withdrawal, bytes: nat, enabled: bool, now: Time)
    | SweepExpiry(now: Time)
    | ReadPage(cursor: Option<string>, limit: Option<nat>, enabled: bool, now: Time)
    | Receive(a: Announcement, from: Provenance, now: Time)
    | ReceiveWithdrawal(w: Withdrawal, peer: Option<Uuid>, now: Time)

  function RetainAndProject(s: NodeState, w: Withdrawal, peer: Option<Uuid>, now: Time): NodeState {
    var kept := RetainWithdrawal(s, w, peer, now);
    if kept.result.Ok? then ProjectWithdrawal(kept.state, kept.result.value.withdrawal, now) else kept.state
  }

  function Apply(s: NodeState, step: Step): NodeState {
    match step
    case Submit(a, bytes, probe, enabled, now) => Admit(s, a, bytes, probe, enabled, now).state
    case SubmitWithdrawal(w, bytes, enabled, now) => AdmitWithdrawal(s, w, bytes, enabled, now).state
    case SweepExpiry(now) => Sweep(s, now)
    case ReadPage(cursor, limit, enabled, now) => Read(s, cursor, limit, enabled, now).state
    case Receive(a, from, now) => Retain(s, a, from, now).state
    case ReceiveWithdrawal(w, peer, now) => RetainAndProject(s, w, peer, now)
  }

  function ApplyAll(s: NodeState, steps: seq<Step>): NodeState {
    if steps == [] then s else Apply(ApplyAll(s, steps[..|steps| - 1]), steps[|steps| - 1])
  }

  // ----- log replay -----

  /** The admitted set is what the complete log says it is. */
  ghost predicate Replays(s: NodeState) {
    forall k :: s.IsAdmitted(k) <==> Open(s.stream.history, k)
  }

  /** The log is a legal, correctly windowed record of lifecycle rows. */
  ghost predicate LogInv(s: NodeState) {
    Window(s.stream, s.Ensured().nextSequence) && Legal(s.stream.history)
  }

  /** Every admitted key keeps an announcement and no withdrawal. */
  ghost predicate Held(s: NodeState) {
    forall k :: s.IsAdmitted(k) ==> k in s.slots.announcements && k !in s.slots.withdrawals
  }

  ghost predicate NodeInv(s: NodeState) {
    SoundSlots(s.slots) && LogInv(s) && Replays(s) && Held(s) && PeerWindow(s.peer)
  }

  /** What appending a legal row does, and that it touches nothing else. */
  lemma AppendRowEffect(s: NodeState, kind: EventKind, key: PodKey, payload: Payload, now: Time)
    requires LogInv(s)
    requires LegalNext(s.stream.history, StreamRow(s.Ensured().nextSequence, kind, key, payload, now))
    ensures var t := AppendRow(s, kind, key, payload, now);
      && LogInv(t)
      && t.runtime == Some(s.Ensured().(nextSequence := s.Ensured().nextSequence + 1))
      && t.slots == s.slots && t.peer == s.peer && t.ledger == s.ledger && t.audits == s.audits
      && (forall k :: Open(t.stream.history, k) == if k == key then Opens(kind) else Open(s.stream.history, k))
  {
    var row := StreamRow(s.Ensured().nextSequence, kind, key, payload, now);
    AppendKeepsWindow(s.stream, s.Ensured().nextSequence, row);
    LegalAfter(s.stream.history, row);
    forall k ensures Open(s.stream.history + [row], k) == if k == key then Opens(kind) else Open(s.stream.history, k) {
      OpenAfter(s.stream.history, row, k);
    }
  }

  // ----- expiry -----

  function KeySet(l: seq<Announcement>): set<PodKey> {
    if l == [] then {} else KeySet(l[..|l| - 1]) + {l[|l| - 1].Key()}
  }

  predicate DistinctKeys(l: seq<Announcement>) {
    l == [] || (DistinctKeys(l[..|l| - 1]) && l[|l| - 1].Key() !in KeySet(l[..|l| - 1]))
  }

  predicate IsLapsed(s: Slots, k: PodKey, now: Time) {
    k in s.announcements && !s.announcements[k].announcement.LeaseIsActive(now)
  }

  lemma {:induction false} LapsedAre(s: Slots, keys: seq<PodKey>, now: Time)
    requires SoundSlots(s)
    requires forall i, j :: 0 <= i < j < |keys| ==> keys[i] != keys[j]
    ensures DistinctKeys(Lapsed(s, keys, now))
    ensures forall k :: k in KeySet(Lapsed(s, keys, now)) <==> k in keys && IsLapsed(s, k, now)
  {
    if keys != [] {
      var front, k := keys[..|keys| - 1], keys[|keys| - 1];
      LapsedAre(s, front, now);
      assert OwnKey(s.At(k), k);
      assert keys == front + [k] && k !in front;
      var before, after := Lapsed(s, front, now), Lapsed(s, keys, now);
      if after != before {
        assert after[..|after| - 1] == before;
      }
    }
  }

  /** Between `s` and `t` only the log and the admitted set moved. */
  predicate OnlyLifecycle(s: NodeState, t: NodeState) {
    && t.slots == s.slots && t.peer == s.peer && t.ledger == s.ledger && t.audits == s.audits
    && t.runtime.Some? && t.runtime.value.admissions == s.Ensured().admissions
  }

  lemma ExpireOneEffect(s: NodeState, a: Announcement, now: Time)
    requires LogInv(s) && Open(s.stream.history, a.Key())
    ensures var t := ExpireOne(s, a, now);
      && LogInv(t) && OnlyLifecycle(s, t)
      && t.Ensured().admittedKeys == s.Ensured().admittedKeys - {a.Key()}
      && (forall k :: Open(t.stream.history, k) <==> k != a.Key() && Open(s.stream.history, k))
  {
    AppendRowEffect(s, Expired, a.Key(), AnnouncementPayload(a), now);
  }

  lemma {:induction false} ExpireAllEffect(s: NodeState, l: seq<Announcement>, now: Time)
    requires LogInv(s) && DistinctKeys(l) && s.runtime.Some?
    requires forall k :: k in KeySet(l) ==> Open(s.stream.history, k)
    ensures var t := ExpireAll(s, l, now);
      && LogInv(t) && OnlyLifecycle(s, t)
      && t.Ensured().admittedKeys == s.Ensured().admittedKeys - KeySet(l)
      && (forall k :: Open(t.stream.history, k) <==> Open(s.stream.history, k) && k !in KeySet(l))
  {
    if l != [] {
      ExpireAllEffect(s, l[..|l| - 1], now);
      ExpireOneEffect(ExpireAll(s, l[..|l| - 1], now), l[|l| - 1], now);
    }
  }

  /**
   After a sweep, exactly the admitted keys with a running lease stay admitted; the log closes
   the lapsed ones and says nothing about orphans.
   */
  lemma SweepEffect(s: NodeState, now: Time)
    requires SoundSlots(s.slots) && LogInv(s) && Replays(s)
    ensures var t := Sweep(s, now);
      && LogInv(t) && OnlyLifecycle(s, t)
      && (forall k :: t.IsAdmitted(k) <==> s.IsAdmitted(k) && k in s.slots.announcements && !IsLapsed(s.slots, k, now))
      && (forall k :: Open(t.stream.history, k) <==> s.IsAdmitted(k) && !IsLapsed(s.slots, k, now))
  {
    var keys := InOrder(s.Ensured().admittedKeys);
    forall i, j | 0 <= i < j < |keys| ensures keys[i] != keys[j] {
      TextOrder(keys[i].1, keys[j].1);
    }
    LapsedAre(s.slots, keys, now);
    ExpireAllEffect(DropOrphans(s), Lapsed(s.slots, keys, now), now);
  }

  /** A sweep keeps the admitted set equal to the replayed log exactly when it finds no orphan. */
  lemma SweepKeepsReplayExactly(s: NodeState, now: Time)
    requires SoundSlots(s.slots) && LogInv(s) && Replays(s)
    ensures Replays(Sweep(s, now)) <==> forall k :: s.IsAdmitted(k) ==> k in s.slots.announcements
  {
    SweepEffect(s, now);
    var t := Sweep(s, now);
    forall k | s.IsAdmitted(k) && k !in s.slots.announcements
      ensures !Replays(t)
    {
      assert Open(t.stream.history, k) && !t.IsAdmitted(k);
    }
  }

  /**
   A withdrawal that is retained without being projected (the stream-sync path) makes the next
   sweep lose a key silently exactly when it removed the announcement of an admitted key.
   */
  lemma UnprojectedWithdrawalBreaksReplay(s: NodeState, w: Withdrawal, peer: Option<Uuid>, at: Time, now: Time)
    requires NodeInv(s) && RetainWithdrawal(s, w, peer, at).result.Ok?
    ensures Replays(Sweep(RetainWithdrawal(s, w, peer, at).state, now)) <==>
      !(s.IsAdmitted(w.Key()) && s.slots.announcements[w.Key()].announcement.announcedAt <= w.withdrawnAt)
  {
    var t := RetainWithdrawal(s, w, peer, at).state;
    DeliverAtKeepsSound(s.slots, OfWithdrawal(w, peer, at));
    SweepKeepsReplayExactly(t, now);
    forall k | t.IsAdmitted(k) && k != w.Key() ensures k in t.slots.announcements {
      DeliverAtOne(s.slots, OfWithdrawal(w, peer, at), k);
      assert t.slots.At(k) == s.slots.At(k);
    }
    DeliverAtOne(s.slots, OfWithdrawal(w, peer, at), w.Key());
    assert w.Key() in t.slots.announcements <==> t.slots.At(w.Key()).ann.Some?;
  }

  // ----- each step keeps the invariant -----

  lemma SweepKeeps(s: NodeState, now: Time)
    requires NodeInv(s)
    ensures NodeInv(Sweep(s, now))
  {
    SweepEffect(s, now);
  }

  lemma RetainKeeps(s: NodeState, a: Announcement, from: Provenance, now: Time)
    requires NodeInv(s)
    ensures NodeInv(Retain(s, a, from, now).state)
    ensures Retain(s, a, from, now).result.Ok? ==>
      a.Key() in Retain(s, a, from, now).state.slots.announcements
          && a.Key() !in Retain(s, a, from, now).state.slots.withdrawals
  {
    var d := OfAnnouncement(a, from, now);
    var t := Retain(s, a, from, now).state;
    DeliverAtKeepsSound(s.slots, d);
    ProjectKeepsWindow(s.peer, a, now);
    DeliverAtOne(s.slots, d, a.Key());
    forall k | s.IsAdmitted(k) ensures k in t.slots.announcements && k !in t.slots.withdrawals {
      DeliverAtOne(s.slots, d, k);
      assert s.slots.At(k).ann.Some? && s.slots.At(k).wd.None?;
      assert t.slots.At(k).ann.Some? && t.slots.At(k).wd.None?;
    }
  }

  /** Accepting `a` into a node that holds it and no withdrawal of its key keeps the invariant. */
  lemma AcceptedKeeps(s: NodeState, isNew: bool, a: Announcement, now: Time)
    requires NodeInv(s) && isNew == !s.IsAdmitted(a.Key())
    requires a.Key() in s.slots.announcements && a.Key() !in s.slots.withdrawals
    ensures NodeInv(Accepted(s, isNew, a, now))
    ensures Accepted(s, isNew, a, now).Ensured().admittedKeys == s.Ensured().admittedKeys + {a.Key()}
    ensures Accepted(s, isNew, a, now).slots == s.slots
  {
    var marked := RecordAdmission(Mark(s, a.Key()), a.origin, now);
    assert LogInv(marked);
    AppendRowEffect(marked, if isNew then Admitted else Renewed, a.Key(), AnnouncementPayload(a), now);
  }

  lemma SubmitKeeps(s: NodeState, a: Announcement, bytes: nat, probe: Result<ManifestView, ProbeError>, enabled: bool,
      now: Time)
    requires NodeInv(s)
    ensures NodeInv(Admit(s, a, bytes, probe, enabled, now).state)
  {
    RetainKeeps(s, a, LOCAL, now);
    var kept := Retain(s, a, LOCAL, now);
    if kept.result.Ok? {
      AcceptedKeeps(kept.state, !s.IsAdmitted(a.Key()), a, now);
    }
    SubmitCases(s, a, bytes, probe, enabled, now);
  }

  /** A submission changes nothing but the audits, or retains and then perhaps accepts. */
  lemma SubmitCases(s: NodeState, a: Announcement, bytes: nat, probe: Result<ManifestView, ProbeError>, enabled: bool,
      now: Time)
    ensures var r := Admit(s, a, bytes, probe, enabled, now);
      var kept := Retain(s, a, LOCAL, now);
      || r.state == s
      || (exists audit :: r.state == Reject(s, audit))
      || (kept.result.Err? && exists audit :: r.state == Reject(kept.state, audit))
      || (kept.result.Ok? && r.state == Accepted(kept.state, !s.IsAdmitted(a.Key()), a, now))
  {
  }

  /** The invariant, but the key `x` may be admitted without being held. */
  ghost predicate InvExcept(s: NodeState, x: PodKey) {
    && SoundSlots(s.slots) && LogInv(s) && Replays(s) && PeerWindow(s.peer)
    && forall k :: k != x && s.IsAdmitted(k) ==> k in s.slots.announcements && k !in s.slots.withdrawals
  }

  lemma WithdrawKeepsRest(s: NodeState, w: Withdrawal, peer: Option<Uuid>, now: Time)
    requires NodeInv(s)
    ensures InvExcept(RetainWithdrawal(s, w, peer, now).state, w.Key())
  {
    var t := RetainWithdrawal(s, w, peer, now).state;
    DeliverAtKeepsSound(s.slots, OfWithdrawal(w, peer, now));
    forall k | k != w.Key() && t.IsAdmitted(k) ensures k in t.slots.announcements && k !in t.slots.withdrawals {
      DeliverAtOne(s.slots, OfWithdrawal(w, peer, now), k);
      assert t.slots.At(k) == s.slots.At(k);
    }
  }

  /** Once the key of a withdrawal is closed by a row, the invariant is back. */
  lemma ClosingRowKeeps(s: NodeState, w: Withdrawal, now: Time)
    requires InvExcept(s, w.Key())
    ensures NodeInv(WithdrawalRow(s, w, now))
  {
    var u := if s.IsAdmitted(w.Key()) then Unmark(s, w.Key()) else s;
    assert LogInv(u) && !u.IsAdmitted(w.Key());
    AppendRowEffect(u, Withdrawn, w.Key(), WithdrawalPayload(w), now);
    var end := AppendRow(u, Withdrawn, w.Key(), WithdrawalPayload(w), now);
    assert WithdrawalRow(s, w, now) == end;
    assert forall k :: end.IsAdmitted(k) <==> k != w.Key() && s.IsAdmitted(k);
  }

  /** A submitted withdrawal changes nothing but the audits, or is retained and leaves a row. */
  lemma SubmitWithdrawalCases(s: NodeState, w: Withdrawal, bytes: nat, enabled: bool, now: Time)
    ensures var r := AdmitWithdrawal(s, w, bytes, enabled, now);
      var kept := RetainWithdrawal(s, w, None, now);
      || r.state == s
      || (exists audit :: r.state == Reject(s, audit))
      || (kept.result.Ok? && r.state == WithdrawalRow(RecordAdmission(kept.state, w.origin, now), w, now))
  {
    var kept := RetainWithdrawal(s, w, None, now);
    if kept.result.Err? {
      PutUnchanged(s.slots, w.Key());
      assert kept.state == s;
    }
  }

  lemma SubmitWithdrawalKeeps(s: NodeState, w: Withdrawal, bytes: nat, enabled: bool, now: Time)
    requires NodeInv(s)
    ensures NodeInv(AdmitWithdrawal(s, w, bytes, enabled, now).state)
  {
    var kept := RetainWithdrawal(s, w, None, now);
    if kept.result.Ok? {
      WithdrawKeepsRest(s, w, None, now);
      ClosingRowKeeps(RecordAdmission(kept.state, w.origin, now), w, now);
    }
    SubmitWithdrawalCases(s, w, bytes, enabled, now);
  }

  lemma ReceiveWithdrawalKeeps(s: NodeState, w: Withdrawal, peer: Option<Uuid>, now: Time)
    requires NodeInv(s)
    ensures NodeInv(RetainAndProject(s, w, peer, now))
  {
    var kept := RetainWithdrawal(s, w, peer, now);
    if kept.result.Err? {
      PutUnchanged(s.slots, w.Key());
      assert kept.state == s;
    } else {
      assert kept.result.value.withdrawal == w;
      WithdrawKeepsRest(s, w, peer, now);
      if s.IsAdmitted(w.Key()) {
        ClosingRowKeeps(kept.state, w, now);
      }
    }
  }

  lemma StepKeeps(s: NodeState, step: Step)
    requires NodeInv(s)
    ensures NodeInv(Apply(s, step))
  {
    match step
    case Submit(a, bytes, probe, enabled, now) => SubmitKeeps(s, a, bytes, probe, enabled, now);
    case SubmitWithdrawal(w, bytes, enabled, now) => SubmitWithdrawalKeeps(s, w, bytes, enabled, now);
    case SweepExpiry(now) => SweepKeeps(s, now);
    case ReadPage(cursor, limit, enabled, now) => SweepKeeps(s, now);
    case Receive(a, from, now) => RetainKeeps(s, a, from, now);
    case ReceiveWithdrawal(w, peer, now) => ReceiveWithdrawalKeeps(s, w, peer, now);
  }

  lemma NewNodeInv()
    ensures NodeInv(NEW_NODE)
  {
  }

  /** Log replay, lifecycle grammar, log window and held artifacts, in every reachable state. */
  lemma {:induction false} RunKeepsInv(steps: seq<Step>)
    ensures NodeInv(ApplyAll(NEW_NODE, steps))
  {
    if steps == [] {
      NewNodeInv();
    } else {
      RunKeepsInv(steps[..|steps| - 1]);
      StepKeeps(ApplyAll(NEW_NODE, steps[..|steps| - 1]), steps[|steps| - 1]);
    }
  }
}
