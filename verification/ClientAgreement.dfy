/**
 The lifecycle log tells a client all it needs: whoever got the artifacts of the complete log of
 a Bootstrap node offers, for every key, what the node itself offers.
 */
module ClientAgreement {
  import opened Wrappers
  import opened Artifacts
  import opened Retention
  import opened Convergence
  import opened SlotMaps
  import opened StreamLog
  import opened Lifecycle
  import opened Nodes
  import opened Cursors
  import opened PodAnnouncements
  import opened BootstrapStream
  import opened BootstrapAdmission
  import opened BootstrapRuns
  import opened CursorCoverage
  import opened StreamSync
  import opened SyncRuns

  // ----- what the log says -----

  predicate Announced(h: seq<Entry>, a: Announcement) {
    exists i :: 0 <= i < |h| && Opens(h[i].kind) && h[i].payload == AnnouncementPayload(a)
  }

  predicate Withdrew(h: seq<Entry>, w: Withdrawal) {
    exists i :: 0 <= i < |h| && h[i].kind.Withdrawn? && h[i].payload == WithdrawalPayload(w)
  }

  lemma AnnouncedExtends(h: seq<Entry>, row: Entry, a: Announcement)
    ensures Announced(h + [row], a) <==> Announced(h, a) || (Opens(row.kind) && row.payload == AnnouncementPayload(a))
  {
    if i :| 0 <= i < |h| && Opens(h[i].kind) && h[i].payload == AnnouncementPayload(a) {
      assert (h + [row])[i] == h[i];
    }
    assert (h + [row])[|h|] == row;
  }

  lemma WithdrewExtends(h: seq<Entry>, row: Entry, w: Withdrawal)
    ensures Withdrew(h + [row], w) <==> Withdrew(h, w) || (row.kind.Withdrawn? && row.payload == WithdrawalPayload(w))
  {
    if i :| 0 <= i < |h| && h[i].kind.Withdrawn? && h[i].payload == WithdrawalPayload(w) {
      assert (h + [row])[i] == h[i];
    }
    assert (h + [row])[|h|] == row;
  }

  // ----- what a node keeps is what its log says -----

  /** What the log says of `k` is behind the slot of `k`, and what the slot keeps is in the log. */
  ghost predicate Mirrors(h: seq<Entry>, slot: Slot, k: PodKey) {
    && (forall a :: Announced(h, a) && a.Key() == k ==> Usable(a) && Settled(slot, a))
    && (forall w :: Withdrew(h, w) && w.Key() == k ==> w.Verify() && Withheld(slot, w.withdrawnAt))
    && (slot.ann.Some? ==> Announced(h, slot.ann.value.announcement))
    && (slot.wd.Some? ==> Withdrew(h, slot.wd.value.withdrawal))
  }

  /** A delivery that leaves no row and adds nothing keeps the mirror. */
  lemma RefusedMirrors(h: seq<Entry>, slot: Slot, k: PodKey, d: Delivery)
    requires Mirrors(h, slot, k) && Sound(slot)
    requires Deliver(slot, d).ann == slot.ann && (Deliver(slot, d).wd == slot.wd || Deliver(slot, d).wd.None?)
    ensures Mirrors(h, Deliver(slot, d), k)
  {
    forall a | Announced(h, a) && a.Key() == k ensures Settled(Deliver(slot, d), a) {
      DeliverKeepsSettled(slot, d, a);
    }
    forall w | Withdrew(h, w) && w.Key() == k ensures Withheld(Deliver(slot, d), w.withdrawnAt) {
      DeliverKeepsHighWater(slot, d, w.withdrawnAt);
    }
  }

  /** A row of another key, or one that delivers nothing, keeps the mirror. */
  lemma OtherRowMirrors(h: seq<Entry>, slot: Slot, k: PodKey, row: Entry)
    requires Mirrors(h, slot, k)
    requires match row.payload
      case AnnouncementPayload(a) => row.kind.Expired? || a.Key() != k
      case WithdrawalPayload(w) => w.Key() != k
    ensures Mirrors(h + [row], slot, k)
  {
    forall a ensures Announced(h + [row], a) && a.Key() == k ==> Announced(h, a)
      ensures Announced(h, a) ==> Announced(h + [row], a)
    {
      AnnouncedExtends(h, row, a);
    }
    forall w ensures Withdrew(h + [row], w) && w.Key() == k ==> Withdrew(h, w)
      ensures Withdrew(h, w) ==> Withdrew(h + [row], w)
    {
      WithdrewExtends(h, row, w);
    }
  }

  lemma AnnounceMirrors(h: seq<Entry>, slot: Slot, k: PodKey, a: Announcement, now: Time, row: Entry)
    requires Mirrors(h, slot, k) && Sound(slot)
    requires Announce(slot, a, LOCAL, now).result.Ok? && Opens(row.kind) && row.payload == AnnouncementPayload(a)
    ensures Mirrors(h + [row], Announce(slot, a, LOCAL, now).slot, k)
  {
    var d := OfAnnouncement(a, LOCAL, now);
    forall b | Announced(h + [row], b) && b.Key() == k ensures Usable(b) && Settled(Deliver(slot, d), b) {
      AnnouncedExtends(h, row, b);
      if b == a { DeliverySettles(slot, d); } else { DeliverKeepsSettled(slot, d, b); }
    }
    forall w | Withdrew(h + [row], w) && w.Key() == k ensures w.Verify() && Withheld(Deliver(slot, d), w.withdrawnAt) {
      WithdrewExtends(h, row, w);
      DeliverKeepsHighWater(slot, d, w.withdrawnAt);
    }
    AnnouncedExtends(h, row, a);
  }

  lemma WithdrawMirrors(h: seq<Entry>, slot: Slot, k: PodKey, w: Withdrawal, now: Time, row: Entry)
    requires Mirrors(h, slot, k) && Sound(slot)
    requires Withdraw(slot, w, None, now).result.Ok? && row.kind.Withdrawn? && row.payload == WithdrawalPayload(w)
    ensures Mirrors(h + [row], Withdraw(slot, w, None, now).slot, k)
  {
    var d := OfWithdrawal(w, None, now);
    var t := Deliver(slot, d);
    forall a | Announced(h + [row], a) && a.Key() == k ensures Usable(a) && Settled(t, a) {
      AnnouncedExtends(h, row, a);
      DeliverKeepsSettled(slot, d, a);
    }
    forall v | Withdrew(h + [row], v) && v.Key() == k ensures v.Verify() && Withheld(t, v.withdrawnAt) {
      WithdrewExtends(h, row, v);
      if v == w { DeliverySettles(slot, d); } else { DeliverKeepsHighWater(slot, d, v.withdrawnAt); }
    }
    WithdrewExtends(h, row, w);
    if t.ann.Some? { AnnouncedExtends(h, row, t.ann.value.announcement); }
  }

  // ----- every operation -----

  /** The operation brings no artifact of `k` from elsewhere than a submission. */
  predicate OnlySubmits(step: Step, k: PodKey) {
    match step
    case Receive(a, _, _) => a.Key() != k
    case ReceiveWithdrawal(w, _, _) => w.Key() != k
    case _ => true
  }

  ghost predicate Mirrored(s: NodeState, k: PodKey) { Mirrors(s.stream.history, s.slots.At(k), k) }

  lemma {:induction false} ExpireAllMirrors(s: NodeState, l: seq<Announcement>, now: Time, k: PodKey)
    requires Mirrored(s, k)
    ensures Mirrored(ExpireAll(s, l, now), k) && ExpireAll(s, l, now).slots == s.slots
  {
    if l != [] {
      var t, a := ExpireAll(s, l[..|l| - 1], now), l[|l| - 1];
      ExpireAllMirrors(s, l[..|l| - 1], now, k);
      OtherRowMirrors(t.stream.history, t.slots.At(k), k,
        StreamRow(t.Ensured().nextSequence, Expired, a.Key(), AnnouncementPayload(a), now));
    }
  }

  lemma SweepMirrors(s: NodeState, now: Time, k: PodKey)
    requires Mirrored(s, k)
    ensures Mirrored(Sweep(s, now), k)
  {
    ExpireAllMirrors(DropOrphans(s), Lapsed(s.slots, KeyOrder.InOrder(s.Ensured().admittedKeys), now), now, k);
  }

  lemma SubmitMirrors(s: NodeState, a: Announcement, bytes: nat, probe: Result<ManifestView, ProbeError>,
      enabled: bool, now: Time, k: PodKey)
    requires Mirrored(s, k) && SoundSlots(s.slots)
    ensures Mirrored(Admit(s, a, bytes, probe, enabled, now).state, k)
  {
    var d, slot := OfAnnouncement(a, LOCAL, now), s.slots.At(k);
    var kept := Retain(s, a, LOCAL, now);
    SubmitCases(s, a, bytes, probe, enabled, now);
    DeliverAtOne(s.slots, d, k);
    assert Sound(slot);
    if kept.result.Ok? {
      var isNew := !s.IsAdmitted(a.Key());
      var row := StreamRow(s.Ensured().nextSequence, if isNew then Admitted else Renewed, a.Key(),
                           AnnouncementPayload(a), now);
      assert Accepted(kept.state, isNew, a, now).stream.history == s.stream.history + [row];
      if a.Key() == k {
        AnnounceMirrors(s.stream.history, slot, k, a, now, row);
      } else {
        OtherRowMirrors(s.stream.history, slot, k, row);
      }
    } else if a.Key() == k {
      RefusedMirrors(s.stream.history, slot, k, d);
    }
  }

  lemma SubmitWithdrawalMirrors(s: NodeState, w: Withdrawal, bytes: nat, enabled: bool, now: Time, k: PodKey)
    requires Mirrored(s, k) && SoundSlots(s.slots)
    ensures Mirrored(AdmitWithdrawal(s, w, bytes, enabled, now).state, k)
  {
    var kept := RetainWithdrawal(s, w, None, now);
    SubmitWithdrawalCases(s, w, bytes, enabled, now);
    DeliverAtOne(s.slots, OfWithdrawal(w, None, now), k);
    assert Sound(s.slots.At(k));
    if kept.result.Ok? {
      var row := StreamRow(s.Ensured().nextSequence, Withdrawn, w.Key(), WithdrawalPayload(w), now);
      var t := WithdrawalRow(RecordAdmission(kept.state, w.origin, now), w, now);
      assert t.stream.history == s.stream.history + [row] && t.slots == kept.state.slots;
      if w.Key() == k {
        WithdrawMirrors(s.stream.history, s.slots.At(k), k, w, now, row);
      } else {
        OtherRowMirrors(s.stream.history, s.slots.At(k), k, row);
      }
    }
  }

  lemma ReceiveWithdrawalMirrors(s: NodeState, w: Withdrawal, peer: Option<Uuid>, now: Time, k: PodKey)
    requires Mirrored(s, k) && w.Key() != k
    ensures Mirrored(RetainAndProject(s, w, peer, now), k)
  {
    var kept := RetainWithdrawal(s, w, peer, now);
    DeliverAtOne(s.slots, OfWithdrawal(w, peer, now), k);
    if kept.result.Ok? && s.IsAdmitted(w.Key()) {
      OtherRowMirrors(s.stream.history, s.slots.At(k), k,
        StreamRow(s.Ensured().nextSequence, Withdrawn, w.Key(), WithdrawalPayload(w), now));
    }
  }

  lemma StepMirrors(s: NodeState, step: Step, k: PodKey)
    requires Mirrored(s, k) && SoundSlots(s.slots) && OnlySubmits(step, k)
    ensures Mirrored(Apply(s, step), k)
  {
    match step
    case Submit(a, bytes, probe, enabled, now) => SubmitMirrors(s, a, bytes, probe, enabled, now, k);
    case SubmitWithdrawal(w, bytes, enabled, now) => SubmitWithdrawalMirrors(s, w, bytes, enabled, now, k);
    case SweepExpiry(now) => SweepMirrors(s, now, k);
    case ReadPage(_, _, _, now) => SweepMirrors(s, now, k);
    case Receive(a, from, now) => DeliverAtOne(s.slots, OfAnnouncement(a, from, now), k);
    case ReceiveWithdrawal(w, peer, now) => ReceiveWithdrawalMirrors(s, w, peer, now, k);
  }

  /** Over every run the slot of a key and what the log says of it mirror each other. */
  lemma {:induction false} RunMirrors(steps: seq<Step>, k: PodKey)
    requires forall step :: step in steps ==> OnlySubmits(step, k)
    ensures Mirrored(ApplyAll(NEW_NODE, steps), k)
  {
    if steps != [] {
      RunMirrors(steps[..|steps| - 1], k);
      RunKeepsInv(steps[..|steps| - 1]);
      StepMirrors(ApplyAll(NEW_NODE, steps[..|steps| - 1]), steps[|steps| - 1], k);
    }
  }

  // ----- agreement -----

  /** The deliveries bring the artifacts of `k` that the log has, however often and in whatever order. */
  ghost predicate CarriesLog(ds: seq<Delivery>, h: seq<Entry>, k: PodKey) {
    && (forall a | Usable(a) && a.Key() == k :: HasAnnouncement(ds, a) <==> Announced(h, a))
    && (forall w: Withdrawal | w.Verify() && w.Key() == k :: HasWithdrawal(ds, w) <==> Withdrew(h, w))
  }

  lemma OfferIsWinner(h: seq<Entry>, slot: Slot, k: PodKey, ds: seq<Delivery>, t: Time)
    requires Mirrors(h, slot, k) && Sound(slot) && OwnKey(slot, k) && CarriesLog(ds, h, k)
    requires Discoverable(slot, t).Some?
    ensures IsWinner(ForKey(ds, k), t, Discoverable(slot, t).value)
  {
    var a := slot.ann.value.announcement;
    ForKeySelects(ds, k);
    forall b | HasAnnouncement(ForKey(ds, k), b) && Usable(b) ensures !Outranks(b, a) {
      assert Announced(h, b) && Settled(slot, b);
    }
    forall w | HasWithdrawal(ForKey(ds, k), w) && w.Verify() ensures w.withdrawnAt < a.announcedAt {
      assert Withdrew(h, w) && Withheld(slot, w.withdrawnAt);
    }
  }

  lemma WinnerIsOffer(h: seq<Entry>, slot: Slot, k: PodKey, ds: seq<Delivery>, t: Time, x: Announcement)
    requires Mirrors(h, slot, k) && Sound(slot) && OwnKey(slot, k) && CarriesLog(ds, h, k)
    requires IsWinner(ForKey(ds, k), t, x)
    ensures Discoverable(slot, t).Some? && SameRank(Discoverable(slot, t).value, x)
  {
    ForKeySelects(ds, k);
    assert Announced(h, x) && Settled(slot, x);
    if slot.wd.Some? { assert HasWithdrawal(ForKey(ds, k), slot.wd.value.withdrawal); }
    assert slot.ann.Some?;
    assert HasAnnouncement(ForKey(ds, k), slot.ann.value.announcement);
  }

  /** The two offer announcements of one rank, and the same one unless an id was signed twice. */
  ghost predicate Agree(node: Slot, client: Slot, ds: seq<Delivery>, k: PodKey, t: Time) {
    var x, y := Discoverable(node, t), Discoverable(client, t);
    && (x.Some? <==> y.Some?)
    && (x.Some? ==> SameRank(x.value, y.value))
    && (RankedOnce(ForKey(ds, k)) ==> x == y)
  }

  lemma MirrorAgrees(s: NodeState, k: PodKey, ds: seq<Delivery>, t: Time)
    requires Mirrored(s, k) && SoundSlots(s.slots)
    requires DeliveredBy(ds, t) && CarriesLog(ds, s.stream.history, k)
    ensures Agree(s.slots.At(k), DeliverAll(NO_SLOTS, ds).At(k), ds, k, t)
  {
    var h, slot, mine := s.stream.history, s.slots.At(k), ForKey(ds, k);
    KeysAreIndependent(NO_SLOTS, ds, k);
    ForKeySelects(ds, k);
    assert Sound(slot) && OwnKey(slot, k);
    if Discoverable(slot, t).Some? {
      OfferIsWinner(h, slot, k, ds, t);
      WinnerIsOffered(mine, t, Discoverable(slot, t).value);
    }
    if Discoverable(Run(EMPTY, mine), t).Some? {
      OfferedIsWinner(mine, t);
      WinnerIsOffer(h, slot, k, ds, t, Discoverable(Run(EMPTY, mine), t).value);
    }
  }

  /**
   After any run, whatever the clocks did, in which `k` was only submitted: a client that got the
   artifacts of `k` in the complete log by time `t` offers at `t` what the node offers.
   */
  lemma ClientAgrees(steps: seq<Step>, k: PodKey, ds: seq<Delivery>, t: Time)
    requires forall step :: step in steps ==> OnlySubmits(step, k)
    requires DeliveredBy(ds, t) && CarriesLog(ds, ApplyAll(NEW_NODE, steps).stream.history, k)
    ensures Agree(ApplyAll(NEW_NODE, steps).slots.At(k), DeliverAll(NO_SLOTS, ds).At(k), ds, k, t)
  {
    RunMirrors(steps, k);
    RunKeepsInv(steps);
    MirrorAgrees(ApplyAll(NEW_NODE, steps), k, ds, t);
  }

  // ----- applying the log -----

  predicate GoodLog(h: seq<Entry>) { forall i :: 0 <= i < |h| ==> !IsBad(h[i]) }

  lemma {:induction false} ExpireAllIsGood(s: NodeState, l: seq<Announcement>, now: Time)
    requires GoodLog(s.stream.history)
    ensures GoodLog(ExpireAll(s, l, now).stream.history)
  {
    if l != [] { ExpireAllIsGood(s, l[..|l| - 1], now); }
  }

  lemma SubmitIsGood(s: NodeState, a: Announcement, bytes: nat, probe: Result<ManifestView, ProbeError>,
      enabled: bool, now: Time)
    requires GoodLog(s.stream.history)
    ensures GoodLog(Admit(s, a, bytes, probe, enabled, now).state.stream.history)
  {
    SubmitCases(s, a, bytes, probe, enabled, now);
  }

  lemma WithdrawalRowIsGood(s: NodeState, w: Withdrawal, now: Time)
    requires GoodLog(s.stream.history) && w.Verify()
    ensures GoodLog(WithdrawalRow(s, w, now).stream.history) && GoodLog(ProjectWithdrawal(s, w, now).stream.history)
  {
  }

  /** No operation ever writes a row that would fail the page of a client. */
  lemma StepIsGood(s: NodeState, step: Step)
    requires GoodLog(s.stream.history) && SoundSlots(s.slots)
    ensures GoodLog(Apply(s, step).stream.history)
  {
    match step
    case Submit(a, bytes, probe, enabled, now) => SubmitIsGood(s, a, bytes, probe, enabled, now);
    case SubmitWithdrawal(w, bytes, enabled, now) =>
      SubmitWithdrawalCases(s, w, bytes, enabled, now);
      var kept := RetainWithdrawal(s, w, None, now);
      if kept.result.Ok? { WithdrawalRowIsGood(RecordAdmission(kept.state, w.origin, now), w, now); }
    case SweepExpiry(now) =>
      ExpireAllIsGood(DropOrphans(s), Lapsed(s.slots, KeyOrder.InOrder(s.Ensured().admittedKeys), now), now);
    case ReadPage(_, _, _, now) =>
      ExpireAllIsGood(DropOrphans(s), Lapsed(s.slots, KeyOrder.InOrder(s.Ensured().admittedKeys), now), now);
    case Receive(_, _, _) =>
    case ReceiveWithdrawal(w, peer, now) =>
      var kept := RetainWithdrawal(s, w, peer, now);
      if kept.result.Ok? {
        assert kept.result.value.withdrawal == w && w.Verify();
        WithdrawalRowIsGood(kept.state, w, now);
      }
  }

  /** What the log delivers is what it says. */
  lemma {:induction false} LogDelivers(h: seq<Entry>, url: string, t: Time)
    ensures forall a :: HasAnnouncement(DeliveriesOf(h, url, t), a) <==> Announced(h, a)
    ensures forall w :: HasWithdrawal(DeliveriesOf(h, url, t), w) <==> Withdrew(h, w)
    ensures DeliveredBy(DeliveriesOf(h, url, t), t)
  {
    if h != [] {
      LogDelivers(h[1..], url, t);
      forall a ensures HasAnnouncement(DeliveriesOf(h, url, t), a) <==> Announced(h, a) {
        RowDeliversAnnouncement(h, url, t, a);
      }
      forall w ensures HasWithdrawal(DeliveriesOf(h, url, t), w) <==> Withdrew(h, w) {
        RowDeliversWithdrawal(h, url, t, w);
      }
    }
  }

  lemma RowDeliversAnnouncement(h: seq<Entry>, url: string, t: Time, a: Announcement)
    requires h != [] && (HasAnnouncement(DeliveriesOf(h[1..], url, t), a) <==> Announced(h[1..], a))
    ensures HasAnnouncement(DeliveriesOf(h, url, t), a) <==> Announced(h, a)
  {
    var first, rest := DeliveryOf(h[0], url, t), DeliveriesOf(h[1..], url, t);
    var all := DeliveriesOf(h, url, t);
    assert Announced(h, a) <==>
      Announced(h[1..], a) || (Opens(h[0].kind) && h[0].payload == AnnouncementPayload(a)) by
    {
      if i :| 0 <= i < |h[1..]| && Opens(h[1..][i].kind) && h[1..][i].payload == AnnouncementPayload(a) {
        assert h[i + 1] == h[1..][i];
      }
      if i :| 0 < i < |h| && Opens(h[i].kind) && h[i].payload == AnnouncementPayload(a) {
        assert h[1..][i - 1] == h[i];
      }
    }
    if first.Some? {
      assert all[0] == first.value && all[1..] == rest;
      if i :| 0 <= i < |rest| && rest[i].OfAnnouncement? && rest[i].a == a { assert all[i + 1] == rest[i]; }
      if i :| 0 < i < |all| && all[i].OfAnnouncement? && all[i].a == a { assert rest[i - 1] == all[i]; }
    } else {
      assert all == rest;
    }
  }

  lemma RowDeliversWithdrawal(h: seq<Entry>, url: string, t: Time, w: Withdrawal)
    requires h != [] && (HasWithdrawal(DeliveriesOf(h[1..], url, t), w) <==> Withdrew(h[1..], w))
    ensures HasWithdrawal(DeliveriesOf(h, url, t), w) <==> Withdrew(h, w)
  {
    var first, rest := DeliveryOf(h[0], url, t), DeliveriesOf(h[1..], url, t);
    var all := DeliveriesOf(h, url, t);
    assert Withdrew(h, w) <==>
      Withdrew(h[1..], w) || (h[0].kind.Withdrawn? && h[0].payload == WithdrawalPayload(w)) by
    {
      if i :| 0 <= i < |h[1..]| && h[1..][i].kind.Withdrawn? && h[1..][i].payload == WithdrawalPayload(w) {
        assert h[i + 1] == h[1..][i];
      }
      if i :| 0 < i < |h| && h[i].kind.Withdrawn? && h[i].payload == WithdrawalPayload(w) {
        assert h[1..][i - 1] == h[i];
      }
    }
    if first.Some? {
      assert all[0] == first.value && all[1..] == rest;
      if i :| 0 <= i < |rest| && rest[i].OfWithdrawal? && rest[i].w == w { assert all[i + 1] == rest[i]; }
      if i :| 0 < i < |all| && all[i].OfWithdrawal? && all[i].w == w { assert rest[i - 1] == all[i]; }
    } else {
      assert all == rest;
    }
  }

  /** A new node that applies rows of a good log at `t` applies them all, and keeps what they deliver. */
  lemma GoodLogApplies(h: seq<Entry>, url: string, t: Time)
    requires GoodLog(h)
    ensures var r := ApplyEntries(NEW_NODE, url, h, t, NO_COUNTS);
      r.result.Ok? && r.state.slots == DeliverAll(NO_SLOTS, DeliveriesOf(h, url, t))
  {
    EntriesOutcome(NEW_NODE, url, h, t, NO_COUNTS);
  }

  // ----- a client that reads the stream -----

  /** The event brings no artifact of `k` from elsewhere than a submission. */
  predicate EventOnlySubmits(e: Event, k: PodKey) { e.Serve? ==> OnlySubmits(e.step, k) }

  lemma {:induction false} PlayMirrors(events: seq<Event>, k: PodKey)
    requires forall e :: e in events ==> EventOnlySubmits(e, k)
    ensures NodeInv(Play(events).node) && Mirrored(Play(events).node, k) && GoodLog(Play(events).node.stream.history)
  {
    if events == [] {
      NewNodeInv();
    } else {
      var front, last := events[..|events| - 1], events[|events| - 1];
      PlayMirrors(front, k);
      NextMirrors(Play(front), last, k);
    }
  }

  lemma NextMirrors(x: Scene, e: Event, k: PodKey)
    requires NodeInv(x.node) && Mirrored(x.node, k) && GoodLog(x.node.stream.history) && EventOnlySubmits(e, k)
    ensures var t := Next(x, e).node; NodeInv(t) && Mirrored(t, k) && GoodLog(t.stream.history)
  {
    var step := match e case Serve(step) => step case Poll(limit, now) => ReadPage(x.reader.cursor, limit, true, now);
    assert Next(x, e).node == Apply(x.node, step);
    StepKeeps(x.node, step);
    StepMirrors(x.node, step, k);
    StepIsGood(x.node, step);
  }

  /**
   End to end: a reader that polled promptly and reached the end of the stream, in any
   interleaving with the node's operations, applies the rows it got without a failure, and then
   offers for `k` what the node offers.
   */
  lemma PromptClientAgrees(events: seq<Event>, k: PodKey, url: string, t: Time)
    requires forall e :: e in events ==> EventOnlySubmits(e, k)
    requires |Play(events).node.stream.history| < U64_MAX && Prompt(events)
    requires Play(events).reader.position == |Play(events).node.stream.history|
    ensures var x := Play(events);
      var client := ApplyEntries(NEW_NODE, url, x.reader.seen, t, NO_COUNTS);
      && client.result.Ok?
      && Agree(x.node.slots.At(k), client.state.slots.At(k), DeliveriesOf(x.reader.seen, url, t), k, t)
  {
    var x := Play(events);
    PlayMirrors(events, k);
    PromptReaderSeesAll(events);
    assert x.reader.seen == x.node.stream.history;
    GoodLogApplies(x.reader.seen, url, t);
    LogDelivers(x.reader.seen, url, t);
    MirrorAgrees(x.node, k, DeliveriesOf(x.reader.seen, url, t), t);
  }
}
