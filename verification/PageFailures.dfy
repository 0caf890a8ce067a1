/** Which failed pages leave a trace, told from the page and the node before it is applied. */
module PageFailures {
  import opened Wrappers
  import opened Artifacts
  import opened Retention
  import opened Convergence
  import opened Rejection
  import opened SlotMaps
  import opened StreamLog
  import opened Nodes
  import opened PeerServing
  import opened PodAnnouncements
  import opened BootstrapStream
  import opened StreamSync
  import opened SyncRuns
  import PeerAds
  import PeerStreams

  predicate Announces(e: Entry) { e.kind.Admitted? || e.kind.Renewed? }

  /** The entry withdraws the key of `a` at or after its announcement. */
  predicate Ends(e: Entry, a: Announcement) {
    && e.kind.Withdrawn? && e.payload.WithdrawalPayload?
    && e.payload.withdrawal.Key() == a.Key() && e.payload.withdrawal.withdrawnAt >= a.announcedAt
  }

  predicate GoodUntil(entries: seq<Entry>, n: nat)
    requires n <= |entries|
  {
    forall j :: 0 <= j < n ==> !IsBad(entries[j])
  }

  /** Announcement `i` has lapsed, or the node or an earlier entry of the page is past it. */
  predicate Ineffective(slots: Slots, entries: seq<Entry>, i: nat, now: Time)
    requires i < |entries| && Announces(entries[i]) && !IsBad(entries[i])
  {
    var a := entries[i].payload.announcement;
    || !a.LeaseIsActive(now)
    || Buried(slots.At(a.Key()), a)
    || exists j :: 0 <= j < i && Ends(entries[j], a)
  }

  /** No announcement before the first bad entry can take effect. */
  predicate NoneEffective(slots: Slots, entries: seq<Entry>, now: Time) {
    forall i :: 0 <= i < |entries| && GoodUntil(entries, i + 1) && Announces(entries[i]) ==>
      Ineffective(slots, entries, i, now)
  }

  /** A usable announcement is retained exactly when it is leased and not buried. */
  lemma RetainedUnlessBuried(s: NodeState, a: Announcement, from: Provenance, now: Time)
    requires SoundSlots(s.slots) && Usable(a)
    ensures Retain(s, a, from, now).result.Ok? <==> a.LeaseIsActive(now) && !Buried(s.slots.At(a.Key()), a)
  {
    assert Sound(s.slots.At(a.Key()));
    if s.slots.At(a.Key()).ann.Some? {
      PreferenceIgnoresClock(s.slots.At(a.Key()).ann.value.announcement, a, now);
    }
  }

  /** A slot that a delivery left alike buries the same announcements. */
  lemma AlikeBuries(s: Slot, t: Slot, a: Announcement)
    requires Alike(s, t)
    ensures Buried(s, a) <==> Buried(t, a)
  {
  }

  lemma WithdrawalBuries(s: Slot, w: Withdrawal, now: Time, a: Announcement)
    requires Sound(s) && w.Verify()
    ensures Buried(Withdraw(s, w, None, now).slot, a) <==> Buried(s, a) || w.withdrawnAt >= a.announcedAt
  {
    DeliverKeepsSettled(s, OfWithdrawal(w, None, now), a);
    DeliverySettles(s, OfWithdrawal(w, None, now));
  }

  /** What one good entry buries, when it is not itself retained as an announcement. */
  lemma EntryBuries(s: NodeState, url: string, e: Entry, now: Time, a: Announcement)
    requires SoundSlots(s.slots) && !IsBad(e)
    requires Announces(e) ==> Retain(s, e.payload.announcement, FromBootstrap(url), now).result.Err?
    ensures var next := ApplyEntry(s, url, e, now, NO_COUNTS).state;
      SoundSlots(next.slots) && (Buried(next.slots.At(a.Key()), a) <==> Buried(s.slots.At(a.Key()), a) || Ends(e, a))
  {
    EntryOutcome(s, url, e, now, NO_COUNTS);
    assert Sound(s.slots.At(a.Key()));
    var d := DeliveryOf(e, url, now);
    if d.Some? {
      DeliverAtKeepsSound(s.slots, d.value);
      DeliverAtOne(s.slots, d.value, a.Key());
      if d.value.Key() == a.Key() {
        if d.value.OfAnnouncement? {
          RejectionIsHarmless(s.slots.At(a.Key()), d.value);
          AlikeBuries(s.slots.At(a.Key()), Deliver(s.slots.At(a.Key()), d.value), a);
        } else {
          WithdrawalBuries(s.slots.At(a.Key()), d.value.w, now, a);
        }
      }
    }
  }

  lemma GoodUntilCons(entries: seq<Entry>, n: nat)
    requires 0 < n <= |entries|
    ensures GoodUntil(entries, n) <==> !IsBad(entries[0]) && GoodUntil(entries[1..], n - 1)
  {
    if !IsBad(entries[0]) && GoodUntil(entries[1..], n - 1) {
      forall j | 0 <= j < n ensures !IsBad(entries[j]) {
        if j > 0 { assert entries[j] == entries[1..][j - 1]; }
      }
    }
  }

  lemma EndsCons(entries: seq<Entry>, i: nat, a: Announcement)
    requires i < |entries|
    ensures (exists j :: 0 <= j < i + 1 && j < |entries| && Ends(entries[j], a)) <==>
      Ends(entries[0], a) || exists j :: 0 <= j < i && Ends(entries[1..][j], a)
  {
    if j :| 0 <= j < i && Ends(entries[1..][j], a) {
      assert Ends(entries[j + 1], a);
    }
    if j :| 0 <= j < i + 1 && j < |entries| && Ends(entries[j], a) && j > 0 {
      assert Ends(entries[1..][j - 1], a);
    }
  }

  lemma IneffectiveCons(s: NodeState, next: Slots, url: string, entries: seq<Entry>, i: nat, now: Time)
    requires SoundSlots(s.slots) && entries != [] && !IsBad(entries[0]) && i < |entries| - 1
    requires Announces(entries[0]) ==> Retain(s, entries[0].payload.announcement, FromBootstrap(url), now).result.Err?
    requires next == ApplyEntry(s, url, entries[0], now, NO_COUNTS).state.slots
    requires Announces(entries[i + 1]) && !IsBad(entries[i + 1])
    ensures Ineffective(s.slots, entries, i + 1, now) <==> Ineffective(next, entries[1..], i, now)
  {
    var a := entries[i + 1].payload.announcement;
    assert entries[1..][i] == entries[i + 1];
    EntryBuries(s, url, entries[0], now, a);
    EndsCons(entries, i, a);
  }

  lemma NoneEffectiveCons(s: NodeState, next: Slots, url: string, entries: seq<Entry>, now: Time)
    requires SoundSlots(s.slots) && entries != [] && !IsBad(entries[0])
    requires Announces(entries[0]) ==> Retain(s, entries[0].payload.announcement, FromBootstrap(url), now).result.Err?
    requires Announces(entries[0]) ==> Ineffective(s.slots, entries, 0, now)
    requires next == ApplyEntry(s, url, entries[0], now, NO_COUNTS).state.slots
    ensures NoneEffective(s.slots, entries, now) <==> NoneEffective(next, entries[1..], now)
  {
    var rest := entries[1..];
    forall i | 0 <= i < |rest|
      ensures GoodUntil(entries, i + 2) <==> GoodUntil(rest, i + 1)
      ensures GoodUntil(entries, i + 2) && Announces(rest[i]) ==>
        (Ineffective(s.slots, entries, i + 1, now) <==> Ineffective(next, rest, i, now))
    {
      GoodUntilCons(entries, i + 2);
      assert rest[i] == entries[i + 1];
      if GoodUntil(entries, i + 2) && Announces(rest[i]) { IneffectiveCons(s, next, url, entries, i, now); }
    }
    if NoneEffective(s.slots, entries, now) {
      forall i | 0 <= i < |rest| && GoodUntil(rest, i + 1) && Announces(rest[i])
          ensures Ineffective(next, rest, i, now) {
        assert GoodUntil(entries, i + 2) && Announces(entries[i + 1]);
      }
    }
    if NoneEffective(next, rest, now) {
      forall i | 0 <= i < |entries| && GoodUntil(entries, i + 1) && Announces(entries[i])
        ensures Ineffective(s.slots, entries, i, now)
      {
        if i > 0 { assert GoodUntil(rest, i) && Announces(rest[i - 1]); }
      }
    }
  }

  /** Nothing is retained before the failure exactly when no announcement up to it can take effect. */
  lemma {:induction false} NothingRetainedExactly(s: NodeState, url: string, entries: seq<Entry>, now: Time)
    requires SoundSlots(s.slots)
    ensures RetainedBeforeFailure(s, url, entries, now) == [] <==> NoneEffective(s.slots, entries, now)
    decreases |entries|
  {
    if entries != [] && !IsBad(entries[0]) {
      var e := entries[0];
      var next := ApplyEntry(s, url, e, now, NO_COUNTS).state;
      if Announces(e) { RetainedUnlessBuried(s, e.payload.announcement, FromBootstrap(url), now); }
      if Announces(e) && Retain(s, e.payload.announcement, FromBootstrap(url), now).result.Ok? {
        assert GoodUntil(entries, 1) && !Ineffective(s.slots, entries, 0, now);
      } else {
        if e.payload.AnnouncementPayload? { EntryBuries(s, url, e, now, e.payload.announcement); }
        else { EntryOutcome(s, url, e, now, NO_COUNTS); NextIsSound(s, url, e, now); }
        NothingRetainedExactly(next, url, entries[1..], now);
        NoneEffectiveCons(s, next.slots, url, entries, now);
      }
    }
  }

  lemma NextIsSound(s: NodeState, url: string, e: Entry, now: Time)
    requires SoundSlots(s.slots) && !IsBad(e)
    ensures SoundSlots(ApplyEntry(s, url, e, now, NO_COUNTS).state.slots)
  {
    EntryOutcome(s, url, e, now, NO_COUNTS);
    if DeliveryOf(e, url, now).Some? { DeliverAtKeepsSound(s.slots, DeliveryOf(e, url, now).value); }
  }

  /**
   A failed page leaves the whole node exactly as it was if and only if serving is off, or every
   announcement before the first bad entry has lapsed, is buried in the node's own slot, or
   follows in the page a withdrawal that ends it.
   */
  lemma FailedPageIsInvisibleExactly(s: NodeState, url: string, page: Page, now: Time)
    requires SoundSlots(s.slots) && HasBad(page.entries)
    ensures ApplyPage(s, url, page, now).state == s <==> !s.peer.enabled || NoneEffective(s.slots, page.entries, now)
  {
    FailedPageResidue(s, url, page, now);
    RetainedVerify(s, url, page.entries, now);
    ProjectAllAppends(s.peer, RetainedBeforeFailure(s, url, page.entries, now), now);
    NothingRetainedExactly(s, url, page.entries, now);
  }

  // ----- a page that leaves a row -----

  /** An empty node after its User switched serving on. */
  function ServingNode(): NodeState {
    var verified := PeerStreams.Verification(
      Ok("https://me"), Some(PeerAds.IdentityView(7, "key", CURRENT_PROTOCOL_VERSION)), 1, true);
    PeerStreams.TryEnable(NEW_NODE, PeerStreams.Identity(7, "me", "key"), verified, 9)
  }

  lemma ServingNodeServes()
    ensures var s := ServingNode();
      s.slots == NO_SLOTS && s.peer.enabled && s.peer.nextSequence == 1 && s.peer.stream == EMPTY_STREAM
  {
    assert Cursors.TrimStart("key") == "key" && Cursors.TrimEnd("key") == "key";
  }

  /** A good announcement, then a copy of it that does not verify. */
  function FailingPage(): Page {
    var a := Example(1, 10);
    Page([Entry(1, 11, Admitted, 1, "pod", AnnouncementPayload(a)),
          Entry(2, 11, Admitted, 1, "pod", AnnouncementPayload(a.(signatureValid := false)))], Some("2"), 50)
  }

  /** The page fails and the maps are put back, but the first announcement is served from now on. */
  lemma FailedPageCanLeaveRow()
    ensures var r := ApplyPage(ServingNode(), "https://b", FailingPage(), 12);
      && r.result.Err? && r.state.slots == ServingNode().slots
      && r.state.peer.stream.history == [PeerRow(1, Example(1, 10), 12)]
  {
    ServingNodeServes();
    LeavesRow(ServingNode());
  }

  lemma LeavesRow(s: NodeState)
    requires s.slots == NO_SLOTS && s.peer.enabled && s.peer.nextSequence == 1 && s.peer.stream == EMPTY_STREAM
    ensures var r := ApplyPage(s, "https://b", FailingPage(), 12);
      && r.result.Err? && r.state.slots == s.slots
      && r.state.peer.stream.history == [PeerRow(1, Example(1, 10), 12)]
  {
    var page := FailingPage();
    assert page.entries[1..][0] == page.entries[1];
    assert IsBad(page.entries[1]);
    FailedPageResidue(s, "https://b", page, 12);
    assert RetainedBeforeFailure(s, "https://b", page.entries, 12) == [Example(1, 10)];
    ProjectAllAppends(s.peer, [Example(1, 10)], 12);
  }
}
