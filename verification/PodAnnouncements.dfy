/** Verified retention on a node's store, with projection into the peer-serving stream. */
module PodAnnouncements {
  import opened Wrappers
  import opened Artifacts
  import opened Retention
  import opened SlotMaps
  import opened Nodes
  import opened PeerServing

  function Retain(s: NodeState, a: Announcement, from: Provenance, now: Time): Done<KnownAnnouncement, StoreError> {
    var r := Announce(s.slots.At(a.Key()), a, from, now);
    Done(s.(slots := AnnounceAt(s.slots, a, from, now),
            peer := if r.result.Ok? then Project(s.peer, a, now) else s.peer),
         r.result)
  }

  function RetainWithdrawal(s: NodeState, w: Withdrawal, peer: Option<Uuid>, now: Time)
    : Done<KnownWithdrawal, StoreError>
  {
    var r := Withdraw(s.slots.At(w.Key()), w, peer, now);
    Done(s.(slots := WithdrawAt(s.slots, w, peer, now)), r.result)
  }

  /** Verifies and retains an announcement under the lease preference rules. */
  method RetainVerifiedPodAnnouncement(store: Store, a: Announcement, from: Provenance, now: Time)
    returns (r: Result<KnownAnnouncement, StoreError>)
    modifies store`announcements, store`withdrawals, store`peerNextSequence, store`peerEntries, store`peerHistory
    ensures Done(store.View(), r) == Retain(old(store.View()), a, from, now)
  {
    var key := a.Key();
    ghost var before := store.View().slots;
    if !a.addressValid {
      PutUnchanged(before, key);
      return Err(Validation);
    }
    if !a.Verify() {
      PutUnchanged(before, key);
      return Err(StoreError.InvalidSignature);
    }
    if !a.LeaseIsActive(now) {
      PutUnchanged(before, key);
      return Err(AnnouncementExpired);
    }
    if key in store.withdrawals {
      if store.withdrawals[key].withdrawal.withdrawnAt >= a.announcedAt {
        PutUnchanged(before, key);
        return Err(StoreError.AnnouncementWithdrawn);
      }
      // A later announcement supersedes the withdrawal.
      store.withdrawals := store.withdrawals - {key};
    }
    if key in store.announcements
       && ComparePreference(store.announcements[key].announcement, a, now).Greater? {
      assert store.View().slots == before.Put(key, before.At(key).(wd := None));
      return Err(AnnouncementStale);
    }

    var peer, indexes, bootstraps, discoveryPeers := from.peer, {}, {}, {};
    if key in store.announcements && store.announcements[key].announcement.id == a.id {
      var existing := store.announcements[key];
      peer := Or(from.peer, existing.fromPeer);
      indexes, bootstraps, discoveryPeers := existing.fromIndexes, existing.fromBootstraps, existing.fromDiscoveryPeers;
    }
    if from.indexUrl.Some? { indexes := indexes + {from.indexUrl.value}; }
    if from.bootstrapUrl.Some? { bootstraps := bootstraps + {from.bootstrapUrl.value}; }
    if from.discoveryPeer.Some? { discoveryPeers := discoveryPeers + {from.discoveryPeer.value}; }
    var known := KnownAnnouncement(a, peer, indexes, bootstraps, discoveryPeers, now);
    assert known == Recorded(before.At(key).ann, a, from, now);
    store.announcements := store.announcements[key := known];
    assert store.View().slots == before.Put(key, Slot(Some(known), None));
    MaybeProjectPeerServingAnnouncement(store, a, now);
    return Ok(known);
  }

  /** Verifies and retains an Origin-signed withdrawal. */
  method RetainVerifiedPodWithdrawal(store: Store, w: Withdrawal, peer: Option<Uuid>, now: Time)
    returns (r: Result<KnownWithdrawal, StoreError>)
    modifies store`announcements, store`withdrawals
    ensures Done(store.View(), r) == RetainWithdrawal(old(store.View()), w, peer, now)
  {
    var key := w.Key();
    ghost var before := store.View().slots;
    if !w.Verify() {
      PutUnchanged(before, key);
      return Err(StoreError.InvalidSignature);
    }
    if key in store.withdrawals {
      var existing := store.withdrawals[key];
      if existing.withdrawal.withdrawnAt > w.withdrawnAt {
        PutUnchanged(before, key);
        return Err(WithdrawalStale);
      }
      if existing.withdrawal.id == w.id && existing.withdrawal == w {
        PutUnchanged(before, key);
        return Ok(existing);
      }
    }
    if w.covers.Some? && key in store.announcements {
      var kept := store.announcements[key].announcement;
      if kept.id != w.covers.value && kept.announcedAt > w.withdrawnAt {
        PutUnchanged(before, key);
        return Err(WithdrawalStale);
      }
    }
    if key in store.announcements && store.announcements[key].announcement.announcedAt <= w.withdrawnAt {
      store.announcements := store.announcements - {key};
    }
    var known := KnownWithdrawal(w, peer, now);
    store.withdrawals := store.withdrawals[key := known];
    assert store.View().slots == WithdrawAt(before, w, peer, now);
    return Ok(known);
  }

  lemma PutUnchanged(s: Slots, k: PodKey)
    ensures s.Put(k, s.At(k)) == s
  {
    SlotsAreTheirSlots(s.Put(k, s.At(k)), s);
  }
}
