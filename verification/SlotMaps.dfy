/**
 The two maps a node keeps, one announcement and one withdrawal per key, and runs that mix
 deliveries of many keys.
 */
module SlotMaps {
  import opened Wrappers
  import opened Artifacts
  import opened Retention
  import opened Convergence

  datatype Slots = Slots(announcements: map<PodKey, KnownAnnouncement>, withdrawals: map<PodKey, KnownWithdrawal>)
  {
    function At(k: PodKey): Slot {
      Slot(if k in announcements then Some(announcements[k]) else None,
           if k in withdrawals then Some(withdrawals[k]) else None)
    }

    function Put(k: PodKey, s: Slot): Slots {
      Slots(if s.ann.Some? then announcements[k := s.ann.value] else announcements - {k},
            if s.wd.Some? then withdrawals[k := s.wd.value] else withdrawals - {k})
    }
  }

  const NO_SLOTS := Slots(map[], map[])

  function AnnounceAt(s: Slots, a: Announcement, from: Provenance, now: Time): Slots {
    s.Put(a.Key(), Announce(s.At(a.Key()), a, from, now).slot)
  }

  function WithdrawAt(s: Slots, w: Withdrawal, peer: Option<Uuid>, now: Time): Slots {
    s.Put(w.Key(), Withdraw(s.At(w.Key()), w, peer, now).slot)
  }

  function DeliverAt(s: Slots, d: Delivery): Slots {
    match d
    case OfAnnouncement(a, from, at) => AnnounceAt(s, a, from, at)
    case OfWithdrawal(w, peer, at) => WithdrawAt(s, w, peer, at)
  }

  function DeliverAll(s: Slots, ds: seq<Delivery>): Slots {
    if ds == [] then s else DeliverAt(DeliverAll(s, ds[..|ds| - 1]), ds[|ds| - 1])
  }

  /** Every key is sound and holds artifacts of its own. */
  ghost predicate SoundSlots(s: Slots) {
    forall k :: Sound(s.At(k)) && OwnKey(s.At(k), k)
  }

  predicate OwnKey(s: Slot, k: PodKey) {
    && (s.ann.Some? ==> s.ann.value.announcement.Key() == k)
    && (s.wd.Some? ==> s.wd.value.withdrawal.Key() == k)
  }

  lemma SlotsAreTheirSlots(s: Slots, t: Slots)
    requires forall k :: s.At(k) == t.At(k)
    ensures s == t
  {
    forall k ensures k in s.announcements <==> k in t.announcements
             ensures k in s.announcements ==> s.announcements[k] == t.announcements[k]
             ensures k in s.withdrawals <==> k in t.withdrawals
             ensures k in s.withdrawals ==> s.withdrawals[k] == t.withdrawals[k] {
      assert s.At(k) == t.At(k);
    }
    assert s.announcements == t.announcements;
    assert s.withdrawals == t.withdrawals;
  }

  lemma DeliverAtOne(s: Slots, d: Delivery, k: PodKey)
    ensures DeliverAt(s, d).At(k) == if d.Key() == k then Deliver(s.At(k), d) else s.At(k)
  {
  }

  lemma DeliverAtKeepsSound(s: Slots, d: Delivery)
    requires SoundSlots(s)
    ensures SoundSlots(DeliverAt(s, d))
  {
    forall k ensures Sound(DeliverAt(s, d).At(k)) && OwnKey(DeliverAt(s, d).At(k), k) {
      DeliverAtOne(s, d, k);
      DeliverKeepsSound(s.At(k), d);
    }
  }

  lemma {:induction false} DeliverAllKeepsSound(s: Slots, ds: seq<Delivery>)
    requires SoundSlots(s)
    ensures SoundSlots(DeliverAll(s, ds))
  {
    if ds != [] {
      DeliverAllKeepsSound(s, ds[..|ds| - 1]);
      DeliverAtKeepsSound(DeliverAll(s, ds[..|ds| - 1]), ds[|ds| - 1]);
    }
  }

  /** The deliveries of one key, in order. */
  function ForKey(ds: seq<Delivery>, k: PodKey): seq<Delivery> {
    if ds == [] then []
    else
      var rest := ForKey(ds[..|ds| - 1], k);
      if ds[|ds| - 1].Key() == k then rest + [ds[|ds| - 1]] else rest
  }

  /** A key sees exactly its own deliveries; keys never interfere. */
  lemma {:induction false} KeysAreIndependent(s: Slots, ds: seq<Delivery>, k: PodKey)
    ensures DeliverAll(s, ds).At(k) == Run(s.At(k), ForKey(ds, k))
  {
    if ds != [] {
      var front, d := ds[..|ds| - 1], ds[|ds| - 1];
      KeysAreIndependent(s, front, k);
      DeliverAtOne(DeliverAll(s, front), d, k);
      if d.Key() == k {
        var mine := ForKey(front, k) + [d];
        assert mine[..|mine| - 1] == ForKey(front, k);
      }
    }
  }

  lemma {:induction false} ForKeySelects(ds: seq<Delivery>, k: PodKey)
    ensures forall a :: HasAnnouncement(ForKey(ds, k), a) <==> HasAnnouncement(ds, a) && a.Key() == k
    ensures forall w :: HasWithdrawal(ForKey(ds, k), w) <==> HasWithdrawal(ds, w) && w.Key() == k
    ensures forall t :: DeliveredBy(ds, t) ==> DeliveredBy(ForKey(ds, k), t)
  {
    if ds != [] {
      var front, d := ds[..|ds| - 1], ds[|ds| - 1];
      ForKeySelects(front, k);
      assert ds == front + [d];
      forall a
        ensures HasAnnouncement(ForKey(ds, k), a) <==> HasAnnouncement(ds, a) && a.Key() == k
      {
        HasAnnouncementExtends(front, d, a);
        HasAnnouncementExtends(ForKey(front, k), d, a);
      }
      forall w
        ensures HasWithdrawal(ForKey(ds, k), w) <==> HasWithdrawal(ds, w) && w.Key() == k
      {
        HasWithdrawalExtends(front, d, w);
        HasWithdrawalExtends(ForKey(front, k), d, w);
      }
      forall t | DeliveredBy(ds, t)
        ensures DeliveredBy(ForKey(ds, k), t)
      {
        assert DeliveredBy(front, t);
        assert d.at <= t;
      }
    }
  }

  /** Nodes that received the same verified artifacts agree on every key, whatever reached them when. */
  lemma NodesConverge(ds: seq<Delivery>, es: seq<Delivery>, t: Time, k: PodKey)
    requires DeliveredBy(ds, t) && DeliveredBy(es, t)
    requires SameArtifacts(ds, es)
    ensures var x, y := Discoverable(DeliverAll(NO_SLOTS, ds).At(k), t),
        Discoverable(DeliverAll(NO_SLOTS, es).At(k), t);
      && (x.Some? <==> y.Some?)
      && (x.Some? ==> SameRank(x.value, y.value))
      && (RankedOnce(ForKey(ds, k)) ==> x == y)
  {
    KeysAreIndependent(NO_SLOTS, ds, k);
    KeysAreIndependent(NO_SLOTS, es, k);
    ForKeySelects(ds, k);
    ForKeySelects(es, k);
    Converges(ForKey(ds, k), ForKey(es, k), t);
  }
}
