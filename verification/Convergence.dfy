/**
 Eventual agreement for one key: what a node offers for discovery depends only on which
 verified artifacts reached it, not on their order, repetition or delivery times.
 */
module Convergence {
  import opened Artifacts
  import opened Retention

  /** Signed by its Origin for exactly thirty days, with a valid address. */
  predicate Usable(a: Announcement) {
    && a.addressValid && a.signatureValid && a.origin == a.signer.nodeId
    && a.expiresAt == a.announcedAt + 2_592_000_000_000_000
  }

  /** Signed by its Origin. */
  predicate Authentic(w: Withdrawal) { w.signatureValid && w.origin == w.signer.nodeId }

  predicate HasAnnouncement(ds: seq<Delivery>, a: Announcement) {
    exists i :: 0 <= i < |ds| && ds[i].OfAnnouncement? && ds[i].a == a
  }

  predicate HasWithdrawal(ds: seq<Delivery>, w: Withdrawal) {
    exists i :: 0 <= i < |ds| && ds[i].OfWithdrawal? && ds[i].w == w
  }

  predicate DeliveredBy(ds: seq<Delivery>, t: Time) {
    forall i :: 0 <= i < |ds| ==> ds[i].at <= t
  }

  /** Declarative answer: the top-ranked usable announcement, still leased, later than every withdrawal. */
  ghost predicate IsWinner(ds: seq<Delivery>, t: Time, a: Announcement) {
    && HasAnnouncement(ds, a) && Usable(a) && t < a.announcedAt + 2_592_000_000_000_000
    && (forall b | HasAnnouncement(ds, b) && Usable(b) :: !Outranks(b, a))
    && (forall w | HasWithdrawal(ds, w) && Authentic(w) :: w.withdrawnAt < a.announcedAt)
  }

  /** Every kept artifact was delivered. */
  predicate FromDeliveries(s: Slot, ds: seq<Delivery>) {
    && (s.ann.Some? ==> HasAnnouncement(ds, s.ann.value.announcement))
    && (s.wd.Some? ==> HasWithdrawal(ds, s.wd.value.withdrawal))
  }

  lemma HasAnnouncementExtends(ds: seq<Delivery>, d: Delivery, a: Announcement)
    ensures HasAnnouncement(ds + [d], a) <==> HasAnnouncement(ds, a) || (d.OfAnnouncement? && d.a == a)
  {
    if HasAnnouncement(ds, a) {
      var i :| 0 <= i < |ds| && ds[i].OfAnnouncement? && ds[i].a == a;
      assert (ds + [d])[i] == ds[i];
    }
    assert (ds + [d])[|ds|] == d;
  }

  lemma HasWithdrawalExtends(ds: seq<Delivery>, d: Delivery, w: Withdrawal)
    ensures HasWithdrawal(ds + [d], w) <==> HasWithdrawal(ds, w) || (d.OfWithdrawal? && d.w == w)
  {
    if HasWithdrawal(ds, w) {
      var i :| 0 <= i < |ds| && ds[i].OfWithdrawal? && ds[i].w == w;
      assert (ds + [d])[i] == ds[i];
    }
    assert (ds + [d])[|ds|] == d;
  }

  lemma {:induction false} RunKeepsDelivered(ds: seq<Delivery>)
    ensures FromDeliveries(Run(EMPTY, ds), ds)
  {
    if ds != [] {
      var front, d := ds[..|ds| - 1], ds[|ds| - 1];
      RunKeepsDelivered(front);
      assert ds == front + [d];
      var t := Run(EMPTY, ds);
      if t.ann.Some? { HasAnnouncementExtends(front, d, t.ann.value.announcement); }
      if t.wd.Some? { HasWithdrawalExtends(front, d, t.wd.value.withdrawal); }
    }
  }

  /** After a run, each usable announcement delivered under its lease is settled. */
  lemma {:induction false} RunSettles(ds: seq<Delivery>, i: nat)
    requires i < |ds| && ds[i].OfAnnouncement? && Usable(ds[i].a) && ds[i].a.LeaseIsActive(ds[i].at)
    ensures Settled(Run(EMPTY, ds), ds[i].a)
  {
    var front, d := ds[..|ds| - 1], ds[|ds| - 1];
    RunKeepsSound(EMPTY, front);
    if i == |ds| - 1 {
      DeliverySettles(Run(EMPTY, front), d);
    } else {
      RunSettles(front, i);
      DeliverKeepsSettled(Run(EMPTY, front), d, ds[i].a);
    }
  }

  /** After a run, each verified withdrawal delivered is still in force or strictly superseded. */
  lemma {:induction false} RunWithholds(ds: seq<Delivery>, i: nat)
    requires i < |ds| && ds[i].OfWithdrawal? && ds[i].w.Verify()
    ensures Withheld(Run(EMPTY, ds), ds[i].w.withdrawnAt)
  {
    var front, d := ds[..|ds| - 1], ds[|ds| - 1];
    RunKeepsSound(EMPTY, front);
    if i == |ds| - 1 {
      DeliverySettles(Run(EMPTY, front), d);
    } else {
      RunWithholds(front, i);
      DeliverKeepsHighWater(Run(EMPTY, front), d, ds[i].w.withdrawnAt);
    }
  }

  /** Whatever is offered at `t` is the declarative winner. */
  lemma OfferedIsWinner(ds: seq<Delivery>, t: Time)
    requires DeliveredBy(ds, t)
    requires Discoverable(Run(EMPTY, ds), t).Some?
    ensures IsWinner(ds, t, Discoverable(Run(EMPTY, ds), t).value)
  {
    var s := Run(EMPTY, ds);
    var a := s.ann.value.announcement;
    RunKeepsSound(EMPTY, ds);
    RunKeepsDelivered(ds);
    forall b | HasAnnouncement(ds, b) && Usable(b)
      ensures !Outranks(b, a)
    {
      var i :| 0 <= i < |ds| && ds[i].OfAnnouncement? && ds[i].a == b;
      if b.LeaseIsActive(ds[i].at) {
        RunSettles(ds, i);
      }
    }
    forall w | HasWithdrawal(ds, w) && w.Verify()
      ensures w.withdrawnAt < a.announcedAt
    {
      var i :| 0 <= i < |ds| && ds[i].OfWithdrawal? && ds[i].w == w;
      RunWithholds(ds, i);
    }
  }

  /** A winner is offered, up to an equally ranked copy. */
  lemma WinnerIsOffered(ds: seq<Delivery>, t: Time, a: Announcement)
    requires DeliveredBy(ds, t)
    requires IsWinner(ds, t, a)
    ensures Discoverable(Run(EMPTY, ds), t).Some?
    ensures SameRank(Discoverable(Run(EMPTY, ds), t).value, a)
  {
    var s := Run(EMPTY, ds);
    RunKeepsSound(EMPTY, ds);
    RunKeepsDelivered(ds);
    var i :| 0 <= i < |ds| && ds[i].OfAnnouncement? && ds[i].a == a;
    RunSettles(ds, i);
    assert s.ann.Some? && !Outranks(a, s.ann.value.announcement);
    assert HasAnnouncement(ds, s.ann.value.announcement);
  }

  /**
   The same verified artifacts reached both nodes, in whatever order and however often; forged
   or malformed ones may have reached either.
   */
  ghost predicate SameArtifacts(ds: seq<Delivery>, es: seq<Delivery>) {
    && (forall a | Usable(a) :: HasAnnouncement(ds, a) <==> HasAnnouncement(es, a))
    && (forall w: Withdrawal | Authentic(w) :: HasWithdrawal(ds, w) <==> HasWithdrawal(es, w))
  }

  /** No Origin signed two different announcements of one rank; ranks contain the id. */
  ghost predicate RankedOnce(ds: seq<Delivery>) {
    forall a, b | HasAnnouncement(ds, a) && HasAnnouncement(ds, b) && Usable(a) && Usable(b) && SameRank(a, b) :: a == b
  }

  /**
   Convergence: two nodes that received the same verified artifacts by time `t` offer
   announcements of the same rank, and the same announcement unless an id was signed twice.
   */
  lemma Converges(ds: seq<Delivery>, es: seq<Delivery>, t: Time)
    requires DeliveredBy(ds, t) && DeliveredBy(es, t)
    requires SameArtifacts(ds, es)
    ensures var x, y := Discoverable(Run(EMPTY, ds), t), Discoverable(Run(EMPTY, es), t);
      && (x.Some? <==> y.Some?)
      && (x.Some? ==> SameRank(x.value, y.value))
      && (RankedOnce(ds) ==> x == y)
  {
    var x, y := Discoverable(Run(EMPTY, ds), t), Discoverable(Run(EMPTY, es), t);
    if x.Some? {
      OfferedIsWinner(ds, t);
      assert IsWinner(es, t, x.value);
      WinnerIsOffered(es, t, x.value);
    }
    if y.Some? {
      OfferedIsWinner(es, t);
      assert IsWinner(ds, t, y.value);
      WinnerIsOffered(ds, t, y.value);
    }
  }
}
