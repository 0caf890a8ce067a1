/**
 What a rejected delivery can change. Deliveries that are refused may still drop a superseded
 withdrawal; this module shows exactly how far that is visible later.
 */
module Rejection {
  import opened Wrappers
  import opened Artifacts
  import opened Retention

  /** The slot keeps no withdrawal, or one that its announcement has superseded. */
  predicate Superseded(s: Slot) {
    s.ann.Some? && (s.wd.Some? ==> s.wd.value.withdrawal.withdrawnAt < s.ann.value.announcement.announcedAt)
  }

  /** Equal slots, up to a superseded withdrawal. */
  predicate Alike(s: Slot, t: Slot) {
    s.ann == t.ann && (s.wd == t.wd || (Superseded(s) && Superseded(t)))
  }

  /** A rejection leaves the slot as it was, except that a superseded withdrawal may be dropped. */
  lemma RejectionIsHarmless(s: Slot, d: Delivery)
    requires Sound(s)
    ensures d.OfAnnouncement? && Announce(s, d.a, d.from, d.at).result.Err? ==> Alike(s, Deliver(s, d))
    ensures d.OfWithdrawal? && Withdraw(s, d.w, d.peer, d.at).result.Err? ==> s == Deliver(s, d)
  {
    if d.OfAnnouncement? && s.ann.Some? && d.a.Verify() {
      PreferenceIgnoresClock(s.ann.value.announcement, d.a, d.at);
    }
  }

  /** Alike slots decide every announcement alike, keep the same record, and stay alike. */
  lemma AlikeAnnounce(s: Slot, t: Slot, a: Announcement, from: Provenance, now: Time)
    requires Sound(s) && Sound(t) && Alike(s, t)
    ensures var x, y := Announce(s, a, from, now), Announce(t, a, from, now);
      && Alike(x.slot, y.slot)
      && (x.result.Ok? <==> y.result.Ok?)
      && (x.result.Ok? ==> x.result == y.result)
  {
    if s.ann.Some? && a.Verify() {
      PreferenceIgnoresClock(s.ann.value.announcement, a, now);
    }
  }

  /** Alike slots stay alike under a withdrawal and decide it alike unless it is itself superseded. */
  lemma AlikeWithdraw(s: Slot, t: Slot, w: Withdrawal, peer: Option<Uuid>, now: Time)
    requires Sound(s) && Sound(t) && Alike(s, t)
    ensures var x, y := Withdraw(s, w, peer, now), Withdraw(t, w, peer, now);
      && Alike(x.slot, y.slot)
      && (s.ann.None? || s.ann.value.announcement.announcedAt <= w.withdrawnAt ==>
            x.result == y.result && (x.result.Ok? ==> x.slot == y.slot))
  {
  }

  lemma {:induction false} AlikeRun(s: Slot, t: Slot, ds: seq<Delivery>)
    requires Sound(s) && Sound(t) && Alike(s, t)
    ensures Alike(Run(s, ds), Run(t, ds))
  {
    if ds != [] {
      var front, d := ds[..|ds| - 1], ds[|ds| - 1];
      AlikeRun(s, t, front);
      RunKeepsSound(s, front);
      RunKeepsSound(t, front);
      if d.OfAnnouncement? {
        AlikeAnnounce(Run(s, front), Run(t, front), d.a, d.from, d.at);
      } else {
        AlikeWithdraw(Run(s, front), Run(t, front), d.w, d.peer, d.at);
      }
    }
  }

  /**
   A rejected delivery never changes what is discoverable, now or after any later deliveries,
   nor which later announcements are retained and with what record.
   */
  lemma RejectionNeverShows(s: Slot, d: Delivery, later: seq<Delivery>, a: Announcement, from: Provenance, now: Time)
    requires Sound(s)
    requires d.OfAnnouncement? ==> Announce(s, d.a, d.from, d.at).result.Err?
    requires d.OfWithdrawal? ==> Withdraw(s, d.w, d.peer, d.at).result.Err?
    ensures var x, y := Run(s, later), Run(Deliver(s, d), later);
      && Discoverable(x, now) == Discoverable(y, now)
      && x.ann == y.ann
      && (Announce(x, a, from, now).result.Ok? <==> Announce(y, a, from, now).result.Ok?)
      && (Announce(x, a, from, now).result.Ok? ==> Announce(x, a, from, now).result == Announce(y, a, from, now).result)
  {
    RejectionIsHarmless(s, d);
    DeliverKeepsSound(s, d);
    AlikeRun(s, Deliver(s, d), later);
    RunKeepsSound(s, later);
    RunKeepsSound(Deliver(s, d), later);
    AlikeAnnounce(Run(s, later), Run(Deliver(s, d), later), a, from, now);
  }

  /** `a` is verified, leased, and later than the kept withdrawal. */
  predicate DropsWithdrawal(s: Slot, a: Announcement, now: Time) {
    a.addressValid && a.Verify() && a.LeaseIsActive(now) && s.wd.Some?
        && s.wd.value.withdrawal.withdrawnAt < a.announcedAt
  }

  /** The withdrawals a rejected announcement can drop, and nothing else, is what it changes. */
  lemma RejectionDropsExactly(s: Slot, a: Announcement, from: Provenance, now: Time)
    requires Sound(s) && Announce(s, a, from, now).result.Err?
    ensures Announce(s, a, from, now).slot != s <==> DropsWithdrawal(s, a, now)
  {
    if s.ann.Some? && a.Verify() {
      PreferenceIgnoresClock(s.ann.value.announcement, a, now);
    }
  }

  function Example(id: Uuid, at: Time): Announcement {
    var signer := Signer(1, "", "key", CURRENT_PROTOCOL_VERSION);
    Announcement(id, 1, signer, "pod", "", "", "", 1, None, at, at + LEASE_DURATION, true, true)
  }

  function ExampleWithdrawal(id: Uuid, at: Time): Withdrawal {
    Withdrawal(id, 1, Signer(1, "", "key", CURRENT_PROTOCOL_VERSION), "pod", None, None, at, true)
  }

  /**
   A rejection can change whether a later *withdrawal* is retained: after the stale
   announcement of time 7 drops the withdrawal of time 5, the one of time 3 is accepted.
   By `AlikeWithdraw` this happens only to withdrawals that the kept announcement supersedes.
   */
  lemma RejectionCanAdmitSupersededWithdrawal()
    ensures var s := Run(EMPTY,
        [OfAnnouncement(Example(2, 10), LOCAL, 11), OfWithdrawal(ExampleWithdrawal(1, 5), None, 12)]);
      && Sound(s)
      && Announce(s, Example(1, 7), LOCAL, 13).result == Err(AnnouncementStale)
      && Withdraw(s, ExampleWithdrawal(2, 3), None, 14).result == Err(WithdrawalStale)
      && Withdraw(Announce(s, Example(1, 7), LOCAL, 13).slot, ExampleWithdrawal(2, 3), None, 14).result.Ok?
  {
    var first := OfAnnouncement(Example(2, 10), LOCAL, 11);
    var second := OfWithdrawal(ExampleWithdrawal(1, 5), None, 12);
    assert [first, second][..1] == [first] && [first][..0] == [];
    assert Run(EMPTY, [first]) == Deliver(EMPTY, first);
  }

  /** The withdrawal names another announcement than the kept one. */
  predicate CoversAnother(s: Slot, w: Withdrawal) {
    s.ann.Some? && w.covers.Some? && w.covers.value != s.ann.value.announcement.id
  }

  /**
   Exactly when a rejected announcement changes the verdict on the next withdrawal: it dropped
   the kept withdrawal, and the next one is older than the dropped one and names no other
   announcement, or repeats the dropped one and names another.
   */
  lemma WithdrawalVerdictChangesExactly(
    s: Slot, a: Announcement, from: Provenance, now: Time, w: Withdrawal, peer: Option<Uuid>, later: Time)
    requires Sound(s) && Announce(s, a, from, now).result.Err?
    ensures var t := Announce(s, a, from, now).slot;
      (Withdraw(s, w, peer, later).result.Ok? <==> !Withdraw(t, w, peer, later).result.Ok?) <==>
        && DropsWithdrawal(s, a, now) && w.Verify()
        && (if w == s.wd.value.withdrawal then CoversAnother(s, w)
            else w.withdrawnAt < s.wd.value.withdrawal.withdrawnAt && !CoversAnother(s, w))
  {
    RejectionDropsExactly(s, a, from, now);
    if s.ann.Some? && a.Verify() {
      PreferenceIgnoresClock(s.ann.value.announcement, a, now);
    }
  }

  /**
   A successful withdrawal ends discovery of the key exactly when the kept announcement is not
   later than it (or its lease has lapsed); a withdrawal older than the announcement is
   accepted and leaves the announcement on offer.
   */
  lemma WithdrawalEndsDiscovery(s: Slot, w: Withdrawal, peer: Option<Uuid>, now: Time)
    requires Sound(s) && Withdraw(s, w, peer, now).result.Ok?
    ensures Discoverable(Withdraw(s, w, peer, now).slot, now).None? <==>
      (s.ann.None? || s.ann.value.announcement.announcedAt <= w.withdrawnAt
          || !s.ann.value.announcement.LeaseIsActive(now))
  {
  }
}
