/**
 Lease retention for one `(origin, slug)` key: which announcement and which withdrawal a node
 keeps when verified artifacts arrive in any order, duplicated, at any time.
 */
module Retention {
  import opened Wrappers
  import opened Artifacts

  datatype Ordering = Less | Equal | Greater

  function CompareInts(x: int, y: int): Ordering {
    if x < y then Less else if x > y then Greater else Equal
  }

  function Then(first: Ordering, second: Ordering): Ordering {
    if first.Equal? then second else first
  }

  /** Prefers an active lease, then the later announcement, the higher version, the higher id. */
  function ComparePreference(left: Announcement, right: Announcement, now: Time): Ordering {
    if left.LeaseIsActive(now) && !right.LeaseIsActive(now) then Greater
    else if !left.LeaseIsActive(now) && right.LeaseIsActive(now) then Less
    else
      Then(CompareInts(left.announcedAt, right.announcedAt),
           Then(CompareInts(left.packageVersion, right.packageVersion), CompareInts(left.id, right.id)))
  }

  /** What a node keeps for one key. */
  datatype Slot = Slot(ann: Option<KnownAnnouncement>, wd: Option<KnownWithdrawal>)

  const EMPTY := Slot(None, None)

  datatype Retained<T> = Retained(slot: Slot, result: Result<T, StoreError>)

  function WithSource(urls: set<string>, url: Option<string>): set<string> {
    if url.Some? then urls + {url.value} else urls
  }

  /** The record kept for `a`: sources accumulate only while the retained id stays the same. */
  function Recorded(existing: Option<KnownAnnouncement>, a: Announcement, from: Provenance, now: Time)
    : KnownAnnouncement
  {
    var same := existing.Some? && existing.value.announcement.id == a.id;
    KnownAnnouncement(
      a,
      if same then Or(from.peer, existing.value.fromPeer) else from.peer,
      WithSource(if same then existing.value.fromIndexes else {}, from.indexUrl),
      WithSource(if same then existing.value.fromBootstraps else {}, from.bootstrapUrl),
      WithSource(if same then existing.value.fromDiscoveryPeers else {}, from.discoveryPeer),
      now)
  }

  function Announce(s: Slot, a: Announcement, from: Provenance, now: Time): Retained<KnownAnnouncement> {
    if !a.addressValid then Retained(s, Err(Validation))
    else if !a.Verify() then Retained(s, Err(InvalidSignature))
    else if !a.LeaseIsActive(now) then Retained(s, Err(AnnouncementExpired))
    else if s.wd.Some? && s.wd.value.withdrawal.withdrawnAt >= a.announcedAt then
      Retained(s, Err(AnnouncementWithdrawn))
    else if s.ann.Some? && ComparePreference(s.ann.value.announcement, a, now).Greater? then
      // The superseded withdrawal is already gone when staleness is found.
      Retained(s.(wd := None), Err(AnnouncementStale))
    else
      var known := Recorded(s.ann, a, from, now);
      Retained(Slot(Some(known), None), Ok(known))
  }

  function Withdraw(s: Slot, w: Withdrawal, peer: Option<Uuid>, now: Time): Retained<KnownWithdrawal> {
    if !w.Verify() then Retained(s, Err(InvalidSignature))
    else if s.wd.Some? && s.wd.value.withdrawal.withdrawnAt > w.withdrawnAt then Retained(s, Err(WithdrawalStale))
    else if s.wd.Some? && s.wd.value.withdrawal == w then Retained(s, Ok(s.wd.value))
    else if w.covers.Some? && s.ann.Some? && s.ann.value.announcement.id != w.covers.value
            && s.ann.value.announcement.announcedAt > w.withdrawnAt then
      Retained(s, Err(WithdrawalStale))
    else
      var known := KnownWithdrawal(w, peer, now);
      var kept := if s.ann.Some? && s.ann.value.announcement.announcedAt <= w.withdrawnAt then None else s.ann;
      Retained(Slot(kept, Some(known)), Ok(known))
  }

  /** The announcement a node may offer for new discovery at `now`. */
  function Discoverable(s: Slot, now: Time): Option<Announcement> {
    if s.ann.Some? && s.ann.value.announcement.LeaseIsActive(now)
       && !(s.wd.Some? && s.wd.value.withdrawal.withdrawnAt >= s.ann.value.announcement.announcedAt)
    then Some(s.ann.value.announcement)
    else None
  }

  /** An artifact handed to the node, and when. */
  datatype Delivery =
    | OfAnnouncement(a: Announcement, from: Provenance, at: Time)
    | OfWithdrawal(w: Withdrawal, peer: Option<Uuid>, at: Time)
  {
    function Key(): PodKey { if OfAnnouncement? then a.Key() else w.Key() }
  }

  function Deliver(s: Slot, d: Delivery): Slot {
    match d
    case OfAnnouncement(a, from, at) => Announce(s, a, from, at).slot
    case OfWithdrawal(w, peer, at) => Withdraw(s, w, peer, at).slot
  }

  /** The slot after a whole sequence of deliveries of one key. */
  function Run(s: Slot, ds: seq<Delivery>): Slot {
    if ds == [] then s else Deliver(Run(s, ds[..|ds| - 1]), ds[|ds| - 1])
  }

  // ----- the time-independent order -----

  /** Strict lexicographic order on (announced at, package version, id). */
  predicate Outranks(b: Announcement, a: Announcement) {
    b.announcedAt > a.announcedAt
    || (b.announcedAt == a.announcedAt
        && (b.packageVersion > a.packageVersion || (b.packageVersion == a.packageVersion && b.id > a.id)))
  }

  predicate SameRank(a: Announcement, b: Announcement) {
    a.announcedAt == b.announcedAt && a.packageVersion == b.packageVersion && a.id == b.id
  }

  /** Between verified announcements the clock cannot change which one is preferred. */
  lemma PreferenceIgnoresClock(left: Announcement, right: Announcement, now: Time)
    requires left.Verify() && right.Verify()
    ensures ComparePreference(left, right, now).Greater? <==> Outranks(left, right)
    ensures ComparePreference(left, right, now).Less? <==> Outranks(right, left)
    ensures ComparePreference(left, right, now).Equal? <==> SameRank(left, right)
  {
  }

  // ----- what every reachable slot satisfies -----

  /** Kept artifacts are verified, and a kept announcement is later than a kept withdrawal. */
  predicate Sound(s: Slot) {
    && (s.ann.Some? ==> s.ann.value.announcement.Verify() && s.ann.value.announcement.addressValid)
    && (s.wd.Some? ==> s.wd.value.withdrawal.Verify())
    && (s.ann.Some? && s.wd.Some? ==> s.ann.value.announcement.announcedAt > s.wd.value.withdrawal.withdrawnAt)
  }

  lemma DeliverKeepsSound(s: Slot, d: Delivery)
    requires Sound(s)
    ensures Sound(Deliver(s, d))
  {
  }

  lemma {:induction false} RunKeepsSound(s: Slot, ds: seq<Delivery>)
    requires Sound(s)
    ensures Sound(Run(s, ds))
  {
    if ds != [] {
      RunKeepsSound(s, ds[..|ds| - 1]);
      DeliverKeepsSound(Run(s, ds[..|ds| - 1]), ds[|ds| - 1]);
    }
  }

  lemma {:induction false} RunAppend(s: Slot, ds: seq<Delivery>, es: seq<Delivery>)
    ensures Run(s, ds + es) == Run(Run(s, ds), es)
  {
    if es == [] {
      assert ds + es == ds;
    } else {
      var all := ds + es;
      assert all[..|all| - 1] == ds + es[..|es| - 1];
      RunAppend(s, ds, es[..|es| - 1]);
    }
  }

  // ----- what is settled once -----

  /** `a` is retained or beaten: a kept announcement ranks at least as high, or a kept withdrawal is no earlier. */
  predicate Settled(s: Slot, a: Announcement) {
    (s.ann.Some? && !Outranks(a, s.ann.value.announcement))
    || (s.wd.Some? && s.wd.value.withdrawal.withdrawnAt >= a.announcedAt)
  }

  /** `a` was replaced or withdrawn. */
  predicate Buried(s: Slot, a: Announcement) {
    (s.ann.Some? && Outranks(s.ann.value.announcement, a))
    || (s.wd.Some? && s.wd.value.withdrawal.withdrawnAt >= a.announcedAt)
  }

  /** Everything announced or withdrawn up to `t` is behind the slot. */
  predicate HighWater(s: Slot, t: Time) {
    (s.ann.Some? && s.ann.value.announcement.announcedAt >= t)
    || (s.wd.Some? && s.wd.value.withdrawal.withdrawnAt >= t)
  }

  /** `t` is at or before a kept withdrawal, or strictly before a kept announcement. */
  predicate Withheld(s: Slot, t: Time) {
    (s.ann.Some? && s.ann.value.announcement.announcedAt > t)
    || (s.wd.Some? && s.wd.value.withdrawal.withdrawnAt >= t)
  }

  /** No delivery, at any time, unsettles or unburies an announcement. */
  lemma DeliverKeepsSettled(s: Slot, d: Delivery, a: Announcement)
    requires Sound(s)
    ensures Settled(s, a) ==> Settled(Deliver(s, d), a)
    ensures Buried(s, a) ==> Buried(Deliver(s, d), a)
  {
    if d.OfAnnouncement? && s.ann.Some? && d.a.Verify() {
      PreferenceIgnoresClock(s.ann.value.announcement, d.a, d.at);
    }
  }

  lemma {:induction false} RunKeepsSettled(s: Slot, ds: seq<Delivery>, a: Announcement)
    requires Sound(s)
    ensures Settled(s, a) ==> Settled(Run(s, ds), a)
    ensures Buried(s, a) ==> Buried(Run(s, ds), a)
  {
    if ds != [] {
      RunKeepsSettled(s, ds[..|ds| - 1], a);
      RunKeepsSound(s, ds[..|ds| - 1]);
      DeliverKeepsSettled(Run(s, ds[..|ds| - 1]), ds[|ds| - 1], a);
    }
  }

  /** No delivery, at any time, lowers the high-water mark or releases withheld times. */
  lemma DeliverKeepsHighWater(s: Slot, d: Delivery, t: Time)
    requires Sound(s)
    ensures HighWater(s, t) ==> HighWater(Deliver(s, d), t)
    ensures Withheld(s, t) ==> Withheld(Deliver(s, d), t)
  {
    if d.OfAnnouncement? && s.ann.Some? && d.a.Verify() {
      PreferenceIgnoresClock(s.ann.value.announcement, d.a, d.at);
    }
  }

  /** The high-water mark max(announced at, withdrawn at) never decreases over a run. */
  lemma {:induction false} RunKeepsHighWater(s: Slot, ds: seq<Delivery>, t: Time)
    requires Sound(s)
    ensures HighWater(s, t) ==> HighWater(Run(s, ds), t)
    ensures Withheld(s, t) ==> Withheld(Run(s, ds), t)
  {
    if ds != [] {
      RunKeepsHighWater(s, ds[..|ds| - 1], t);
      RunKeepsSound(s, ds[..|ds| - 1]);
      DeliverKeepsHighWater(Run(s, ds[..|ds| - 1]), ds[|ds| - 1], t);
    }
  }

  /** A verified delivery settles its own artifact, whether it is accepted or rejected. */
  lemma DeliverySettles(s: Slot, d: Delivery)
    requires Sound(s)
    ensures d.OfAnnouncement? && d.a.addressValid && d.a.Verify() && d.a.LeaseIsActive(d.at) ==>
        Settled(Deliver(s, d), d.a)
    ensures d.OfWithdrawal? && d.w.Verify() ==> Withheld(Deliver(s, d), d.w.withdrawnAt)
  {
    if d.OfAnnouncement? && s.ann.Some? && d.a.Verify() {
      PreferenceIgnoresClock(s.ann.value.announcement, d.a, d.at);
    }
  }

  /** The announcement kept in a slot has the rank of `a`. */
  predicate Keeps(s: Slot, a: Announcement) {
    s.ann.Some? && SameRank(s.ann.value.announcement, a)
  }

  /**
   No resurrection: once `a` was retained and is no longer, no later deliveries, at whatever
   times, bring it back, and delivering `a` itself is refused.
   */
  lemma NoResurrection(s: Slot, before: seq<Delivery>, after: seq<Delivery>, a: Announcement, from: Provenance,
      now: Time)
    requires Sound(s) && Keeps(s, a)
    requires !Keeps(Run(s, before), a)
    ensures !Keeps(Run(s, before + after), a)
    ensures Announce(Run(s, before + after), a, from, now).result.Err?
  {
    var gone := Run(s, before);
    RunKeepsSettled(s, before, a);
    assert Settled(gone, a) && Buried(gone, a);
    RunKeepsSound(s, before);
    RunAppend(s, before, after);
    RunKeepsSettled(gone, after, a);
    RunKeepsSound(gone, after);
    var end := Run(gone, after);
    if end.ann.Some? && a.Verify() {
      PreferenceIgnoresClock(end.ann.value.announcement, a, now);
    }
  }
}
