/**
 Reading a Discovery Peer's announcement stream while the service is switched on and off and
 the node goes on retaining: what a reader sees, and that it can learn everything kept.
 */
module PeerStreams {
  import opened Wrappers
  import opened Artifacts
  import opened Retention
  import opened SlotMaps
  import opened StreamLog
  import opened Cursors
  import opened KeyOrder
  import opened Nodes
  import opened BootstrapStream
  import opened PeerServing
  import opened PodAnnouncements
  import opened CursorCoverage
  import PeerAds

  const DEFAULT_PEER_STREAM_PAGE_LIMIT: nat := 50
  const MAX_PEER_STREAM_PAGE_LIMIT: nat := 100

  // ----- switching the service -----

  predicate IsWorthServing(s: Slots, k: PodKey, now: Time) {
    k in s.announcements && s.announcements[k].announcement.LeaseIsActive(now)
        && s.announcements[k].announcement.Verify()
  }

  /** Kept announcements worth serving, in key order. */
  function WorthServing(s: Slots, keys: seq<PodKey>, now: Time): seq<Announcement> {
    if keys == [] then []
    else
      var rest := WorthServing(s, keys[..|keys| - 1], now);
      var k := keys[|keys| - 1];
      if IsWorthServing(s, k, now) then rest + [s.announcements[k].announcement] else rest
  }

  /** The node's own identity. */
  datatype Identity = Identity(id: NodeId, displayName: string, publicKey: string)

  /**
   What enabling or renewing depends on outside the node: the normalised endpoint, what the
   probe of it saw, a fresh advertisement id, and whether the local key can sign.
   */
  datatype Verification = Verification(
    endpoint: Result<string, PeerAds.PeerRefusal>,
    probe: Option<PeerAds.IdentityView>,
    adId: Uuid,
    keySigns: bool)

  function Issued(me: Identity, endpoint: string, adId: Uuid, now: Time): Advertisement {
    Advertisement(adId, me.id, Signer(me.id, me.displayName, me.publicKey, CURRENT_PROTOCOL_VERSION), endpoint,
                  CURRENT_PROTOCOL_VERSION, AnnouncementServing, now, now + PEER_LEASE_DURATION, true)
  }

  /** Why the probe of the own endpoint does not let it be advertised, if so. */
  function OwnProbeRefusal(me: Identity, v: Verification): Option<PeerAds.PeerRefusal> {
    if v.probe.None? then Some(PeerAds.EndpointUnreachable)
    else if v.probe.value != PeerAds.IdentityView(me.id, me.publicKey, CURRENT_PROTOCOL_VERSION)
    then Some(PeerAds.IdentityMismatch)
    else if !v.keySigns then Some(PeerAds.PeerIdentityInvalid)
    else None
  }

  function EnableRefusal(me: Identity, v: Verification): Option<PeerAds.PeerRefusal> {
    if v.endpoint.Err? then Some(v.endpoint.error)
    else if Trim(me.publicKey) == [] then Some(PeerAds.PeerIdentityInvalid)
    else OwnProbeRefusal(me, v)
  }

  function RenewRefusal(p: PeerService, me: Identity, v: Verification): Option<PeerAds.PeerRefusal> {
    if !p.enabled then Some(PeerAds.ServiceDisabled)
    else if p.offer.endpoint.None? then Some(PeerAds.VerificationFailed)
    else OwnProbeRefusal(me, v)
  }

  /** The service offers `ad` from now on. */
  function Offering(p: PeerService, ad: Advertisement, now: Time): PeerService {
    p.(enabled := true, offer := Offer(Some(ad.endpoint), Some(ad), Some(now)))
  }

  /** Switching on projects what is known; the position counter goes on where it was. */
  function SwitchOn(s: NodeState, ad: Advertisement, now: Time): NodeState {
    s.(peer := ProjectAll(Offering(s.peer, ad, now), WorthServing(s.slots, InOrder(s.slots.announcements.Keys), now),
        now))
  }

  function TryEnable(s: NodeState, me: Identity, v: Verification, now: Time): NodeState {
    if EnableRefusal(me, v).Some? then s else SwitchOn(s, Issued(me, v.endpoint.value, v.adId, now), now)
  }

  function TryRenew(s: NodeState, me: Identity, v: Verification, now: Time): NodeState {
    if RenewRefusal(s.peer, me, v).Some? then s
    else
      var ad := Issued(me, s.peer.offer.endpoint.value, v.adId, now);
      s.(peer := s.peer.(offer := s.peer.offer.(advertisement := Some(ad), verifiedAt := Some(now))))
  }

  function SwitchOff(s: NodeState): NodeState {
    s.(peer := s.peer.(enabled := false, offer := s.peer.offer.(advertisement := None)))
  }

  method CollectWorthServing(store: Store, keys: seq<PodKey>, now: Time) returns (candidates: seq<Announcement>)
    ensures candidates == WorthServing(store.Slots(), keys, now)
  {
    candidates := [];
    for i := 0 to |keys|
      invariant candidates == WorthServing(store.Slots(), keys[..i], now)
    {
      assert keys[..i + 1][..i] == keys[..i];
      if keys[i] in store.announcements {
        var a := store.announcements[keys[i]].announcement;
        if a.LeaseIsActive(now) && a.Verify() { candidates := candidates + [a]; }
      }
    }
    assert keys[..|keys|] == keys;
  }

  method ProjectCandidates(store: Store, candidates: seq<Announcement>, now: Time)
    modifies store`peerNextSequence, store`peerEntries, store`peerHistory
    ensures store.View() == old(store.View()).(peer := ProjectAll(old(store.View()).peer, candidates, now))
  {
    ghost var before := store.View();
    for i := 0 to |candidates|
      invariant store.View() == before.(peer := store.View().peer)
      invariant ProjectAll(store.View().peer, candidates[i..], now) == ProjectAll(before.peer, candidates, now)
    {
      assert candidates[i..][0] == candidates[i] && candidates[i..][1..] == candidates[i + 1..];
      MaybeProjectPeerServingAnnouncement(store, candidates[i], now);
    }
  }

  method EnableDiscoveryPeerService(store: Store, me: Identity, v: Verification, now: Time)
    returns (r: Result<Advertisement, PeerAds.PeerRefusal>)
    modifies store`peerEnabled, store`peerOffer, store`peerNextSequence, store`peerEntries, store`peerHistory
    ensures match EnableRefusal(me, v)
      case Some(refusal) => r == Err(refusal)
      case None => r == Ok(Issued(me, v.endpoint.value, v.adId, now))
    ensures store.View() == TryEnable(old(store.View()), me, v, now)
  {
    if v.endpoint.Err? { return Err(v.endpoint.error); }
    if Trim(me.publicKey) == [] { return Err(PeerAds.PeerIdentityInvalid); }
    var refusal := OwnProbeRefusal(me, v);
    if refusal.Some? { return Err(refusal.value); }
    var ad := Issued(me, v.endpoint.value, v.adId, now);
    store.peerEnabled := true;
    store.peerOffer := Offer(Some(v.endpoint.value), Some(ad), Some(now));
    var candidates := CollectWorthServing(store, InOrder(store.announcements.Keys), now);
    ProjectCandidates(store, candidates, now);
    return Ok(ad);
  }

  method RenewDiscoveryPeerAdvertisement(store: Store, me: Identity, v: Verification, now: Time)
    returns (r: Result<Advertisement, PeerAds.PeerRefusal>)
    modifies store`peerOffer
    ensures match RenewRefusal(old(store.View()).peer, me, v)
      case Some(refusal) => r == Err(refusal)
      case None => r == Ok(Issued(me, old(store.peerOffer).endpoint.value, v.adId, now))
    ensures store.View() == TryRenew(old(store.View()), me, v, now)
  {
    if !store.peerEnabled { return Err(PeerAds.ServiceDisabled); }
    if store.peerOffer.endpoint.None? { return Err(PeerAds.VerificationFailed); }
    var refusal := OwnProbeRefusal(me, v);
    if refusal.Some? { return Err(refusal.value); }
    var ad := Issued(me, store.peerOffer.endpoint.value, v.adId, now);
    store.peerOffer := store.peerOffer.(advertisement := Some(ad), verifiedAt := Some(now));
    return Ok(ad);
  }

  /** Keeps the endpoint and the numbering, for resuming. */
  method DisableDiscoveryPeerService(store: Store)
    modifies store`peerEnabled, store`peerOffer
    ensures store.View() == SwitchOff(old(store.View()))
  {
    store.peerEnabled := false;
    store.peerOffer := store.peerOffer.(advertisement := None);
  }

  // ----- reading -----

  function ClampPeerLimit(limit: Option<nat>): nat {
    var l := if limit.Some? then limit.value else DEFAULT_PEER_STREAM_PAGE_LIMIT;
    if l < 1 then 1 else if l > MAX_PEER_STREAM_PAGE_LIMIT then MAX_PEER_STREAM_PAGE_LIMIT else l
  }

  datatype PeerReadRejection = ServiceDisabled | BadCursor

  function ReadPeer(p: PeerService, cursor: Option<string>, limit: Option<nat>): Result<Page, PeerReadRejection> {
    if !p.enabled then Err(ServiceDisabled)
    else
      match Parse(cursor)
      case None => Err(BadCursor)
      case Some(after) =>
        if after > Later(p.nextSequence, PastEnd(p.stream.entries.Keys)) then Err(BadCursor)
        else Ok(PageAfter(p.stream.entries, after, ClampPeerLimit(limit)))
  }

  method ReadPeerAnnouncementStream(store: Store, cursor: Option<string>, limit: Option<nat>)
    returns (r: Result<Page, PeerReadRejection>)
    ensures r == ReadPeer(store.View().peer, cursor, limit)
  {
    if !store.peerEnabled { return Err(ServiceDisabled); }
    var after := Parse(cursor);
    if after.None? { return Err(BadCursor); }
    if after.value > Later(store.peerNextSequence, PastEnd(store.peerEntries.Keys)) { return Err(BadCursor); }
    return Ok(PageAfter(store.peerEntries, after.value, ClampPeerLimit(limit)));
  }

  // ----- runs -----

  datatype PeerEvent =
    | Enable(me: Identity, v: Verification, at: Time)
    | Renew(me: Identity, v: Verification, at: Time)
    | Disable(at: Time)
    | Keep(a: Announcement, from: Provenance, at: Time)
    | End(w: Withdrawal, peer: Option<Uuid>, at: Time)
    | PollPeer(limit: Option<nat>, at: Time)

  function Act(x: Scene, e: PeerEvent): Scene {
    match e
    case Enable(me, v, at) => x.(node := TryEnable(x.node, me, v, at))
    case Renew(me, v, at) => x.(node := TryRenew(x.node, me, v, at))
    case Disable(at) => x.(node := SwitchOff(x.node))
    case Keep(a, from, at) => x.(node := Retain(x.node, a, from, at).state)
    case End(w, peer, at) => x.(node := RetainWithdrawal(x.node, w, peer, at).state)
    case PollPeer(limit, at) =>
      var r := ReadPeer(x.node.peer, x.reader.cursor, limit);
      if r.Ok? then x.(reader := Consume(x.reader, r.value)) else x
  }

  function PlayPeer(events: seq<PeerEvent>): Scene {
    if events == [] then OPENING else Act(PlayPeer(events[..|events| - 1]), events[|events| - 1])
  }

  /** The clock read no later than `now` whenever the service was switched on. */
  predicate SwitchedOnBy(events: seq<PeerEvent>, now: Time) {
    forall e :: e in events && e.Enable? ==> e.at <= now
  }

  // ----- coverage -----

  lemma {:induction false} WorthServingIsActive(s: Slots, keys: seq<PodKey>, now: Time)
    ensures forall a :: a in WorthServing(s, keys, now) ==> a.Verify() && a.LeaseIsActive(now)
    ensures forall k :: k in keys && IsWorthServing(s, k, now) ==>
        s.announcements[k].announcement in WorthServing(s, keys, now)
  {
    if keys != [] {
      WorthServingIsActive(s, keys[..|keys| - 1], now);
      assert keys == keys[..|keys| - 1] + [keys[|keys| - 1]];
    }
  }

  /** Switching on appends to the log, and what it offers stays what was verified. */
  lemma SwitchOnKeepsLog(s: NodeState, ad: Advertisement, at: Time)
    requires PeerWindow(s.peer)
    ensures var t := SwitchOn(s, ad, at).peer;
      PeerWindow(t) && s.peer.stream.history <= t.stream.history
  {
    var l := WorthServing(s.slots, InOrder(s.slots.announcements.Keys), at);
    WorthServingIsActive(s.slots, InOrder(s.slots.announcements.Keys), at);
    ProjectAllKeepsWindow(Offering(s.peer, ad, at), l, at);
    ProjectAllAppends(Offering(s.peer, ad, at), l, at);
  }

  /** The peer log only grows, and its window stays right. */
  lemma ActKeepsLog(x: Scene, e: PeerEvent)
    requires PeerWindow(x.node.peer)
    ensures PeerWindow(Act(x, e).node.peer)
    ensures x.node.peer.stream.history <= Act(x, e).node.peer.stream.history
  {
    match e
    case Enable(me, v, at) =>
      if EnableRefusal(me, v).None? { SwitchOnKeepsLog(x.node, Issued(me, v.endpoint.value, v.adId, at), at); }
    case Renew(_, _, _) =>
    case Disable(_) =>
    case Keep(a, _, at) => ProjectKeepsWindow(x.node.peer, a, at);
    case End(_, _, _) =>
    case PollPeer(_, _) =>
  }

  /** While serving is on, an issued cursor is never refused and its page continues the reader's view. */
  lemma PeerPollContinues(x: Scene, limit: Option<nat>)
    requires PeerWindow(x.node.peer) && Covers(x.node.peer.stream, x.reader)
    requires x.node.peer.enabled && |x.node.peer.stream.history| < U64_MAX
    ensures var r := ReadPeer(x.node.peer, x.reader.cursor, limit);
      && r.Ok? && Covers(x.node.peer.stream, Consume(x.reader, r.value))
      && (r.value.entries == [] <==> x.reader.position == |x.node.peer.stream.history|)
  {
    PageContinuesCover(x.node.peer.stream, x.node.peer.nextSequence, x.reader, ClampPeerLimit(limit));
  }

  lemma ActKeepsCover(x: Scene, e: PeerEvent)
    requires PeerWindow(x.node.peer) && Covers(x.node.peer.stream, x.reader)
    requires |Act(x, e).node.peer.stream.history| < U64_MAX
    ensures Covers(Act(x, e).node.peer.stream, Act(x, e).reader)
  {
    ActKeepsLog(x, e);
    if e.PollPeer? {
      if x.node.peer.enabled { PeerPollContinues(x, e.limit); }
    } else {
      GrowthKeepsCover(x.node.peer.stream, Act(x, e).node.peer.stream, x.reader);
    }
  }

  /** Coverage over every interleaving, the service being switched off and on included. */
  lemma {:induction false} PeerReaderCovers(events: seq<PeerEvent>)
    requires |PlayPeer(events).node.peer.stream.history| < U64_MAX
    ensures PeerWindow(PlayPeer(events).node.peer)
    ensures Covers(PlayPeer(events).node.peer.stream, PlayPeer(events).reader)
  {
    PeerLogWindow(events);
    if events != [] {
      var front, last := events[..|events| - 1], events[|events| - 1];
      PeerLogWindow(front);
      ActKeepsLog(PlayPeer(front), last);
      PeerReaderCovers(front);
      ActKeepsCover(PlayPeer(front), last);
    }
  }

  lemma {:induction false} PeerLogWindow(events: seq<PeerEvent>)
    ensures PeerWindow(PlayPeer(events).node.peer)
  {
    if events != [] {
      PeerLogWindow(events[..|events| - 1]);
      ActKeepsLog(PlayPeer(events[..|events| - 1]), events[|events| - 1]);
    }
  }

  // ----- everything kept is served -----

  predicate InLog(history: seq<Entry>, a: Announcement) {
    exists i :: 0 <= i < |history| && history[i].payload == AnnouncementPayload(a)
  }

  lemma InLogStays(history: seq<Entry>, longer: seq<Entry>, a: Announcement)
    requires history <= longer && InLog(history, a)
    ensures InLog(longer, a)
  {
    var i :| 0 <= i < |history| && history[i].payload == AnnouncementPayload(a);
    assert longer[i] == history[i];
  }

  /** While serving is on, every kept announcement with an active lease has been written to the log. */
  ghost predicate AllServed(s: NodeState, now: Time) {
    s.peer.enabled ==>
      forall k :: k in s.slots.announcements && s.slots.announcements[k].announcement.LeaseIsActive(now)
        ==> InLog(s.peer.stream.history, s.slots.announcements[k].announcement)
  }

  /** Rows appended for a list hold its announcements and nothing else. */
  lemma RowsHold(before: seq<Entry>, after: seq<Entry>, first: nat, l: seq<Announcement>, now: Time, a: Announcement)
    requires |after| == |before| + |l| && before <= after
    requires forall i :: 0 <= i < |l| ==> after[|before| + i] == PeerRow(first + i, l[i], now)
    ensures InLog(after, a) <==> a in l || InLog(before, a)
  {
    if i :| 0 <= i < |l| && l[i] == a { assert after[|before| + i].payload == AnnouncementPayload(a); }
    if InLog(before, a) { InLogStays(before, after, a); }
    if i :| 0 <= i < |after| && after[i].payload == AnnouncementPayload(a) {
      if i < |before| { assert before[i] == after[i]; } else { assert l[i - |before|] == a; }
    }
  }

  lemma ProjectionsAreLogged(p: PeerService, l: seq<Announcement>, now: Time, a: Announcement)
    requires p.enabled && forall b :: b in l ==> b.Verify() && b.LeaseIsActive(now)
    ensures InLog(ProjectAll(p, l, now).stream.history, a) <==> a in l || InLog(p.stream.history, a)
  {
    ProjectAllAppends(p, l, now);
    RowsHold(p.stream.history, ProjectAll(p, l, now).stream.history, p.nextSequence, l, now, a);
  }

  /** Switching on writes what is leased then, and nothing that is not. */
  lemma SwitchOnLogs(s: NodeState, ad: Advertisement, at: Time, k: PodKey)
    requires SoundSlots(s.slots) && k in s.slots.announcements
    ensures var a := s.slots.announcements[k].announcement;
      InLog(SwitchOn(s, ad, at).peer.stream.history, a) <==> a.LeaseIsActive(at) || InLog(s.peer.stream.history, a)
  {
    var keys := InOrder(s.slots.announcements.Keys);
    WorthServingIsActive(s.slots, keys, at);
    assert Sound(s.slots.At(k));
    assert IsWorthServing(s.slots, k, at) <==> s.slots.announcements[k].announcement.LeaseIsActive(at);
    ProjectionsAreLogged(Offering(s.peer, ad, at), WorthServing(s.slots, keys, at), at,
      s.slots.announcements[k].announcement);
  }

  /** At any readings: what is served after switching on is complete exactly when it finds nothing lapsed unwritten. */
  lemma SwitchOnServesExactly(s: NodeState, ad: Advertisement, at: Time, now: Time)
    requires SoundSlots(s.slots)
    ensures AllServed(SwitchOn(s, ad, at), now) <==>
      forall k :: k in s.slots.announcements && s.slots.announcements[k].announcement.LeaseIsActive(now)
        ==> s.slots.announcements[k].announcement.LeaseIsActive(at)
            || InLog(s.peer.stream.history, s.slots.announcements[k].announcement)
  {
    forall k | k in s.slots.announcements
      ensures var a := s.slots.announcements[k].announcement;
        InLog(SwitchOn(s, ad, at).peer.stream.history, a) <==> a.LeaseIsActive(at) || InLog(s.peer.stream.history, a)
    {
      SwitchOnLogs(s, ad, at, k);
    }
    ProjectAllKeepsOffer(Offering(s.peer, ad, at), WorthServing(s.slots, InOrder(s.slots.announcements.Keys), at), at);
  }

  lemma KeepServesAll(s: NodeState, a: Announcement, from: Provenance, at: Time, now: Time)
    requires AllServed(s, now)
    ensures AllServed(Retain(s, a, from, at).state, now)
  {
    var t := Retain(s, a, from, at).state;
    if t.peer.enabled {
      forall k | k in t.slots.announcements && t.slots.announcements[k].announcement.LeaseIsActive(now)
        ensures InLog(t.peer.stream.history, t.slots.announcements[k].announcement)
      {
        DeliverAtOne(s.slots, OfAnnouncement(a, from, at), k);
        assert t.slots.At(k).ann == Some(t.slots.announcements[k]);
        if Announce(s.slots.At(k), a, from, at).result.Ok? && k == a.Key() {
          assert t.peer.stream.history[|s.peer.stream.history|].payload == AnnouncementPayload(a);
        } else {
          assert s.slots.At(k).ann == t.slots.At(k).ann;
          assert s.slots.announcements[k] == t.slots.announcements[k];
          InLogStays(s.peer.stream.history, t.peer.stream.history, t.slots.announcements[k].announcement);
        }
      }
    }
  }

  lemma EndServesAll(s: NodeState, w: Withdrawal, peer: Option<Uuid>, at: Time, now: Time)
    requires AllServed(s, now)
    ensures AllServed(RetainWithdrawal(s, w, peer, at).state, now)
  {
    var t := RetainWithdrawal(s, w, peer, at).state;
    forall k | k in t.slots.announcements
      ensures k in s.slots.announcements && s.slots.announcements[k] == t.slots.announcements[k]
    {
      DeliverAtOne(s.slots, OfWithdrawal(w, peer, at), k);
      assert t.slots.At(k).ann == Some(t.slots.announcements[k]);
    }
  }

  /** After any run, at any reading that is not behind a switching on. */
  lemma {:induction false} ServingIsComplete(events: seq<PeerEvent>, now: Time)
    requires SwitchedOnBy(events, now)
    ensures SoundSlots(PlayPeer(events).node.slots)
    ensures AllServed(PlayPeer(events).node, now)
  {
    if events != [] {
      var front, last := events[..|events| - 1], events[|events| - 1];
      ServingIsComplete(front, now);
      var s := PlayPeer(front).node;
      match last
      case Enable(me, v, at) =>
        if EnableRefusal(me, v).None? { SwitchOnServesExactly(s, Issued(me, v.endpoint.value, v.adId, at), at, now); }
      case Renew(_, _, _) =>
      case Disable(_) =>
      case Keep(a, from, at) =>
        DeliverAtKeepsSound(s.slots, OfAnnouncement(a, from, at));
        KeepServesAll(s, a, from, at, now);
      case End(w, peer, at) =>
        DeliverAtKeepsSound(s.slots, OfWithdrawal(w, peer, at));
        EndServesAll(s, w, peer, at, now);
      case PollPeer(_, _) =>
    }
  }

  /** A node that kept one announcement and never served. */
  ghost predicate KeptWhileOff(s: NodeState, a: Announcement) {
    && s.slots.announcements.Keys == {a.Key()} && s.slots.announcements[a.Key()].announcement == a
    && s.peer == DEFAULT_PEER_SERVICE && SoundSlots(s.slots)
  }

  /** The node serves, keeps the announcement, and has written no row. */
  ghost predicate ServesNothing(s: NodeState, a: Announcement) {
    && s.peer.enabled && s.peer.stream.history == []
    && a.Key() in s.slots.announcements && s.slots.announcements[a.Key()].announcement == a
  }

  lemma SwitchedOnLate(x: Scene, a: Announcement, me: Identity, v: Verification, now: Time)
    requires KeptWhileOff(x.node, a) && EnableRefusal(me, v).None? && now < a.expiresAt
    ensures var t := Act(x, Enable(me, v, a.expiresAt)).node; ServesNothing(t, a) && !AllServed(t, now)
  {
    var ad := Issued(me, v.endpoint.value, v.adId, a.expiresAt);
    var s, keys := x.node, InOrder(x.node.slots.announcements.Keys);
    NothingWorthServing(s.slots, keys, a.expiresAt);
    SwitchOnServesExactly(s, ad, a.expiresAt, now);
    assert SwitchOn(s, ad, a.expiresAt).peer == Offering(s.peer, ad, a.expiresAt);
  }

  lemma KeptFirst(a: Announcement)
    requires a.addressValid && a.Verify()
    ensures KeptWhileOff(Retain(NEW_NODE, a, LOCAL, a.announcedAt).state, a)
  {
    var d := OfAnnouncement(a, LOCAL, a.announcedAt);
    DeliverAtKeepsSound(NO_SLOTS, d);
    DeliverAtOne(NO_SLOTS, d, a.Key());
  }

  lemma PlayPeerSnoc(events: seq<PeerEvent>, e: PeerEvent)
    ensures PlayPeer(events + [e]) == Act(PlayPeer(events), e)
  {
    assert (events + [e])[..|events|] == events;
  }

  /** With the clock set back before the end of the lease, the announcement is leased, kept, and not served. */
  lemma LateSwitchOnLeavesOut(me: Identity, v: Verification, a: Announcement, now: Time)
    requires a.addressValid && a.Verify() && EnableRefusal(me, v).None? && now < a.expiresAt
    ensures var t := PlayPeer([Keep(a, LOCAL, a.announcedAt), Enable(me, v, a.expiresAt)]).node;
      ServesNothing(t, a) && !AllServed(t, now)
  {
    var first, second := Keep(a, LOCAL, a.announcedAt), Enable(me, v, a.expiresAt);
    KeptFirst(a);
    PlayPeerSnoc([], first);
    PlayPeerSnoc([first], second);
    assert [] + [first] == [first] && [first] + [second] == [first, second];
    SwitchedOnLate(Act(OPENING, first), a, me, v, now);
  }

  lemma {:induction false} NothingWorthServing(s: Slots, keys: seq<PodKey>, now: Time)
    requires forall k :: k in s.announcements ==> !s.announcements[k].announcement.LeaseIsActive(now)
    ensures WorthServing(s, keys, now) == []
  {
    if keys != [] { NothingWorthServing(s, keys[..|keys| - 1], now); }
  }

  /** A reader that reached the end of the stream without misses has seen every active announcement the peer keeps. */
  lemma CaughtUpReaderKnowsAll(events: seq<PeerEvent>, now: Time, k: PodKey)
    requires SwitchedOnBy(events, now)
    requires var x := PlayPeer(events);
      && |x.node.peer.stream.history| < U64_MAX && x.node.peer.enabled
      && x.reader.position == |x.node.peer.stream.history| && x.reader.missed == {}
      && k in x.node.slots.announcements && x.node.slots.announcements[k].announcement.LeaseIsActive(now)
    ensures InLog(PlayPeer(events).reader.seen, PlayPeer(events).node.slots.announcements[k].announcement)
  {
    var x := PlayPeer(events);
    ServingIsComplete(events, now);
    PeerReaderCovers(events);
    NothingMissed(x.node.peer.stream.history, x.reader.position);
    assert x.reader.seen == x.node.peer.stream.history;
  }

  // ----- what is offered -----

  /** An advertisement is out exactly while serving, for the verified endpoint, issued when it was verified. */
  predicate OffersRightly(p: PeerService) {
    && (p.enabled <==> p.offer.advertisement.Some?)
    && (p.offer.advertisement.Some? ==>
          var ad := p.offer.advertisement.value;
          ad.Verify() && p.offer.endpoint == Some(ad.endpoint) && p.offer.verifiedAt == Some(ad.issuedAt))
  }

  lemma {:induction false} ProjectAllKeepsOffer(p: PeerService, l: seq<Announcement>, now: Time)
    ensures ProjectAll(p, l, now).offer == p.offer && ProjectAll(p, l, now).enabled == p.enabled
    decreases |l|
  {
    if l != [] { ProjectAllKeepsOffer(Project(p, l[0], now), l[1..], now); }
  }

  /** Over every run the advertisement follows the service. */
  lemma {:induction false} AdvertisedExactlyWhileServing(events: seq<PeerEvent>)
    ensures OffersRightly(PlayPeer(events).node.peer)
  {
    if events != [] {
      var front, last := events[..|events| - 1], events[|events| - 1];
      AdvertisedExactlyWhileServing(front);
      var s := PlayPeer(front).node;
      match last
      case Enable(me, v, at) =>
        if EnableRefusal(me, v).None? {
          var ad := Issued(me, v.endpoint.value, v.adId, at);
          ProjectAllKeepsOffer(Offering(s.peer, ad, at),
              WorthServing(s.slots, InOrder(s.slots.announcements.Keys), at), at);
        }
      case Renew(_, _, _) =>
      case Disable(_) =>
      case Keep(_, _, _) =>
      case End(_, _, _) =>
      case PollPeer(_, _) =>
    }
  }

  /** For seven days after issue, a Bootstrap node finds nothing wrong with it but a blank key or its size. */
  lemma IssuedIsAdmissible(me: Identity, endpoint: string, adId: Uuid, issued: Time, bytes: nat, now: Time)
    ensures PeerAds.AdvertisementRefusal(true, bytes, Ok(endpoint), Issued(me, endpoint, adId, issued), now).None?
      <==> Trim(me.publicKey) != [] && bytes <= 8_192 && now < issued + 604_800_000_000_000
    ensures PeerAds.ProbeRefusal(Issued(me, endpoint, adId, issued),
                                 Some(PeerAds.IdentityView(me.id, me.publicKey, CURRENT_PROTOCOL_VERSION))).None?
  {
  }

  // ----- off and on again -----

  /** Events after a given scene. */
  function PlayPeerFrom(x: Scene, events: seq<PeerEvent>): Scene {
    if events == [] then x else Act(PlayPeerFrom(x, events[..|events| - 1]), events[|events| - 1])
  }

  /** While off, no reader is served and no row is written, whatever is retained or withdrawn. */
  lemma {:induction false} PausedIsQuiet(x: Scene, events: seq<PeerEvent>)
    requires !x.node.peer.enabled && forall e :: e in events ==> !e.Enable?
    ensures var y := PlayPeerFrom(x, events);
      && !y.node.peer.enabled && y.reader == x.reader
      && y.node.peer.stream == x.node.peer.stream && y.node.peer.nextSequence == x.node.peer.nextSequence
  {
    if events != [] { PausedIsQuiet(x, events[..|events| - 1]); }
  }

  /** Switched on again, a reader from before the pause is served on from where it was. */
  lemma ReaderResumes(s: NodeState, r: Reader, ad: Advertisement, limit: Option<nat>, at: Time)
    requires PeerWindow(s.peer) && Covers(s.peer.stream, r)
    requires |SwitchOn(s, ad, at).peer.stream.history| < U64_MAX
    ensures var on := SwitchOn(s, ad, at).peer;
      var page := ReadPeer(on, r.cursor, limit);
      page.Ok? && Covers(on.stream, Consume(r, page.value))
  {
    var on := SwitchOn(s, ad, at);
    SwitchOnKeepsLog(s, ad, at);
    ProjectAllKeepsOffer(Offering(s.peer, ad, at), WorthServing(s.slots, InOrder(s.slots.announcements.Keys), at), at);
    GrowthKeepsCover(s.peer.stream, on.peer.stream, r);
    PeerPollContinues(Scene(on, r), limit);
  }
}
