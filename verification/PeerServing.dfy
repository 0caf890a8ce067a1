/** Discovery Peer serving: the peer-local stream that retained announcements are projected into. */
module PeerServing {
  import opened Wrappers
  import opened Artifacts
  import opened StreamLog
  import opened Nodes

  const MAX_PEER_STREAM_ENTRIES: nat := MAX_STREAM_ENTRIES

  datatype PeerRejection = PeerServiceDisabled | PeerInvalidSignature | PeerStaleLease

  function PeerRow(sequence: nat, a: Announcement, now: Time): Entry {
    Entry(sequence, now, Admitted, a.origin, a.slug, AnnouncementPayload(a))
  }

  function AppendPeerRow(p: PeerService, a: Announcement, now: Time): PeerService {
    p.(nextSequence := p.nextSequence + 1,
       stream := Append(p.stream, p.nextSequence, PeerRow(p.nextSequence, a, now)))
  }

  /** Why a projection is refused, if it is. */
  function ProjectionRefusal(p: PeerService, a: Announcement, now: Time): Option<PeerRejection> {
    if !p.enabled then Some(PeerServiceDisabled)
    else if !a.Verify() then Some(PeerInvalidSignature)
    else if !a.LeaseIsActive(now) then Some(PeerStaleLease)
    else None
  }

  function Project(p: PeerService, a: Announcement, now: Time): PeerService {
    if ProjectionRefusal(p, a, now).None? then AppendPeerRow(p, a, now) else p
  }

  method PrunePeerStreamEntries(store: Store)
    modifies store`peerEntries
    ensures store.peerEntries == Pruned(old(store.peerEntries), MAX_PEER_STREAM_ENTRIES)
  {
    while |store.peerEntries| > MAX_PEER_STREAM_ENTRIES
      invariant Pruned(store.peerEntries, MAX_PEER_STREAM_ENTRIES) ==
          Pruned(old(store.peerEntries), MAX_PEER_STREAM_ENTRIES)
      decreases |store.peerEntries|
    {
      assert store.peerEntries.Keys != {};
      var oldest := Least(store.peerEntries.Keys);
      store.peerEntries := store.peerEntries - {oldest};
    }
  }

  method AppendPeerStreamEntry(store: Store, a: Announcement, now: Time) returns (sequence: nat)
    modifies store`peerNextSequence, store`peerEntries, store`peerHistory
    ensures store.View() == old(store.View()).(peer := AppendPeerRow(old(store.View()).peer, a, now))
    ensures sequence == old(store.peerNextSequence)
  {
    sequence := store.peerNextSequence;
    store.peerNextSequence := sequence + 1;
    store.peerEntries := store.peerEntries[sequence := PeerRow(sequence, a, now)];
    store.peerHistory := store.peerHistory + [PeerRow(sequence, a, now)];
    PrunePeerStreamEntries(store);
  }

  method ProjectPeerServingAnnouncement(store: Store, a: Announcement, now: Time)
      returns (r: Result<nat, PeerRejection>)
    modifies store`peerNextSequence, store`peerEntries, store`peerHistory
    ensures store.View() == old(store.View()).(peer := Project(old(store.View()).peer, a, now))
    ensures r == match ProjectionRefusal(old(store.View()).peer, a, now)
                 case Some(refusal) => Err(refusal)
                 case None => Ok(old(store.peerNextSequence))
  {
    if !store.peerEnabled { return Err(PeerServiceDisabled); }
    if !a.Verify() { return Err(PeerInvalidSignature); }
    if !a.LeaseIsActive(now) { return Err(PeerStaleLease); }
    var sequence := AppendPeerStreamEntry(store, a, now);
    return Ok(sequence);
  }

  method MaybeProjectPeerServingAnnouncement(store: Store, a: Announcement, now: Time)
    modifies store`peerNextSequence, store`peerEntries, store`peerHistory
    ensures store.View() == old(store.View()).(peer := Project(old(store.View()).peer, a, now))
  {
    if !store.peerEnabled { return; }
    var _ := ProjectPeerServingAnnouncement(store, a, now);
  }

  /** Serving numbers its own rows: the window property of the peer stream. */
  ghost predicate PeerWindow(p: PeerService) { Window(p.stream, p.nextSequence) }

  lemma ProjectKeepsWindow(p: PeerService, a: Announcement, now: Time)
    requires PeerWindow(p)
    ensures PeerWindow(Project(p, a, now))
  {
    if ProjectionRefusal(p, a, now).None? {
      AppendKeepsWindow(p.stream, p.nextSequence, PeerRow(p.nextSequence, a, now));
    }
  }

  /** One projection after another. */
  function ProjectAll(p: PeerService, l: seq<Announcement>, now: Time): PeerService
    decreases |l|
  {
    if l == [] then p else ProjectAll(Project(p, l[0], now), l[1..], now)
  }

  /** While serving is on, each verified active announcement adds one row; otherwise nothing changes. */
  lemma {:induction false} ProjectAllAppends(p: PeerService, l: seq<Announcement>, now: Time)
    requires forall i :: 0 <= i < |l| ==> l[i].Verify() && l[i].LeaseIsActive(now)
    ensures var q := ProjectAll(p, l, now);
      && q.enabled == p.enabled
      && (!p.enabled ==> q == p)
      && (p.enabled ==>
            && q.nextSequence == p.nextSequence + |l|
            && |q.stream.history| == |p.stream.history| + |l|
            && p.stream.history <= q.stream.history
            && forall i :: 0 <= i < |l| ==>
                 q.stream.history[|p.stream.history| + i] == PeerRow(p.nextSequence + i, l[i], now))
    decreases |l|
  {
    if l != [] {
      ProjectAllAppends(Project(p, l[0], now), l[1..], now);
    }
  }

  lemma {:induction false} ProjectAllKeepsWindow(p: PeerService, l: seq<Announcement>, now: Time)
    requires PeerWindow(p)
    ensures PeerWindow(ProjectAll(p, l, now))
    decreases |l|
  {
    if l != [] {
      ProjectKeepsWindow(p, l[0], now);
      ProjectAllKeepsWindow(Project(p, l[0], now), l[1..], now);
    }
  }
}
