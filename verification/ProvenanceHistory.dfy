/**
 Delivery provenance agrees with history: the sources recorded for the kept announcement are
 exactly those that delivered it under its lease, in whatever order.
 */
module ProvenanceHistory {
  import opened Wrappers
  import opened Artifacts
  import opened Retention
  import opened Convergence

  /** Delivery `i` handed over `a` while its lease ran. */
  predicate Delivered(ds: seq<Delivery>, i: int, a: Announcement) {
    0 <= i < |ds| && HandsOver(ds[i], a)
  }

  predicate HandsOver(d: Delivery, a: Announcement) {
    d.OfAnnouncement? && d.a == a && a.LeaseIsActive(d.at)
  }

  /** An id names one announcement among the verified ones delivered; forged copies may reuse it. */
  predicate SignedOnce(ds: seq<Delivery>) {
    forall i, j | 0 <= i < |ds| && 0 <= j < |ds| && UsableAt(ds, i) && UsableAt(ds, j) ::
      ds[i].a.id == ds[j].a.id ==> ds[i].a == ds[j].a
  }

  predicate UsableAt(ds: seq<Delivery>, i: nat)
    requires i < |ds|
  {
    ds[i].OfAnnouncement? && Usable(ds[i].a)
  }

  /** Some delivery that handed over `a` has property `p`. */
  ghost predicate SourceWith(ds: seq<Delivery>, a: Announcement, p: Delivery -> bool) {
    exists i :: Delivered(ds, i, a) && p(ds[i])
  }

  ghost predicate IndexSource(ds: seq<Delivery>, a: Announcement, url: string) {
    SourceWith(ds, a, (d: Delivery) => d.OfAnnouncement? && d.from.indexUrl == Some(url))
  }

  ghost predicate BootstrapSource(ds: seq<Delivery>, a: Announcement, url: string) {
    SourceWith(ds, a, (d: Delivery) => d.OfAnnouncement? && d.from.bootstrapUrl == Some(url))
  }

  ghost predicate DiscoveryPeerSource(ds: seq<Delivery>, a: Announcement, url: string) {
    SourceWith(ds, a, (d: Delivery) => d.OfAnnouncement? && d.from.discoveryPeer == Some(url))
  }

  ghost predicate PeerSource(ds: seq<Delivery>, a: Announcement) {
    SourceWith(ds, a, (d: Delivery) => d.OfAnnouncement? && d.from.peer.Some?)
  }

  /** The peer of the latest delivery of `a` under its lease that named one. */
  function LatestPeer(ds: seq<Delivery>, a: Announcement): Option<Uuid> {
    if ds == [] then None
    else
      var d := ds[|ds| - 1];
      if HandsOver(d, a) && d.from.peer.Some? then d.from.peer else LatestPeer(ds[..|ds| - 1], a)
  }

  /** The time of the latest delivery of `a` under its lease. */
  function LatestTime(ds: seq<Delivery>, a: Announcement): Time {
    if ds == [] then 0
    else if HandsOver(ds[|ds| - 1], a) then ds[|ds| - 1].at
    else LatestTime(ds[..|ds| - 1], a)
  }

  ghost predicate SourcesMatch(known: KnownAnnouncement, ds: seq<Delivery>) {
    var a := known.announcement;
    && (forall url :: url in known.fromIndexes <==> IndexSource(ds, a, url))
    && (forall url :: url in known.fromBootstraps <==> BootstrapSource(ds, a, url))
    && (forall url :: url in known.fromDiscoveryPeers <==> DiscoveryPeerSource(ds, a, url))
    && (known.fromPeer.Some? <==> PeerSource(ds, a)) && known.fromPeer == LatestPeer(ds, a)
    && known.receivedAt == LatestTime(ds, a)
  }

  lemma SourceExtends(ds: seq<Delivery>, d: Delivery, a: Announcement, p: Delivery -> bool)
    ensures SourceWith(ds + [d], a, p) <==> SourceWith(ds, a, p) || (HandsOver(d, a) && p(d))
  {
    var es := ds + [d];
    assert es[|ds|] == d;
    assert Delivered(es, |ds|, a) <==> HandsOver(d, a);
    if i :| Delivered(ds, i, a) && p(ds[i]) {
      assert Delivered(es, i, a) && es[i] == ds[i];
    }
    if i :| Delivered(es, i, a) && p(es[i]) && i < |ds| {
      assert Delivered(ds, i, a) && es[i] == ds[i];
    }
  }

  /** The new delivery adds its own sources to what was known of its announcement, and to nothing else. */
  lemma SourcesExtend(ds: seq<Delivery>, d: Delivery, a: Announcement, url: string)
    ensures var mine := HandsOver(d, a);
      && (IndexSource(ds + [d], a, url) <==> IndexSource(ds, a, url) || (mine && d.from.indexUrl == Some(url)))
      && (BootstrapSource(ds + [d], a, url) <==>
            BootstrapSource(ds, a, url) || (mine && d.from.bootstrapUrl == Some(url)))
      && (DiscoveryPeerSource(ds + [d], a, url) <==>
            DiscoveryPeerSource(ds, a, url) || (mine && d.from.discoveryPeer == Some(url)))
      && (PeerSource(ds + [d], a) <==> PeerSource(ds, a) || (mine && d.from.peer.Some?))
  {
    SourceExtends(ds, d, a, (x: Delivery) => x.OfAnnouncement? && x.from.indexUrl == Some(url));
    SourceExtends(ds, d, a, (x: Delivery) => x.OfAnnouncement? && x.from.bootstrapUrl == Some(url));
    SourceExtends(ds, d, a, (x: Delivery) => x.OfAnnouncement? && x.from.discoveryPeer == Some(url));
    SourceExtends(ds, d, a, (x: Delivery) => x.OfAnnouncement? && x.from.peer.Some?);
  }

  lemma LatestPeerExtends(ds: seq<Delivery>, d: Delivery, a: Announcement)
    ensures LatestPeer(ds + [d], a) == if HandsOver(d, a) && d.from.peer.Some? then d.from.peer else LatestPeer(ds, a)
    ensures LatestTime(ds + [d], a) == if HandsOver(d, a) then d.at else LatestTime(ds, a)
  {
    assert (ds + [d])[..|ds|] == ds;
  }

  lemma {:induction false} NoDeliveryNoPeer(ds: seq<Delivery>, a: Announcement)
    requires forall i :: !Delivered(ds, i, a)
    ensures LatestPeer(ds, a).None?
  {
    if ds != [] {
      var front := ds[..|ds| - 1];
      assert !Delivered(ds, |ds| - 1, a);
      forall i ensures !Delivered(front, i, a) { assert !Delivered(ds, i, a); }
      NoDeliveryNoPeer(front, a);
    }
  }

  /**
   Whenever an announcement is kept, each of its recorded source sets is the set of sources
   over all its deliveries; none is lost, none is inherited from another announcement. The
   recorded peer is that of the latest delivery that named one.
   */
  lemma {:induction false} ProvenanceMatchesHistory(ds: seq<Delivery>)
    requires SignedOnce(ds)
    ensures Run(EMPTY, ds).ann.Some? ==> SourcesMatch(Run(EMPTY, ds).ann.value, ds)
  {
    if ds != [] {
      var front, d := ds[..|ds| - 1], ds[|ds| - 1];
      assert ds == front + [d];
      ProvenanceMatchesHistory(front);
      if Run(EMPTY, ds).ann.Some? {
        StepSources(front, d, Run(EMPTY, ds).ann.value.announcement);
        StepMatches(front, d, Run(EMPTY, front).ann, Run(EMPTY, ds).ann.value);
      }
    }
  }

  /** The record of the kept withdrawal is that of one of its deliveries. */
  lemma {:induction false} KeptWithdrawalIsDelivered(ds: seq<Delivery>)
    ensures var wd := Run(EMPTY, ds).wd;
      wd.Some? ==>
        exists i ::
          0 <= i < |ds| && ds[i].OfWithdrawal? && wd.value == KnownWithdrawal(ds[i].w, ds[i].peer, ds[i].at)
  {
    if ds != [] && Run(EMPTY, ds).wd.Some? {
      var front, d := ds[..|ds| - 1], ds[|ds| - 1];
      KeptWithdrawalIsDelivered(front);
      if Run(EMPTY, ds).wd == Run(EMPTY, front).wd {
        var i :| 0 <= i < |front| && front[i].OfWithdrawal?
          && Run(EMPTY, front).wd.value == KnownWithdrawal(front[i].w, front[i].peer, front[i].at);
        assert ds[i] == front[i];
      } else {
        assert Run(EMPTY, ds).wd.value == KnownWithdrawal(d.w, d.peer, d.at);
      }
    }
  }

  /** Recording one delivery keeps the source sets in step with the history. */
  lemma StepMatches(front: seq<Delivery>, d: Delivery, before: Option<KnownAnnouncement>, after: KnownAnnouncement)
    requires before.Some? ==> SourcesMatch(before.value, front)
    requires Recording(front, d, before, after)
    ensures SourcesMatch(after, front + [d])
  {
    var a := after.announcement;
    var mine := HandsOver(d, a);
    SourcesExtend(front, d, a, "");
    LatestPeerExtends(front, d, a);
    if mine && (before.None? || before.value.announcement != a) { NoDeliveryNoPeer(front, a); }
    forall url
      ensures url in after.fromIndexes <==> IndexSource(front + [d], a, url)
      ensures url in after.fromBootstraps <==> BootstrapSource(front + [d], a, url)
      ensures url in after.fromDiscoveryPeers <==> DiscoveryPeerSource(front + [d], a, url)
    {
      SourcesExtend(front, d, a, url);
    }
  }

  /** How the record kept after a delivery relates to the one before it. */
  ghost predicate Recording(front: seq<Delivery>, d: Delivery, before: Option<KnownAnnouncement>,
      after: KnownAnnouncement) {
    var a := after.announcement;
    var accepted := HandsOver(d, a);
    if accepted && (before.None? || before.value.announcement != a)
    then after == Recorded(None, a, d.from, d.at) && forall i :: !Delivered(front, i, a)
    else if accepted then after == Recorded(before, a, d.from, d.at)
    else before == Some(after)
  }

  /** Only a first acceptance starts from no sources, and then there was no earlier delivery. */
  lemma StepSources(front: seq<Delivery>, d: Delivery, a: Announcement)
    requires SignedOnce(front + [d])
    requires var t := Deliver(Run(EMPTY, front), d); t.ann.Some? && t.ann.value.announcement == a
    ensures Recording(front, d, Run(EMPTY, front).ann, Deliver(Run(EMPTY, front), d).ann.value)
  {
    var s := Run(EMPTY, front);
    RunKeepsSound(EMPTY, front);
    RunKeepsDelivered(front);
    var all := front + [d];
    if s.ann.Some? {
      var b := s.ann.value.announcement;
      if d.OfAnnouncement? && d.a.Verify() { PreferenceIgnoresClock(b, d.a, d.at); }
      var j :| 0 <= j < |front| && front[j].OfAnnouncement? && front[j].a == b;
      assert all[j] == front[j] && all[|front|] == d;
    }
    if HandsOver(d, a) && (s.ann.None? || s.ann.value.announcement != a) {
      forall i ensures !Delivered(front, i, a) {
        if Delivered(front, i, a) {
          RunSettles(front, i);
        }
      }
    }
  }
}
