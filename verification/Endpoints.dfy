/**
 Configured Bootstrap endpoints, and which retained announcements stay eligible through the
 sources that delivered them.
 */
module Endpoints {
  import opened Wrappers
  import opened Artifacts
  import opened StreamLog
  import opened Cursors
  import opened Nodes
  import opened Retention
  import opened ProvenanceHistory

  type Book = map<Uuid, Endpoint>

  /** The other sources a node still accepts: index URLs of its policy, selected peer endpoints. */
  datatype Sources = Sources(indexes: set<string>, discoveryPeers: set<string>)

  predicate RetainsBootstrapUrl(book: Book, url: string) {
    exists id :: id in book && book[id].enabled && book[id].baseUrl == url
  }

  /** Whether a kept announcement still has an active delivery source. */
  predicate DeliveryIsActive(book: Book, others: Sources, known: KnownAnnouncement) {
    || (known.fromPeer.None? && known.fromIndexes == {} && known.fromBootstraps == {} && known.fromDiscoveryPeers == {})
    || known.fromPeer.Some?
    || (exists url :: url in known.fromIndexes && url in others.indexes)
    || (exists url :: url in known.fromBootstraps && RetainsBootstrapUrl(book, url))
    || (exists url :: url in known.fromDiscoveryPeers && url in others.discoveryPeers)
  }

  // ----- editing the configured list -----

  function Orders(book: Book): set<nat> {
    set id | id in book :: book[id].order
  }

  /** New endpoints go last. */
  function NextOrder(book: Book): nat { PastEnd(Orders(book)) }

  /** Adds an endpoint under a fresh id; `normalized` is the outcome of URL normalisation. */
  function Added(book: Book, id: Uuid, name: string, normalized: Option<string>, now: Time): Result<Book, StoreError> {
    if Trim(name) == [] || normalized.None? then Err(Validation)
    else if exists x :: x in book && book[x].baseUrl == normalized.value then Err(Duplicate)
    else Ok(book[id := Endpoint(Trim(name), normalized.value, true, NextOrder(book), now)])
  }

  const DEFAULT_BOOTSTRAP_URL := "https://bootstrap.stumble.network"

  /** An empty list gets the sponsored endpoint, as ordinary removable configuration. */
  function WithDefault(book: Book, id: Uuid, now: Time): Book {
    if book.Keys != {} then book else book[id := Endpoint("Sponsored Bootstrap", DEFAULT_BOOTSTRAP_URL, true, 0, now)]
  }

  method EnsureDefaultBootstrapEndpoint(store: Store, id: Uuid, now: Time)
    modifies store`endpoints, store`syncStates
    ensures store.endpoints == WithDefault(old(store.endpoints), id, now)
    ensures store.syncStates ==
      if old(store.endpoints).Keys != {} then old(store.syncStates) else old(store.syncStates)[id := EMPTY_SYNC_STATE]
  {
    if store.endpoints.Keys != {} { return; }
    store.endpoints := store.endpoints[id := Endpoint("Sponsored Bootstrap", DEFAULT_BOOTSTRAP_URL, true, 0, now)];
    store.syncStates := store.syncStates[id := EMPTY_SYNC_STATE];
  }

  method AddBootstrapEndpoint(store: Store, id: Uuid, name: string, normalized: Option<string>, now: Time)
    returns (r: Result<Endpoint, StoreError>)
    requires id !in store.endpoints
    modifies store`endpoints, store`syncStates
    ensures match Added(old(store.endpoints), id, name, normalized, now)
      case Err(e) => r == Err(e) && store.endpoints == old(store.endpoints) && store.syncStates == old(store.syncStates)
      case Ok(book) =>
        && store.endpoints == book && r == Ok(book[id])
        && store.syncStates == old(store.syncStates)[id := EMPTY_SYNC_STATE]
  {
    if Trim(name) == [] || normalized.None? { return Err(Validation); }
    if exists x :: x in store.endpoints && store.endpoints[x].baseUrl == normalized.value { return Err(Duplicate); }
    var endpoint := Endpoint(Trim(name), normalized.value, true, NextOrder(store.endpoints), now);
    store.endpoints := store.endpoints[id := endpoint];
    store.syncStates := store.syncStates[id := EMPTY_SYNC_STATE];
    return Ok(endpoint);
  }

  method SetBootstrapEndpointEnabled(store: Store, id: Uuid, enabled: bool) returns (r: Result<Endpoint, StoreError>)
    modifies store`endpoints
    ensures if id in old(store.endpoints)
      then store.endpoints == old(store.endpoints)[id := old(store.endpoints)[id].(enabled := enabled)]
           && r == Ok(store.endpoints[id])
      else store.endpoints == old(store.endpoints) && r == Err(NotFound)
  {
    if id !in store.endpoints { return Err(NotFound); }
    store.endpoints := store.endpoints[id := store.endpoints[id].(enabled := enabled)];
    return Ok(store.endpoints[id]);
  }

  method RemoveBootstrapEndpoint(store: Store, id: Uuid) returns (r: Result<Endpoint, StoreError>)
    modifies store`endpoints, store`syncStates
    ensures if id in old(store.endpoints)
      then store.endpoints == old(store.endpoints) - {id} && store.syncStates == old(store.syncStates) - {id}
           && r == Ok(old(store.endpoints)[id])
      else store.endpoints == old(store.endpoints) && store.syncStates == old(store.syncStates) && r == Err(NotFound)
  {
    if id !in store.endpoints { return Err(NotFound); }
    r := Ok(store.endpoints[id]);
    store.endpoints := store.endpoints - {id};
    store.syncStates := store.syncStates - {id};
  }

  // ----- what edits keep and change -----

  /** No two endpoints share a base URL. */
  predicate UniqueUrls(book: Book) {
    forall x, y :: x in book && y in book && book[x].baseUrl == book[y].baseUrl ==> x == y
  }

  /** Every edit keeps base URLs unique, and a new endpoint comes last. */
  lemma EditsKeepUniqueUrls(book: Book, id: Uuid, name: string, normalized: Option<string>, now: Time, enabled: bool)
    requires UniqueUrls(book)
    ensures id !in book && Added(book, id, name, normalized, now).Ok? ==>
      && UniqueUrls(Added(book, id, name, normalized, now).value)
      && forall x :: x in book ==> book[x].order < Added(book, id, name, normalized, now).value[id].order
    ensures id in book ==> UniqueUrls(book[id := book[id].(enabled := enabled)])
    ensures UniqueUrls(book - {id})
  {
    forall x | x in book ensures book[x].order < NextOrder(book) {
      assert book[x].order in Orders(book);
    }
  }

  /**
   An endpoint is added exactly when it has a name and a usable URL that no other has. From then
   on its URL is accepted as a source, next to all those that were.
   */
  lemma AddedExactly(book: Book, id: Uuid, name: string, normalized: Option<string>, now: Time)
    requires id !in book
    ensures var r := Added(book, id, name, normalized, now);
      && (r.Ok? <==>
            && Trim(name) != [] && normalized.Some?
            && forall x :: x in book ==> book[x].baseUrl != normalized.value)
      && (r.Ok? ==>
            && r.value.Keys == book.Keys + {id} && (forall x :: x in book ==> r.value[x] == book[x])
            && (forall url :: RetainsBootstrapUrl(r.value, url) <==>
                                RetainsBootstrapUrl(book, url) || url == normalized.value))
  {
    var r := Added(book, id, name, normalized, now);
    if r.Ok? {
      assert r.value[id].baseUrl == normalized.value && r.value[id].enabled;
      forall url | RetainsBootstrapUrl(book, url) ensures RetainsBootstrapUrl(r.value, url) {
        var x :| x in book && book[x].enabled && book[x].baseUrl == url;
        assert r.value[x] == book[x];
      }
    }
  }

  /** An empty list accepts exactly the sponsored URL after start-up, any other what it did before. */
  lemma DefaultIsAccepted(book: Book, id: Uuid, now: Time, url: string)
    ensures RetainsBootstrapUrl(WithDefault(book, id, now), url) <==>
      if |book| == 0 then url == "https://bootstrap.stumble.network" else RetainsBootstrapUrl(book, url)
  {
    assert |book| == |book.Keys|;
    if |book| == 0 {
      assert book.Keys == {};
      assert WithDefault(book, id, now)[id].enabled;
    }
  }

  /** An edit of the configured list; ids of new endpoints are fresh. */
  datatype Edit =
    | Seed(id: Uuid, at: Time)
    | Add(id: Uuid, name: string, normalized: Option<string>, at: Time)
    | SetEnabled(id: Uuid, enabled: bool)
    | Remove(id: Uuid)

  /** A failed edit changes nothing. */
  function Edited(book: Book, e: Edit): Book {
    match e
    case Seed(id, at) => WithDefault(book, id, at)
    case Add(id, name, normalized, at) =>
      var r := Added(book, id, name, normalized, at);
      if id !in book && r.Ok? then r.value else book
    case SetEnabled(id, enabled) => if id in book then book[id := book[id].(enabled := enabled)] else book
    case Remove(id) => book - {id}
  }

  function EditAll(edits: seq<Edit>): Book {
    if edits == [] then map[] else Edited(EditAll(edits[..|edits| - 1]), edits[|edits| - 1])
  }

  /** Base URLs are unique after any sequence of edits. */
  lemma {:induction false} UrlsStayUnique(edits: seq<Edit>)
    ensures UniqueUrls(EditAll(edits))
  {
    if edits != [] {
      var book, e := EditAll(edits[..|edits| - 1]), edits[|edits| - 1];
      UrlsStayUnique(edits[..|edits| - 1]);
      match e
      case Seed(_, _) =>
      case Add(id, name, normalized, at) => EditsKeepUniqueUrls(book, id, name, normalized, at, true);
      case SetEnabled(id, enabled) => EditsKeepUniqueUrls(book, id, "", None, 0, enabled);
      case Remove(id) => EditsKeepUniqueUrls(book, id, "", None, 0, true);
    }
  }

  /** Every way of being active other than through Bootstrap endpoints. */
  predicate ActiveElsewhere(others: Sources, known: KnownAnnouncement) {
    || known.fromPeer.Some?
    || (exists url :: url in known.fromIndexes && url in others.indexes)
    || (exists url :: url in known.fromDiscoveryPeers && url in others.discoveryPeers)
  }

  /** The endpoint is the only enabled one among the announcement's recorded Bootstrap sources. */
  predicate SoleSource(book: Book, id: Uuid, known: KnownAnnouncement)
    requires id in book
  {
    && book[id].enabled && book[id].baseUrl in known.fromBootstraps
    && forall x :: x in book && x != id && book[x].enabled ==> book[x].baseUrl !in known.fromBootstraps
  }

  lemma BootstrapActivity(book: Book, known: KnownAnnouncement)
    ensures (exists url :: url in known.fromBootstraps && RetainsBootstrapUrl(book, url))
      <==> (exists x :: x in book && book[x].enabled && book[x].baseUrl in known.fromBootstraps)
  {
    if x :| x in book && book[x].enabled && book[x].baseUrl in known.fromBootstraps {
      assert RetainsBootstrapUrl(book, book[x].baseUrl);
    }
  }

  /** Removing an endpoint deactivates exactly the announcements whose only active source it was. */
  lemma RemovalDeactivatesExactly(book: Book, id: Uuid, others: Sources, known: KnownAnnouncement)
    requires id in book
    ensures DeliveryIsActive(book, others, known) && !DeliveryIsActive(book - {id}, others, known)
      <==> SoleSource(book, id, known) && !ActiveElsewhere(others, known)
    ensures !DeliveryIsActive(book, others, known) ==> !DeliveryIsActive(book - {id}, others, known)
  {
    BootstrapActivity(book, known);
    BootstrapActivity(book - {id}, known);
    assert forall x :: x in book - {id} <==> x in book && x != id;
    assert SoleSource(book, id, known) ==> known.fromBootstraps != {};
  }

  /** The URL was recorded, and no other recorded URL is still retained. */
  predicate SoleUrl(book: Book, url: string, known: KnownAnnouncement) {
    url in known.fromBootstraps && forall x :: x in known.fromBootstraps && x != url ==> !RetainsBootstrapUrl(book, x)
  }

  /** Without its endpoint a URL is not retained, because no other endpoint has it. */
  lemma OnlyOneRetains(book: Book, id: Uuid)
    requires UniqueUrls(book) && id in book
    ensures RetainsBootstrapUrl(book, book[id].baseUrl) <==> book[id].enabled
    ensures forall x :: x in book && x != id ==> book[x].baseUrl != book[id].baseUrl
  {
  }

  /**
   In terms of recorded URLs, after any edits: removing an endpoint deactivates exactly the
   announcements that recorded its URL while it was enabled, recorded no other URL still
   retained, and have no other active source. This relies on URLs being unique.
   */
  lemma RemovalDeactivatesByUrl(edits: seq<Edit>, id: Uuid, others: Sources, known: KnownAnnouncement)
    requires id in EditAll(edits)
    ensures var book := EditAll(edits);
      (DeliveryIsActive(book, others, known) && !DeliveryIsActive(book - {id}, others, known)) <==>
        (book[id].enabled && SoleUrl(book, book[id].baseUrl, known) && !ActiveElsewhere(others, known))
  {
    var book := EditAll(edits);
    UrlsStayUnique(edits);
    OnlyOneRetains(book, id);
    RemovalDeactivatesExactly(book, id, others, known);
    assert forall x :: x in book && x != id && book[x].enabled ==> RetainsBootstrapUrl(book, book[x].baseUrl);
  }

  /** Two enabled endpoints of one URL would stand in for each other: uniqueness cannot be dropped. */
  lemma SharedUrlStandsIn(url: string, known: KnownAnnouncement, others: Sources)
    requires known.fromBootstraps == {url}
    ensures var e := Endpoint("", url, true, 0, 0);
      var book: Book := map[1 := e, 2 := e];
      book[1].enabled && SoleUrl(book, url, known) && DeliveryIsActive(book - {1}, others, known)
  {
    var book: Book := map[1 := Endpoint("", url, true, 0, 0), 2 := Endpoint("", url, true, 0, 0)];
    assert 2 in book - {1} && RetainsBootstrapUrl(book - {1}, url);
  }

  /** Disabling an endpoint has the same effect as removing it, on every announcement. */
  lemma DisablingEqualsRemoving(book: Book, id: Uuid, others: Sources, known: KnownAnnouncement)
    requires id in book
    ensures DeliveryIsActive(book[id := book[id].(enabled := false)], others, known) <==>
        DeliveryIsActive(book - {id}, others, known)
  {
    var off := book[id := book[id].(enabled := false)];
    BootstrapActivity(off, known);
    BootstrapActivity(book - {id}, known);
    assert forall x :: x in book - {id} <==> x in book && x != id;
    assert forall x :: x in off && off[x].enabled <==> x in book - {id} && book[x].enabled;
  }

  // ----- activity against the deliveries -----

  predicate NamesSource(from: Provenance) {
    from.peer.Some? || from.indexUrl.Some? || from.bootstrapUrl.Some? || from.discoveryPeer.Some?
  }

  /** A peer always counts; a URL counts while the node still accepts it. */
  predicate SourceIsActive(book: Book, others: Sources, from: Provenance) {
    || from.peer.Some?
    || (from.indexUrl.Some? && from.indexUrl.value in others.indexes)
    || (from.bootstrapUrl.Some? && RetainsBootstrapUrl(book, from.bootstrapUrl.value))
    || (from.discoveryPeer.Some? && from.discoveryPeer.value in others.discoveryPeers)
  }

  /** No delivery of `a` under its lease named a source. */
  ghost predicate OnlyLocal(ds: seq<Delivery>, a: Announcement) {
    forall i :: Delivered(ds, i, a) ==> !NamesSource(ds[i].from)
  }

  /** Some delivery of `a` under its lease named a source that is active now. */
  ghost predicate FromActive(ds: seq<Delivery>, a: Announcement, book: Book, others: Sources) {
    exists i :: Delivered(ds, i, a) && SourceIsActive(book, others, ds[i].from)
  }

  lemma NothingRecordedExactly(ds: seq<Delivery>, known: KnownAnnouncement)
    requires SourcesMatch(known, ds)
    ensures OnlyLocal(ds, known.announcement) <==>
      known.fromPeer.None? && known.fromIndexes == {} && known.fromBootstraps == {} && known.fromDiscoveryPeers == {}
  {
    var a := known.announcement;
    if !OnlyLocal(ds, a) {
      var i :| Delivered(ds, i, a) && NamesSource(ds[i].from);
      var from := ds[i].from;
      if from.indexUrl.Some? { assert IndexSource(ds, a, from.indexUrl.value); }
      if from.bootstrapUrl.Some? { assert BootstrapSource(ds, a, from.bootstrapUrl.value); }
      if from.discoveryPeer.Some? { assert DiscoveryPeerSource(ds, a, from.discoveryPeer.value); }
      if from.peer.Some? { assert PeerSource(ds, a); }
    }
  }

  /** Some recorded source is active. */
  predicate RecordedActive(book: Book, others: Sources, known: KnownAnnouncement) {
    ActiveElsewhere(others, known) || exists url :: url in known.fromBootstraps && RetainsBootstrapUrl(book, url)
  }

  lemma DeliveredIsRecorded(ds: seq<Delivery>, book: Book, others: Sources, known: KnownAnnouncement)
    requires SourcesMatch(known, ds) && FromActive(ds, known.announcement, book, others)
    ensures RecordedActive(book, others, known)
  {
    var a := known.announcement;
    var i :| Delivered(ds, i, a) && SourceIsActive(book, others, ds[i].from);
    var from := ds[i].from;
    if from.indexUrl.Some? { assert IndexSource(ds, a, from.indexUrl.value); }
    if from.bootstrapUrl.Some? { assert BootstrapSource(ds, a, from.bootstrapUrl.value); }
    if from.discoveryPeer.Some? { assert DiscoveryPeerSource(ds, a, from.discoveryPeer.value); }
    if from.peer.Some? { assert PeerSource(ds, a); }
  }

  lemma RecordedIsDelivered(ds: seq<Delivery>, book: Book, others: Sources, known: KnownAnnouncement)
    requires SourcesMatch(known, ds) && RecordedActive(book, others, known)
    ensures FromActive(ds, known.announcement, book, others)
  {
    var a := known.announcement;
    if known.fromPeer.Some? {
      assert PeerSource(ds, a);
    } else if url :| url in known.fromIndexes && url in others.indexes {
      assert IndexSource(ds, a, url);
    } else if url :| url in known.fromBootstraps && RetainsBootstrapUrl(book, url) {
      assert BootstrapSource(ds, a, url);
    } else {
      var url :| url in known.fromDiscoveryPeers && url in others.discoveryPeers;
      assert DiscoveryPeerSource(ds, a, url);
    }
  }

  /**
   After any deliveries, the kept announcement is active exactly when no delivery of it under
   its lease named a source, or some such delivery named a source that is active now.
   */
  lemma ActiveExactly(ds: seq<Delivery>, book: Book, others: Sources)
    requires SignedOnce(ds) && Run(EMPTY, ds).ann.Some?
    ensures var known := Run(EMPTY, ds).ann.value;
      DeliveryIsActive(book, others, known) <==>
        OnlyLocal(ds, known.announcement) || FromActive(ds, known.announcement, book, others)
  {
    var known := Run(EMPTY, ds).ann.value;
    ProvenanceMatchesHistory(ds);
    NothingRecordedExactly(ds, known);
    if FromActive(ds, known.announcement, book, others) { DeliveredIsRecorded(ds, book, others, known); }
    if RecordedActive(book, others, known) { RecordedIsDelivered(ds, book, others, known); }
  }

  /**
   A local retention counts as always active only while no remote source is recorded: one
   remote delivery of the same announcement makes its activity depend on that source.
   */
  lemma LocalStopsCountingAfterRemote(book: Book, others: Sources, a: Announcement, url: string, t0: Time, t1: Time)
    ensures var local := Recorded(None, a, LOCAL, t0);
      var merged := Recorded(Some(local), a, FromBootstrap(url), t1);
      DeliveryIsActive(book, others, local)
          && (DeliveryIsActive(book, others, merged) <==> RetainsBootstrapUrl(book, url))
  {
    var local := Recorded(None, a, LOCAL, t0);
    var merged := Recorded(Some(local), a, FromBootstrap(url), t1);
    assert merged.fromBootstraps == {url};
  }
}
