/**
 The part of a node's store that the announcement protocol touches: as a value (`NodeState`),
 on which every operation is specified, and as the mutable `Store` the operations update.
 */
module Nodes {
  import opened Wrappers
  import opened Artifacts
  import opened SlotMaps
  import opened StreamLog
  import opened RateWindow

  datatype RejectionReason =
    | Malformed
    | InvalidIdentity
    | InvalidSignature
    | UnreachableOrigin
    | ManifestUnavailable
    | IncompatibleProtocol
    | StaleLease
    | AnnouncementWithdrawn
    | RateLimited
    | PayloadTooLarge
    | ManifestMismatch
    | OriginQuotaExceeded
    | BootstrapDisabled

  datatype Audit = Audit(origin: NodeId, publicKey: string, slug: string, reason: RejectionReason, rejectedAt: Time)

  /** Bootstrap bookkeeping; sequence positions start at 1. */
  datatype Runtime = Runtime(nextSequence: nat, admissions: Attempts, admittedKeys: set<PodKey>)

  const DEFAULT_RUNTIME := Runtime(1, NO_ATTEMPTS, {})

  /** What a peer may advertise; the protocol knows one capability so far. */
  datatype Capability = AnnouncementServing

  /** A signed statement that a node serves announcements to its peers. */
  datatype Advertisement = Advertisement(
    id: Uuid,
    nodeId: NodeId,
    signer: Signer,
    endpoint: string,
    protocolVersion: string,
    capability: Capability,
    issuedAt: Time,
    expiresAt: Time,
    signatureValid: bool)
  {
    predicate Verify() {
      nodeId == signer.nodeId && expiresAt == issuedAt + PEER_LEASE_DURATION && signatureValid
    }

    predicate LeaseIsActive(now: Time) { expiresAt > now }
  }

  const PEER_LEASE_DURATION: Time := 7 * DAY

  /** What a Discovery Peer offers: its verified endpoint, the current advertisement, when it was verified. */
  datatype Offer = Offer(endpoint: Option<string>, advertisement: Option<Advertisement>, verifiedAt: Option<Time>)

  const NO_OFFER := Offer(None, None, None)

  /** Opt-in announcement serving of a Discovery Peer. */
  datatype PeerService = PeerService(enabled: bool, offer: Offer, nextSequence: nat, stream: Stream)

  const DEFAULT_PEER_SERVICE := PeerService(false, NO_OFFER, 1, EMPTY_STREAM)

  /**
   A node as a value. `stream.history`, `peer.stream.history` and `ledger` are the complete
   past (every row appended, every admission accepted); only the model keeps them.
   */
  datatype NodeState = NodeState(
    slots: Slots,
    runtime: Option<Runtime>,
    stream: Stream,
    audits: seq<Audit>,
    ledger: Ledger,
    peer: PeerService)
  {
    /** The runtime, created on first use. */
    function Ensured(): Runtime {
      if runtime.Some? then runtime.value else DEFAULT_RUNTIME
    }

    predicate IsAdmitted(k: PodKey) {
      runtime.Some? && k in runtime.value.admittedKeys
    }
  }

  const NEW_NODE := NodeState(NO_SLOTS, None, EMPTY_STREAM, [], [], DEFAULT_PEER_SERVICE)

  /** The new state of a node and what the operation reported. */
  datatype Done<+T, +E> = Done(state: NodeState, result: Result<T, E>)

  /** Classes of outbound synchronization failure. */
  datatype SyncFailure = TransportFailure | ProtocolFailure | MalformedFailure | SignatureFailure | ValidationFailure

  /** Persisted progress of one configured Bootstrap endpoint. */
  datatype SyncState = SyncState(
    cursor: Option<string>,
    lastSuccessAt: Option<Time>,
    lastAttemptAt: Option<Time>,
    lastError: Option<SyncFailure>)

  const EMPTY_SYNC_STATE := SyncState(None, None, None, None)

  datatype Endpoint = Endpoint(name: string, baseUrl: string, enabled: bool, order: nat, createdAt: Time)

  datatype KnownAdvertisement = KnownAdvertisement(advertisement: Advertisement, receivedAt: Time)

  /** Known peers and the admissions that brought them; `ledger` is the complete past. */
  datatype PeerBook = PeerBook(known: map<NodeId, KnownAdvertisement>, admissions: Attempts, ledger: Ledger)

  const NEW_PEER_BOOK := PeerBook(map[], NO_ATTEMPTS, [])

  class Store {
    var announcements: map<PodKey, KnownAnnouncement>
    var withdrawals: map<PodKey, KnownWithdrawal>
    var runtime: Option<Runtime>
    var streamEntries: map<nat, Entry>
    var audits: seq<Audit>
    var peerEnabled: bool
    var peerOffer: Offer
    var peerNextSequence: nat
    var peerEntries: map<nat, Entry>
    var endpoints: map<Uuid, Endpoint>
    var syncStates: map<Uuid, SyncState>
    var advertisements: map<NodeId, KnownAdvertisement>
    var peerAdmissions: Attempts
    ghost var peerLedger: Ledger
    ghost var history: seq<Entry>
    ghost var peerHistory: seq<Entry>
    ghost var ledger: Ledger

    constructor ()
      ensures View() == NEW_NODE && Peers() == NEW_PEER_BOOK
      ensures endpoints == map[] && syncStates == map[]
    {
      announcements, withdrawals, runtime := map[], map[], None;
      streamEntries, audits := map[], [];
      peerEnabled, peerOffer, peerNextSequence, peerEntries := false, NO_OFFER, 1, map[];
      endpoints, syncStates := map[], map[];
      advertisements, peerAdmissions, peerLedger := map[], NO_ATTEMPTS, [];
      history, peerHistory, ledger := [], [], [];
    }

    ghost function Slots(): Slots
      reads this
    {
      SlotMaps.Slots.Slots(announcements, withdrawals)
    }

    ghost function View(): NodeState
      reads this
    {
      NodeState(
        Slots(), runtime, Stream(streamEntries, history), audits, ledger,
        PeerService(peerEnabled, peerOffer, peerNextSequence, Stream(peerEntries, peerHistory)))
    }

    ghost function Peers(): PeerBook
      reads this
    {
      PeerBook(advertisements, peerAdmissions, peerLedger)
    }

    /** Creates the runtime bookkeeping when it does not exist yet. */
    method EnsureBootstrapRuntime() returns (current: Runtime)
      modifies this`runtime
      ensures View() == old(View()).(runtime := Some(old(View()).Ensured()))
      ensures current == old(View()).Ensured()
    {
      if runtime.None? {
        runtime := Some(DEFAULT_RUNTIME);
      }
      current := runtime.value;
    }
  }
}
