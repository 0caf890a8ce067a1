/**
 The Origin-signed artifacts of the announcement protocol and the records a node keeps of them.

 Times are integers in nanoseconds. Two verdicts of code outside this model are carried as
 fields of the artifact they are computed from: `signatureValid` (the Ed25519 signature over
 the canonical bytes verifies under the signer's key) and `addressValid` (the public Pod URL
 is canonical and matches the slug). Both depend on the other fields only, so carrying them
 does not change when two artifacts are equal.
 */
module Artifacts {
  import opened Wrappers

  type Time = int
  type NodeId = nat
  type Uuid = nat
  type PodKey = (NodeId, string)

  const HOUR: Time := 3_600_000_000_000
  const DAY: Time := 24 * HOUR
  const LEASE_DURATION: Time := 30 * DAY
  const CURRENT_PROTOCOL_VERSION := "stumble/1.0"

  datatype Signer = Signer(nodeId: NodeId, displayName: string, publicKey: string, protocolVersion: string)

  datatype Announcement = Announcement(
    id: Uuid,
    origin: NodeId,
    signer: Signer,
    slug: string,
    name: string,
    subject: string,
    url: string,
    packageVersion: int,
    latestEventHash: Option<string>,
    announcedAt: Time,
    expiresAt: Time,
    signatureValid: bool,
    addressValid: bool)
  {
    function Key(): PodKey { (origin, slug) }

    /** Origin identity, the 30-day lease and the signature all check out. */
    predicate Verify() {
      origin == signer.nodeId && expiresAt == announcedAt + LEASE_DURATION && signatureValid
    }

    /** The lease end is exclusive. */
    predicate LeaseIsActive(now: Time) { expiresAt > now }
  }

  datatype Withdrawal = Withdrawal(
    id: Uuid,
    origin: NodeId,
    signer: Signer,
    slug: string,
    url: Option<string>,
    covers: Option<Uuid>,
    withdrawnAt: Time,
    signatureValid: bool)
  {
    function Key(): PodKey { (origin, slug) }

    predicate Verify() { origin == signer.nodeId && signatureValid }
  }

  /** Who handed an announcement to this node; `LOCAL` names nobody. */
  datatype Provenance = Provenance(
    peer: Option<Uuid>,
    indexUrl: Option<string>,
    bootstrapUrl: Option<string>,
    discoveryPeer: Option<string>)

  const LOCAL := Provenance(None, None, None, None)

  function FromBootstrap(url: string): Provenance { Provenance(None, None, Some(url), None) }

  datatype KnownAnnouncement = KnownAnnouncement(
    announcement: Announcement,
    fromPeer: Option<Uuid>,
    fromIndexes: set<string>,
    fromBootstraps: set<string>,
    fromDiscoveryPeers: set<string>,
    receivedAt: Time)

  datatype KnownWithdrawal = KnownWithdrawal(withdrawal: Withdrawal, fromPeer: Option<Uuid>, receivedAt: Time)

  datatype StoreError =
    | Validation
    | InvalidSignature
    | AnnouncementExpired
    | AnnouncementWithdrawn
    | AnnouncementStale
    | WithdrawalStale
    | NotFound
    | Duplicate
    | TenantBoundary
    | UntrustedPeer
}
