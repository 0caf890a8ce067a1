/** Discovery Peer advertisements: open admission, and the seeded sample handed to other nodes. */
module PeerAds {
  import opened Wrappers
  import opened Artifacts
  import opened RateWindow
  import opened RateRecords
  import opened Nodes
  import opened Cursors

  const MAX_PEER_ADVERTISEMENT_PAYLOAD_BYTES: nat := 8_192
  const DEFAULT_PEER_SAMPLE_LIMIT: nat := 8
  const MAX_PEER_SAMPLE_LIMIT: nat := 16
  const PEER_LIMITS := Limits(128, 8)

  datatype PeerRefusal =
    | MalformedEndpoint
    | InsecureEndpoint
    | PrivateEndpoint
    | PeersDisabled
    | PeerPayloadTooLarge
    | PeerIdentityInvalid
    | PeerProtocolIncompatible
    | UnsupportedCapability
    | PeerLeaseStale
    | PeerSignatureInvalid
    | PeerRateLimited
    | EndpointUnreachable
    | ServiceDisabled
    | VerificationFailed
    | IdentityMismatch

  /** What a live probe of the advertised endpoint reported. */
  datatype IdentityView = IdentityView(nodeId: NodeId, publicKey: string, protocolVersion: string)

  datatype PeerOutcome = PeerAdmitted | PeerRenewed | PeerIdempotent

  /** The checks on the advertisement itself; `endpoint` is the outcome of endpoint normalisation. */
  function AdvertisementRefusal(
    enabled: bool, bytes: nat, endpoint: Result<string, PeerRefusal>, ad: Advertisement, now: Time): Option<PeerRefusal>
  {
    if !enabled then Some(PeersDisabled)
    else if bytes > MAX_PEER_ADVERTISEMENT_PAYLOAD_BYTES then Some(PeerPayloadTooLarge)
    else if ad.nodeId != ad.signer.nodeId || Trim(ad.signer.publicKey) == [] then Some(PeerIdentityInvalid)
    else if ad.protocolVersion != CURRENT_PROTOCOL_VERSION || ad.signer.protocolVersion != CURRENT_PROTOCOL_VERSION
    then Some(PeerProtocolIncompatible)
    else if ad.capability != AnnouncementServing then Some(UnsupportedCapability)
    else if endpoint.Err? then Some(endpoint.error)
    else if endpoint.value != ad.endpoint then Some(MalformedEndpoint)
    else if !ad.LeaseIsActive(now) then Some(PeerLeaseStale)
    else if !ad.Verify() then Some(PeerSignatureInvalid)
    else None
  }

  function ProbeRefusal(ad: Advertisement, probe: Option<IdentityView>): Option<PeerRefusal> {
    if probe.None? then Some(EndpointUnreachable)
    else if probe.value != IdentityView(ad.nodeId, ad.signer.publicKey, ad.protocolVersion) then Some(IdentityMismatch)
    else None
  }

  datatype Admission = Admission(book: PeerBook, result: Result<PeerOutcome, PeerRefusal>)

  /** Keeps the advertisement and records its admission. */
  function Admitted(b: PeerBook, ad: Advertisement, now: Time): PeerBook {
    PeerBook(b.known[ad.nodeId := KnownAdvertisement(ad, now)],
             Record(b.admissions, ad.nodeId, now),
             b.ledger + [(ad.nodeId, now)])
  }

  function AdmitPeer(
    b: PeerBook, ad: Advertisement, bytes: nat, endpoint: Result<string, PeerRefusal>, probe: Option<IdentityView>,
    enabled: bool, now: Time): Admission
  {
    var refusal := AdvertisementRefusal(enabled, bytes, endpoint, ad, now);
    if refusal.Some? then Admission(b, Err(refusal.value))
    else if ad.nodeId in b.known && b.known[ad.nodeId].advertisement == ad then Admission(b, Ok(PeerIdempotent))
    else if WouldExceed(b.admissions, ad.nodeId, now, PEER_LIMITS) then Admission(b, Err(PeerRateLimited))
    else if ProbeRefusal(ad, probe).Some? then Admission(b, Err(ProbeRefusal(ad, probe).value))
    else
      Admission(Admitted(b, ad, now), Ok(if ad.nodeId in b.known then PeerRenewed else PeerAdmitted))
  }

  method AdmitDiscoveryPeerAdvertisement(
    store: Store, ad: Advertisement, bytes: nat, endpoint: Result<string, PeerRefusal>, probe: Option<IdentityView>,
    enabled: bool, now: Time) returns (r: Result<PeerOutcome, PeerRefusal>)
    modifies store`advertisements, store`peerAdmissions, store`peerLedger
    ensures Admission(store.Peers(), r) == AdmitPeer(old(store.Peers()), ad, bytes, endpoint, probe, enabled, now)
  {
    var refusal := AdvertisementRefusal(enabled, bytes, endpoint, ad, now);
    if refusal.Some? { return Err(refusal.value); }
    var isNew := ad.nodeId !in store.advertisements;
    if !isNew && store.advertisements[ad.nodeId].advertisement == ad { return Ok(PeerIdempotent); }
    if WouldExceed(store.peerAdmissions, ad.nodeId, now, PEER_LIMITS) { return Err(PeerRateLimited); }
    var mismatch := ProbeRefusal(ad, probe);
    if mismatch.Some? { return Err(mismatch.value); }
    store.advertisements := store.advertisements[ad.nodeId := KnownAdvertisement(ad, now)];
    store.peerAdmissions := Record(store.peerAdmissions, ad.nodeId, now);
    store.peerLedger := store.peerLedger + [(ad.nodeId, now)];
    return Ok(if isNew then PeerAdmitted else PeerRenewed);
  }

  /** One submission of an advertisement. */
  datatype Submission = Submission(
    ad: Advertisement, bytes: nat, endpoint: Result<string, PeerRefusal>, probe: Option<IdentityView>, enabled: bool,
        now: Time)

  function AdmitAll(subs: seq<Submission>): PeerBook {
    if subs == [] then NEW_PEER_BOOK
    else
      var x := subs[|subs| - 1];
      AdmitPeer(AdmitAll(subs[..|subs| - 1]), x.ad, x.bytes, x.endpoint, x.probe, x.enabled, x.now).book
  }

  /** Known advertisements stand under their own node, and verify. */
  predicate WellKept(b: PeerBook) {
    forall k :: k in b.known ==> b.known[k].advertisement.nodeId == k && b.known[k].advertisement.Verify()
  }

  predicate PeerClockForward(subs: seq<Submission>, clock: Time) {
    && (forall i, j :: 0 <= i < j < |subs| ==> subs[i].now <= subs[j].now)
    && (forall i :: 0 <= i < |subs| ==> subs[i].now <= clock)
  }

  /** A submission either passed the limits and was recorded, or left the book as it was. */
  lemma AdmitPeerCases(b: PeerBook, x: Submission)
    ensures var c := AdmitPeer(b, x.ad, x.bytes, x.endpoint, x.probe, x.enabled, x.now).book;
      || c == b
      || (!WouldExceed(b.admissions, x.ad.nodeId, x.now, PEER_LIMITS) && x.ad.Verify() && c == Admitted(b, x.ad, x.now))
  {
  }

  lemma AdmittedKeepsInv(b: PeerBook, ad: Advertisement, now: Time)
    requires WellKept(b) && Kept(b.admissions, b.ledger, now, PEER_LIMITS)
    requires !WouldExceed(b.admissions, ad.nodeId, now, PEER_LIMITS) && ad.Verify()
    ensures var c := Admitted(b, ad, now);
      WellKept(c) && Kept(c.admissions, c.ledger, now, PEER_LIMITS)
  {
    RecordKeeps(b.admissions, b.ledger, now, ad.nodeId, now, PEER_LIMITS);
  }

  lemma {:induction false} PeerRunInv(subs: seq<Submission>, clock: Time)
    requires PeerClockForward(subs, clock)
    ensures WellKept(AdmitAll(subs))
    ensures Kept(AdmitAll(subs).admissions, AdmitAll(subs).ledger, clock, PEER_LIMITS)
  {
    if subs == [] {
      KeptInitially(clock, PEER_LIMITS);
    } else {
      var front, x := subs[..|subs| - 1], subs[|subs| - 1];
      PeerRunInv(front, x.now);
      var b, c := AdmitAll(front), AdmitAll(subs);
      AdmitPeerCases(b, x);
      if c != b { AdmittedKeepsInv(b, x.ad, x.now); }
      TickKeeps(c.admissions, c.ledger, x.now, clock, PEER_LIMITS);
    }
  }

  /** Every one-hour window holds at most 128 peer admissions, and at most 8 of one node. */
  lemma PeerAdmissionsAreLimited(subs: seq<Submission>, clock: Time, who: NodeId, end: Time)
    requires PeerClockForward(subs, clock)
    ensures |HourOf(AdmitAll(subs).ledger, None, end)| <= 128
    ensures |HourOf(AdmitAll(subs).ledger, Some(who), end)| <= 8
  {
    PeerRunInv(subs, clock);
    LimitsHold(AdmitAll(subs).admissions, AdmitAll(subs).ledger, clock, PEER_LIMITS, who, end);
    WindowsAreHours(AdmitAll(subs).ledger, who, end);
  }

  // ----- what is kept -----

  /** The submission was accepted and brought an advertisement that was not kept already. */
  predicate Accepts(b: PeerBook, x: Submission) {
    var r := AdmitPeer(b, x.ad, x.bytes, x.endpoint, x.probe, x.enabled, x.now).result;
    r.Ok? && r.value != PeerIdempotent
  }

  /** The `i`-th submission brought a new advertisement of node `k`. */
  predicate Brought(subs: seq<Submission>, i: nat, k: NodeId)
    requires i < |subs|
  {
    Accepts(AdmitAll(subs[..i]), subs[i]) && subs[i].ad.nodeId == k
  }

  /** The `i`-th submission is the last that brought one of node `k`. */
  predicate BroughtLast(subs: seq<Submission>, i: nat, k: NodeId)
    requires i < |subs|
  {
    Brought(subs, i, k) && forall j :: i < j < |subs| ==> !Brought(subs, j, k)
  }

  lemma BroughtBefore(subs: seq<Submission>, i: nat, k: NodeId)
    requires i < |subs| - 1
    ensures Brought(subs[..|subs| - 1], i, k) <==> Brought(subs, i, k)
  {
    assert subs[..|subs| - 1][..i] == subs[..i];
  }

  /** One submission puts its advertisement, with its time, under its node, or changes nothing. */
  lemma SubmissionKeeps(b: PeerBook, x: Submission, k: NodeId)
    ensures var c := AdmitPeer(b, x.ad, x.bytes, x.endpoint, x.probe, x.enabled, x.now).book;
      if Accepts(b, x) && x.ad.nodeId == k then k in c.known && c.known[k] == KnownAdvertisement(x.ad, x.now)
      else (k in c.known <==> k in b.known) && (k in b.known ==> c.known[k] == b.known[k])
  {
  }

  lemma BroughtLastSteps(subs: seq<Submission>, k: NodeId)
    requires subs != []
    ensures var n, front := |subs| - 1, subs[..|subs| - 1];
      && (BroughtLast(subs, n, k) <==> Brought(subs, n, k))
      && forall i :: 0 <= i < n ==> (BroughtLast(subs, i, k) <==> BroughtLast(front, i, k) && !Brought(subs, n, k))
  {
    var n, front := |subs| - 1, subs[..|subs| - 1];
    forall i | 0 <= i < n ensures Brought(front, i, k) <==> Brought(subs, i, k) { BroughtBefore(subs, i, k); }
    forall i | 0 <= i < n
      ensures BroughtLast(subs, i, k) <==> BroughtLast(front, i, k) && !Brought(subs, n, k)
    {
      if BroughtLast(front, i, k) && !Brought(subs, n, k) {
        forall j | i < j <= n ensures !Brought(subs, j, k) { if j < n { assert !Brought(front, j, k); } }
      }
      if BroughtLast(subs, i, k) {
        forall j | i < j < n ensures !Brought(front, j, k) { assert !Brought(subs, j, k); }
      }
    }
  }

  /** The advertisement of node `k` that was accepted last, with its time. */
  ghost predicate IsLastAccepted(subs: seq<Submission>, k: NodeId, known: KnownAdvertisement) {
    exists i :: 0 <= i < |subs| && BroughtLast(subs, i, k) && known == KnownAdvertisement(subs[i].ad, subs[i].now)
  }

  lemma LastAcceptedSteps(subs: seq<Submission>, k: NodeId, known: KnownAdvertisement)
    requires subs != []
    ensures var x := subs[|subs| - 1];
      IsLastAccepted(subs, k, known) <==>
        if Brought(subs, |subs| - 1, k) then known == KnownAdvertisement(x.ad, x.now)
        else IsLastAccepted(subs[..|subs| - 1], k, known)
  {
    var n, front := |subs| - 1, subs[..|subs| - 1];
    BroughtLastSteps(subs, k);
    if i :| 0 <= i < |front| && BroughtLast(front, i, k) && known == KnownAdvertisement(front[i].ad, front[i].now) {
      assert subs[i] == front[i];
      if !Brought(subs, n, k) { assert BroughtLast(subs, i, k); }
    }
    if i :| 0 <= i < |subs| && BroughtLast(subs, i, k) && known == KnownAdvertisement(subs[i].ad, subs[i].now) {
      if i < n { assert BroughtLast(front, i, k) && front[i] == subs[i]; }
    }
  }

  /** After any submissions what is kept of a node is the last advertisement accepted of it, if there was one. */
  lemma {:induction false} KeptIsLastAccepted(subs: seq<Submission>, k: NodeId, known: KnownAdvertisement)
    ensures k in AdmitAll(subs).known && AdmitAll(subs).known[k] == known <==> IsLastAccepted(subs, k, known)
  {
    if subs != [] {
      KeptIsLastAccepted(subs[..|subs| - 1], k, known);
      SubmissionKeeps(AdmitAll(subs[..|subs| - 1]), subs[|subs| - 1], k);
      LastAcceptedSteps(subs, k, known);
    }
  }

  /** A node is known exactly when one of its advertisements was accepted. */
  lemma {:induction false} KnownWhenAccepted(subs: seq<Submission>, k: NodeId)
    ensures k in AdmitAll(subs).known <==> exists i :: 0 <= i < |subs| && Brought(subs, i, k)
  {
    if subs != [] {
      var n, front := |subs| - 1, subs[..|subs| - 1];
      KnownWhenAccepted(front, k);
      SubmissionKeeps(AdmitAll(front), subs[n], k);
      if i :| 0 <= i < n && Brought(front, i, k) {
        BroughtBefore(subs, i, k);
        assert Brought(subs, i, k);
      }
      if i :| 0 <= i < |subs| && Brought(subs, i, k) {
        if i < n {
          BroughtBefore(subs, i, k);
          assert Brought(front, i, k);
        }
      }
      assert Accepts(AdmitAll(front), subs[n]) && subs[n].ad.nodeId == k <==> Brought(subs, n, k);
    }
  }

  /** The very advertisement is kept. */
  predicate IsKnown(b: PeerBook, ad: Advertisement) {
    ad.nodeId in b.known && b.known[ad.nodeId].advertisement == ad
  }

  /** What a well-formed submission is answered, and that a replay changes nothing. */
  lemma OutcomeExactly(b: PeerBook, x: Submission)
    requires AdvertisementRefusal(x.enabled, x.bytes, x.endpoint, x.ad, x.now).None?
    ensures var r := AdmitPeer(b, x.ad, x.bytes, x.endpoint, x.probe, x.enabled, x.now);
      && (r.result == Ok(PeerIdempotent) <==> IsKnown(b, x.ad))
      && (r.result == Ok(PeerIdempotent) ==> r.book == b)
      && (ProbeRefusal(x.ad, x.probe).None? && !WouldExceed(b.admissions, x.ad.nodeId, x.now, PEER_LIMITS) ==>
            && (r.result == Ok(PeerAdmitted) <==> x.ad.nodeId !in b.known)
            && (r.result == Ok(PeerRenewed) <==> x.ad.nodeId in b.known && !IsKnown(b, x.ad)))
  {
  }

  // ----- overfilling -----

  /** Every gate but the rate limit is passed, and the advertisement is not known already. */
  predicate OtherwiseAdmissible(b: PeerBook, x: Submission) {
    && AdvertisementRefusal(x.enabled, x.bytes, x.endpoint, x.ad, x.now).None? && ProbeRefusal(x.ad, x.probe).None?
    && !IsKnown(b, x.ad)
  }

  /** After any submissions, whatever the clock did, the stored lists are what recording leaves. */
  lemma {:induction false} PeerRunExact(subs: seq<Submission>)
    ensures Exact(AdmitAll(subs).admissions, AdmitAll(subs).ledger)
  {
    if subs == [] {
      ExactInitially();
    } else {
      var front, x := subs[..|subs| - 1], subs[|subs| - 1];
      PeerRunExact(front);
      AdmitPeerCases(AdmitAll(front), x);
      RecordKeepsExact(AdmitAll(front).admissions, AdmitAll(front).ledger, x.ad.nodeId, x.now);
    }
  }

  /**
   With a forward clock and every other gate passed, a new advertisement is refused for its rate
   exactly when the 3,600 seconds up to it hold 128 admissions, or 8 of its node.
   */
  lemma PeerRateRefusesExactly(subs: seq<Submission>, x: Submission)
    requires PeerClockForward(subs, x.now) && OtherwiseAdmissible(AdmitAll(subs), x)
    ensures var b := AdmitAll(subs);
      var r := AdmitPeer(b, x.ad, x.bytes, x.endpoint, x.probe, x.enabled, x.now).result;
      && (r == Err(PeerRateLimited) <==>
            |HourOf(b.ledger, None, x.now)| >= 128 || |HourOf(b.ledger, Some(x.ad.nodeId), x.now)| >= 8)
      && (r == Err(PeerRateLimited) || r.Ok?)
  {
    var b := AdmitAll(subs);
    PeerRunInv(subs, x.now);
    LimitsDecide(b.admissions, b.ledger, x.now, PEER_LIMITS, x.ad.nodeId, x.now);
    WindowsAreHours(b.ledger, x.ad.nodeId, x.now);
  }

  /** What an advertisement must be on its own: sent whole, its node's own, current, leased and signed. */
  predicate IsAdmissible(x: Submission) {
    && x.enabled && x.bytes <= 8_192
    && x.ad.nodeId == x.ad.signer.nodeId && Trim(x.ad.signer.publicKey) != []
    && x.ad.protocolVersion == "stumble/1.0" && x.ad.signer.protocolVersion == "stumble/1.0"
    && x.ad.capability == AnnouncementServing && x.endpoint == Ok(x.ad.endpoint)
    && x.ad.issuedAt + 604_800_000_000_000 == x.ad.expiresAt && x.now < x.ad.expiresAt && x.ad.signatureValid
  }

  lemma AdmissibleExactly(x: Submission)
    ensures AdvertisementRefusal(x.enabled, x.bytes, x.endpoint, x.ad, x.now).None? <==> IsAdmissible(x)
  {
  }

  lemma AcceptanceCases(b: PeerBook, x: Submission)
    ensures AdmitPeer(b, x.ad, x.bytes, x.endpoint, x.probe, x.enabled, x.now).result.Ok? <==>
      && IsAdmissible(x)
      && (IsKnown(b, x.ad)
          || (!WouldExceed(b.admissions, x.ad.nodeId, x.now, PEER_LIMITS)
              && x.probe == Some(IdentityView(x.ad.nodeId, x.ad.signer.publicKey, "stumble/1.0"))))
  {
    AdmissibleExactly(x);
  }

  /**
   With a forward clock an advertisement is accepted exactly when it is admissible and either the
   one already kept, or within both limits and confirmed by the node it names at its endpoint.
   */
  lemma PeerAcceptedExactly(subs: seq<Submission>, x: Submission)
    requires PeerClockForward(subs, x.now)
    ensures var b := AdmitAll(subs);
      AdmitPeer(b, x.ad, x.bytes, x.endpoint, x.probe, x.enabled, x.now).result.Ok? <==>
        && IsAdmissible(x)
        && (IsKnown(b, x.ad)
            || (|HourOf(b.ledger, None, x.now)| < 128 && |HourOf(b.ledger, Some(x.ad.nodeId), x.now)| < 8
                && x.probe == Some(IdentityView(x.ad.nodeId, x.ad.signer.publicKey, "stumble/1.0"))))
  {
    var b := AdmitAll(subs);
    AcceptanceCases(b, x);
    PeerRunInv(subs, x.now);
    LimitsDecide(b.admissions, b.ledger, x.now, PEER_LIMITS, x.ad.nodeId, x.now);
    WindowsAreHours(b.ledger, x.ad.nodeId, x.now);
  }

  /** The ledger grows exactly when the check passes and nothing else is in the way. */
  lemma AdmitPeerLedger(b: PeerBook, x: Submission)
    requires Exact(b.admissions, b.ledger)
    ensures AdmitPeer(b, x.ad, x.bytes, x.endpoint, x.probe, x.enabled, x.now).book.ledger ==
      if OtherwiseAdmissible(b, x) && Passes(b.ledger, x.ad.nodeId, x.now, PEER_LIMITS)
      then b.ledger + [(x.ad.nodeId, x.now)] else b.ledger
  {
  }

  /**
   After any submissions, one more overfills a window of everyone, or of its node, exactly when
   the check lets it pass although a window it falls into is full, nothing else being in the way.
   */
  lemma PeerOverfilledExactly(subs: seq<Submission>, x: Submission)
    ensures var b := AdmitAll(subs);
      var m := AdmitPeer(b, x.ad, x.bytes, x.endpoint, x.probe, x.enabled, x.now).book.ledger;
      var who := x.ad.nodeId;
      var pass := OtherwiseAdmissible(b, x) && Passes(b.ledger, who, x.now, PEER_LIMITS);
      && (Overfills(Times(b.ledger), Times(m), 128) <==> pass && FullAhead(Times(b.ledger), x.now, 128))
      && (Overfills(TimesOf(b.ledger, who), TimesOf(m, who), 8) <==>
            pass && FullAhead(TimesOf(b.ledger, who), x.now, 8))
  {
    var b := AdmitAll(subs);
    PeerRunExact(subs);
    AdmitPeerLedger(b, x);
    if OtherwiseAdmissible(b, x) {
      AttemptOverfillsExactly(
        b.ledger, AdmitPeer(b, x.ad, x.bytes, x.endpoint, x.probe, x.enabled, x.now).book.ledger,
        x.ad.nodeId, x.now, PEER_LIMITS, x.ad.nodeId);
    }
  }

  // ----- the seeded sample -----

  const TWO_TO_64: nat := 0x1_0000_0000_0000_0000

  function NextState(state: nat): nat {
    (state * 6364136223846793005 % TWO_TO_64 + 1) % TWO_TO_64
  }

  function Swapped<T>(s: seq<T>, i: nat, j: nat): seq<T>
    requires i < |s| && j < |s|
  {
    s[i := s[j]][j := s[i]]
  }

  /** The Fisher-Yates rounds `i, i - 1, .., 1`. */
  function Shuffled<T>(s: seq<T>, i: nat, state: nat): (r: seq<T>)
    requires i < |s| || i == 0
    ensures |r| == |s|
    decreases i
  {
    if i == 0 then s
    else Shuffled(Swapped(s, i, NextState(state) % (i + 1)), i - 1, NextState(state))
  }

  lemma SwapPermutes<T>(s: seq<T>, i: nat, j: nat)
    requires i < |s| && j < |s|
    ensures multiset(Swapped(s, i, j)) == multiset(s)
  {
  }

  /** Each round draws with the 64-bit congruential generator, and what it places stays in place. */
  lemma {:induction false} LastIsDrawn<T>(s: seq<T>, i: nat, state: nat)
    requires 0 < i < |s|
    ensures var next := (state * 6364136223846793005 % 0x1_0000_0000_0000_0000 + 1) % 0x1_0000_0000_0000_0000;
      && Shuffled(s, i, state)[i] == s[next % (i + 1)]
      && (forall k :: i < k < |s| ==> Shuffled(s, i, state)[k] == s[k])
      && Shuffled(s, i, state)[..i] == Shuffled(Swapped(s, i, next % (i + 1)), i - 1, next)[..i]
    decreases i
  {
    var next := NextState(state);
    if i > 1 { LastIsDrawn(Swapped(s, i, next % (i + 1)), i - 1, next); }
  }

  /** The shuffle is a permutation for every seed. */
  lemma {:induction false} ShufflePermutes<T>(s: seq<T>, i: nat, state: nat)
    requires i < |s| || i == 0
    ensures multiset(Shuffled(s, i, state)) == multiset(s)
    decreases i
  {
    if i > 0 {
      var j := NextState(state) % (i + 1);
      SwapPermutes(s, i, j);
      ShufflePermutes(Swapped(s, i, j), i - 1, NextState(state));
    }
  }

  method Shuffle<T>(a: array<T>, seed: nat)
    modifies a
    ensures a[..] == Shuffled(old(a[..]), if a.Length == 0 then 0 else a.Length - 1, seed)
  {
    if a.Length == 0 { return; }
    var state: nat := seed;
    var i: nat := a.Length - 1;
    while i > 0
      invariant 0 <= i < a.Length
      invariant Shuffled(a[..], i, state) == Shuffled(old(a[..]), a.Length - 1, seed)
    {
      ghost var before := a[..];
      state := NextState(state);
      var j := state % (i + 1);
      a[i], a[j] := a[j], a[i];
      assert a[..] == Swapped(before, i, j);
      i := i - 1;
    }
  }

  predicate Eligible(known: map<NodeId, KnownAdvertisement>, ad: Advertisement, now: Time) {
    ad.LeaseIsActive(now) && ad.Verify() && exists k :: k in known && known[k].advertisement == ad
  }

  /** Nodes whose known advertisement is verified and leased at `now`. */
  function EligibleNodes(known: map<NodeId, KnownAdvertisement>, now: Time): set<NodeId> {
    set k | k in known && known[k].advertisement.LeaseIsActive(now) && known[k].advertisement.Verify()
  }

  function Clamped(n: nat, low: nat, high: nat): (r: nat)
    requires low <= high
    ensures low <= r <= high && (low <= n <= high ==> r == n) && (n < low ==> r == low) && (n > high ==> r == high)
  {
    if n < low then low else if n > high then high else n
  }

  function SampleLimit(limit: Option<nat>): nat {
    var l := if limit.Some? then limit.value else DEFAULT_PEER_SAMPLE_LIMIT;
    if l < 1 then 1 else if l > MAX_PEER_SAMPLE_LIMIT then MAX_PEER_SAMPLE_LIMIT else l
  }

  predicate Distinct<T(==)>(s: seq<T>) {
    forall i, j :: 0 <= i < j < |s| ==> s[i] != s[j]
  }

  lemma DistinctMeansOnce<T>(s: seq<T>, t: seq<T>)
    requires multiset(s) == multiset(t) && Distinct(s)
    ensures Distinct(t)
  {
    forall i, j | 0 <= i < j < |t| ensures t[i] != t[j] {
      if t[i] == t[j] {
        assert t == t[..i] + [t[i]] + t[i + 1..j] + [t[j]] + t[j + 1..];
        assert multiset(t)[t[i]] >= 2;
        OnceEach(s, t[i]);
      }
    }
  }

  lemma {:induction false} OnceEach<T>(s: seq<T>, x: T)
    requires Distinct(s)
    ensures multiset(s)[x] <= 1
  {
    if s != [] {
      var front := s[..|s| - 1];
      OnceEach(front, x);
      assert s == front + [s[|s| - 1]];
      assert s[|s| - 1] !in front;
    }
  }

  /** The advertisements of the eligible nodes, each once, in no particular order. */
  method CollectEligible(known: map<NodeId, KnownAdvertisement>, now: Time) returns (ads: seq<Advertisement>)
    requires forall k :: k in known ==> known[k].advertisement.nodeId == k
    ensures |ads| == |EligibleNodes(known, now)| && Distinct(ads)
    ensures forall ad :: ad in ads ==> Eligible(known, ad, now)
  {
    ads := [];
    var todo := EligibleNodes(known, now);
    while todo != {}
      invariant todo <= EligibleNodes(known, now)
      invariant |ads| + |todo| == |EligibleNodes(known, now)|
      invariant forall ad :: ad in ads ==> Eligible(known, ad, now) && ad.nodeId !in todo
      invariant Distinct(ads)
      decreases todo
    {
      var k :| k in todo;
      ads := ads + [known[k].advertisement];
      todo := todo - {k};
    }
  }

  /** Shuffling keeps the elements, and keeps them distinct. */
  lemma ShuffleKeeps<T>(s: seq<T>, i: nat, state: nat)
    requires i < |s| || i == 0
    ensures Distinct(s) ==> Distinct(Shuffled(s, i, state))
    ensures forall x :: x in Shuffled(s, i, state) ==> x in s
  {
    ShufflePermutes(s, i, state);
    if Distinct(s) { DistinctMeansOnce(s, Shuffled(s, i, state)); }
    forall x | x in Shuffled(s, i, state) ensures x in s {
      assert x in multiset(Shuffled(s, i, state));
      assert x in multiset(s);
    }
  }

  lemma PrefixKeeps<T>(s: seq<T>, n: nat)
    requires n <= |s| && Distinct(s)
    ensures Distinct(s[..n]) && forall x :: x in s[..n] ==> x in s
  {
  }

  /** For every seed: min(limit, eligible) distinct advertisements, all verified and leased. */
  method SampleKnownAdvertisements(known: map<NodeId, KnownAdvertisement>, limit: Option<nat>, now: Time, seed: nat)
    returns (sample: seq<Advertisement>, bound: nat)
    requires forall k :: k in known ==> known[k].advertisement.nodeId == k
    ensures bound == if limit.None? then 8 else Clamped(limit.value, 1, 16)
    ensures |sample| == if bound < |EligibleNodes(known, now)| then bound else |EligibleNodes(known, now)|
    ensures Distinct(sample)
    ensures forall ad :: ad in sample ==> Eligible(known, ad, now)
  {
    bound := SampleLimit(limit);
    var ads := CollectEligible(known, now);
    var a := new Advertisement[|ads|](i requires 0 <= i < |ads| => ads[i]);
    assert a[..] == ads;
    Shuffle(a, seed);
    ShuffleKeeps(ads, if |ads| == 0 then 0 else |ads| - 1, seed);
    PrefixKeeps(a[..], if bound < a.Length then bound else a.Length);
    sample := a[..if bound < a.Length then bound else a.Length];
  }
}
