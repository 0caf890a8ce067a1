/**
 The Bootstrap lifecycle stream: rejection audits, appending and pruning rows, terminal expiry
 of admitted keys, withdrawal projection, and cursor reads.
 */
module BootstrapStream {
  import opened Wrappers
  import opened Artifacts
  import opened SlotMaps
  import opened StreamLog
  import opened KeyOrder
  import opened Nodes
  import opened Cursors

  const MAX_REJECTION_AUDITS: nat := 1_024
  const MAX_REJECTION_AUDIT_AGE: Time := 7 * DAY
  const DEFAULT_STREAM_PAGE_LIMIT: nat := 50
  const MAX_STREAM_PAGE_LIMIT: nat := 100

  // ----- rejection audits -----

  function Younger(audits: seq<Audit>, cutoff: Time): seq<Audit> {
    if audits == [] then []
    else if audits[0].rejectedAt > cutoff then [audits[0]] + Younger(audits[1..], cutoff)
    else Younger(audits[1..], cutoff)
  }

  function PrunedAudits(audits: seq<Audit>, now: Time): seq<Audit> {
    var young := Younger(audits, now - MAX_REJECTION_AUDIT_AGE);
    if |young| > MAX_REJECTION_AUDITS then young[|young| - MAX_REJECTION_AUDITS..] else young
  }

  function Reject(s: NodeState, audit: Audit): NodeState {
    s.(audits := PrunedAudits(s.audits + [audit], audit.rejectedAt))
  }

  method PruneRejectionAudits(store: Store, now: Time)
    modifies store`audits
    ensures store.audits == PrunedAudits(old(store.audits), now)
  {
    store.audits := Younger(store.audits, now - MAX_REJECTION_AUDIT_AGE);
    if |store.audits| > MAX_REJECTION_AUDITS {
      store.audits := store.audits[|store.audits| - MAX_REJECTION_AUDITS..];
    }
  }

  method RejectSubmission(store: Store, audit: Audit)
    modifies store`audits
    ensures store.View() == Reject(old(store.View()), audit)
  {
    store.audits := store.audits + [audit];
    PruneRejectionAudits(store, audit.rejectedAt);
  }

  lemma {:induction false} YoungerKeepsLast(audits: seq<Audit>, last: Audit, cutoff: Time)
    requires last.rejectedAt > cutoff
    ensures Younger(audits + [last], cutoff) == Younger(audits, cutoff) + [last]
  {
    if audits == [] {
      assert audits + [last] == [last];
    } else {
      assert (audits + [last])[1..] == audits[1..] + [last];
      YoungerKeepsLast(audits[1..], last, cutoff);
    }
  }

  lemma {:induction false} YoungerIsYoung(audits: seq<Audit>, cutoff: Time)
    ensures forall x :: x in Younger(audits, cutoff) <==> x in audits && x.rejectedAt > cutoff
  {
    if audits != [] {
      YoungerIsYoung(audits[1..], cutoff);
      assert audits == [audits[0]] + audits[1..];
    }
  }

  /** Audits stay bounded in number and age, and the newest rejection is always kept. */
  lemma AuditsAreBounded(s: NodeState, audit: Audit)
    ensures var audits := Reject(s, audit).audits;
      && 0 < |audits| <= MAX_REJECTION_AUDITS
      && audits[|audits| - 1] == audit
      && forall x :: x in audits ==>
           (x in s.audits || x == audit) && x.rejectedAt > audit.rejectedAt - MAX_REJECTION_AUDIT_AGE
  {
    var cutoff := audit.rejectedAt - MAX_REJECTION_AUDIT_AGE;
    YoungerKeepsLast(s.audits, audit, cutoff);
    YoungerIsYoung(s.audits + [audit], cutoff);
  }

  /** How many audits are younger than seven days. */
  function YoungCount(audits: seq<Audit>, now: Time): nat {
    if audits == [] then 0
    else YoungCount(audits[1..], now) + if audits[0].rejectedAt > now - 604_800_000_000_000 then 1 else 0
  }

  /** The audits of the last seven days that fewer than 1024 such audits follow, in order. */
  function Survivors(audits: seq<Audit>, now: Time): seq<Audit> {
    if audits == [] then []
    else
      (if audits[0].rejectedAt > now - 604_800_000_000_000 && YoungCount(audits[1..], now) < 1_024
       then [audits[0]] else [])
      + Survivors(audits[1..], now)
  }

  lemma {:induction false} YoungerCounts(audits: seq<Audit>, now: Time)
    ensures |Younger(audits, now - MAX_REJECTION_AUDIT_AGE)| == YoungCount(audits, now)
  {
    if audits != [] { YoungerCounts(audits[1..], now); }
  }

  /** Exactly which audits survive a pruning: each is judged by its age and by what came after it. */
  lemma {:induction false} PruningKeepsSurvivors(audits: seq<Audit>, now: Time)
    ensures PrunedAudits(audits, now) == Survivors(audits, now)
  {
    if audits != [] {
      var rest := audits[1..];
      PruningKeepsSurvivors(rest, now);
      YoungerCounts(rest, now);
      var young := Younger(rest, now - MAX_REJECTION_AUDIT_AGE);
      if audits[0].rejectedAt > now - MAX_REJECTION_AUDIT_AGE {
        assert Younger(audits, now - MAX_REJECTION_AUDIT_AGE) == [audits[0]] + young;
      }
    }
  }

  // ----- appending -----

  function StreamRow(sequence: nat, kind: EventKind, key: PodKey, payload: Payload, now: Time): Entry {
    Entry(sequence, now, kind, key.0, key.1, payload)
  }

  function AppendRow(s: NodeState, kind: EventKind, key: PodKey, payload: Payload, now: Time): NodeState {
    var rt := s.Ensured();
    s.(runtime := Some(rt.(nextSequence := rt.nextSequence + 1)),
       stream := Append(s.stream, rt.nextSequence, StreamRow(rt.nextSequence, kind, key, payload, now)))
  }

  method PruneStreamEntries(store: Store)
    modifies store`streamEntries
    ensures store.streamEntries == Pruned(old(store.streamEntries), MAX_STREAM_ENTRIES)
  {
    while |store.streamEntries| > MAX_STREAM_ENTRIES
      invariant Pruned(store.streamEntries, MAX_STREAM_ENTRIES) == Pruned(old(store.streamEntries), MAX_STREAM_ENTRIES)
      decreases |store.streamEntries|
    {
      assert store.streamEntries.Keys != {};
      var oldest := Least(store.streamEntries.Keys);
      store.streamEntries := store.streamEntries - {oldest};
    }
  }

  method AppendStreamEntry(store: Store, kind: EventKind, key: PodKey, payload: Payload, now: Time)
    returns (sequence: nat)
    modifies store`runtime, store`streamEntries, store`history
    ensures store.View() == AppendRow(old(store.View()), kind, key, payload, now)
    ensures sequence == old(store.View()).Ensured().nextSequence
  {
    var rt := store.EnsureBootstrapRuntime();
    sequence := rt.nextSequence;
    store.runtime := Some(rt.(nextSequence := sequence + 1));
    var row := StreamRow(sequence, kind, key, payload, now);
    store.streamEntries := store.streamEntries[sequence := row];
    store.history := store.history + [row];
    PruneStreamEntries(store);
  }

  // ----- the admitted set -----

  function Mark(s: NodeState, k: PodKey): NodeState {
    var rt := s.Ensured();
    s.(runtime := Some(rt.(admittedKeys := rt.admittedKeys + {k})))
  }

  function Unmark(s: NodeState, k: PodKey): NodeState {
    if s.runtime.None? then s
    else s.(runtime := Some(s.runtime.value.(admittedKeys := s.runtime.value.admittedKeys - {k})))
  }

  method MarkBootstrapAdmitted(store: Store, k: PodKey)
    modifies store`runtime
    ensures store.View() == Mark(old(store.View()), k)
  {
    var rt := store.EnsureBootstrapRuntime();
    store.runtime := Some(rt.(admittedKeys := rt.admittedKeys + {k}));
  }

  method UnmarkBootstrapAdmitted(store: Store, k: PodKey)
    modifies store`runtime
    ensures store.View() == Unmark(old(store.View()), k)
  {
    if store.runtime.Some? {
      store.runtime := Some(store.runtime.value.(admittedKeys := store.runtime.value.admittedKeys - {k}));
    }
  }

  // ----- expiry -----

  /** Admitted keys whose lease lapsed, in key order. */
  function Lapsed(s: Slots, keys: seq<PodKey>, now: Time): seq<Announcement> {
    if keys == [] then []
    else
      var rest := Lapsed(s, keys[..|keys| - 1], now);
      var k := keys[|keys| - 1];
      if k in s.announcements && !s.announcements[k].announcement.LeaseIsActive(now)
      then rest + [s.announcements[k].announcement] else rest
  }

  /** Admitted keys that lost their announcement without a lifecycle row. */
  function Orphans(s: Slots, keys: set<PodKey>): set<PodKey> {
    set k | k in keys && k !in s.announcements
  }

  function DropOrphans(s: NodeState): NodeState {
    var rt := s.Ensured();
    s.(runtime := Some(rt.(admittedKeys := rt.admittedKeys - Orphans(s.slots, rt.admittedKeys))))
  }

  function ExpireOne(s: NodeState, a: Announcement, now: Time): NodeState {
    Unmark(AppendRow(s, Expired, a.Key(), AnnouncementPayload(a), now), a.Key())
  }

  function ExpireAll(s: NodeState, lapsed: seq<Announcement>, now: Time): NodeState {
    if lapsed == [] then s else ExpireOne(ExpireAll(s, lapsed[..|lapsed| - 1], now), lapsed[|lapsed| - 1], now)
  }

  /** Drops orphans, then writes one terminal `Expired` row per lapsed admitted key. */
  function Sweep(s: NodeState, now: Time): NodeState {
    ExpireAll(DropOrphans(s), Lapsed(s.slots, InOrder(s.Ensured().admittedKeys), now), now)
  }

  /** Sorts the admitted keys into lapsed announcements and orphans. */
  method CollectExpiry(store: Store, keys: seq<PodKey>, now: Time)
      returns (candidates: seq<Announcement>, stale: set<PodKey>)
    ensures candidates == Lapsed(store.Slots(), keys, now)
    ensures forall k :: k in stale <==> k in keys && k !in store.announcements
  {
    candidates, stale := [], {};
    for i := 0 to |keys|
      invariant candidates == Lapsed(store.Slots(), keys[..i], now)
      invariant forall k :: k in stale <==> k in keys[..i] && k !in store.announcements
    {
      assert keys[..i + 1][..i] == keys[..i];
      if keys[i] in store.announcements {
        var a := store.announcements[keys[i]].announcement;
        if !a.LeaseIsActive(now) {
          candidates := candidates + [a];
        }
      } else {
        stale := stale + {keys[i]};
      }
    }
    assert keys[..|keys|] == keys;
  }

  /** Writes the terminal rows and releases the keys, one candidate at a time. */
  method ExpireCandidates(store: Store, candidates: seq<Announcement>, now: Time) returns (emitted: nat)
    modifies store`runtime, store`streamEntries, store`history
    ensures store.View() == ExpireAll(old(store.View()), candidates, now)
    ensures emitted == |candidates|
  {
    emitted := 0;
    for i := 0 to |candidates|
      invariant store.View() == ExpireAll(old(store.View()), candidates[..i], now)
      invariant emitted == i
    {
      var a := candidates[i];
      assert candidates[..i + 1][..i] == candidates[..i];
      var _ := AppendStreamEntry(store, Expired, a.Key(), AnnouncementPayload(a), now);
      UnmarkBootstrapAdmitted(store, a.Key());
      emitted := emitted + 1;
    }
    assert candidates[..|candidates|] == candidates;
  }

  method EmitExpiryTransitions(store: Store, now: Time) returns (emitted: nat)
    modifies store`runtime, store`streamEntries, store`history
    ensures store.View() == Sweep(old(store.View()), now)
    ensures emitted == |Lapsed(old(store.View()).slots, InOrder(old(store.View()).Ensured().admittedKeys), now)|
  {
    var rt := store.EnsureBootstrapRuntime();
    var candidates, stale := CollectExpiry(store, InOrder(rt.admittedKeys), now);
    assert stale == Orphans(store.Slots(), rt.admittedKeys);
    store.runtime := Some(rt.(admittedKeys := rt.admittedKeys - stale));
    emitted := ExpireCandidates(store, candidates, now);
  }

  // ----- withdrawals -----

  /** Closes an admitted key with a `Withdrawn` row; does nothing for any other key. */
  function ProjectWithdrawal(s: NodeState, w: Withdrawal, now: Time): NodeState {
    if s.IsAdmitted(w.Key())
    then AppendRow(Unmark(s, w.Key()), Withdrawn, w.Key(), WithdrawalPayload(w), now)
    else s
  }

  method ProjectBootstrapWithdrawal(store: Store, w: Withdrawal, now: Time) returns (sequence: Option<nat>)
    modifies store`runtime, store`streamEntries, store`history
    ensures store.View() == ProjectWithdrawal(old(store.View()), w, now)
    ensures sequence == if old(store.View()).IsAdmitted(w.Key()) then Some(old(store.View()).Ensured().nextSequence)
        else None
  {
    if !(store.runtime.Some? && w.Key() in store.runtime.value.admittedKeys) {
      return None;
    }
    UnmarkBootstrapAdmitted(store, w.Key());
    var q := AppendStreamEntry(store, Withdrawn, w.Key(), WithdrawalPayload(w), now);
    return Some(q);
  }

  // ----- reading -----

  datatype Page = Page(entries: seq<Entry>, nextCursor: Option<string>, limit: nat)

  function ClampLimit(limit: Option<nat>): nat {
    var l := if limit.Some? then limit.value else DEFAULT_STREAM_PAGE_LIMIT;
    if l < 1 then 1 else if l > MAX_STREAM_PAGE_LIMIT then MAX_STREAM_PAGE_LIMIT else l
  }

  function HighWaterMark(rows: map<nat, Entry>, runtime: Option<Runtime>): nat {
    Later(PastEnd(rows.Keys), if runtime.Some? then runtime.value.nextSequence else 0)
  }

  function PageAfter(rows: map<nat, Entry>, after: nat, limit: nat): Page {
    var entries := RangeFrom(rows, after + 1, limit);
    Page(entries, if entries == [] then None else Some(Encode(entries[|entries| - 1].sequence)), limit)
  }

  /** Sweeps expiry at `now`, then serves the rows after the cursor. */
  function Read(s: NodeState, cursor: Option<string>, limit: Option<nat>, enabled: bool, now: Time)
    : Done<Page, RejectionReason>
  {
    if !enabled then Done(s, Err(BootstrapDisabled))
    else
      match Parse(cursor)
      case None => Done(s, Err(Malformed))
      case Some(after) =>
        if after > HighWaterMark(s.stream.entries, s.runtime) then Done(s, Err(Malformed))
        else Done(Sweep(s, now), Ok(PageAfter(Sweep(s, now).stream.entries, after, ClampLimit(limit))))
  }

  method ReadAnnouncementStream(store: Store, cursor: Option<string>, limit: Option<nat>, enabled: bool, now: Time)
    returns (r: Result<Page, RejectionReason>)
    modifies store`runtime, store`streamEntries, store`history
    ensures Done(store.View(), r) == Read(old(store.View()), cursor, limit, enabled, now)
  {
    if !enabled { return Err(BootstrapDisabled); }
    var after := Parse(cursor);
    if after.None? { return Err(Malformed); }
    if after.value > HighWaterMark(store.streamEntries, store.runtime) { return Err(Malformed); }
    var _ := EmitExpiryTransitions(store, now);
    return Ok(PageAfter(store.streamEntries, after.value, ClampLimit(limit)));
  }
}
