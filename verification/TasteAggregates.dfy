/** What a User's seeds and feedback add up to, signal by signal, and the weight inferred from it. */
module TasteAggregates {
  import opened Wrappers
  import opened Artifacts
  import opened InterestSeeds

  datatype EvidenceKind = UserSubmission | Save | MoreLikeThis | LessLikeThis | Dismiss | AddToPod

  datatype Direction = Supporting | Opposing

  datatype Feedback = Feedback(user: Uuid, tenant: Tenant, signal: Signal, kind: EvidenceKind, direction: Direction)

  // ----- saturating counters -----

  const U32_MAX: nat := 0xFFFF_FFFF

  function SaturatingAdd(a: nat, b: nat): nat { if a + b > U32_MAX then U32_MAX else a + b }

  function Capped(n: nat): nat { if n > U32_MAX then U32_MAX else n }

  datatype Aggregate = Aggregate(
    supportingSeeds: nat,
    supportingFeedback: nat,
    opposingFeedback: nat,
    evidenceCounts: map<EvidenceKind, nat>)

  const NO_EVIDENCE := Aggregate(0, 0, 0, map[])

  type Aggregates = map<Signal, Aggregate>

  function CountOf(counts: map<EvidenceKind, nat>, kind: EvidenceKind): nat {
    if kind in counts then counts[kind] else 0
  }

  function OneMoreOf(counts: map<EvidenceKind, nat>, kind: EvidenceKind): map<EvidenceKind, nat> {
    counts[kind := SaturatingAdd(CountOf(counts, kind), 1)]
  }

  function OneMoreSeed(a: Aggregate): Aggregate {
    a.(supportingSeeds := SaturatingAdd(a.supportingSeeds, 1),
        evidenceCounts := OneMoreOf(a.evidenceCounts, UserSubmission))
  }

  function OneMoreFeedback(a: Aggregate, f: Feedback): Aggregate {
    var counted := a.(evidenceCounts := OneMoreOf(a.evidenceCounts, f.kind));
    match f.direction
    case Supporting => counted.(supportingFeedback := SaturatingAdd(a.supportingFeedback, 1))
    case Opposing => counted.(opposingFeedback := SaturatingAdd(a.opposingFeedback, 1))
  }

  /** The entry of `g`, empty by default. */
  function EntryOf(m: Aggregates, g: Signal): Aggregate {
    if g in m then m[g] else NO_EVIDENCE
  }

  // ----- the counts aggregates stand for -----

  predicate Concerns(f: Feedback, user: Uuid, tenant: Tenant, g: Signal) {
    f.user == user && f.tenant == tenant && f.signal == g
  }

  /** How many feedback events about `g` point in a direction. */
  function Opinions(fs: seq<Feedback>, user: Uuid, tenant: Tenant, g: Signal, direction: Direction): nat {
    if fs == [] then 0
    else
      var f := fs[|fs| - 1];
      Opinions(fs[..|fs| - 1], user, tenant, g, direction)
        + if Concerns(f, user, tenant, g) && f.direction == direction then 1 else 0
  }

  /** How many feedback events about `g` are of a kind. */
  function Mentions(fs: seq<Feedback>, user: Uuid, tenant: Tenant, g: Signal, kind: EvidenceKind): nat {
    if fs == [] then 0
    else
      var f := fs[|fs| - 1];
      Mentions(fs[..|fs| - 1], user, tenant, g, kind) + if Concerns(f, user, tenant, g) && f.kind == kind then 1 else 0
  }

  function KindTotal(seeds: nat, fs: seq<Feedback>, user: Uuid, tenant: Tenant, g: Signal, kind: EvidenceKind): nat {
    Mentions(fs, user, tenant, g, kind) + if kind == UserSubmission then seeds else 0
  }

  /** Every counter of `a` is a count, cut off at the counter's width, when `seeds` seeds support `g`. */
  ghost predicate Summarizes(a: Aggregate, seeds: nat, fs: seq<Feedback>, user: Uuid, tenant: Tenant, g: Signal) {
    && a.supportingSeeds == Capped(seeds)
    && a.supportingFeedback == Capped(Opinions(fs, user, tenant, g, Supporting))
    && a.opposingFeedback == Capped(Opinions(fs, user, tenant, g, Opposing))
    && forall kind :: Tallied(a.evidenceCounts, kind, KindTotal(seeds, fs, user, tenant, g, kind))
  }

  /** `kind` is counted `n` times, and listed only if it occurs. */
  predicate Tallied(counts: map<EvidenceKind, nat>, kind: EvidenceKind, n: nat) {
    CountOf(counts, kind) == Capped(n) && (kind in counts <==> n > 0)
  }

  predicate AnyEvidence(seeds: nat, fs: seq<Feedback>, user: Uuid, tenant: Tenant, g: Signal) {
    seeds > 0 || exists i :: 0 <= i < |fs| && Concerns(fs[i], user, tenant, g)
  }

  lemma OneMoreTallied(counts: map<EvidenceKind, nat>, counted: EvidenceKind, kind: EvidenceKind, n: nat)
    requires Tallied(counts, kind, n)
    ensures Tallied(OneMoreOf(counts, counted), kind, if kind == counted then n + 1 else n)
  {
  }

  lemma SummaryAddsSeed(a: Aggregate, seeds: nat, user: Uuid, tenant: Tenant, g: Signal)
    requires Summarizes(a, seeds, [], user, tenant, g)
    ensures Summarizes(OneMoreSeed(a), seeds + 1, [], user, tenant, g)
  {
    var b, more := OneMoreSeed(a), seeds + 1;
    forall kind: EvidenceKind
      ensures Tallied(b.evidenceCounts, kind, KindTotal(more, [], user, tenant, g, kind))
    {
      OneMoreTallied(a.evidenceCounts, UserSubmission, kind, KindTotal(seeds, [], user, tenant, g, kind));
    }
  }

  lemma OpinionsAdd(fs: seq<Feedback>, f: Feedback, user: Uuid, tenant: Tenant, g: Signal, d: Direction)
    ensures Opinions(fs + [f], user, tenant, g, d) ==
      Opinions(fs, user, tenant, g, d) + if Concerns(f, user, tenant, g) && f.direction == d then 1 else 0
  {
    assert (fs + [f])[..|fs|] == fs;
  }

  lemma KindTotalAdds(seeds: nat, fs: seq<Feedback>, f: Feedback, user: Uuid, tenant: Tenant, g: Signal,
      kind: EvidenceKind)
    ensures KindTotal(seeds, fs + [f], user, tenant, g, kind) ==
      KindTotal(seeds, fs, user, tenant, g, kind) + if Concerns(f, user, tenant, g) && f.kind == kind then 1 else 0
  {
    assert (fs + [f])[..|fs|] == fs;
  }

  lemma SummaryAddsFeedback(a: Aggregate, seeds: nat, fs: seq<Feedback>, f: Feedback, user: Uuid, tenant: Tenant,
      g: Signal)
    requires Summarizes(a, seeds, fs, user, tenant, g)
    ensures Summarizes(if Concerns(f, user, tenant, g) then OneMoreFeedback(a, f) else a, seeds, fs + [f], user,
        tenant, g)
  {
    OpinionsAdd(fs, f, user, tenant, g, Supporting);
    OpinionsAdd(fs, f, user, tenant, g, Opposing);
    var b := if Concerns(f, user, tenant, g) then OneMoreFeedback(a, f) else a;
    forall kind: EvidenceKind
      ensures Tallied(b.evidenceCounts, kind, KindTotal(seeds, fs + [f], user, tenant, g, kind))
    {
      assert Tallied(a.evidenceCounts, kind, KindTotal(seeds, fs, user, tenant, g, kind));
      KindTotalAdds(seeds, fs, f, user, tenant, g, kind);
      OneMoreTallied(a.evidenceCounts, f.kind, kind, KindTotal(seeds, fs, user, tenant, g, kind));
    }
  }

  // ----- the aggregation -----

  /** Counts one seed for each of its signals. */
  method CountSeed(m: Aggregates, signals: set<Signal>) returns (r: Aggregates)
    ensures r.Keys == m.Keys + signals
    ensures forall g :: EntryOf(r, g) == if g in signals then OneMoreSeed(EntryOf(m, g)) else EntryOf(m, g)
  {
    r := m;
    var remaining := signals;
    while remaining != {}
      invariant remaining <= signals && r.Keys == m.Keys + (signals - remaining)
      invariant forall g :: EntryOf(r, g) == if g in signals && g !in remaining then OneMoreSeed(EntryOf(m, g))
          else EntryOf(m, g)
      decreases remaining
    {
      var g :| g in remaining;
      remaining := remaining - {g};
      r := r[g := OneMoreSeed(EntryOf(r, g))];
    }
  }

  /** How many of the seeds among `keys` support `g`. */
  function SupportAmong(seeds: Seeds, keys: set<SeedKey>, user: Uuid, tenant: Tenant, g: Signal): nat {
    |Supporters(seeds, user, tenant, g) * keys|
  }

  lemma SupportAddsKey(seeds: Seeds, done: set<SeedKey>, k: SeedKey, user: Uuid, tenant: Tenant, g: Signal)
    requires k in seeds && k !in done
    ensures SupportAmong(seeds, done + {k}, user, tenant, g) ==
      SupportAmong(seeds, done, user, tenant, g) + if k.0 == user && Supports(seeds[k], tenant, g) then 1 else 0
  {
    var all := Supporters(seeds, user, tenant, g);
    assert all * (done + {k}) == all * done + if k in all then {k} else {};
  }

  /** Every entry counts the supporters among `keys`, and there is one exactly when there are some. */
  ghost predicate CountsSeeds(m: Aggregates, seeds: Seeds, keys: set<SeedKey>, user: Uuid, tenant: Tenant) {
    forall g :: (g in m <==> SupportAmong(seeds, keys, user, tenant, g) > 0)
      && Summarizes(EntryOf(m, g), SupportAmong(seeds, keys, user, tenant, g), [], user, tenant, g)
  }

  lemma CountedSeed(seeds: Seeds, done: set<SeedKey>, k: SeedKey, user: Uuid, tenant: Tenant, before: Aggregates,
      after: Aggregates)
    requires k in seeds && k !in done && CountsSeeds(before, seeds, done, user, tenant)
    requires var signals := if k.0 == user && seeds[k].tenant == tenant && seeds[k].retractedAt.None?
        then SignalsOf(seeds[k].evidence) else {};
      && after.Keys == before.Keys + signals
      && forall g :: EntryOf(after, g) == if g in signals then OneMoreSeed(EntryOf(before, g)) else EntryOf(before, g)
    ensures CountsSeeds(after, seeds, done + {k}, user, tenant)
  {
    forall g
      ensures g in after <==> SupportAmong(seeds, done + {k}, user, tenant, g) > 0
      ensures Summarizes(EntryOf(after, g), SupportAmong(seeds, done + {k}, user, tenant, g), [], user, tenant, g)
    {
      var counts := k.0 == user && Supports(seeds[k], tenant, g);
      SupportAddsKey(seeds, done, k, user, tenant, g);
      CountedOnce(EntryOf(before, g), EntryOf(after, g), SupportAmong(seeds, done, user, tenant, g), counts, user,
          tenant, g);
    }
  }

  lemma CountedOnce(before: Aggregate, after: Aggregate, n: nat, counts: bool, user: Uuid, tenant: Tenant, g: Signal)
    requires Summarizes(before, n, [], user, tenant, g)
    requires after == if counts then OneMoreSeed(before) else before
    ensures Summarizes(after, if counts then n + 1 else n, [], user, tenant, g)
  {
    if counts { SummaryAddsSeed(before, n, user, tenant, g); }
  }

  lemma NothingCounted(seeds: Seeds, user: Uuid, tenant: Tenant)
    ensures CountsSeeds(map[], seeds, {}, user, tenant)
  {
    forall g ensures SupportAmong(seeds, {}, user, tenant, g) == 0 {
      assert Supporters(seeds, user, tenant, g) * {} == {};
    }
  }

  /** Visits the seeds in no particular order. */
  method CountSeeds(seeds: Seeds, user: Uuid, tenant: Tenant) returns (m: Aggregates)
    ensures CountsSeeds(m, seeds, seeds.Keys, user, tenant)
  {
    m := map[];
    var remaining := seeds.Keys;
    ghost var done: set<SeedKey> := {};
    NothingCounted(seeds, user, tenant);
    while remaining != {}
      invariant remaining !! done && remaining + done == seeds.Keys
      invariant CountsSeeds(m, seeds, done, user, tenant)
      decreases remaining
    {
      var k :| k in remaining;
      var next := m;
      if k.0 == user && seeds[k].tenant == tenant && seeds[k].retractedAt.None? {
        next := CountSeed(m, SignalsOf(seeds[k].evidence));
      }
      CountedSeed(seeds, done, k, user, tenant, m, next);
      m := next;
      remaining := remaining - {k};
      done := done + {k};
    }
    assert done == seeds.Keys;
  }

  ghost predicate CountsAll(m: Aggregates, seeds: Seeds, fs: seq<Feedback>, user: Uuid, tenant: Tenant) {
    forall g :: (g in m <==> AnyEvidence(|Supporters(seeds, user, tenant, g)|, fs, user, tenant, g))
      && Summarizes(EntryOf(m, g), |Supporters(seeds, user, tenant, g)|, fs, user, tenant, g)
  }

  lemma CountedSeedsOnly(m: Aggregates, seeds: Seeds, user: Uuid, tenant: Tenant)
    requires CountsSeeds(m, seeds, seeds.Keys, user, tenant)
    ensures CountsAll(m, seeds, [], user, tenant)
  {
    forall g
      ensures g in m <==> AnyEvidence(|Supporters(seeds, user, tenant, g)|, [], user, tenant, g)
      ensures Summarizes(EntryOf(m, g), |Supporters(seeds, user, tenant, g)|, [], user, tenant, g)
    {
      AllSupport(seeds, user, tenant, g);
    }
  }

  lemma AllSupport(seeds: Seeds, user: Uuid, tenant: Tenant, g: Signal)
    ensures SupportAmong(seeds, seeds.Keys, user, tenant, g) == |Supporters(seeds, user, tenant, g)|
  {
    assert Supporters(seeds, user, tenant, g) * seeds.Keys == Supporters(seeds, user, tenant, g);
  }

  lemma CountedFeedback(before: Aggregates, after: Aggregates, seeds: Seeds, fs: seq<Feedback>, f: Feedback,
      user: Uuid, tenant: Tenant)
    requires CountsAll(before, seeds, fs, user, tenant)
    requires after == if f.user == user && f.tenant == tenant
      then before[f.signal := OneMoreFeedback(EntryOf(before, f.signal), f)] else before
    ensures CountsAll(after, seeds, fs + [f], user, tenant)
  {
    forall g
      ensures g in after <==> AnyEvidence(|Supporters(seeds, user, tenant, g)|, fs + [f], user, tenant, g)
      ensures Summarizes(EntryOf(after, g), |Supporters(seeds, user, tenant, g)|, fs + [f], user, tenant, g)
    {
      SummaryAddsFeedback(EntryOf(before, g), |Supporters(seeds, user, tenant, g)|, fs, f, user, tenant, g);
      EvidenceAdds(|Supporters(seeds, user, tenant, g)|, fs, f, user, tenant, g);
    }
  }

  lemma EvidenceAdds(seeds: nat, fs: seq<Feedback>, f: Feedback, user: Uuid, tenant: Tenant, g: Signal)
    ensures AnyEvidence(seeds, fs + [f], user, tenant, g) <==>
      AnyEvidence(seeds, fs, user, tenant, g) || Concerns(f, user, tenant, g)
  {
    var more := fs + [f];
    assert more[|fs|] == f && forall i :: 0 <= i < |fs| ==> more[i] == fs[i];
  }

  /** The aggregates of one User in one tenant, from seeds and then feedback. */
  method TasteSignalAggregates(seeds: Seeds, feedback: seq<Feedback>, user: Uuid, tenant: Tenant)
      returns (m: Aggregates)
    ensures forall g :: g in m <==> AnyEvidence(|Supporters(seeds, user, tenant, g)|, feedback, user, tenant, g)
    ensures forall g :: g in m ==> Summarizes(m[g], |Supporters(seeds, user, tenant, g)|, feedback, user, tenant, g)
  {
    m := CountSeeds(seeds, user, tenant);
    CountedSeedsOnly(m, seeds, user, tenant);
    for i := 0 to |feedback|
      invariant CountsAll(m, seeds, feedback[..i], user, tenant)
    {
      var f := feedback[i];
      ghost var before := m;
      if f.user == user && f.tenant == tenant {
        m := m[f.signal := OneMoreFeedback(EntryOf(m, f.signal), f)];
      }
      CountedFeedback(before, m, seeds, feedback[..i], f, user, tenant);
      assert feedback[..i + 1] == feedback[..i] + [f];
    }
    assert feedback[..|feedback|] == feedback;
    assert forall g :: g in m ==> m[g] == EntryOf(m, g);
  }

  // ----- kinds add up -----

  function CountSum(counts: map<EvidenceKind, nat>): nat {
    CountOf(counts, UserSubmission) + CountOf(counts, Save) + CountOf(counts, MoreLikeThis)
      + CountOf(counts, LessLikeThis) + CountOf(counts, Dismiss) + CountOf(counts, AddToPod)
  }

  function MentionSum(fs: seq<Feedback>, user: Uuid, tenant: Tenant, g: Signal): nat {
    Mentions(fs, user, tenant, g, UserSubmission) + Mentions(fs, user, tenant, g, Save)
      + Mentions(fs, user, tenant, g, MoreLikeThis) + Mentions(fs, user, tenant, g, LessLikeThis)
      + Mentions(fs, user, tenant, g, Dismiss) + Mentions(fs, user, tenant, g, AddToPod)
  }

  lemma {:induction false} MentionsAddUp(fs: seq<Feedback>, user: Uuid, tenant: Tenant, g: Signal)
    ensures MentionSum(fs, user, tenant, g) == Opinions(fs, user, tenant, g, Supporting)
        + Opinions(fs, user, tenant, g, Opposing)
  {
    if fs != [] { MentionsAddUp(fs[..|fs| - 1], user, tenant, g); }
  }

  /** Below saturation the counts by kind add up to the supporting and opposing evidence. */
  lemma KindsAddUp(a: Aggregate, seeds: nat, fs: seq<Feedback>, user: Uuid, tenant: Tenant, g: Signal)
    requires Summarizes(a, seeds, fs, user, tenant, g)
    requires seeds + Opinions(fs, user, tenant, g, Supporting) + Opinions(fs, user, tenant, g, Opposing) <= U32_MAX
    ensures CountSum(a.evidenceCounts) == a.supportingSeeds + a.supportingFeedback + a.opposingFeedback
  {
    MentionsAddUp(fs, user, tenant, g);
    KindCount(a, seeds, fs, user, tenant, g, UserSubmission);
    KindCount(a, seeds, fs, user, tenant, g, Save);
    KindCount(a, seeds, fs, user, tenant, g, MoreLikeThis);
    KindCount(a, seeds, fs, user, tenant, g, LessLikeThis);
    KindCount(a, seeds, fs, user, tenant, g, Dismiss);
    KindCount(a, seeds, fs, user, tenant, g, AddToPod);
  }

  lemma KindCount(a: Aggregate, seeds: nat, fs: seq<Feedback>, user: Uuid, tenant: Tenant, g: Signal,
      kind: EvidenceKind)
    requires Summarizes(a, seeds, fs, user, tenant, g)
    ensures CountOf(a.evidenceCounts, kind) == Capped(KindTotal(seeds, fs, user, tenant, g, kind))
  {
    assert Tallied(a.evidenceCounts, kind, KindTotal(seeds, fs, user, tenant, g, kind));
  }

  // ----- the inferred weight -----

  function Clamped(n: int, low: int, high: int): int
    requires low <= high
  {
    if n < low then low else if n > high then high else n
  }

  function InferredWeight(a: Aggregate, blocked: bool): real {
    var supporting := SaturatingAdd(a.supportingSeeds, a.supportingFeedback);
    if blocked || SaturatingAdd(supporting, a.opposingFeedback) < 2 then 0.0
    else Clamped(supporting - a.opposingFeedback, -6, 6) as real * 0.5
  }

  /** The weight is bounded and leans the way the majority of the evidence does. */
  lemma WeightFollowsMajority(a: Aggregate, seeds: nat, fs: seq<Feedback>, user: Uuid, tenant: Tenant, g: Signal,
      blocked: bool)
    requires Summarizes(a, seeds, fs, user, tenant, g)
    requires seeds + Opinions(fs, user, tenant, g, Supporting) + Opinions(fs, user, tenant, g, Opposing) <= U32_MAX
    ensures var pro, con := seeds + Opinions(fs, user, tenant, g, Supporting), Opinions(fs, user, tenant, g, Opposing);
      var w := InferredWeight(a, blocked);
      && (w > 0.0 <==> !blocked && pro + con >= 2 && pro > con)
      && (w < 0.0 <==> !blocked && pro + con >= 2 && pro < con)
      && (w == 3.0 <==> !blocked && pro >= con + 6)
      && (w == -3.0 <==> !blocked && con >= pro + 6)
      && (!blocked && pro + con >= 2 && -6 <= pro - con <= 6 ==> 2.0 * w == (pro - con) as real)
      && (blocked || pro + con < 2 ==> w == 0.0)
  {
  }

  /** Whatever the counters hold, the weight stays within three either way. */
  lemma WeightIsBounded(a: Aggregate, blocked: bool)
    ensures -3.0 <= InferredWeight(a, blocked) <= 3.0
  {
  }

  // ----- resetting -----

  /** The feedback that resetting one signal, or all, leaves. */
  function KeptFeedback(fs: seq<Feedback>, user: Uuid, tenant: Tenant, signal: Option<Signal>): seq<Feedback> {
    if fs == [] then []
    else
      var front, f := KeptFeedback(fs[..|fs| - 1], user, tenant, signal), fs[|fs| - 1];
      if f.user == user && f.tenant == tenant && (signal.None? || f.signal == signal.value) then front else front + [f]
  }

  predicate Forgotten(owner: Uuid, scope: Tenant, signal: Option<Signal>, user: Uuid, tenant: Tenant, g: Signal) {
    user == owner && tenant == scope && (signal.None? || signal.value == g)
  }

  lemma {:induction false} KeptOpinions(fs: seq<Feedback>, owner: Uuid, scope: Tenant, signal: Option<Signal>,
                                        user: Uuid, tenant: Tenant, g: Signal, d: Direction)
    ensures Opinions(KeptFeedback(fs, owner, scope, signal), user, tenant, g, d) ==
      if Forgotten(owner, scope, signal, user, tenant, g) then 0 else Opinions(fs, user, tenant, g, d)
  {
    if fs != [] {
      var front, f := fs[..|fs| - 1], fs[|fs| - 1];
      KeptOpinions(front, owner, scope, signal, user, tenant, g, d);
      OpinionsAdd(KeptFeedback(front, owner, scope, signal), f, user, tenant, g, d);
    }
  }

  lemma {:induction false} KeptConcerns(fs: seq<Feedback>, owner: Uuid, scope: Tenant, signal: Option<Signal>,
                                        user: Uuid, tenant: Tenant, g: Signal)
    ensures AnyEvidence(0, KeptFeedback(fs, owner, scope, signal), user, tenant, g) <==>
      !Forgotten(owner, scope, signal, user, tenant, g) && AnyEvidence(0, fs, user, tenant, g)
  {
    if fs != [] {
      var front, f := fs[..|fs| - 1], fs[|fs| - 1];
      KeptConcerns(front, owner, scope, signal, user, tenant, g);
      EvidenceAdds(0, KeptFeedback(front, owner, scope, signal), f, user, tenant, g);
      EvidenceAdds(0, front, f, user, tenant, g);
      assert fs == front + [f];
    }
  }

  /** A reset leaves no trace of what it names in the aggregates, and every other count as it was. */
  lemma ResetForgetsExactly(seeds: Seeds, fs: seq<Feedback>, owner: Uuid, scope: Tenant, signal: Option<Signal>,
      now: Time, user: Uuid, tenant: Tenant, g: Signal)
    ensures var left, kept := Reset(seeds, owner, scope, signal, now), KeptFeedback(fs, owner, scope, signal);
      var n, m := |Supporters(seeds, user, tenant, g)|, |Supporters(left, user, tenant, g)|;
      && (Forgotten(owner, scope, signal, user, tenant, g) ==> !AnyEvidence(m, kept, user, tenant, g))
      && (!Forgotten(owner, scope, signal, user, tenant, g) ==>
            && m == n && (AnyEvidence(m, kept, user, tenant, g) <==> AnyEvidence(n, fs, user, tenant, g))
            && forall d :: Opinions(kept, user, tenant, g, d) == Opinions(fs, user, tenant, g, d))
  {
    ResetSupports(seeds, owner, scope, signal, now, user, tenant, g);
    KeptConcerns(fs, owner, scope, signal, user, tenant, g);
    forall d: Direction { KeptOpinions(fs, owner, scope, signal, user, tenant, g, d); }
  }

  // ----- resubmission cannot build weight -----

  lemma {:induction false} SeedsWereTaught(actions: seq<Action>, k: SeedKey)
    requires TenantOf(actions, k).Some?
    ensures exists i :: 0 <= i < |actions| && Teaches(actions[i], k)
  {
    var n := |actions| - 1;
    if TenantOf(actions[..n], k).Some? {
      SeedsWereTaught(actions[..n], k);
      var i :| 0 <= i < n && Teaches(actions[..n][i], k);
      assert Teaches(actions[i], k);
    } else {
      assert Teaches(actions[n], k);
    }
  }

  /** Submitting one candidate however often gives no signal any weight without feedback. */
  lemma OneCandidateNeverWeighs(actions: seq<Action>, k: SeedKey, tenant: Tenant, g: Signal, a: Aggregate,
      blocked: bool)
    requires forall i, c :: 0 <= i < |actions| && Teaches(actions[i], (k.0, c)) ==> c == k.1
    requires Summarizes(a, |Supporters(Run(map[], actions), k.0, tenant, g)|, [], k.0, tenant, g)
    ensures InferredWeight(a, blocked) == 0.0
  {
    var supporters := Supporters(Run(map[], actions), k.0, tenant, g);
    forall x | x in supporters ensures x == k {
      SignalsAreHistory(actions, x);
      SeedsWereTaught(actions, x);
      assert x == (k.0, x.1);
    }
    assert supporters <= {k};
    assert supporters == {} || supporters == {k};
  }
}
