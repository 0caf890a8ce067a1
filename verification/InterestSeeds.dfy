/** Interest seeds: what a User's own submissions teach, how it is retracted and reset. */
module InterestSeeds {
  import opened Wrappers
  import opened Artifacts
  import opened KeyOrder
  import opened Lists
  import StableSort

  datatype SignalKind = Topic | Source | Publisher | AuthorOrAccount | Community | ReferrerContext

  datatype Signal = Signal(kind: SignalKind, value: string)

  type Tenant = Option<nat>

  datatype Evidence = Evidence(signal: Signal, provenance: string)

  /** A seed is kept under its User and candidate. */
  type SeedKey = (Uuid, Uuid)

  datatype Seed = Seed(tenant: Tenant, evidence: seq<Evidence>, createdAt: Time, retractedAt: Option<Time>)

  type Seeds = map<SeedKey, Seed>

  /** A submission; `signals` are the distinct signals extracted from it, in any order. */
  datatype Submission = Submission(
    user: Uuid,
    candidate: Uuid,
    tenant: Tenant,
    learns: bool,
    signals: seq<Signal>,
    provenance: string,
    createdAt: Time)
  {
    function Key(): SeedKey { (user, candidate) }
  }

  function KindName(kind: SignalKind): string {
    match kind
    case Topic => "topic"
    case Source => "source"
    case Publisher => "publisher"
    case AuthorOrAccount => "author_or_account"
    case Community => "community"
    case ReferrerContext => "referrer_context"
  }

  predicate EvidenceLess(a: Evidence, b: Evidence) {
    || TextLess(KindName(a.signal.kind), KindName(b.signal.kind))
    || (KindName(a.signal.kind) == KindName(b.signal.kind) && TextLess(a.signal.value, b.signal.value))
  }

  function SignalsOf(evidence: seq<Evidence>): set<Signal> {
    set e | e in evidence :: e.signal
  }

  // ----- recording -----

  function Items(s: Submission): seq<Evidence> {
    StableSort.Sorted(EvidenceLess,
        seq(|s.signals|, i requires 0 <= i < |s.signals| => Evidence(s.signals[i], s.provenance)))
  }

  /** A learning submission creates a seed or adds the evidence it lacks; nothing else is touched. */
  function Record(seeds: Seeds, s: Submission): Seeds {
    if !s.learns then seeds
    else if s.Key() in seeds then
      var seed := seeds[s.Key()];
      seeds[s.Key() := seed.(evidence := StableSort.Sorted(EvidenceLess, AddNew(seed.evidence, Items(s))))]
    else seeds[s.Key() := Seed(s.tenant, Items(s), s.createdAt, None)]
  }

  // ----- retracting and resetting -----

  function Retire(seed: Seed, now: Time): Seed {
    if seed.retractedAt.None? then seed.(retractedAt := Some(now)) else seed
  }

  /** The evidence for other signals. */
  function Dropping(evidence: seq<Evidence>, signal: Signal): seq<Evidence> {
    if evidence == [] then []
    else
      var front, e := Dropping(evidence[..|evidence| - 1], signal), evidence[|evidence| - 1];
      if e.signal == signal then front else front + [e]
  }

  function ResetSeed(seed: Seed, signal: Option<Signal>, now: Time): Seed {
    match signal
    case None => Retire(seed, now)
    case Some(g) =>
      var kept := seed.(evidence := Dropping(seed.evidence, g));
      if kept.evidence == [] then Retire(kept, now) else kept
  }

  function Reset(seeds: Seeds, user: Uuid, tenant: Tenant, signal: Option<Signal>, now: Time): Seeds {
    map k | k in seeds :: if k.0 == user && seeds[k].tenant == tenant then ResetSeed(seeds[k], signal, now)
        else seeds[k]
  }

  /** Retraction by the User; a seed of another tenant is not found. */
  function Retracted(seeds: Seeds, user: Uuid, candidate: Uuid, tenant: Tenant, now: Time): Result<Seeds, StoreError> {
    var k := (user, candidate);
    if k !in seeds || seeds[k].tenant != tenant then Err(NotFound) else Ok(seeds[k := Retire(seeds[k], now)])
  }

  class SeedStore {
    var seeds: Seeds

    constructor ()
      ensures seeds == map[]
    {
      seeds := map[];
    }

    method RecordInterestSeed(s: Submission)
      modifies this
      ensures seeds == Record(old(seeds), s)
    {
      if !s.learns { return; }
      var items := Items(s);
      if s.Key() in seeds {
        var seed := seeds[s.Key()];
        var evidence := AddMissing(seed.evidence, items);
        seeds := seeds[s.Key() := seed.(evidence := StableSort.Sorted(EvidenceLess, evidence))];
        return;
      }
      seeds := seeds[s.Key() := Seed(s.tenant, items, s.createdAt, None)];
    }

    method RetractInterestSeed(user: Uuid, candidate: Uuid, tenant: Tenant, now: Time)
        returns (r: Result<(), StoreError>)
      modifies this
      ensures match Retracted(old(seeds), user, candidate, tenant, now)
        case Err(e) => r == Err(e) && seeds == old(seeds)
        case Ok(after) => r == Ok(()) && seeds == after
    {
      var k := (user, candidate);
      if k !in seeds || seeds[k].tenant != tenant { return Err(NotFound); }
      if seeds[k].retractedAt.None? {
        seeds := seeds[k := seeds[k].(retractedAt := Some(now))];
      }
      return Ok(());
    }

    /** Visits the seeds in no particular order. */
    method ResetInterestSeedEvidence(user: Uuid, tenant: Tenant, signal: Option<Signal>, now: Time)
      modifies this
      ensures seeds == Reset(old(seeds), user, tenant, signal, now)
    {
      var before := seeds;
      var remaining := seeds.Keys;
      while remaining != {}
        invariant remaining <= before.Keys == seeds.Keys
        invariant forall k :: k in before ==>
          seeds[k] == if k in remaining then before[k] else Reset(before, user, tenant, signal, now)[k]
        decreases remaining
      {
        var k :| k in remaining;
        remaining := remaining - {k};
        if k.0 == user && seeds[k].tenant == tenant {
          var seed := seeds[k];
          if signal.Some? {
            var left := RetainOthers(seed.evidence, signal.value);
            seed := seed.(evidence := left);
            if left == [] { seed := Retire(seed, now); }
          } else {
            seed := Retire(seed, now);
          }
          seeds := seeds[k := seed];
        }
      }
    }
  }

  method RetainOthers(evidence: seq<Evidence>, signal: Signal) returns (left: seq<Evidence>)
    ensures left == Dropping(evidence, signal)
  {
    left := [];
    for i := 0 to |evidence|
      invariant left == Dropping(evidence[..i], signal)
    {
      assert evidence[..i + 1][..i] == evidence[..i];
      if evidence[i].signal != signal { left := left + [evidence[i]]; }
    }
    assert evidence[..|evidence|] == evidence;
  }

  // ----- which seeds support a signal -----

  predicate Supports(seed: Seed, tenant: Tenant, g: Signal) {
    seed.tenant == tenant && seed.retractedAt.None? && g in SignalsOf(seed.evidence)
  }

  function Supporters(seeds: Seeds, user: Uuid, tenant: Tenant, g: Signal): set<SeedKey> {
    set k | k in seeds && k.0 == user && Supports(seeds[k], tenant, g)
  }

  lemma EvidenceRanks()
    ensures StableSort.Ranks(EvidenceLess)
  {
    forall a: Evidence, b: Evidence | EvidenceLess(a, b) ensures !EvidenceLess(b, a) {
      TextOrder(KindName(a.signal.kind), KindName(b.signal.kind));
      TextOrder(a.signal.value, b.signal.value);
    }
    forall a: Evidence, b: Evidence, c: Evidence | !EvidenceLess(b, a) && !EvidenceLess(c, b)
        ensures !EvidenceLess(c, a) {
      EvidenceTransitive(a, b, c);
    }
  }

  lemma TextNotAfter(a: string, b: string, c: string)
    requires !TextLess(b, a) && !TextLess(c, b)
    ensures !TextLess(c, a) && (a == c ==> a == b)
  {
    TextOrder(a, b);
    TextOrder(b, c);
    TextOrder(a, c);
    if TextLess(a, b) && TextLess(b, c) { TextTransitive(a, b, c); }
  }

  lemma EvidenceTransitive(a: Evidence, b: Evidence, c: Evidence)
    requires !EvidenceLess(b, a) && !EvidenceLess(c, b)
    ensures !EvidenceLess(c, a)
  {
    TextNotAfter(KindName(a.signal.kind), KindName(b.signal.kind), KindName(c.signal.kind));
    if a.signal.kind == b.signal.kind == c.signal.kind {
      TextNotAfter(a.signal.value, b.signal.value, c.signal.value);
    }
  }

  lemma SortKeepsSignals(evidence: seq<Evidence>)
    ensures SignalsOf(StableSort.Sorted(EvidenceLess, evidence)) == SignalsOf(evidence)
    ensures forall e :: e in StableSort.Sorted(EvidenceLess, evidence) <==> e in evidence
  {
    EvidenceRanks();
    StableSort.SortedEffect(EvidenceLess, evidence);
    StableSort.SameMembers(evidence, StableSort.Sorted(EvidenceLess, evidence));
  }

  lemma ItemSignals(s: Submission)
    ensures forall g :: g in SignalsOf(Items(s)) <==> g in s.signals
  {
    var items := seq(|s.signals|, i requires 0 <= i < |s.signals| => Evidence(s.signals[i], s.provenance));
    SortKeepsSignals(items);
    forall g ensures g in SignalsOf(items) <==> g in s.signals {
      if g in s.signals {
        var i :| 0 <= i < |s.signals| && s.signals[i] == g;
        assert items[i].signal == g;
      }
    }
  }

  lemma DroppingSignals(evidence: seq<Evidence>, g: Signal)
    ensures SignalsOf(Dropping(evidence, g)) == SignalsOf(evidence) - {g}
  {
    DroppingKeeps(evidence, g);
  }

  lemma {:induction false} DroppingKeeps(evidence: seq<Evidence>, g: Signal)
    ensures forall e :: e in Dropping(evidence, g) <==> e in evidence && e.signal != g
  {
    if evidence != [] {
      DroppingKeeps(evidence[..|evidence| - 1], g);
      assert evidence == evidence[..|evidence| - 1] + [evidence[|evidence| - 1]];
    }
  }

  // ----- what each operation does to support -----

  /** Recording adds at most the recorded seed, and nothing to a retracted one. */
  lemma RecordSupports(seeds: Seeds, s: Submission, user: Uuid, tenant: Tenant, g: Signal)
    ensures var open := if s.Key() in seeds then seeds[s.Key()].retractedAt.None? && seeds[s.Key()].tenant == tenant
                        else s.tenant == tenant;
      Supporters(Record(seeds, s), user, tenant, g) == Supporters(seeds, user, tenant, g)
        + if s.learns && open && s.user == user && g in s.signals then {s.Key()} else {}
  {
    if s.learns {
      ItemSignals(s);
      RecordedSignals(seeds, s);
      var after := Record(seeds, s);
      assert forall k :: k in seeds && k != s.Key() ==> after[k] == seeds[k];
    }
  }

  lemma RecordedSignals(seeds: Seeds, s: Submission)
    requires s.learns
    ensures var before := if s.Key() in seeds then SignalsOf(seeds[s.Key()].evidence) else {};
      forall g :: g in SignalsOf(Record(seeds, s)[s.Key()].evidence) <==> g in before || g in s.signals
  {
    ItemSignals(s);
    if s.Key() in seeds {
      var evidence := seeds[s.Key()].evidence;
      AddNewEffect(evidence, Items(s));
      SortKeepsSignals(AddNew(evidence, Items(s)));
    }
  }

  /** Recorded evidence is in signal order and contains what was submitted. */
  lemma RecordedEvidence(seeds: Seeds, s: Submission)
    requires s.learns
    ensures var evidence := Record(seeds, s)[s.Key()].evidence;
      StableSort.Ordered(EvidenceLess, evidence) && forall e :: e in Items(s) ==> e in evidence
  {
    EvidenceRanks();
    if s.Key() in seeds {
      var all := AddNew(seeds[s.Key()].evidence, Items(s));
      AddNewEffect(seeds[s.Key()].evidence, Items(s));
      SortKeepsSignals(all);
      StableSort.SortedEffect(EvidenceLess, all);
    } else {
      StableSort.SortedEffect(EvidenceLess,
          seq(|s.signals|, i requires 0 <= i < |s.signals| => Evidence(s.signals[i], s.provenance)));
    }
  }

  lemma RecordsNothingMore(seeds: Seeds, s: Submission)
    requires s.Key() in seeds
    requires var evidence := seeds[s.Key()].evidence;
      StableSort.Ordered(EvidenceLess, evidence) && forall e :: e in Items(s) ==> e in evidence
    ensures Record(seeds, s) == seeds
  {
    AddNothingNew(seeds[s.Key()].evidence, Items(s));
    StableSort.SortedStays(EvidenceLess, seeds[s.Key()].evidence);
  }

  /** Recording a submission again changes nothing. */
  lemma RecordTwiceIsOnce(seeds: Seeds, s: Submission)
    ensures Record(Record(seeds, s), s) == Record(seeds, s)
  {
    if s.learns {
      RecordedEvidence(seeds, s);
      RecordsNothingMore(Record(seeds, s), s);
    }
  }

  lemma ResetSeedSupports(seed: Seed, signal: Option<Signal>, now: Time, tenant: Tenant, g: Signal)
    ensures Supports(ResetSeed(seed, signal, now), tenant, g) <==>
      signal.Some? && signal != Some(g) && Supports(seed, tenant, g)
  {
    if signal.Some? {
      DroppingSignals(seed.evidence, signal.value);
      var left := Dropping(seed.evidence, signal.value);
      assert left == [] ==> SignalsOf(left) == {};
      assert g != signal.value ==> (g in SignalsOf(left) <==> g in SignalsOf(seed.evidence));
    }
  }

  /** Resetting one signal, or all, empties exactly that support of that User and tenant. */
  lemma ResetSupports(seeds: Seeds, owner: Uuid, scope: Tenant, signal: Option<Signal>, now: Time, user: Uuid,
      tenant: Tenant, g: Signal)
    ensures Supporters(Reset(seeds, owner, scope, signal, now), user, tenant, g) ==
      if user == owner && tenant == scope && (signal.None? || signal == Some(g)) then {}
          else Supporters(seeds, user, tenant, g)
  {
    var after := Reset(seeds, owner, scope, signal, now);
    forall k | k in seeds && k.0 == user
      ensures Supports(after[k], tenant, g) <==>
        !(user == owner && tenant == scope && (signal.None? || signal == Some(g))) && Supports(seeds[k], tenant, g)
    {
      ResetSeedSupports(seeds[k], signal, now, tenant, g);
      assert ResetSeed(seeds[k], signal, now).tenant == seeds[k].tenant;
    }
  }

  /** Retracting ends exactly the support of that seed. */
  lemma RetractSupports(seeds: Seeds, owner: Uuid, candidate: Uuid, scope: Tenant, now: Time, user: Uuid,
      tenant: Tenant, g: Signal)
    requires Retracted(seeds, owner, candidate, scope, now).Ok?
    ensures Supporters(Retracted(seeds, owner, candidate, scope, now).value, user, tenant, g)
         == Supporters(seeds, user, tenant, g) - {(owner, candidate)}
  {
  }

  /**
   A reset of one signal retracts a seed exactly when all its evidence is for that signal, so
   also a seed that was recorded without any.
   */
  lemma ResetRetractsExactly(seeds: Seeds, user: Uuid, tenant: Tenant, g: Signal, now: Time, k: SeedKey)
    requires k in seeds && seeds[k].retractedAt.None?
    ensures Reset(seeds, user, tenant, Some(g), now)[k].retractedAt.Some? <==>
      k.0 == user && seeds[k].tenant == tenant && forall e :: e in seeds[k].evidence ==> e.signal == g
  {
    DroppingKeeps(seeds[k].evidence, g);
    var left := Dropping(seeds[k].evidence, g);
    assert left != [] ==> left[0] in left;
  }

  /** A seed recorded without evidence is retracted by the next reset of any one signal. */
  lemma UnrelatedResetRetracts(s: Submission, g: Signal, now: Time)
    requires s.learns && s.signals == []
    ensures var seeds := Record(map[], s);
      && seeds[s.Key()].retractedAt.None?
      && Reset(seeds, s.user, s.tenant, Some(g), now)[s.Key()].retractedAt == Some(now)
  {
    ItemSignals(s);
    var seeds := Record(map[], s);
    var evidence := seeds[s.Key()].evidence;
    assert evidence != [] ==> evidence[0].signal in SignalsOf(evidence);
  }

  // ----- over whole runs -----

  datatype Action =
    | Submit(s: Submission)
    | Retract(user: Uuid, candidate: Uuid, tenant: Tenant, at: Time)
    | ResetTaste(user: Uuid, tenant: Tenant, signal: Option<Signal>, at: Time)

  function Step(seeds: Seeds, a: Action): Seeds {
    match a
    case Submit(s) => Record(seeds, s)
    case Retract(user, candidate, tenant, at) =>
      var r := Retracted(seeds, user, candidate, tenant, at);
      if r.Ok? then r.value else seeds
    case ResetTaste(user, tenant, signal, at) => Reset(seeds, user, tenant, signal, at)
  }

  function Run(seeds: Seeds, actions: seq<Action>): Seeds {
    if actions == [] then seeds else Step(Run(seeds, actions[..|actions| - 1]), actions[|actions| - 1])
  }

  /** Seeds are never removed, keep their tenant, and stay retracted since the same moment. */
  lemma {:induction false} RetractionIsForever(seeds: Seeds, actions: seq<Action>, k: SeedKey)
    requires k in seeds
    ensures var after := Run(seeds, actions);
      && k in after && after[k].tenant == seeds[k].tenant
      && (seeds[k].retractedAt.Some? ==> after[k].retractedAt == seeds[k].retractedAt)
  {
    if actions != [] { RetractionIsForever(seeds, actions[..|actions| - 1], k); }
  }

  /** A retracted seed never supports anything again, whatever is submitted. */
  lemma RetractedNeverSupports(seeds: Seeds, actions: seq<Action>, k: SeedKey, user: Uuid, tenant: Tenant, g: Signal)
    requires k in seeds && seeds[k].retractedAt.Some?
    ensures k !in Supporters(Run(seeds, actions), user, tenant, g)
  {
    RetractionIsForever(seeds, actions, k);
  }

  predicate Teaches(a: Action, k: SeedKey) {
    a.Submit? && a.s.learns && a.s.Key() == k
  }

  /** The tenant of the first submission that taught the seed. */
  function TenantOf(actions: seq<Action>, k: SeedKey): Option<Tenant> {
    if actions == [] then None
    else
      Or(TenantOf(actions[..|actions| - 1], k),
         if Teaches(actions[|actions| - 1], k) then Some(actions[|actions| - 1].s.tenant) else None)
  }

  predicate ResetsSignal(a: Action, user: Uuid, tenant: Tenant, g: Signal) {
    a.ResetTaste? && a.user == user && a.tenant == tenant && a.signal == Some(g)
  }

  /** Action `i` taught `k` the signal, and no reset of it in the seed's scope came later. */
  predicate CarriedFrom(actions: seq<Action>, i: nat, k: SeedKey, tenant: Tenant, g: Signal)
    requires i < |actions|
  {
    && Teaches(actions[i], k) && g in actions[i].s.signals
    && forall j :: i < j < |actions| ==> !ResetsSignal(actions[j], k.0, tenant, g)
  }

  /** Some submission for `k` carries `g`, and it was not reset since. */
  ghost predicate Carried(actions: seq<Action>, k: SeedKey, tenant: Tenant, g: Signal) {
    exists i :: 0 <= i < |actions| && CarriedFrom(actions, i, k, tenant, g)
  }

  lemma CarriedLater(front: seq<Action>, last: Action, i: nat, k: SeedKey, tenant: Tenant, g: Signal)
    requires i < |front|
    ensures CarriedFrom(front + [last], i, k, tenant, g) <==>
      CarriedFrom(front, i, k, tenant, g) && !ResetsSignal(last, k.0, tenant, g)
  {
    var all := front + [last];
    assert all[|front|] == last;
    assert forall j :: 0 <= j < |front| ==> all[j] == front[j];
  }

  lemma CarriedStep(front: seq<Action>, last: Action, k: SeedKey, tenant: Tenant, g: Signal)
    ensures Carried(front + [last], k, tenant, g) <==>
      (Teaches(last, k) && g in last.s.signals) || (Carried(front, k, tenant, g) && !ResetsSignal(last, k.0, tenant, g))
  {
    forall i | 0 <= i < |front|
      ensures CarriedFrom(front + [last], i, k, tenant, g) <==>
        CarriedFrom(front, i, k, tenant, g) && !ResetsSignal(last, k.0, tenant, g)
    {
      CarriedLater(front, last, i, k, tenant, g);
    }
    assert CarriedFrom(front + [last], |front|, k, tenant, g) <==> Teaches(last, k) && g in last.s.signals;
  }

  /** The signals of every seed are those its history says. */
  ghost predicate MatchesHistory(seeds: Seeds, actions: seq<Action>, k: SeedKey) {
    match TenantOf(actions, k)
    case None => k !in seeds && forall g, t :: !Carried(actions, k, t, g)
    case Some(tenant) =>
      && k in seeds && seeds[k].tenant == tenant
      && forall g :: g in SignalsOf(seeds[k].evidence) <==> Carried(actions, k, tenant, g)
  }

  lemma SubmitMatches(seeds: Seeds, front: seq<Action>, s: Submission, k: SeedKey)
    requires MatchesHistory(seeds, front, k)
    ensures MatchesHistory(Record(seeds, s), front + [Submit(s)], k)
  {
    TenantStep(front, Submit(s), k);
    forall g, t ensures Carried(front + [Submit(s)], k, t, g) <==>
      (Teaches(Submit(s), k) && g in s.signals) || Carried(front, k, t, g)
    {
      CarriedStep(front, Submit(s), k, t, g);
    }
    if s.learns && s.Key() == k { RecordedSignals(seeds, s); }
  }

  lemma TenantStep(front: seq<Action>, last: Action, k: SeedKey)
    ensures TenantOf(front + [last], k) ==
        Or(TenantOf(front, k), if Teaches(last, k) then Some(last.s.tenant) else None)
  {
    assert (front + [last])[..|front|] == front;
  }

  lemma RetractMatches(seeds: Seeds, front: seq<Action>, last: Action, k: SeedKey)
    requires MatchesHistory(seeds, front, k) && last.Retract?
    ensures MatchesHistory(Step(seeds, last), front + [last], k)
  {
    TenantStep(front, last, k);
    forall g, t ensures Carried(front + [last], k, t, g) <==> Carried(front, k, t, g) {
      CarriedStep(front, last, k, t, g);
    }
  }

  lemma ResetMatches(seeds: Seeds, front: seq<Action>, last: Action, k: SeedKey)
    requires MatchesHistory(seeds, front, k) && last.ResetTaste?
    ensures MatchesHistory(Step(seeds, last), front + [last], k)
  {
    TenantStep(front, last, k);
    forall g, t
      ensures Carried(front + [last], k, t, g) <==> Carried(front, k, t, g) && !ResetsSignal(last, k.0, t, g)
    {
      CarriedStep(front, last, k, t, g);
    }
    if k in seeds && last.signal.Some? { DroppingSignals(seeds[k].evidence, last.signal.value); }
  }

  /** After any run, a seed carries a signal exactly when it was submitted with it and not reset since. */
  lemma {:induction false} SignalsAreHistory(actions: seq<Action>, k: SeedKey)
    ensures MatchesHistory(Run(map[], actions), actions, k)
  {
    if actions != [] {
      var front, last := actions[..|actions| - 1], actions[|actions| - 1];
      SignalsAreHistory(front, k);
      assert actions == front + [last];
      match last
      case Submit(s) => SubmitMatches(Run(map[], front), front, s, k);
      case Retract(_, _, _, _) => RetractMatches(Run(map[], front), front, last, k);
      case ResetTaste(_, _, _, _) => ResetMatches(Run(map[], front), front, last, k);
    }
  }
}
