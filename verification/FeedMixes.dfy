/** Feed Mix constraints, candidates, and the greedy selection the composer is built from. */
module FeedMixes {
  import opened Wrappers
  import opened StreamLog

  type PodId = nat

  datatype FeedMixError = BadPercentage | TargetTotal | ZeroCap

  datatype FeedMix = FeedMix(highValue: nat, exploration: nat, oldGem: nat, perPod: nat, perSource: nat)

  predicate ValidMix(m: FeedMix) {
    m.highValue + m.exploration + m.oldGem <= 100 && m.perPod >= 1 && m.perSource >= 1
  }

  /** Validated construction: percentages first, then their total, then the caps. */
  function NewMix(highValue: nat, exploration: nat, oldGem: nat, perPod: nat, perSource: nat)
    : (r: Result<FeedMix, FeedMixError>)
    ensures r.Ok? <==> ValidMix(FeedMix(highValue, exploration, oldGem, perPod, perSource))
    ensures r.Ok? ==> ValidMix(r.value)
  {
    if highValue > 100 || exploration > 100 || oldGem > 100 then Err(BadPercentage)
    else if highValue + exploration + oldGem > 100 then Err(TargetTotal)
    else if perPod == 0 || perSource == 0 then Err(ZeroCap)
    else Ok(FeedMix(highValue, exploration, oldGem, perPod, perSource))
  }

  datatype Kind = Subscribed | Exploration | OldGem

  /** A ranked candidate; `score` stands for a totally ordered score, `source` is lower-case. */
  datatype Candidate = Candidate(
    url: string,
    source: string,
    createdAt: int,
    score: int,
    kind: Kind,
    podIds: seq<PodId>,
    priorityPodIds: seq<PodId>,
    reasons: seq<string>)

  const PRIORITY_REASON := "Priority Subscription guaranteed bounded representation"

  /** The candidate without its explanation. */
  function Core(c: Candidate): Candidate { c.(reasons := []) }

  function Stripped(cs: seq<Candidate>): seq<Candidate> {
    seq(|cs|, i requires 0 <= i < |cs| => Core(cs[i]))
  }

  function Cores(cs: seq<Candidate>): multiset<Candidate> { multiset(Stripped(cs)) }

  // ----- the running selection -----

  datatype Selection = Selection(selected: seq<Candidate>, podCounts: map<PodId, nat>, sourceCounts: map<string, nat>)

  const NOTHING := Selection([], map[], map[])

  function PodCount(counts: map<PodId, nat>, p: PodId): nat {
    if p in counts then counts[p] else 0
  }

  function SourceCount(counts: map<string, nat>, source: string): nat {
    if source in counts then counts[source] else 0
  }

  function CountPods(counts: map<PodId, nat>, podIds: seq<PodId>): map<PodId, nat> {
    if podIds == [] then counts
    else
      var before := CountPods(counts, podIds[..|podIds| - 1]);
      before[podIds[|podIds| - 1] := PodCount(before, podIds[|podIds| - 1]) + 1]
  }

  predicate CanSelect(sel: Selection, c: Candidate, mix: FeedMix) {
    && SourceCount(sel.sourceCounts, c.source) < mix.perSource
    && c.podIds != []
    && forall p :: p in c.podIds ==> PodCount(sel.podCounts, p) < mix.perPod
  }

  function Push(sel: Selection, c: Candidate): Selection {
    Selection(sel.selected + [c], CountPods(sel.podCounts, c.podIds),
              sel.sourceCounts[c.source := SourceCount(sel.sourceCounts, c.source) + 1])
  }

  /** The selection the composer mutates. */
  class SelectionState {
    var selected: seq<Candidate>
    var podCounts: map<PodId, nat>
    var sourceCounts: map<string, nat>

    constructor ()
      ensures View() == NOTHING
    {
      selected, podCounts, sourceCounts := [], map[], map[];
    }

    function View(): Selection
      reads this
    {
      Selection(selected, podCounts, sourceCounts)
    }

    method PushCandidate(c: Candidate)
      modifies this
      ensures View() == Push(old(View()), c)
    {
      for i := 0 to |c.podIds|
        invariant podCounts == CountPods(old(podCounts), c.podIds[..i])
        invariant selected == old(selected) && sourceCounts == old(sourceCounts)
      {
        assert c.podIds[..i + 1][..i] == c.podIds[..i];
        podCounts := podCounts[c.podIds[i] := PodCount(podCounts, c.podIds[i]) + 1];
      }
      assert c.podIds[..|c.podIds|] == c.podIds;
      sourceCounts := sourceCounts[c.source := SourceCount(sourceCounts, c.source) + 1];
      selected := selected + [c];
    }
  }

  // ----- counters against what was selected -----

  function Occurrences(p: PodId, podIds: seq<PodId>): nat {
    if podIds == [] then 0
    else Occurrences(p, podIds[..|podIds| - 1]) + if podIds[|podIds| - 1] == p then 1 else 0
  }

  /** How often `p` is listed by the selected items, repeated listings included. */
  function Listings(p: PodId, cs: seq<Candidate>): nat {
    if cs == [] then 0 else Listings(p, cs[..|cs| - 1]) + Occurrences(p, cs[|cs| - 1].podIds)
  }

  /** How many selected items are attributed to Pod `p`. */
  function PodItems(p: PodId, cs: seq<Candidate>): nat {
    if cs == [] then 0 else PodItems(p, cs[..|cs| - 1]) + if p in cs[|cs| - 1].podIds then 1 else 0
  }

  function SourceItems(source: string, cs: seq<Candidate>): nat {
    if cs == [] then 0 else SourceItems(source, cs[..|cs| - 1]) + if cs[|cs| - 1].source == source then 1 else 0
  }

  lemma {:induction false} CountPodsCounts(counts: map<PodId, nat>, podIds: seq<PodId>, p: PodId)
    ensures PodCount(CountPods(counts, podIds), p) == PodCount(counts, p) + Occurrences(p, podIds)
  {
    if podIds != [] { CountPodsCounts(counts, podIds[..|podIds| - 1], p); }
  }

  lemma {:induction false} OccursWhenListed(p: PodId, podIds: seq<PodId>)
    ensures Occurrences(p, podIds) > 0 <==> p in podIds
  {
    if podIds != [] {
      OccursWhenListed(p, podIds[..|podIds| - 1]);
      assert podIds == podIds[..|podIds| - 1] + [podIds[|podIds| - 1]];
    }
  }

  /** Counters are exact for sources, count listings for Pods, and no cap is exceeded. */
  ghost predicate Balanced(sel: Selection, mix: FeedMix) {
    && (forall s :: SourceCount(sel.sourceCounts, s) == SourceItems(s, sel.selected) <= mix.perSource)
    && (forall p :: PodCount(sel.podCounts, p) == Listings(p, sel.selected) >= PodItems(p, sel.selected))
    && (forall p :: PodItems(p, sel.selected) <= mix.perPod)
  }

  lemma NothingIsBalanced(mix: FeedMix)
    ensures Balanced(NOTHING, mix)
  {
  }

  lemma PushKeepsBalanced(sel: Selection, c: Candidate, mix: FeedMix)
    requires Balanced(sel, mix) && CanSelect(sel, c, mix)
    ensures Balanced(Push(sel, c), mix)
  {
    var t := Push(sel, c);
    assert t.selected[..|t.selected| - 1] == sel.selected;
    forall p
      ensures PodCount(t.podCounts, p) == Listings(p, t.selected) >= PodItems(p, t.selected)
      ensures PodItems(p, t.selected) <= mix.perPod
    {
      CountPodsCounts(sel.podCounts, c.podIds, p);
      OccursWhenListed(p, c.podIds);
    }
  }

  // ----- what holds a candidate back -----

  /** It has no Pods, or `items` have as many of its source, or list one of its Pods as often, as the cap allows. */
  predicate HeldBack(c: Candidate, items: seq<Candidate>, mix: FeedMix) {
    || c.podIds == []
    || SourceItems(c.source, items) >= mix.perSource
    || exists p :: p in c.podIds && Listings(p, items) >= mix.perPod
  }

  /** The counters refuse a candidate exactly when the selected items hold it back. */
  lemma CanSelectExactly(sel: Selection, c: Candidate, mix: FeedMix)
    requires Balanced(sel, mix)
    ensures CanSelect(sel, c, mix) <==> !HeldBack(c, sel.selected, mix)
  {
    assert SourceCount(sel.sourceCounts, c.source) == SourceItems(c.source, sel.selected);
    assert forall p :: PodCount(sel.podCounts, p) == Listings(p, sel.selected);
  }

  predicate AllHeldBack(cs: seq<Candidate>, items: seq<Candidate>, mix: FeedMix) {
    forall c :: c in cs ==> HeldBack(c, items, mix)
  }

  lemma BlockedAreHeldBack(sel: Selection, cs: seq<Candidate>, mix: FeedMix)
    requires Balanced(sel, mix)
    ensures AllBlocked(sel, cs, mix) <==> AllHeldBack(cs, sel.selected, mix)
  {
    forall c | c in cs ensures CanSelect(sel, c, mix) <==> !HeldBack(c, sel.selected, mix) {
      CanSelectExactly(sel, c, mix);
    }
  }

  // ----- once blocked, always blocked -----

  /** `t` extends `s`: the same items first, and counters at least as high. */
  ghost predicate Grows(s: Selection, t: Selection) {
    && s.selected <= t.selected
    && (forall p :: PodCount(s.podCounts, p) <= PodCount(t.podCounts, p))
    && (forall x :: SourceCount(s.sourceCounts, x) <= SourceCount(t.sourceCounts, x))
  }

  lemma PushGrows(sel: Selection, c: Candidate)
    ensures Grows(sel, Push(sel, c))
  {
    forall p ensures PodCount(sel.podCounts, p) <= PodCount(Push(sel, c).podCounts, p) {
      CountPodsCounts(sel.podCounts, c.podIds, p);
    }
  }

  lemma GrowsTrans(s: Selection, t: Selection, u: Selection)
    requires Grows(s, t) && Grows(t, u)
    ensures Grows(s, u)
  {
  }

  /** Every candidate of `cs` is without Pods or held back by a cap. */
  predicate AllBlocked(sel: Selection, cs: seq<Candidate>, mix: FeedMix) {
    forall c :: c in cs ==> !CanSelect(sel, c, mix)
  }

  lemma BlockedStays(s: Selection, t: Selection, c: Candidate, mix: FeedMix)
    requires Grows(s, t) && !CanSelect(s, c, mix)
    ensures !CanSelect(t, c, mix)
  {
    if c.podIds != [] && SourceCount(s.sourceCounts, c.source) < mix.perSource {
      var p :| p in c.podIds && PodCount(s.podCounts, p) >= mix.perPod;
      assert PodCount(t.podCounts, p) >= mix.perPod;
    }
  }

  // ----- first fit -----

  datatype Fit = Fit(sel: Selection, rest: seq<Candidate>)

  /** Takes candidates in order while they fit and fewer than `limit` were taken. */
  function FirstFit(sel: Selection, cs: seq<Candidate>, limit: nat, mix: FeedMix): Fit
    decreases |cs|
  {
    if cs == [] || limit == 0 then Fit(sel, cs)
    else if CanSelect(sel, cs[0], mix) then FirstFit(Push(sel, cs[0]), cs[1..], limit - 1, mix)
    else
      var r := FirstFit(sel, cs[1..], limit, mix);
      Fit(r.sel, [cs[0]] + r.rest)
  }

  lemma CoresAppend(xs: seq<Candidate>, ys: seq<Candidate>)
    ensures Cores(xs + ys) == Cores(xs) + Cores(ys)
  {
    assert Stripped(xs + ys) == Stripped(xs) + Stripped(ys);
  }

  lemma CoresSnoc(cs: seq<Candidate>, c: Candidate)
    ensures Cores(cs + [c]) == Cores(cs) + multiset{Core(c)}
  {
    assert Stripped(cs + [c]) == Stripped(cs) + [Core(c)];
  }

  lemma CoresCons(c: Candidate, cs: seq<Candidate>)
    ensures Cores([c] + cs) == multiset{Core(c)} + Cores(cs)
  {
    assert Stripped([c] + cs) == [Core(c)] + Stripped(cs);
  }

  /** Selected and remaining candidates together are what they were, up to explanations. */
  predicate Conserves(sel: Selection, cs: seq<Candidate>, t: Selection, rest: seq<Candidate>) {
    Cores(t.selected) + Cores(rest) == Cores(sel.selected) + Cores(cs)
  }

  lemma AddLeft<T>(x: multiset<T>, a: multiset<T>, b: multiset<T>, c: multiset<T>, d: multiset<T>)
    requires a + b == c + d
    ensures a + (x + b) == c + (x + d)
  {
    assert a + (x + b) == x + (a + b) && c + (x + d) == x + (c + d);
  }

  lemma TakeConserves(sel: Selection, c: Candidate, cs: seq<Candidate>, t: Selection, rest: seq<Candidate>)
    requires Conserves(Push(sel, c), cs, t, rest)
    ensures Conserves(sel, [c] + cs, t, rest)
  {
    CoresCons(c, cs);
    CoresSnoc(sel.selected, c);
  }

  lemma SkipConserves(sel: Selection, c: Candidate, cs: seq<Candidate>, t: Selection, rest: seq<Candidate>)
    requires Conserves(sel, cs, t, rest)
    ensures Conserves(sel, [c] + cs, t, [c] + rest)
  {
    CoresCons(c, cs);
    CoresCons(c, rest);
    AddLeft(multiset{Core(c)}, Cores(t.selected), Cores(rest), Cores(sel.selected), Cores(cs));
  }

  lemma {:induction false} FirstFitConserves(sel: Selection, cs: seq<Candidate>, limit: nat, mix: FeedMix)
    ensures var r := FirstFit(sel, cs, limit, mix);
      Conserves(sel, cs, r.sel, r.rest)
    decreases |cs|
  {
    if cs != [] && limit > 0 {
      assert cs == [cs[0]] + cs[1..];
      if CanSelect(sel, cs[0], mix) {
        FirstFitConserves(Push(sel, cs[0]), cs[1..], limit - 1, mix);
        var r := FirstFit(Push(sel, cs[0]), cs[1..], limit - 1, mix);
        TakeConserves(sel, cs[0], cs[1..], r.sel, r.rest);
      } else {
        FirstFitConserves(sel, cs[1..], limit, mix);
        var r := FirstFit(sel, cs[1..], limit, mix);
        SkipConserves(sel, cs[0], cs[1..], r.sel, r.rest);
      }
    }
  }

  lemma {:induction false} FirstFitRemainder(sel: Selection, cs: seq<Candidate>, limit: nat, mix: FeedMix)
    ensures forall c :: c in FirstFit(sel, cs, limit, mix).rest ==> c in cs
    decreases |cs|
  {
    if cs != [] && limit > 0 {
      if CanSelect(sel, cs[0], mix) {
        FirstFitRemainder(Push(sel, cs[0]), cs[1..], limit - 1, mix);
      } else {
        FirstFitRemainder(sel, cs[1..], limit, mix);
      }
    }
  }

  /** Caps are kept and nothing selected before is lost. */
  lemma {:induction false} FirstFitGrows(sel: Selection, cs: seq<Candidate>, limit: nat, mix: FeedMix)
    requires Balanced(sel, mix)
    ensures var t := FirstFit(sel, cs, limit, mix).sel;
      Balanced(t, mix) && Grows(sel, t)
    decreases |cs|
  {
    if cs != [] && limit > 0 {
      if CanSelect(sel, cs[0], mix) {
        var next := Push(sel, cs[0]);
        PushKeepsBalanced(sel, cs[0], mix);
        PushGrows(sel, cs[0]);
        FirstFitGrows(next, cs[1..], limit - 1, mix);
        GrowsTrans(sel, next, FirstFit(next, cs[1..], limit - 1, mix).sel);
      } else {
        FirstFitGrows(sel, cs[1..], limit, mix);
      }
    }
  }

  /** The pass stops at its limit, or with everything left blocked. */
  lemma {:induction false} FirstFitStops(sel: Selection, cs: seq<Candidate>, limit: nat, mix: FeedMix)
    requires Balanced(sel, mix)
    ensures var r := FirstFit(sel, cs, limit, mix);
      && |r.sel.selected| <= |sel.selected| + limit
      && (|r.sel.selected| == |sel.selected| + limit || AllBlocked(r.sel, r.rest, mix))
    decreases |cs|
  {
    if cs != [] && limit > 0 {
      if CanSelect(sel, cs[0], mix) {
        PushKeepsBalanced(sel, cs[0], mix);
        FirstFitStops(Push(sel, cs[0]), cs[1..], limit - 1, mix);
      } else {
        FirstFitStops(sel, cs[1..], limit, mix);
        FirstFitGrows(sel, cs[1..], limit, mix);
        BlockedStays(sel, FirstFit(sel, cs[1..], limit, mix).sel, cs[0], mix);
      }
    }
  }

  lemma FirstFitEffect(sel: Selection, cs: seq<Candidate>, limit: nat, mix: FeedMix)
    requires Balanced(sel, mix)
    ensures var r := FirstFit(sel, cs, limit, mix);
      && Balanced(r.sel, mix) && Grows(sel, r.sel)
      && |r.sel.selected| <= |sel.selected| + limit
      && (|r.sel.selected| == |sel.selected| + limit || AllBlocked(r.sel, r.rest, mix))
      && (|r.sel.selected| == |sel.selected| + limit || AllHeldBack(r.rest, r.sel.selected, mix))
  {
    FirstFitGrows(sel, cs, limit, mix);
    FirstFitStops(sel, cs, limit, mix);
    BlockedAreHeldBack(FirstFit(sel, cs, limit, mix).sel, FirstFit(sel, cs, limit, mix).rest, mix);
  }

  /** One more candidate at the end is decided by the selection the earlier ones led to. */
  lemma {:induction false} FirstFitOneMore(sel: Selection, cs: seq<Candidate>, c: Candidate, limit: nat, mix: FeedMix)
    ensures var r := FirstFit(sel, cs, limit, mix);
      FirstFit(sel, cs + [c], limit, mix) ==
        if |r.sel.selected| < |sel.selected| + limit && CanSelect(r.sel, c, mix) then Fit(Push(r.sel, c), r.rest)
        else Fit(r.sel, r.rest + [c])
    decreases |cs|
  {
    if cs == [] || limit == 0 {
      assert cs == [] ==> cs + [c] == [c] && [c][1..] == [];
    } else {
      var more := cs + [c];
      assert more[0] == cs[0] && more[1..] == cs[1..] + [c];
      if CanSelect(sel, cs[0], mix) {
        FirstFitOneMore(Push(sel, cs[0]), cs[1..], c, limit - 1, mix);
      } else {
        FirstFitOneMore(sel, cs[1..], c, limit, mix);
        FirstRest(cs[0], FirstFit(sel, cs[1..], limit, mix).rest, c);
      }
    }
  }

  lemma FirstRest(a: Candidate, rest: seq<Candidate>, c: Candidate)
    ensures [a] + (rest + [c]) == ([a] + rest) + [c]
  {
  }

  /** The in-place scan: an index over the vector, with removal of what is taken. */
  method SelectCandidates(state: SelectionState, candidates: seq<Candidate>, limit: nat, mix: FeedMix)
    returns (remaining: seq<Candidate>)
    modifies state
    ensures Fit(state.View(), remaining) == FirstFit(old(state.View()), candidates, limit, mix)
  {
    remaining := candidates;
    var index := 0;
    var initial := |state.selected|;
    ghost var goal := FirstFit(state.View(), candidates, limit, mix);
    while index < |remaining| && |state.selected| - initial < limit
      invariant 0 <= index <= |remaining|
      invariant initial <= |state.selected| <= initial + limit
      invariant goal == Passed(remaining[..index],
          FirstFit(state.View(), remaining[index..], limit - (|state.selected| - initial), mix))
      decreases |remaining| - index
    {
      var c := remaining[index];
      assert remaining[index..][0] == c && remaining[index..][1..] == remaining[index + 1..];
      if !CanSelect(state.View(), c, mix) {
        PassOver(remaining, index,
            FirstFit(state.View(), remaining[index + 1..], limit - (|state.selected| - initial), mix));
        index := index + 1;
      } else {
        TakeOut(remaining, index);
        remaining := remaining[..index] + remaining[index + 1..];
        state.PushCandidate(c);
      }
    }
    assert remaining[..index] + remaining[index..] == remaining;
  }

  /** A fit whose remainder comes after candidates already passed over. */
  ghost function Passed(before: seq<Candidate>, r: Fit): Fit { Fit(r.sel, before + r.rest) }

  lemma PassOver(cs: seq<Candidate>, i: nat, r: Fit)
    requires i < |cs|
    ensures Passed(cs[..i], Fit(r.sel, [cs[i]] + r.rest)) == Passed(cs[..i + 1], r)
  {
    assert cs[..i] + ([cs[i]] + r.rest) == cs[..i + 1] + r.rest;
  }

  lemma TakeOut(cs: seq<Candidate>, i: nat)
    requires i < |cs|
    ensures var t := cs[..i] + cs[i + 1..];
      t[..i] == cs[..i] && t[i..] == cs[i + 1..]
  {
  }

  // ----- priority representation -----

  function IdSet(ids: seq<PodId>): set<PodId> {
    set p | p in ids
  }

  /** Every Pod named as a priority by some candidate. */
  function PriorityPods(cs: seq<Candidate>): set<PodId> {
    if cs == [] then {} else PriorityPods(cs[..|cs| - 1]) + IdSet(cs[|cs| - 1].priorityPodIds)
  }

  /** Some candidate names the Pod as a priority. */
  predicate IsPriority(cs: seq<Candidate>, p: PodId) { exists c :: c in cs && p in c.priorityPodIds }

  lemma {:induction false} PriorityPodsExactly(cs: seq<Candidate>, p: PodId)
    ensures p in PriorityPods(cs) <==> IsPriority(cs, p)
  {
    if cs != [] {
      var front, last := cs[..|cs| - 1], cs[|cs| - 1];
      PriorityPodsExactly(front, p);
      assert cs == front + [last];
      assert last in cs;
    }
  }

  /** A set of ids in ascending order, each once. */
  function Ascending(ids: set<PodId>): (r: seq<PodId>)
    ensures forall p :: p in r <==> p in ids
    ensures forall i, j :: 0 <= i < j < |r| ==> r[i] < r[j]
    decreases |ids|
  {
    if ids == {} then []
    else
      var rest := Ascending(ids - {Least(ids)});
      assert forall i :: 0 <= i < |rest| ==> rest[i] in rest;
      [Least(ids)] + rest
  }

  /** The first selectable candidate that names `p` as a priority. */
  function FirstFor(sel: Selection, cs: seq<Candidate>, p: PodId, mix: FeedMix): (r: Option<nat>)
    ensures r.Some? ==> r.value < |cs| && p in cs[r.value].priorityPodIds && CanSelect(sel, cs[r.value], mix)
    ensures r.Some? ==> forall j :: 0 <= j < r.value ==> !(p in cs[j].priorityPodIds && CanSelect(sel, cs[j], mix))
    ensures r.None? ==> forall c :: c in cs && p in c.priorityPodIds ==> !CanSelect(sel, c, mix)
  {
    if cs == [] then None
    else if p in cs[0].priorityPodIds && CanSelect(sel, cs[0], mix) then Some(0)
    else
      match FirstFor(sel, cs[1..], p, mix)
      case None => None
      case Some(i) => Some(i + 1)
  }

  function Explained(c: Candidate): Candidate { c.(reasons := c.reasons + [PRIORITY_REASON]) }

  function Without(cs: seq<Candidate>, i: nat): seq<Candidate>
    requires i < |cs|
  {
    cs[..i] + cs[i + 1..]
  }

  datatype Pass = Pass(sel: Selection, rest: seq<Candidate>, represented: set<PodId>, chosen: nat)

  /** One priority Pod's turn. */
  function Represent(x: Pass, p: PodId, limit: nat, mix: FeedMix): Pass {
    if x.chosen >= limit || p in x.represented then x
    else
      match FirstFor(x.sel, x.rest, p, mix)
      case None => x
      case Some(i) =>
        var c := Explained(x.rest[i]);
        Pass(Push(x.sel, c), Without(x.rest, i), x.represented + IdSet(c.priorityPodIds), x.chosen + 1)
  }

  function RepresentAll(x: Pass, pods: seq<PodId>, limit: nat, mix: FeedMix): Pass {
    if pods == [] then x else Represent(RepresentAll(x, pods[..|pods| - 1], limit, mix), pods[|pods| - 1], limit, mix)
  }

  function PriorityPass(sel: Selection, cs: seq<Candidate>, limit: nat, mix: FeedMix): Pass {
    RepresentAll(Pass(sel, cs, {}, 0), Ascending(PriorityPods(cs)), limit, mix)
  }

  lemma NextTurn(x: Pass, pods: seq<PodId>, i: nat, limit: nat, mix: FeedMix)
    requires i < |pods|
    ensures RepresentAll(x, pods[..i + 1], limit, mix) ==
      Represent(RepresentAll(x, pods[..i], limit, mix), pods[i], limit, mix)
  {
    assert pods[..i + 1][..i] == pods[..i];
  }

  lemma TurnTakes(x: Pass, p: PodId, i: nat, limit: nat, mix: FeedMix)
    requires x.chosen < limit && p !in x.represented && FirstFor(x.sel, x.rest, p, mix) == Some(i)
    ensures i < |x.rest|
    ensures var c := Explained(x.rest[i]);
      Represent(x, p, limit, mix) ==
        Pass(Push(x.sel, c), x.rest[..i] + x.rest[i + 1..], x.represented + IdSet(c.priorityPodIds), x.chosen + 1)
  {
  }

  lemma TurnPasses(x: Pass, p: PodId, limit: nat, mix: FeedMix)
    requires x.chosen >= limit || p in x.represented || FirstFor(x.sel, x.rest, p, mix).None?
    ensures Represent(x, p, limit, mix) == x
  {
  }

  method SelectPriorityCandidates(state: SelectionState, candidates: seq<Candidate>, limit: nat, mix: FeedMix)
    returns (remaining: seq<Candidate>)
    modifies state
    ensures var r := PriorityPass(old(state.View()), candidates, limit, mix);
      state.View() == r.sel && remaining == r.rest
  {
    var pods := Ascending(PriorityPods(candidates));
    var represented: set<PodId> := {};
    var chosen := 0;
    remaining := candidates;
    ghost var start := Pass(state.View(), candidates, {}, 0);
    for i := 0 to |pods|
      invariant Pass(state.View(), remaining, represented, chosen) == RepresentAll(start, pods[..i], limit, mix)
    {
      ghost var before := Pass(state.View(), remaining, represented, chosen);
      NextTurn(start, pods, i, limit, mix);
      if chosen < limit && pods[i] !in represented {
        var index := FirstFor(state.View(), remaining, pods[i], mix);
        if index.None? {
          TurnPasses(before, pods[i], limit, mix);
        } else {
          TurnTakes(before, pods[i], index.value, limit, mix);
          var c := Explained(remaining[index.value]);
          remaining := remaining[..index.value] + remaining[index.value + 1..];
          represented := represented + IdSet(c.priorityPodIds);
          state.PushCandidate(c);
          chosen := chosen + 1;
        }
      } else {
        TurnPasses(before, pods[i], limit, mix);
      }
    }
    assert pods[..|pods|] == pods;
  }

  /** `p` is named by a selected item, or every candidate that could name it is blocked. */
  predicate Served(sel: Selection, rest: seq<Candidate>, p: PodId, mix: FeedMix) {
    || (exists c :: c in sel.selected && p in c.priorityPodIds)
    || (forall c :: c in rest && p in c.priorityPodIds ==> !CanSelect(sel, c, mix))
  }

  /** A served Pod stays served by a larger selection over fewer candidates. */
  lemma ServedStays(s: Selection, rest: seq<Candidate>, t: Selection, fewer: seq<Candidate>, p: PodId, mix: FeedMix)
    requires Served(s, rest, p, mix) && Grows(s, t)
    requires forall c :: c in fewer && p in c.priorityPodIds ==> c in rest
    ensures Served(t, fewer, p, mix)
  {
    if c :| c in s.selected && p in c.priorityPodIds {
      assert c in t.selected;
    } else {
      forall c | c in fewer && p in c.priorityPodIds ensures !CanSelect(t, c, mix) {
        BlockedStays(s, t, c, mix);
      }
    }
  }

  /** What every turn of the priority pass keeps. */
  ghost predicate PassInv(x: Pass, sel: Selection, cs: seq<Candidate>, limit: nat, mix: FeedMix) {
    && Balanced(x.sel, mix) && Grows(sel, x.sel)
    && |x.sel.selected| == |sel.selected| + x.chosen && x.chosen <= limit
    && Conserves(sel, cs, x.sel, x.rest)
    && (forall c :: c in x.rest ==> c in cs)
    && (forall p :: p in x.represented ==> exists c :: c in x.sel.selected && p in c.priorityPodIds)
  }

  lemma WithoutCores(cs: seq<Candidate>, i: nat)
    requires i < |cs|
    ensures Cores(cs) == multiset{Core(cs[i])} + Cores(Without(cs, i))
  {
    var before, after := Stripped(cs)[..i], Stripped(cs)[i + 1..];
    assert Stripped(cs) == before + [Core(cs[i])] + after;
    assert Stripped(Without(cs, i)) == before + after;
  }

  lemma WithoutIsFewer(cs: seq<Candidate>, i: nat)
    requires i < |cs|
    ensures forall c :: c in Without(cs, i) ==> c in cs
  {
  }

  lemma ChooseConserves(x: Selection, rest: seq<Candidate>, i: nat)
    requires i < |rest|
    ensures Conserves(x, rest, Push(x, Explained(rest[i])), Without(rest, i))
  {
    WithoutCores(rest, i);
    CoresSnoc(x.selected, Explained(rest[i]));
    assert Core(Explained(rest[i])) == Core(rest[i]);
  }

  lemma ChooseKeepsInv(x: Pass, i: nat, sel: Selection, cs: seq<Candidate>, limit: nat, mix: FeedMix)
    requires PassInv(x, sel, cs, limit, mix) && x.chosen < limit
    requires i < |x.rest| && CanSelect(x.sel, x.rest[i], mix)
    ensures var c := Explained(x.rest[i]);
      PassInv(Pass(Push(x.sel, c), Without(x.rest, i), x.represented + IdSet(c.priorityPodIds), x.chosen + 1), sel,
          cs, limit, mix)
  {
    var c := Explained(x.rest[i]);
    PushKeepsBalanced(x.sel, c, mix);
    PushGrows(x.sel, c);
    GrowsTrans(sel, x.sel, Push(x.sel, c));
    WithoutIsFewer(x.rest, i);
    ChooseConserves(x.sel, x.rest, i);
    var t := Push(x.sel, c).selected;
    assert t[|t| - 1] == c && forall d :: d in x.sel.selected ==> d in t;
  }

  /** What one turn adds: a larger selection over fewer candidates. */
  ghost predicate Extends(x: Pass, y: Pass) {
    Grows(x.sel, y.sel) && (forall c :: c in y.rest ==> c in x.rest) && x.chosen <= y.chosen
  }

  lemma RepresentKeeps(x: Pass, p: PodId, sel: Selection, cs: seq<Candidate>, limit: nat, mix: FeedMix)
    requires PassInv(x, sel, cs, limit, mix)
    ensures var y := Represent(x, p, limit, mix);
      && PassInv(y, sel, cs, limit, mix) && Extends(x, y)
      && (y.chosen == limit || Served(y.sel, y.rest, p, mix))
  {
    if x.chosen < limit && p !in x.represented {
      var index := FirstFor(x.sel, x.rest, p, mix);
      if index.Some? {
        var c := Explained(x.rest[index.value]);
        ChooseKeepsInv(x, index.value, sel, cs, limit, mix);
        PushGrows(x.sel, c);
        WithoutIsFewer(x.rest, index.value);
        assert c in Push(x.sel, c).selected;
      }
    }
  }

  predicate AllServed(x: Pass, pods: seq<PodId>, mix: FeedMix) {
    forall p :: p in pods ==> Served(x.sel, x.rest, p, mix)
  }

  lemma AllServedStays(x: Pass, y: Pass, pods: seq<PodId>, mix: FeedMix)
    requires Extends(x, y) && AllServed(x, pods, mix)
    ensures AllServed(y, pods, mix)
  {
    forall p | p in pods ensures Served(y.sel, y.rest, p, mix) {
      ServedStays(x.sel, x.rest, y.sel, y.rest, p, mix);
    }
  }

  lemma AllServedSnoc(x: Pass, pods: seq<PodId>, q: PodId, mix: FeedMix)
    requires AllServed(x, pods, mix) && Served(x.sel, x.rest, q, mix)
    ensures AllServed(x, pods + [q], mix)
  {
  }

  lemma TurnServes(x: Pass, pods: seq<PodId>, q: PodId, sel: Selection, cs: seq<Candidate>, limit: nat, mix: FeedMix)
    requires PassInv(x, sel, cs, limit, mix) && (x.chosen == limit || AllServed(x, pods, mix))
    ensures var y := Represent(x, q, limit, mix);
      PassInv(y, sel, cs, limit, mix) && (y.chosen == limit || AllServed(y, pods + [q], mix))
  {
    RepresentKeeps(x, q, sel, cs, limit, mix);
    var y := Represent(x, q, limit, mix);
    if y.chosen != limit {
      AllServedStays(x, y, pods, mix);
      AllServedSnoc(y, pods, q, mix);
    }
  }

  /** After the pass: the limit was reached, or every priority Pod is served. */
  lemma {:induction false} RepresentAllServes(x: Pass, pods: seq<PodId>, sel: Selection, cs: seq<Candidate>,
      limit: nat, mix: FeedMix)
    requires PassInv(x, sel, cs, limit, mix)
    ensures var y := RepresentAll(x, pods, limit, mix);
      && PassInv(y, sel, cs, limit, mix)
      && (y.chosen == limit || AllServed(y, pods, mix))
  {
    if pods != [] {
      var front, q := pods[..|pods| - 1], pods[|pods| - 1];
      RepresentAllServes(x, front, sel, cs, limit, mix);
      TurnServes(RepresentAll(x, front, limit, mix), front, q, sel, cs, limit, mix);
      assert pods == front + [q];
    }
  }

  lemma PriorityPassEffect(sel: Selection, cs: seq<Candidate>, limit: nat, mix: FeedMix)
    requires Balanced(sel, mix)
    ensures var r := PriorityPass(sel, cs, limit, mix);
      && PassInv(r, sel, cs, limit, mix)
      && (r.chosen == limit || forall p :: IsPriority(cs, p) ==> Served(r.sel, r.rest, p, mix))
  {
    forall p ensures p in PriorityPods(cs) <==> IsPriority(cs, p) { PriorityPodsExactly(cs, p); }
    RepresentAllServes(Pass(sel, cs, {}, 0), Ascending(PriorityPods(cs)), sel, cs, limit, mix);
  }
}
