/** Which items the priority pass picks, in which order, and how they are marked. */
module FeedPriorities {
  import opened FeedMixes
  import opened FeedComposer
  import StableSort

  /**
   Item `i`, the first `base` items aside, is an offered candidate with the reason added, and
   represents one of `pods` that no item before it does.
   */
  ghost predicate RepresentsNew(items: seq<Candidate>, base: nat, i: nat, pods: seq<PodId>, cs: seq<Candidate>)
    requires base <= i < |items|
  {
    && (exists c :: c in cs && items[i] == c.(reasons := c.reasons + [PRIORITY_REASON]))
    && (exists p :: p in pods && p in items[i].priorityPodIds
          && forall j :: base <= j < i ==> p !in items[j].priorityPodIds)
  }

  /** What holds after the turns of `pods`, of which the first `m` were needed. */
  ghost predicate TurnsInv(x: Pass, base: nat, pods: seq<PodId>, m: nat, cs: seq<Candidate>, limit: nat, mix: FeedMix) {
    && m <= |pods| && base <= |x.sel.selected|
    && (m == |pods| || x.chosen >= limit)
    && AllServed(x, pods[..m], mix)
    && (forall c :: c in x.rest ==> c in cs)
    && (forall i :: base <= i < |x.sel.selected| ==> RepresentsNew(x.sel.selected, base, i, pods[..m], cs))
    && Records(x, base)
  }

  lemma MorePods(items: seq<Candidate>, more: seq<Candidate>, base: nat, i: nat, pods: seq<PodId>, wider: seq<PodId>,
      cs: seq<Candidate>)
    requires base <= i < |items| && items <= more && forall p :: p in pods ==> p in wider
    requires RepresentsNew(items, base, i, pods, cs)
    ensures RepresentsNew(more, base, i, wider, cs)
  {
    var p :| p in pods && p in items[i].priorityPodIds && forall j :: base <= j < i ==> p !in items[j].priorityPodIds;
    assert p in wider && p in more[i].priorityPodIds;
  }

  /** The item chosen for `p` represents it first. */
  lemma ChosenIsNew(x: Pass, p: PodId, index: nat, base: nat, pods: seq<PodId>, cs: seq<Candidate>)
    requires index < |x.rest| && p in x.rest[index].priorityPodIds && x.rest[index] in cs && p in pods
    requires base <= |x.sel.selected| && p !in x.represented
    requires forall i, q :: base <= i < |x.sel.selected| && q in x.sel.selected[i].priorityPodIds ==> q in x.represented
    ensures RepresentsNew(x.sel.selected + [Explained(x.rest[index])], base, |x.sel.selected|, pods, cs)
  {
    var items := x.sel.selected + [Explained(x.rest[index])];
    assert items[|x.sel.selected|] == Explained(x.rest[index]);
    forall j | base <= j < |x.sel.selected| ensures p !in items[j].priorityPodIds {
      assert items[j] == x.sel.selected[j];
    }
  }

  /** Every item of the priority pass stays new, and so is the one this turn picks. */
  lemma TurnStaysNew(x: Pass, base: nat, front: seq<PodId>, p: PodId, cs: seq<Candidate>, limit: nat, mix: FeedMix)
    requires TurnsInv(x, base, front, |front|, cs, limit, mix)
    ensures var y := Represent(x, p, limit, mix);
      forall i :: base <= i < |y.sel.selected| ==> RepresentsNew(y.sel.selected, base, i, front + [p], cs)
  {
    var y := Represent(x, p, limit, mix);
    assert front[..|front|] == front && x.sel.selected <= y.sel.selected;
    forall i | base <= i < |x.sel.selected| ensures RepresentsNew(y.sel.selected, base, i, front + [p], cs) {
      MorePods(x.sel.selected, y.sel.selected, base, i, front, front + [p], cs);
    }
    if x.chosen < limit && p !in x.represented && FirstFor(x.sel, x.rest, p, mix).Some? {
      var index := FirstFor(x.sel, x.rest, p, mix).value;
      assert x.rest[index] in x.rest;
      ChosenIsNew(x, p, index, base, front + [p], cs);
    }
  }

  /** What is represented is exactly what the items of the pass name, beside what was named before. */
  ghost predicate Records(x: Pass, base: nat) {
    && (forall i, p :: base <= i < |x.sel.selected| && p in x.sel.selected[i].priorityPodIds ==> p in x.represented)
    && (forall p :: p in x.represented ==> exists c :: c in x.sel.selected && p in c.priorityPodIds)
  }

  lemma TurnRecords(x: Pass, base: nat, p: PodId, limit: nat, mix: FeedMix)
    requires Records(x, base)
    ensures Records(Represent(x, p, limit, mix), base)
  {
    var y := Represent(x, p, limit, mix);
    if x.chosen < limit && p !in x.represented && FirstFor(x.sel, x.rest, p, mix).Some? {
      var c := Explained(x.rest[FirstFor(x.sel, x.rest, p, mix).value]);
      assert y.sel.selected == x.sel.selected + [c];
      assert c in y.sel.selected && forall d :: d in x.sel.selected ==> d in y.sel.selected;
    }
  }

  lemma TurnLeavesFewer(x: Pass, p: PodId, limit: nat, mix: FeedMix)
    ensures forall c :: c in Represent(x, p, limit, mix).rest ==> c in x.rest
  {
    var index := FirstFor(x.sel, x.rest, p, mix);
    if index.Some? { WithoutIsFewer(x.rest, index.value); }
  }

  /** A turn within the limit picks the first selectable candidate of a Pod not represented yet, or nothing. */
  lemma TurnKeeps(x: Pass, base: nat, front: seq<PodId>, p: PodId, cs: seq<Candidate>, limit: nat, mix: FeedMix)
    requires Balanced(x.sel, mix) && x.chosen < limit
    requires TurnsInv(x, base, front, |front|, cs, limit, mix)
    ensures TurnsInv(Represent(x, p, limit, mix), base, front + [p], |front| + 1, cs, limit, mix)
  {
    assert (front + [p])[..|front| + 1] == front + [p] && front[..|front|] == front;
    TurnStaysNew(x, base, front, p, cs, limit, mix);
    TurnRecords(x, base, p, limit, mix);
    TurnLeavesFewer(x, p, limit, mix);
    TurnServes(x, front, p, limit, mix);
  }

  lemma TurnServes(x: Pass, front: seq<PodId>, p: PodId, limit: nat, mix: FeedMix)
    requires x.chosen < limit && AllServed(x, front, mix)
    requires forall q :: q in x.represented ==> exists c :: c in x.sel.selected && q in c.priorityPodIds
    ensures AllServed(Represent(x, p, limit, mix), front + [p], mix)
  {
    var y := Represent(x, p, limit, mix);
    if p !in x.represented && FirstFor(x.sel, x.rest, p, mix).Some? {
      var index := FirstFor(x.sel, x.rest, p, mix).value;
      PushGrows(x.sel, Explained(x.rest[index]));
      WithoutIsFewer(x.rest, index);
      assert Explained(x.rest[index]) in y.sel.selected;
    }
    AllServedStays(x, y, front, mix);
  }

  lemma {:induction false} TurnsInOrder(x: Pass, base: nat, pods: seq<PodId>, cs: seq<Candidate>, limit: nat,
      mix: FeedMix) returns (m: nat)
    requires Balanced(x.sel, mix) && x.chosen == 0 && x.represented == {} && base == |x.sel.selected| && x.rest == cs
    ensures TurnsInv(RepresentAll(x, pods, limit, mix), base, pods, m, cs, limit, mix)
    ensures Balanced(RepresentAll(x, pods, limit, mix).sel, mix)
  {
    if pods == [] {
      m := 0;
    } else {
      var front, p := pods[..|pods| - 1], pods[|pods| - 1];
      m := TurnsInOrder(x, base, front, cs, limit, mix);
      var y := RepresentAll(x, front, limit, mix);
      assert pods == front + [p] && pods[..m] == front[..m];
      if y.chosen < limit {
        TurnKeeps(y, base, front, p, cs, limit, mix);
        TurnBalances(y, p, limit, mix);
        m := |pods|;
      }
    }
  }

  lemma TurnBalances(x: Pass, p: PodId, limit: nat, mix: FeedMix)
    requires Balanced(x.sel, mix)
    ensures Balanced(Represent(x, p, limit, mix).sel, mix)
  {
    var index := FirstFor(x.sel, x.rest, p, mix);
    if index.Some? { PushKeepsBalanced(x.sel, Explained(x.rest[index.value]), mix); }
  }

  /** Item `i` of the batch was picked for a priority Pod below `bound` that no item before it represents. */
  ghost predicate PickedFor(items: seq<Candidate>, i: nat, bound: PodId, cs: seq<Candidate>)
    requires i < |items|
  {
    && (exists c :: c in cs && c.kind == Subscribed && items[i] == c.(reasons := c.reasons + [PRIORITY_REASON]))
    && (exists p :: p < bound && p in items[i].priorityPodIds
          && forall j :: 0 <= j < i ==> p !in items[j].priorityPodIds)
  }

  lemma NewIsPicked(items: seq<Candidate>, more: seq<Candidate>, i: nat, pods: seq<PodId>, bound: PodId,
      offered: seq<Candidate>, cs: seq<Candidate>)
    requires i < |items| && items <= more && RepresentsNew(items, 0, i, pods, offered)
    requires (forall p :: p in pods ==> p < bound) && forall c :: c in offered ==> c in cs && c.kind == Subscribed
    ensures PickedFor(more, i, bound, cs)
  {
    MorePods(items, more, 0, i, pods, pods, offered);
  }

  /** What the priority pass picks from nothing. */
  ghost predicate PickedInOrder(r: Pass, offered: seq<Candidate>, limit: nat, mix: FeedMix, bound: PodId) {
    && (forall i :: 0 <= i < |r.sel.selected| ==> PickedFor(r.sel.selected, i, bound, offered))
    && (forall p: PodId :: IsPriority(offered, p) && p < bound ==> Served(r.sel, r.rest, p, mix))
    && (|r.sel.selected| < limit ==> forall p: PodId :: IsPriority(offered, p) ==> p < bound)
  }

  lemma TurnsPickInOrder(r: Pass, pods: seq<PodId>, m: nat, offered: seq<Candidate>, limit: nat, mix: FeedMix,
      bound: PodId)
    requires TurnsInv(r, 0, pods, m, offered, limit, mix) && |r.sel.selected| == r.chosen
    requires forall p :: p in pods <==> IsPriority(offered, p)
    requires forall p :: p in pods[..m] <==> p in pods && p < bound
    requires forall c :: c in offered ==> c.kind == Subscribed
    ensures PickedInOrder(r, offered, limit, mix, bound)
  {
    var items := r.sel.selected;
    forall i | 0 <= i < |items| ensures PickedFor(items, i, bound, offered) {
      NewIsPicked(items, items, i, pods[..m], bound, offered, offered);
    }
  }

  lemma PassPicksInOrder(offered: seq<Candidate>, limit: nat, mix: FeedMix) returns (bound: PodId)
    requires forall c :: c in offered ==> c.kind == Subscribed
    ensures PickedInOrder(PriorityPass(NOTHING, offered, limit, mix), offered, limit, mix, bound)
  {
    var pods := Ascending(PriorityPods(offered));
    NothingIsBalanced(mix);
    forall p ensures p in pods <==> IsPriority(offered, p) { PriorityPodsExactly(offered, p); }
    var m := TurnsInOrder(Pass(NOTHING, offered, {}, 0), 0, pods, offered, limit, mix);
    PriorityPassEffect(NOTHING, offered, limit, mix);
    bound := if m == 0 then 0 else pods[m - 1] + 1;
    BelowBound(pods, m, bound);
    TurnsPickInOrder(PriorityPass(NOTHING, offered, limit, mix), pods, m, offered, limit, mix, bound);
  }

  lemma PickedLater(items: seq<Candidate>, more: seq<Candidate>, i: nat, bound: PodId, offered: seq<Candidate>,
      cs: seq<Candidate>)
    requires i < |items| && items <= more && PickedFor(items, i, bound, offered) && forall c :: c in offered ==> c in cs
    ensures PickedFor(more, i, bound, cs)
  {
    var p :| p < bound && p in items[i].priorityPodIds && forall j :: 0 <= j < i ==> p !in items[j].priorityPodIds;
    assert p in more[i].priorityPodIds;
  }

  /**
   The batch begins with the priority items, at most one for each Pod, lowest Pods first: up to
   some Pod all are represented or held back, and beyond it only once the limit is used up.
   */
  lemma PrioritiesInOrder(cs: seq<Candidate>, size: nat, mix: FeedMix) returns (bound: PodId)
    ensures var x := Compose(cs, size, mix);
      var items := x.backfill.sel.selected;
      && |x.priority.sel.selected| <= |items|
      && (forall i :: 0 <= i < |x.priority.sel.selected| ==> PickedFor(items, i, bound, cs))
      && (forall p: PodId :: NamedBySubscribed(cs, p) && p < bound ==>
            Served(x.priority.sel, x.priority.rest, p, mix))
      && (|x.priority.sel.selected| < PriorityLimit(size, mix) ==>
            forall p: PodId :: NamedBySubscribed(cs, p) ==> p < bound)
  {
    var x := Compose(cs, size, mix);
    OfKindMembers(cs, Subscribed);
    bound := PassPicksInOrder(OfKind(cs, Subscribed), PriorityLimit(size, mix), mix);
    StagesGrow(cs, size, mix);
    forall p ensures IsPriority(OfKind(cs, Subscribed), p) <==> NamedBySubscribed(cs, p) { NamedExactly(cs, p); }
    forall i | 0 <= i < |x.priority.sel.selected| ensures PickedFor(x.backfill.sel.selected, i, bound, cs) {
      PickedLater(x.priority.sel.selected, x.backfill.sel.selected, i, bound, OfKind(cs, Subscribed), cs);
    }
  }

  lemma BelowBound(pods: seq<PodId>, m: nat, bound: PodId)
    requires forall i, j :: 0 <= i < j < |pods| ==> pods[i] < pods[j]
    requires m <= |pods| && bound == if m == 0 then 0 else pods[m - 1] + 1
    ensures forall p :: p in pods[..m] <==> p in pods && p < bound
  {
  }

  /** What the later passes are offered are candidates. */
  lemma OfferedAreCandidates(cs: seq<Candidate>, size: nat, mix: FeedMix)
    ensures var x := Compose(cs, size, mix);
      && (forall c :: c in x.priority.rest ==> c in cs)
      && (forall kind, c :: c in OfKind(cs, kind) ==> c in cs)
      && (forall c :: c in Sorted(x.subscribed.rest + x.exploration.rest + x.oldGems.rest) ==> c in cs)
  {
    var x := Compose(cs, size, mix);
    var left := x.subscribed.rest + x.exploration.rest + x.oldGems.rest;
    NothingIsBalanced(mix);
    PriorityPassEffect(NOTHING, OfKind(cs, Subscribed), PriorityLimit(size, mix), mix);
    forall kind ensures forall c :: c in OfKind(cs, kind) ==> c in cs { OfKindMembers(cs, kind); }
    SortedEffect(left);
    StableSort.SameMembers(Sorted(left), left);
    FirstFitRemainder(x.priority.sel, x.priority.rest, Minus(Target(size, mix.highValue), |x.priority.sel.selected|),
        mix);
    FirstFitRemainder(x.subscribed.sel, OfKind(cs, Exploration), Target(size, mix.exploration), mix);
    FirstFitRemainder(x.exploration.sel, OfKind(cs, OldGem), Target(size, mix.oldGem), mix);
  }

  lemma FitIsUnchanged(sel: Selection, offered: seq<Candidate>, limit: nat, mix: FeedMix, items: seq<Candidate>,
      cs: seq<Candidate>)
    requires FirstFit(sel, offered, limit, mix).sel.selected <= items && forall c :: c in offered ==> c in cs
    ensures forall i :: |sel.selected| <= i < |FirstFit(sel, offered, limit, mix).sel.selected| ==> items[i] in cs
  {
    FirstFitAdds(sel, offered, limit, mix);
    AddedOnly(sel.selected, FirstFit(sel, offered, limit, mix).sel.selected, items, offered, cs);
  }

  /** All other items of the batch are candidates as they were offered. */
  lemma OthersAreUnchanged(cs: seq<Candidate>, size: nat, mix: FeedMix)
    ensures var x := Compose(cs, size, mix);
      forall i :: |x.priority.sel.selected| <= i < |x.backfill.sel.selected| ==> x.backfill.sel.selected[i] in cs
  {
    var x := Compose(cs, size, mix);
    var items := x.backfill.sel.selected;
    StagesGrow(cs, size, mix);
    OfferedAreCandidates(cs, size, mix);
    FitIsUnchanged(x.priority.sel, x.priority.rest, Minus(Target(size, mix.highValue), |x.priority.sel.selected|), mix,
      items, cs);
    FitIsUnchanged(x.subscribed.sel, OfKind(cs, Exploration), Target(size, mix.exploration), mix, items, cs);
    FitIsUnchanged(x.exploration.sel, OfKind(cs, OldGem), Target(size, mix.oldGem), mix, items, cs);
    FitIsUnchanged(x.oldGems.sel, Sorted(x.subscribed.rest + x.exploration.rest + x.oldGems.rest),
      Minus(size, |x.oldGems.sel.selected|), mix, items, cs);
  }

  lemma AddedOnly(before: seq<Candidate>, after: seq<Candidate>, items: seq<Candidate>, offered: seq<Candidate>,
      cs: seq<Candidate>)
    requires Added(before, offered, after) && after <= items && forall c :: c in offered ==> c in cs
    ensures forall i :: |before| <= i < |after| ==> items[i] in cs
  {
    forall i | |before| <= i < |after| ensures items[i] in cs {
      assert items[i] == after[i] == after[|before|..][i - |before|];
    }
  }
}
