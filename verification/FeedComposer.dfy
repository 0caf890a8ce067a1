/** Composing one feed batch: quotas, the priority guarantee, and backfill, with what they guarantee. */
module FeedComposer {
  import opened KeyOrder
  import opened FeedMixes
  import StableSort

  // ----- ranking -----

  /** `a` goes before `b`: higher score, then newer, then smaller URL. */
  predicate Before(a: Candidate, b: Candidate) {
    a.score > b.score
    || (a.score == b.score && (a.createdAt > b.createdAt || (a.createdAt == b.createdAt && TextLess(a.url, b.url))))
  }

  /** The stable sort by rank. */
  function Sorted(cs: seq<Candidate>): seq<Candidate> { StableSort.Sorted(Before, cs) }

  lemma BeforeTransitive(a: Candidate, b: Candidate, c: Candidate)
    ensures !Before(b, a) && !Before(c, b) ==> !Before(c, a)
  {
    TextOrder(a.url, b.url);
    TextOrder(b.url, c.url);
    if TextLess(a.url, b.url) && TextLess(b.url, c.url) { TextTransitive(a.url, b.url, c.url); }
    TextOrder(a.url, c.url);
  }

  lemma BeforeAsymmetric(a: Candidate, b: Candidate)
    requires Before(a, b)
    ensures !Before(b, a)
  {
    TextOrder(a.url, b.url);
  }

  lemma BeforeRanks()
    ensures StableSort.Ranks(Before)
  {
    forall a, b | Before(a, b) ensures !Before(b, a) { BeforeAsymmetric(a, b); }
    forall a, b, c | !Before(b, a) && !Before(c, b) ensures !Before(c, a) { BeforeTransitive(a, b, c); }
  }

  /** Each item has a higher score than the next ones, or the same and is newer, or is as new with no greater URL. */
  ghost predicate Ranked(cs: seq<Candidate>) {
    forall i, j :: 0 <= i < j < |cs| ==>
      && cs[i].score >= cs[j].score
      && (cs[i].score == cs[j].score ==> cs[i].createdAt >= cs[j].createdAt)
      && (cs[i].score == cs[j].score && cs[i].createdAt == cs[j].createdAt ==>
            cs[i].url == cs[j].url || exists n: nat :: DiffersAt(cs[i].url, cs[j].url, n))
  }

  lemma OrderedIsRanked(cs: seq<Candidate>)
    ensures StableSort.Ordered(Before, cs) <==> Ranked(cs)
  {
    forall i, j | 0 <= i < j < |cs|
      ensures TextLess(cs[j].url, cs[i].url) <==>
        !(cs[i].url == cs[j].url || exists n: nat :: DiffersAt(cs[i].url, cs[j].url, n))
    {
      TextOrder(cs[i].url, cs[j].url);
      TextLessExactly(cs[i].url, cs[j].url);
    }
  }

  /** Sorting permutes, puts higher ranks first, and keeps the order of equal ranks. */
  lemma SortedEffect(cs: seq<Candidate>)
    ensures multiset(Sorted(cs)) == multiset(cs) && Ranked(Sorted(cs)) && StableSort.Ordered(Before, Sorted(cs))
    ensures forall c :: StableSort.OfRank(Before, c, Sorted(cs)) == StableSort.OfRank(Before, c, cs)
  {
    BeforeRanks();
    StableSort.SortedEffect(Before, cs);
    OrderedIsRanked(Sorted(cs));
    forall c ensures StableSort.OfRank(Before, c, Sorted(cs)) == StableSort.OfRank(Before, c, cs) {
      StableSort.SortedIsStable(Before, c, cs);
    }
  }

  // ----- composition -----

  function OfKind(cs: seq<Candidate>, kind: Kind): seq<Candidate> {
    if cs == [] then []
    else
      var front := OfKind(cs[..|cs| - 1], kind);
      if cs[|cs| - 1].kind == kind then front + [cs[|cs| - 1]] else front
  }

  /** Items a percentage stands for in a batch of `size`, rounded down. */
  function Target(size: nat, percent: nat): nat { size * percent / 100 }

  function AtLeast(a: nat, b: nat): nat { if a < b then b else a }

  function AtMost(n: nat, bound: nat): nat { if n > bound then bound else n }

  function Minus(a: nat, b: nat): nat { if a > b then a - b else 0 }

  function PriorityLimit(size: nat, mix: FeedMix): nat { AtMost(AtLeast(Target(size, mix.highValue), 1), size) }

  /** Up to the subscribed share of the batch may go to priority Pods, but one item in any case that has room. */
  lemma PriorityLimitExactly(size: nat, mix: FeedMix)
    requires ValidMix(mix)
    ensures var n := PriorityLimit(size, mix);
      && n <= size
      && (size > 0 && size * mix.highValue < 100 ==> n == 1)
      && (size > 0 && size * mix.highValue >= 100 ==> 100 * n <= size * mix.highValue < 100 * n + 100)
  {
    TargetBound(size, mix.highValue);
    assert size * mix.highValue <= size * 100 by { Monotone(size, mix.highValue, 100); }
  }

  /** The five passes: priority, subscribed, exploration, old gems, and backfill over what is left. */
  datatype Stages = Stages(priority: Pass, subscribed: Fit, exploration: Fit, oldGems: Fit, backfill: Fit)

  function Compose(cs: seq<Candidate>, size: nat, mix: FeedMix): Stages {
    var first := PriorityPass(NOTHING, OfKind(cs, Subscribed), PriorityLimit(size, mix), mix);
    var second := FirstFit(first.sel, first.rest, Minus(Target(size, mix.highValue), |first.sel.selected|), mix);
    var third := FirstFit(second.sel, OfKind(cs, Exploration), Target(size, mix.exploration), mix);
    var fourth := FirstFit(third.sel, OfKind(cs, OldGem), Target(size, mix.oldGem), mix);
    var fifth := FirstFit(fourth.sel, Sorted(second.rest + third.rest + fourth.rest),
        Minus(size, |fourth.sel.selected|), mix);
    Stages(first, second, third, fourth, fifth)
  }

  method ComposeFeedCandidates(candidates: seq<Candidate>, size: nat, mix: FeedMix) returns (selected: seq<Candidate>)
    ensures selected == Compose(candidates, size, mix).backfill.sel.selected
  {
    var subscribed: seq<Candidate>, exploration: seq<Candidate>, oldGems: seq<Candidate> := [], [], [];
    for i := 0 to |candidates|
      invariant subscribed == OfKind(candidates[..i], Subscribed)
      invariant exploration == OfKind(candidates[..i], Exploration)
      invariant oldGems == OfKind(candidates[..i], OldGem)
    {
      assert candidates[..i + 1][..i] == candidates[..i];
      match candidates[i].kind
      case Subscribed => subscribed := subscribed + [candidates[i]];
      case Exploration => exploration := exploration + [candidates[i]];
      case OldGem => oldGems := oldGems + [candidates[i]];
    }
    assert candidates[..|candidates|] == candidates;
    var state := new SelectionState();
    subscribed := SelectPriorityCandidates(state, subscribed, PriorityLimit(size, mix), mix);
    subscribed := SelectCandidates(state, subscribed, Minus(Target(size, mix.highValue), |state.selected|), mix);
    exploration := SelectCandidates(state, exploration, Target(size, mix.exploration), mix);
    oldGems := SelectCandidates(state, oldGems, Target(size, mix.oldGem), mix);
    var backfill := Sorted(subscribed + exploration + oldGems);
    var _ := SelectCandidates(state, backfill, Minus(size, |state.selected|), mix);
    selected := state.selected;
  }

  // ----- conservation, caps and growth through all passes -----

  lemma {:induction false} KindsCover(cs: seq<Candidate>)
    ensures Cores(OfKind(cs, Subscribed)) + Cores(OfKind(cs, Exploration)) + Cores(OfKind(cs, OldGem)) == Cores(cs)
  {
    if cs != [] {
      var front, c := cs[..|cs| - 1], cs[|cs| - 1];
      KindsCover(front);
      CoresSnoc(OfKind(front, c.kind), c);
      CoresSnoc(front, c);
      assert cs == front + [c];
      OneMore(Cores(OfKind(front, Subscribed)), Cores(OfKind(front, Exploration)), Cores(OfKind(front, OldGem)),
          multiset{Core(c)});
    }
  }

  lemma OneMore<T>(a: multiset<T>, b: multiset<T>, c: multiset<T>, x: multiset<T>)
    ensures (a + x) + b + c == a + b + c + x
    ensures a + (b + x) + c == a + b + c + x
    ensures a + b + (c + x) == a + b + c + x
  {
  }

  lemma {:induction false} OfKindOnly(cs: seq<Candidate>, kind: Kind)
    ensures forall c :: c in OfKind(cs, kind) ==> c.kind == kind
  {
    if cs != [] { OfKindOnly(cs[..|cs| - 1], kind); }
  }

  lemma ElementsWithout(cs: seq<Candidate>, i: nat)
    requires i < |cs|
    ensures multiset(cs) == multiset{cs[i]} + multiset(Without(cs, i))
  {
    assert cs == cs[..i] + [cs[i]] + cs[i + 1..];
  }

  lemma RemoveSame<T>(x: multiset<T>, a: multiset<T>, b: multiset<T>)
    requires x + a == x + b
    ensures a == b
  {
    assert a == (x + a) - x && b == (x + b) - x;
  }

  lemma {:induction false} CoresPermute(xs: seq<Candidate>, ys: seq<Candidate>)
    requires multiset(xs) == multiset(ys)
    ensures Cores(xs) == Cores(ys)
    decreases |xs|
  {
    if xs == [] {
      assert |multiset(ys)| == |multiset(xs)|;
      assert ys == [];
    } else {
      assert xs[0] in multiset(xs);
      assert xs[0] in ys;
      var i :| 0 <= i < |ys| && ys[i] == xs[0];
      ElementsWithout(xs, 0);
      ElementsWithout(ys, i);
      RemoveSame(multiset{xs[0]}, multiset(Without(xs, 0)), multiset(Without(ys, i)));
      CoresPermute(Without(xs, 0), Without(ys, i));
      WithoutCores(xs, 0);
      WithoutCores(ys, i);
    }
  }

  /** The selection after each pass keeps the caps and extends the one before. */
  lemma StagesGrow(cs: seq<Candidate>, size: nat, mix: FeedMix)
    ensures var x := Compose(cs, size, mix);
      && Balanced(x.priority.sel, mix) && Balanced(x.subscribed.sel, mix) && Balanced(x.exploration.sel, mix)
      && Balanced(x.oldGems.sel, mix) && Balanced(x.backfill.sel, mix)
      && Grows(x.priority.sel, x.subscribed.sel) && Grows(x.subscribed.sel, x.exploration.sel)
      && Grows(x.exploration.sel, x.oldGems.sel) && Grows(x.oldGems.sel, x.backfill.sel)
  {
    var x := Compose(cs, size, mix);
    NothingIsBalanced(mix);
    PriorityPassEffect(NOTHING, OfKind(cs, Subscribed), PriorityLimit(size, mix), mix);
    FirstFitEffect(x.priority.sel, x.priority.rest, Minus(Target(size, mix.highValue), |x.priority.sel.selected|), mix);
    FirstFitEffect(x.subscribed.sel, OfKind(cs, Exploration), Target(size, mix.exploration), mix);
    FirstFitEffect(x.exploration.sel, OfKind(cs, OldGem), Target(size, mix.oldGem), mix);
    FirstFitEffect(x.oldGems.sel, Sorted(x.subscribed.rest + x.exploration.rest + x.oldGems.rest),
                   Minus(size, |x.oldGems.sel.selected|), mix);
  }

  /** No Pod and no source exceeds its cap in the result, whatever the candidates. */
  lemma CapsHold(cs: seq<Candidate>, size: nat, mix: FeedMix, p: PodId, source: string)
    ensures var items := Compose(cs, size, mix).backfill.sel.selected;
      PodItems(p, items) <= mix.perPod && SourceItems(source, items) <= mix.perSource
  {
    StagesGrow(cs, size, mix);
  }

  /** The candidates left after each pass. */
  lemma StagesConserve(cs: seq<Candidate>, size: nat, mix: FeedMix)
    ensures var x := Compose(cs, size, mix);
      Cores(x.oldGems.sel.selected) + Cores(x.subscribed.rest + x.exploration.rest + x.oldGems.rest) == Cores(cs)
  {
    var x := Compose(cs, size, mix);
    NothingIsBalanced(mix);
    PriorityPassEffect(NOTHING, OfKind(cs, Subscribed), PriorityLimit(size, mix), mix);
    FirstFitConserves(x.priority.sel, x.priority.rest, Minus(Target(size, mix.highValue), |x.priority.sel.selected|),
        mix);
    FirstFitConserves(x.subscribed.sel, OfKind(cs, Exploration), Target(size, mix.exploration), mix);
    FirstFitConserves(x.exploration.sel, OfKind(cs, OldGem), Target(size, mix.oldGem), mix);
    KindsCover(cs);
    CoresAppend(x.subscribed.rest + x.exploration.rest, x.oldGems.rest);
    CoresAppend(x.subscribed.rest, x.exploration.rest);
    Telescope(Cores(OfKind(cs, Subscribed)), Cores(OfKind(cs, Exploration)), Cores(OfKind(cs, OldGem)),
              Cores(x.subscribed.sel.selected), Cores(x.exploration.sel.selected), Cores(x.oldGems.sel.selected),
              Cores(x.subscribed.rest), Cores(x.exploration.rest), Cores(x.oldGems.rest));
  }

  lemma Telescope<T>(a: multiset<T>, b: multiset<T>, c: multiset<T>, s1: multiset<T>, s2: multiset<T>, s3: multiset<T>,
                     r1: multiset<T>, r2: multiset<T>, r3: multiset<T>)
    requires s1 + r1 == a && s2 + r2 == s1 + b && s3 + r3 == s2 + c
    ensures s3 + (r1 + r2 + r3) == a + b + c
  {
    assert s3 + (r1 + r2 + r3) == (s3 + r3) + (r1 + r2);
    assert s2 + c + (r1 + r2) == (s2 + r2) + (r1 + c);
    assert s1 + b + (r1 + c) == (s1 + r1) + (b + c);
    assert a + (b + c) == a + b + c;
  }

  /** Selected and unselected items together are exactly the candidates, up to the added reason. */
  lemma NothingLost(cs: seq<Candidate>, size: nat, mix: FeedMix)
    ensures var x := Compose(cs, size, mix).backfill;
      Cores(x.sel.selected) + Cores(x.rest) == Cores(cs)
  {
    var x := Compose(cs, size, mix);
    StagesConserve(cs, size, mix);
    var left := x.subscribed.rest + x.exploration.rest + x.oldGems.rest;
    SortedEffect(left);
    CoresPermute(Sorted(left), left);
    FirstFitConserves(x.oldGems.sel, Sorted(left), Minus(size, |x.oldGems.sel.selected|), mix);
  }

  // ----- maximality -----

  /** On return the batch is full, or every unselected candidate is without Pods or held back by a cap. */
  lemma Maximal(cs: seq<Candidate>, size: nat, mix: FeedMix)
    ensures var x := Compose(cs, size, mix).backfill;
      |x.sel.selected| >= size || AllHeldBack(x.rest, x.sel.selected, mix)
  {
    var x := Compose(cs, size, mix);
    StagesGrow(cs, size, mix);
    FirstFitEffect(x.oldGems.sel, Sorted(x.subscribed.rest + x.exploration.rest + x.oldGems.rest),
                   Minus(size, |x.oldGems.sel.selected|), mix);
  }

  // ----- priority representation -----

  /** Some subscribed candidate names the Pod as a priority. */
  predicate NamedBySubscribed(cs: seq<Candidate>, p: PodId) {
    exists c :: c in cs && c.kind == Subscribed && p in c.priorityPodIds
  }

  lemma NamedExactly(cs: seq<Candidate>, p: PodId)
    ensures IsPriority(OfKind(cs, Subscribed), p) <==> NamedBySubscribed(cs, p)
  {
    OfKindMembers(cs, Subscribed);
  }

  /**
   Every priority Pod is named by a delivered item, or all subscribed candidates that name it
   are blocked at the end, or the priority pass used up its share of the batch.
   */
  lemma PriorityIsRepresented(cs: seq<Candidate>, size: nat, mix: FeedMix, p: PodId)
    requires NamedBySubscribed(cs, p)
    ensures var x := Compose(cs, size, mix);
      || x.priority.chosen == PriorityLimit(size, mix)
      || (exists c :: c in x.backfill.sel.selected && p in c.priorityPodIds)
      || (forall c :: c in x.backfill.rest && c.kind == Subscribed && p in c.priorityPodIds ==>
          HeldBack(c, x.backfill.sel.selected, mix))
  {
    var x := Compose(cs, size, mix);
    NothingIsBalanced(mix);
    NamedExactly(cs, p);
    PriorityPassEffect(NOTHING, OfKind(cs, Subscribed), PriorityLimit(size, mix), mix);
    if x.priority.chosen != PriorityLimit(size, mix) {
      StagesGrow(cs, size, mix);
      GrowsTrans(x.priority.sel, x.subscribed.sel, x.exploration.sel);
      GrowsTrans(x.priority.sel, x.exploration.sel, x.oldGems.sel);
      GrowsTrans(x.priority.sel, x.oldGems.sel, x.backfill.sel);
      UnselectedSubscribed(cs, size, mix);
      var fewer := OfKind(x.backfill.rest, Subscribed);
      OfKindMembers(x.backfill.rest, Subscribed);
      ServedStays(x.priority.sel, x.priority.rest, x.backfill.sel, fewer, p, mix);
      forall c | c in fewer && !CanSelect(x.backfill.sel, c, mix) ensures HeldBack(c, x.backfill.sel.selected, mix) {
        CanSelectExactly(x.backfill.sel, c, mix);
      }
    }
  }

  lemma {:induction false} OfKindMembers(cs: seq<Candidate>, kind: Kind)
    ensures forall c :: c in OfKind(cs, kind) <==> c in cs && c.kind == kind
  {
    if cs != [] {
      OfKindMembers(cs[..|cs| - 1], kind);
      assert cs == cs[..|cs| - 1] + [cs[|cs| - 1]];
    }
  }

  /** Unselected subscribed candidates were already left over after the priority pass. */
  lemma UnselectedSubscribed(cs: seq<Candidate>, size: nat, mix: FeedMix)
    ensures var x := Compose(cs, size, mix);
      forall c :: c in x.backfill.rest && c.kind == Subscribed ==> c in x.priority.rest
  {
    var x := Compose(cs, size, mix);
    var left := x.subscribed.rest + x.exploration.rest + x.oldGems.rest;
    SortedEffect(left);
    FirstFitRemainder(x.oldGems.sel, Sorted(left), Minus(size, |x.oldGems.sel.selected|), mix);
    FirstFitRemainder(x.priority.sel, x.priority.rest, Minus(Target(size, mix.highValue), |x.priority.sel.selected|),
        mix);
    FirstFitRemainder(x.subscribed.sel, OfKind(cs, Exploration), Target(size, mix.exploration), mix);
    FirstFitRemainder(x.exploration.sel, OfKind(cs, OldGem), Target(size, mix.oldGem), mix);
    OfKindOnly(cs, Exploration);
    OfKindOnly(cs, OldGem);
    forall c | c in x.backfill.rest && c.kind == Subscribed ensures c in x.priority.rest {
      assert c in multiset(Sorted(left));
      assert c in multiset(left);
    }
  }

  // ----- layout -----

  /** `items` is `before` followed by members of `cs`, in rank order if `cs` is. */
  predicate Added(before: seq<Candidate>, cs: seq<Candidate>, items: seq<Candidate>) {
    && before <= items
    && (forall c :: c in items[|before|..] ==> c in cs)
    && (StableSort.Ordered(Before, cs) ==> StableSort.Ordered(Before, items[|before|..]))
  }

  lemma AddedFirst(before: seq<Candidate>, c: Candidate, cs: seq<Candidate>, items: seq<Candidate>)
    requires Added(before + [c], cs, items)
    ensures Added(before, [c] + cs, items)
  {
    HeadOfAdded(before, c, items);
    var all := [c] + cs;
    if StableSort.Ordered(Before, all) {
      StableSort.OrderedTail(Before, all);
      assert all[1..] == cs;
      StableSort.OrderedHead(Before, c, items[|before| + 1..]);
    }
  }

  lemma AddedLater(before: seq<Candidate>, c: Candidate, cs: seq<Candidate>, items: seq<Candidate>)
    requires Added(before, cs, items)
    ensures Added(before, [c] + cs, items)
  {
    var all := [c] + cs;
    if StableSort.Ordered(Before, all) {
      StableSort.OrderedTail(Before, all);
      assert all[1..] == cs;
    }
  }

  lemma {:induction false} FirstFitAdds(sel: Selection, cs: seq<Candidate>, limit: nat, mix: FeedMix)
    ensures Added(sel.selected, cs, FirstFit(sel, cs, limit, mix).sel.selected)
    decreases |cs|
  {
    if cs != [] && limit > 0 {
      var c, rest := cs[0], cs[1..];
      assert cs == [c] + rest;
      if CanSelect(sel, c, mix) {
        FirstFitAdds(Push(sel, c), rest, limit - 1, mix);
        AddedFirst(sel.selected, c, rest, FirstFit(Push(sel, c), rest, limit - 1, mix).sel.selected);
      } else {
        FirstFitAdds(sel, rest, limit, mix);
        AddedLater(sel.selected, c, rest, FirstFit(sel, rest, limit, mix).sel.selected);
      }
    }
  }

  lemma HeadOfAdded(before: seq<Candidate>, c: Candidate, items: seq<Candidate>)
    requires before + [c] <= items
    ensures before <= items && items[|before|..] == [c] + items[|before| + 1..]
  {
    assert items[|before|] == (before + [c])[|before|];
  }

  lemma CoreMember(c: Candidate, xs: seq<Candidate>, ys: seq<Candidate>)
    requires c in xs && Cores(xs) <= Cores(ys)
    ensures exists d :: d in ys && Core(d) == Core(c)
  {
    var i :| 0 <= i < |xs| && xs[i] == c;
    assert Stripped(xs)[i] == Core(c);
    assert Core(c) in Cores(ys);
    assert Core(c) in Stripped(ys);
    var k :| 0 <= k < |ys| && Stripped(ys)[k] == Core(c);
    assert ys[k] in ys;
  }

  lemma ConservesTrans(s: Selection, xs: seq<Candidate>, t: Selection, ys: seq<Candidate>, u: Selection,
      zs: seq<Candidate>)
    requires Conserves(s, xs, t, ys) && Conserves(t, ys, u, zs)
    ensures Conserves(s, xs, u, zs)
  {
  }

  lemma SelectedAreOffered(xs: seq<Candidate>, t: Selection, rest: seq<Candidate>, kind: Kind)
    requires Conserves(NOTHING, xs, t, rest) && forall c :: c in xs ==> c.kind == kind
    ensures forall c :: c in t.selected ==> c.kind == kind
  {
    assert Stripped(NOTHING.selected) == [];
    assert Cores(t.selected) + Cores(rest) == multiset{} + Cores(xs);
    assert multiset{} + Cores(xs) == Cores(xs);
    forall c | c in t.selected ensures c.kind == kind {
      CoreMember(c, t.selected, xs);
    }
  }

  /** The first two passes select subscribed candidates only. */
  lemma SubscribedFirst(cs: seq<Candidate>, size: nat, mix: FeedMix)
    ensures forall c :: c in Compose(cs, size, mix).subscribed.sel.selected ==> c.kind == Subscribed
  {
    var x := Compose(cs, size, mix);
    NothingIsBalanced(mix);
    PriorityPassEffect(NOTHING, OfKind(cs, Subscribed), PriorityLimit(size, mix), mix);
    FirstFitConserves(x.priority.sel, x.priority.rest, Minus(Target(size, mix.highValue), |x.priority.sel.selected|),
        mix);
    ConservesTrans(NOTHING, OfKind(cs, Subscribed), x.priority.sel, x.priority.rest, x.subscribed.sel,
        x.subscribed.rest);
    OfKindOnly(cs, Subscribed);
    SelectedAreOffered(OfKind(cs, Subscribed), x.subscribed.sel, x.subscribed.rest, Subscribed);
  }

  lemma SubscribedLength(cs: seq<Candidate>, size: nat, mix: FeedMix)
    ensures |Compose(cs, size, mix).subscribed.sel.selected|
         <= AtLeast(Target(size, mix.highValue), PriorityLimit(size, mix))
  {
    var x := Compose(cs, size, mix);
    NothingIsBalanced(mix);
    PriorityPassEffect(NOTHING, OfKind(cs, Subscribed), PriorityLimit(size, mix), mix);
    FirstFitStops(x.priority.sel, x.priority.rest, Minus(Target(size, mix.highValue), |x.priority.sel.selected|), mix);
  }

  /** Part `from..to` of the batch holds one kind, at most `target` of it. */
  predicate Part(items: seq<Candidate>, from: nat, to: nat, kind: Kind, target: nat) {
    from <= to <= |items| && to - from <= target && forall i :: from <= i < to ==> items[i].kind == kind
  }

  lemma KindPart(sel: Selection, cs: seq<Candidate>, kind: Kind, limit: nat, mix: FeedMix, items: seq<Candidate>)
    requires Balanced(sel, mix)
    requires FirstFit(sel, OfKind(cs, kind), limit, mix).sel.selected <= items
    ensures Part(items, |sel.selected|, |FirstFit(sel, OfKind(cs, kind), limit, mix).sel.selected|, kind, limit)
  {
    FirstFitAdds(sel, OfKind(cs, kind), limit, mix);
    FirstFitStops(sel, OfKind(cs, kind), limit, mix);
    OfKindOnly(cs, kind);
    var t := FirstFit(sel, OfKind(cs, kind), limit, mix).sel.selected;
    forall i | |sel.selected| <= i < |t| ensures items[i].kind == kind {
      assert items[i] == t[i] == t[|sel.selected|..][i - |sel.selected|];
    }
  }

  /** Subscribed items come first, then exploration, then old gems, each within its target, then ranked backfill. */
  lemma BatchLayout(cs: seq<Candidate>, size: nat, mix: FeedMix)
    ensures var x := Compose(cs, size, mix);
      var items := x.backfill.sel.selected;
      var a, b, c := |x.subscribed.sel.selected|, |x.exploration.sel.selected|, |x.oldGems.sel.selected|;
      && Part(items, 0, a, Subscribed, AtLeast(Target(size, mix.highValue), PriorityLimit(size, mix)))
      && Part(items, a, b, Exploration, Target(size, mix.exploration))
      && Part(items, b, c, OldGem, Target(size, mix.oldGem))
      && Ranked(items[c..])
  {
    var x := Compose(cs, size, mix);
    var items := x.backfill.sel.selected;
    StagesGrow(cs, size, mix);
    SubscribedFirst(cs, size, mix);
    SubscribedLength(cs, size, mix);
    forall i | 0 <= i < |x.subscribed.sel.selected| ensures items[i].kind == Subscribed {
      assert items[i] == x.subscribed.sel.selected[i];
    }
    KindPart(x.subscribed.sel, cs, Exploration, Target(size, mix.exploration), mix, items);
    KindPart(x.exploration.sel, cs, OldGem, Target(size, mix.oldGem), mix, items);
    var left := x.subscribed.rest + x.exploration.rest + x.oldGems.rest;
    SortedEffect(left);
    FirstFitAdds(x.oldGems.sel, Sorted(left), Minus(size, |x.oldGems.sel.selected|), mix);
    OrderedIsRanked(items[|x.oldGems.sel.selected|..]);
  }

  /** A kind falls short of its target only when the batch holds back every candidate of that kind left out. */
  lemma ShortOnlyWhenBlocked(cs: seq<Candidate>, size: nat, mix: FeedMix)
    ensures var x := Compose(cs, size, mix);
      var items := x.backfill.sel.selected;
      && (|x.subscribed.sel.selected| < Target(size, mix.highValue) ==> AllHeldBack(x.subscribed.rest, items, mix))
      && (|x.exploration.sel.selected| < |x.subscribed.sel.selected| + Target(size, mix.exploration)
          ==> AllHeldBack(x.exploration.rest, items, mix))
      && (|x.oldGems.sel.selected| < |x.exploration.sel.selected| + Target(size, mix.oldGem)
          ==> AllHeldBack(x.oldGems.rest, items, mix))
  {
    var x := Compose(cs, size, mix);
    StagesGrow(cs, size, mix);
    FirstFitStops(x.priority.sel, x.priority.rest, Minus(Target(size, mix.highValue), |x.priority.sel.selected|), mix);
    GrowsTrans(x.subscribed.sel, x.exploration.sel, x.oldGems.sel);
    GrowsTrans(x.subscribed.sel, x.oldGems.sel, x.backfill.sel);
    BlockedAll(x.subscribed.sel, x.backfill.sel, x.subscribed.rest, mix);
    FirstFitStops(x.subscribed.sel, OfKind(cs, Exploration), Target(size, mix.exploration), mix);
    FirstFitStops(x.exploration.sel, OfKind(cs, OldGem), Target(size, mix.oldGem), mix);
    GrowsTrans(x.exploration.sel, x.oldGems.sel, x.backfill.sel);
    BlockedAll(x.exploration.sel, x.backfill.sel, x.exploration.rest, mix);
    BlockedAll(x.oldGems.sel, x.backfill.sel, x.oldGems.rest, mix);
  }

  lemma BlockedAll(s: Selection, t: Selection, cs: seq<Candidate>, mix: FeedMix)
    requires Grows(s, t)
    requires Balanced(t, mix)
    ensures AllBlocked(s, cs, mix) ==> AllHeldBack(cs, t.selected, mix)
  {
    if AllBlocked(s, cs, mix) {
      forall c | c in cs ensures !CanSelect(t, c, mix) { BlockedStays(s, t, c, mix); }
      BlockedAreHeldBack(t, cs, mix);
    }
  }

  // ----- length -----

  lemma TargetBound(size: nat, percent: nat)
    ensures 100 * Target(size, percent) <= size * percent < 100 * Target(size, percent) + 100
  {
  }

  /** Three rounded-down targets never add up to more than the batch, nor to it when some share is left out. */
  lemma TargetsFit(size: nat, mix: FeedMix)
    requires ValidMix(mix)
    ensures Target(size, mix.highValue) + Target(size, mix.exploration) + Target(size, mix.oldGem) <= size
    ensures size > 0 && mix.highValue > 0 ==> Target(size, mix.exploration) + Target(size, mix.oldGem) < size
  {
    TargetBound(size, mix.highValue);
    TargetBound(size, mix.exploration);
    TargetBound(size, mix.oldGem);
    var h, e, o := mix.highValue, mix.exploration, mix.oldGem;
    assert size * h + size * e + size * o == size * (h + e + o);
    assert size * (h + e + o) <= size * 100 by { Monotone(size, h + e + o, 100); }
    if size > 0 && h > 0 {
      assert size * h >= size * 1 by { Monotone(size, 1, h); }
    }
  }

  lemma Monotone(n: nat, a: nat, b: nat)
    requires a <= b
    ensures n * a <= n * b
  {
  }

  /** How many items the first four passes can select at most. */
  lemma QuotaLength(cs: seq<Candidate>, size: nat, mix: FeedMix)
    ensures var x := Compose(cs, size, mix);
      |x.oldGems.sel.selected|
        <= AtLeast(Target(size, mix.highValue), PriorityLimit(size, mix)) + Target(size, mix.exploration)
            + Target(size, mix.oldGem)
  {
    BatchLayout(cs, size, mix);
  }

  /** The two quotas beside the subscribed one already fill the batch. */
  predicate QuotasFill(size: nat, mix: FeedMix) {
    size >= 1 && Target(size, mix.exploration) + Target(size, mix.oldGem) == size
  }

  /** The batch has at most `size` items, one more at most when the other quotas fill it. */
  lemma LengthBound(cs: seq<Candidate>, size: nat, mix: FeedMix)
    requires ValidMix(mix)
    ensures var n := |Compose(cs, size, mix).backfill.sel.selected|;
      && n <= size + 1
      && (!QuotasFill(size, mix) ==> n <= size)
      && (mix.highValue > 0 ==> n <= size)
  {
    var x := Compose(cs, size, mix);
    TargetsFit(size, mix);
    QuotaLength(cs, size, mix);
    StagesGrow(cs, size, mix);
    FirstFitEffect(x.oldGems.sel, Sorted(x.subscribed.rest + x.exploration.rest + x.oldGems.rest),
                   Minus(size, |x.oldGems.sel.selected|), mix);
  }

  // ----- the bound is exact -----

  function Letters(n: nat): string { seq(n, i => 'a') }

  /** A candidate with a Pod and a source of its own. */
  function Item(n: nat, kind: Kind, priority: seq<PodId>): Candidate {
    Candidate("", Letters(n), 0, 0, kind, [n], priority, [])
  }

  function Items(from: nat, n: nat, kind: Kind): seq<Candidate> {
    if n == 0 then [] else Items(from, n - 1, kind) + [Item(from + n - 1, kind, [])]
  }

  /** The selection has met no Pod and no source of the items from `from` on. */
  ghost predicate Unmet(sel: Selection, from: nat) {
    && (forall p: PodId :: p >= from ==> PodCount(sel.podCounts, p) == 0)
    && (forall x: string :: |x| >= from ==> SourceCount(sel.sourceCounts, x) == 0)
  }

  lemma PushItem(sel: Selection, n: nat, kind: Kind, priority: seq<PodId>, reasons: seq<string>, mix: FeedMix)
    requires Unmet(sel, n) && mix.perPod >= 1 && mix.perSource >= 1
    ensures var c := Item(n, kind, priority).(reasons := reasons);
      CanSelect(sel, c, mix) && Unmet(Push(sel, c), n + 1)
  {
    var c := Item(n, kind, priority).(reasons := reasons);
    forall p: PodId | p >= n + 1 ensures PodCount(Push(sel, c).podCounts, p) == 0 {
      CountPodsCounts(sel.podCounts, c.podIds, p);
      OccursWhenListed(p, c.podIds);
    }
  }

  lemma {:induction false} FirstFitSnoc(sel: Selection, cs: seq<Candidate>, c: Candidate, mix: FeedMix)
    requires FirstFit(sel, cs, |cs|, mix).rest == []
    requires CanSelect(FirstFit(sel, cs, |cs|, mix).sel, c, mix)
    ensures FirstFit(sel, cs + [c], |cs| + 1, mix) == Fit(Push(FirstFit(sel, cs, |cs|, mix).sel, c), [])
    decreases |cs|
  {
    if cs == [] {
      assert cs + [c] == [c] && [c][1..] == [];
    } else {
      assert (cs + [c])[1..] == cs[1..] + [c];
      FirstFitSnoc(Push(sel, cs[0]), cs[1..], c, mix);
    }
  }

  /** All of `cs` are selected, meeting only Pods and sources below `next`. */
  ghost predicate AllFit(sel: Selection, cs: seq<Candidate>, next: nat, mix: FeedMix) {
    var r := FirstFit(sel, cs, |cs|, mix);
    r.rest == [] && |r.sel.selected| == |sel.selected| + |cs| && Unmet(r.sel, next)
  }

  lemma AnotherItemFits(sel: Selection, cs: seq<Candidate>, n: nat, kind: Kind, mix: FeedMix)
    requires mix.perPod >= 1 && mix.perSource >= 1 && AllFit(sel, cs, n, mix)
    ensures AllFit(sel, cs + [Item(n, kind, [])], n + 1, mix)
  {
    PushItem(FirstFit(sel, cs, |cs|, mix).sel, n, kind, [], [], mix);
    FirstFitSnoc(sel, cs, Item(n, kind, []), mix);
  }

  lemma {:induction false} ItemsAllFit(sel: Selection, from: nat, n: nat, kind: Kind, mix: FeedMix)
    requires Unmet(sel, from) && mix.perPod >= 1 && mix.perSource >= 1
    ensures |Items(from, n, kind)| == n && AllFit(sel, Items(from, n, kind), from + n, mix)
  {
    if n > 0 {
      ItemsAllFit(sel, from, n - 1, kind, mix);
      AnotherItemFits(sel, Items(from, n - 1, kind), from + n - 1, kind, mix);
    }
  }

  lemma {:induction false} OfKindAppend(xs: seq<Candidate>, ys: seq<Candidate>, kind: Kind)
    ensures OfKind(xs + ys, kind) == OfKind(xs, kind) + OfKind(ys, kind)
  {
    if ys == [] {
      assert xs + ys == xs;
    } else {
      var front, last := ys[..|ys| - 1], ys[|ys| - 1];
      OfKindAppend(xs, front, kind);
      assert (xs + ys)[..|xs + ys| - 1] == xs + front;
    }
  }

  lemma {:induction false} OfKindItems(from: nat, n: nat, kind: Kind, wanted: Kind)
    ensures OfKind(Items(from, n, kind), wanted) == if kind == wanted then Items(from, n, kind) else []
  {
    if n > 0 {
      OfKindItems(from, n - 1, kind, wanted);
      var items := Items(from, n, kind);
      assert items[..|items| - 1] == Items(from, n - 1, kind);
    }
  }

  /** One priority candidate, and as many of the other kinds as their quotas take. */
  function Overfull(e: nat, o: nat): seq<Candidate> {
    [Item(0, Subscribed, [0])] + Items(1, e, Exploration) + Items(1 + e, o, OldGem)
  }

  /** Each kind picks out its own part of a concatenation. */
  lemma KindPicksPart(xs: seq<Candidate>, ys: seq<Candidate>, zs: seq<Candidate>, kind: Kind)
    requires OfKind(xs, kind) == if kind == Subscribed then xs else []
    requires OfKind(ys, kind) == if kind == Exploration then ys else []
    requires OfKind(zs, kind) == if kind == OldGem then zs else []
    ensures OfKind(xs + ys + zs, kind) == if kind == Subscribed then xs else if kind == Exploration then ys else zs
  {
    OfKindAppend(xs + ys, zs, kind);
    OfKindAppend(xs, ys, kind);
  }

  lemma OfKindSingle(c: Candidate, kind: Kind)
    ensures OfKind([c], kind) == if c.kind == kind then [c] else []
  {
    assert [c][..0] == [];
  }

  lemma OverfullKind(e: nat, o: nat, kind: Kind)
    ensures OfKind(Overfull(e, o), kind) ==
      if kind == Subscribed then [Item(0, Subscribed, [0])]
      else if kind == Exploration then Items(1, e, Exploration)
      else Items(1 + e, o, OldGem)
  {
    OfKindSingle(Item(0, Subscribed, [0]), kind);
    OfKindItems(1, e, Exploration, kind);
    OfKindItems(1 + e, o, OldGem, kind);
    KindPicksPart([Item(0, Subscribed, [0])], Items(1, e, Exploration), Items(1 + e, o, OldGem), kind);
  }

  lemma AscendingOne(p: PodId)
    ensures Ascending({p}) == [p]
  {
    assert {p} - {p} == {};
    assert Ascending({p}) == [p] + Ascending({});
  }

  lemma OnePriorityPod(c: Candidate, p: PodId)
    requires c.priorityPodIds == [p]
    ensures PriorityPods([c]) == {p}
  {
    assert [c][..0] == [] && IdSet([p]) == {p};
  }

  lemma OneTurn(x: Pass, p: PodId, limit: nat, mix: FeedMix)
    ensures RepresentAll(x, [p], limit, mix) == Represent(x, p, limit, mix)
  {
    assert [p][..0] == [];
    assert RepresentAll(x, [], limit, mix) == x;
  }

  /** A single selectable candidate is taken for its priority Pod. */
  lemma PriorityPassOfOne(c: Candidate, p: PodId, mix: FeedMix)
    requires c.priorityPodIds == [p] && CanSelect(NOTHING, c, mix)
    ensures PriorityPass(NOTHING, [c], 1, mix).sel == Push(NOTHING, Explained(c))
    ensures PriorityPass(NOTHING, [c], 1, mix).rest == []
  {
    OnePriorityPod(c, p);
    AscendingOne(p);
    OneTurn(Pass(NOTHING, [c], {}, 0), p, 1, mix);
  }

  lemma PriorityItemChosen(c: Candidate, mix: FeedMix)
    requires mix.perPod >= 1 && mix.perSource >= 1 && c == Item(0, Subscribed, [0])
    ensures var r := PriorityPass(NOTHING, [c], 1, mix);
      |r.sel.selected| == 1 && r.rest == [] && Unmet(r.sel, 1)
  {
    PushItem(NOTHING, 0, Subscribed, [0], [], mix);
    PushItem(NOTHING, 0, Subscribed, [0], Explained(c).reasons, mix);
    PriorityPassOfOne(c, 0, mix);
  }

  lemma QuotasFillWithoutSubscribed(size: nat, mix: FeedMix)
    requires ValidMix(mix) && QuotasFill(size, mix)
    ensures Target(size, mix.highValue) == 0 && PriorityLimit(size, mix) == 1
  {
    TargetsFit(size, mix);
  }

  /** The first two passes over one priority item take it. */
  lemma SubscribedPasses(cs: seq<Candidate>, size: nat, mix: FeedMix)
    requires ValidMix(mix) && QuotasFill(size, mix)
    requires OfKind(cs, Subscribed) == [Item(0, Subscribed, [0])]
    ensures var s := Compose(cs, size, mix).subscribed.sel;
      |s.selected| == 1 && Unmet(s, 1)
  {
    QuotasFillWithoutSubscribed(size, mix);
    PriorityItemChosen(Item(0, Subscribed, [0]), mix);
  }

  lemma TwoPasses(s: Selection, e: nat, o: nat, mix: FeedMix)
    requires mix.perPod >= 1 && mix.perSource >= 1 && Unmet(s, 1)
    ensures var t := FirstFit(s, Items(1, e, Exploration), e, mix).sel;
      |FirstFit(t, Items(1 + e, o, OldGem), o, mix).sel.selected| == |s.selected| + e + o
  {
    ItemsAllFit(s, 1, e, Exploration, mix);
    ItemsAllFit(FirstFit(s, Items(1, e, Exploration), e, mix).sel, 1 + e, o, OldGem, mix);
  }

  /** The first four passes over candidates of these kinds take one item too many. */
  lemma FourPasses(cs: seq<Candidate>, size: nat, mix: FeedMix, e: nat, o: nat)
    requires ValidMix(mix) && QuotasFill(size, mix)
    requires e == Target(size, mix.exploration) && o == Target(size, mix.oldGem)
    requires OfKind(cs, Subscribed) == [Item(0, Subscribed, [0])]
    requires OfKind(cs, Exploration) == Items(1, e, Exploration)
    requires OfKind(cs, OldGem) == Items(1 + e, o, OldGem)
    ensures |Compose(cs, size, mix).oldGems.sel.selected| == size + 1
  {
    SubscribedPasses(cs, size, mix);
    TwoPasses(Compose(cs, size, mix).subscribed.sel, e, o, mix);
  }

  /** With the other quotas filling the batch, one priority candidate makes it one item too long. */
  lemma OneTooMany(size: nat, mix: FeedMix)
    requires ValidMix(mix) && QuotasFill(size, mix)
    ensures var cs := Overfull(Target(size, mix.exploration), Target(size, mix.oldGem));
      |Compose(cs, size, mix).backfill.sel.selected| == size + 1
  {
    var e, o := Target(size, mix.exploration), Target(size, mix.oldGem);
    var cs := Overfull(e, o);
    OverfullKind(e, o, Subscribed);
    OverfullKind(e, o, Exploration);
    OverfullKind(e, o, OldGem);
    FourPasses(cs, size, mix, e, o);
    StagesGrow(cs, size, mix);
    LengthBound(cs, size, mix);
  }

  /** Under 60 and 40 percent without a subscribed share, every multiple of ten can get one item more. */
  lemma SixtyFortyOverfills(tens: nat, mix: FeedMix)
    requires ValidMix(mix) && mix.exploration == 60 && mix.oldGem == 40 && tens >= 1
    ensures |Compose(Overfull(6 * tens, 4 * tens), 10 * tens, mix).backfill.sel.selected| == 10 * tens + 1
  {
    SixtyForty(tens, mix);
    OneTooMany(10 * tens, mix);
  }

  lemma SixtyForty(tens: nat, mix: FeedMix)
    requires mix.exploration == 60 && mix.oldGem == 40 && tens >= 1
    ensures Target(10 * tens, mix.exploration) == 6 * tens && Target(10 * tens, mix.oldGem) == 4 * tens
    ensures QuotasFill(10 * tens, mix)
  {
  }

  /** A batch can come out longer than requested exactly when the other quotas already fill it. */
  lemma TooLongExactly(size: nat, mix: FeedMix)
    requires ValidMix(mix)
    ensures (exists cs :: |Compose(cs, size, mix).backfill.sel.selected| > size) <==> QuotasFill(size, mix)
  {
    if QuotasFill(size, mix) {
      OneTooMany(size, mix);
    } else {
      forall cs ensures |Compose(cs, size, mix).backfill.sel.selected| <= size {
        LengthBound(cs, size, mix);
      }
    }
  }
}
