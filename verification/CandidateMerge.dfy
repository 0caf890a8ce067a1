/** Merging the submissions made for one candidate into the reference that readers see. */
module CandidateMerge {
  import opened Wrappers
  import opened Artifacts
  import opened Lists
  import StableSort

  datatype Submission = Submission(
    id: Uuid,
    createdAt: Time,
    sourceUrl: string,
    title: Option<string>,
    author: Option<string>,
    publishedAt: Option<Time>,
    excerpt: Option<string>,
    summary: Option<string>,
    contentType: nat,
    media: seq<string>,
    tags: seq<string>,
    provenance: string)

  datatype Reference = Reference(
    sourceUrl: string,
    title: Option<string>,
    author: Option<string>,
    publishedAt: Option<Time>,
    excerpt: Option<string>,
    summary: Option<string>,
    contentType: nat,
    media: seq<string>,
    tags: seq<string>,
    provenance: string)

  /** Submission order: by time, then by id. */
  predicate Older(a: Submission, b: Submission) {
    a.createdAt < b.createdAt || (a.createdAt == b.createdAt && a.id < b.id)
  }

  function FromLatest(s: Submission): Reference {
    Reference(s.sourceUrl, s.title, s.author, s.publishedAt, s.excerpt, s.summary, s.contentType, s.media, s.tags,
        s.provenance)
  }

  /** Fills what `r` lacks from an older submission. */
  function Absorb(r: Reference, s: Submission): Reference {
    r.(title := Or(r.title, s.title), author := Or(r.author, s.author), publishedAt := Or(r.publishedAt, s.publishedAt),
       excerpt := Or(r.excerpt, s.excerpt), summary := Or(r.summary, s.summary),
       media := AddNew(r.media, s.media), tags := AddNew(r.tags, s.tags))
  }

  /** Absorbs submissions given oldest first, from the newest down. */
  function AbsorbAll(r: Reference, oldestFirst: seq<Submission>): Reference
    decreases |oldestFirst|
  {
    if oldestFirst == [] then r
    else AbsorbAll(Absorb(r, oldestFirst[|oldestFirst| - 1]), oldestFirst[..|oldestFirst| - 1])
  }

  function Merged(submissions: seq<Submission>): Option<Reference> {
    var inOrder := StableSort.Sorted(Older, submissions);
    if inOrder == [] then None else Some(AbsorbAll(FromLatest(inOrder[|inOrder| - 1]), inOrder))
  }

  method FromSubmissions(submissions: seq<Submission>) returns (r: Option<Reference>)
    ensures r == Merged(submissions)
  {
    var inOrder := StableSort.Sorted(Older, submissions);
    if inOrder == [] { return None; }
    var reference := FromLatest(inOrder[|inOrder| - 1]);
    ghost var goal := AbsorbAll(reference, inOrder);
    assert inOrder[..|inOrder|] == inOrder;
    for i := |inOrder| downto 0
      invariant AbsorbAll(reference, inOrder[..i]) == goal
    {
      assert inOrder[..i + 1][..i] == inOrder[..i];
      var s := inOrder[i];
      var media := AddMissing(reference.media, s.media);
      var tags := AddMissing(reference.tags, s.tags);
      reference := reference.(title := Or(reference.title, s.title), author := Or(reference.author, s.author),
        publishedAt := Or(reference.publishedAt, s.publishedAt), excerpt := Or(reference.excerpt, s.excerpt),
        summary := Or(reference.summary, s.summary), media := media, tags := tags);
    }
    return Some(reference);
  }

  // ----- the order of submissions does not matter -----

  lemma OlderRanks()
    ensures StableSort.Ranks(Older)
  {
  }

  predicate DistinctIds(xs: seq<Submission>) {
    forall a, b :: a in xs && b in xs && a != b ==> a.id != b.id
  }

  /** Any two orders of the same submissions merge to the same reference. */
  lemma MergeIgnoresOrder(xs: seq<Submission>, ys: seq<Submission>)
    requires multiset(xs) == multiset(ys) && DistinctIds(xs)
    ensures Merged(xs) == Merged(ys)
  {
    OlderRanks();
    StableSort.SortedIgnoresOrder(Older, xs, ys);
  }

  // ----- each fact is the newest one known -----

  function Newest<V>(get: Submission -> Option<V>, oldestFirst: seq<Submission>): Option<V> {
    if oldestFirst == [] then None
    else Or(get(oldestFirst[|oldestFirst| - 1]), Newest(get, oldestFirst[..|oldestFirst| - 1]))
  }

  /** `t` was made earlier than `s`, or at the same time with no greater id. */
  predicate NoLater(t: Submission, s: Submission) {
    t.createdAt < s.createdAt || (t.createdAt == s.createdAt && t.id <= s.id)
  }

  /** `v` is the value of a submission than which no other with a value is later, or none has one. */
  ghost predicate IsNewest<V>(get: Submission -> Option<V>, xs: seq<Submission>, v: Option<V>) {
    if v.None? then forall s :: s in xs ==> get(s).None?
    else exists s :: s in xs && get(s) == v && forall t :: t in xs && get(t).Some? ==> NoLater(t, s)
  }

  lemma {:induction false} NewestIsNewest<V>(get: Submission -> Option<V>, oldestFirst: seq<Submission>)
    requires StableSort.Ordered(Older, oldestFirst)
    ensures IsNewest(get, oldestFirst, Newest(get, oldestFirst))
  {
    if oldestFirst != [] {
      var front, last := oldestFirst[..|oldestFirst| - 1], oldestFirst[|oldestFirst| - 1];
      assert oldestFirst == front + [last];
      if get(last).Some? {
        assert forall t :: t in oldestFirst ==> NoLater(t, last);
      } else {
        NewestIsNewest(get, front);
      }
    }
  }

  lemma IsNewestElsewhere<V>(get: Submission -> Option<V>, xs: seq<Submission>, ys: seq<Submission>, v: Option<V>)
    requires multiset(xs) == multiset(ys) && IsNewest(get, xs, v)
    ensures IsNewest(get, ys, v)
  {
    StableSort.SameMembers(xs, ys);
  }

  /** Absorbing fills each absent fact with the newest one. */
  lemma {:induction false} AbsorbAllScalars(r: Reference, oldestFirst: seq<Submission>)
    ensures var m := AbsorbAll(r, oldestFirst);
      && m.title == Or(r.title, Newest((s: Submission) => s.title, oldestFirst))
      && m.author == Or(r.author, Newest((s: Submission) => s.author, oldestFirst))
      && m.publishedAt == Or(r.publishedAt, Newest((s: Submission) => s.publishedAt, oldestFirst))
      && m.excerpt == Or(r.excerpt, Newest((s: Submission) => s.excerpt, oldestFirst))
      && m.summary == Or(r.summary, Newest((s: Submission) => s.summary, oldestFirst))
      && m.sourceUrl == r.sourceUrl && m.contentType == r.contentType && m.provenance == r.provenance
    decreases |oldestFirst|
  {
    if oldestFirst != [] {
      AbsorbAllScalars(Absorb(r, oldestFirst[|oldestFirst| - 1]), oldestFirst[..|oldestFirst| - 1]);
    }
  }

  // ----- lists lose nothing -----

  /** The list a reference gathers: its own members, then each new one, newest submission first. */
  function Gathered(get: Submission -> seq<string>, xs: seq<string>, oldestFirst: seq<Submission>): seq<string>
    decreases |oldestFirst|
  {
    if oldestFirst == [] then xs
    else Gathered(get, AddNew(xs, get(oldestFirst[|oldestFirst| - 1])), oldestFirst[..|oldestFirst| - 1])
  }

  lemma {:induction false} AbsorbAllLists(r: Reference, oldestFirst: seq<Submission>)
    ensures AbsorbAll(r, oldestFirst).tags == Gathered((s: Submission) => s.tags, r.tags, oldestFirst)
    ensures AbsorbAll(r, oldestFirst).media == Gathered((s: Submission) => s.media, r.media, oldestFirst)
    decreases |oldestFirst|
  {
    if oldestFirst != [] {
      AbsorbAllLists(Absorb(r, oldestFirst[|oldestFirst| - 1]), oldestFirst[..|oldestFirst| - 1]);
    }
  }

  lemma {:induction false} GatheredIsUnion(get: Submission -> seq<string>, xs: seq<string>,
      oldestFirst: seq<Submission>)
    ensures AddsOnce(xs, Gathered(get, xs, oldestFirst))
    ensures forall x :: x in Gathered(get, xs, oldestFirst) <==> x in xs || exists s :: s in oldestFirst && x in get(s)
    decreases |oldestFirst|
  {
    if oldestFirst != [] {
      var front, last := oldestFirst[..|oldestFirst| - 1], oldestFirst[|oldestFirst| - 1];
      var more := AddNew(xs, get(last));
      AddNewEffect(xs, get(last));
      GatheredIsUnion(get, more, front);
      AddsOnceTrans(xs, more, Gathered(get, more, front));
      assert oldestFirst == front + [last];
    }
  }

  // ----- what readers see -----

  /** Every fact of the merged reference is the newest one any submission states. */
  lemma FactsAreNewest(xs: seq<Submission>)
    requires xs != []
    ensures var r := Merged(xs);
      && r.Some?
      && IsNewest((s: Submission) => s.title, xs, r.value.title)
      && IsNewest((s: Submission) => s.author, xs, r.value.author)
      && IsNewest((s: Submission) => s.publishedAt, xs, r.value.publishedAt)
      && IsNewest((s: Submission) => s.excerpt, xs, r.value.excerpt)
      && IsNewest((s: Submission) => s.summary, xs, r.value.summary)
  {
    var inOrder := StableSort.Sorted(Older, xs);
    OlderRanks();
    StableSort.SortedEffect(Older, xs);
    StableSort.SameMembers(xs, inOrder);
    AbsorbAllScalars(FromLatest(inOrder[|inOrder| - 1]), inOrder);
    NewestEverywhere((s: Submission) => s.title, xs, inOrder);
    NewestEverywhere((s: Submission) => s.author, xs, inOrder);
    NewestEverywhere((s: Submission) => s.publishedAt, xs, inOrder);
    NewestEverywhere((s: Submission) => s.excerpt, xs, inOrder);
    NewestEverywhere((s: Submission) => s.summary, xs, inOrder);
  }

  lemma NewestEverywhere<V>(get: Submission -> Option<V>, xs: seq<Submission>, inOrder: seq<Submission>)
    requires inOrder != [] && multiset(xs) == multiset(inOrder) && StableSort.Ordered(Older, inOrder)
    ensures Or(get(inOrder[|inOrder| - 1]), Newest(get, inOrder)) == Newest(get, inOrder)
    ensures IsNewest(get, xs, Newest(get, inOrder))
  {
    NewestIsNewest(get, inOrder);
    IsNewestElsewhere(get, inOrder, xs, Newest(get, inOrder));
  }

  /** The submission that decides the location, type and provenance: none is later. */
  ghost predicate IsLatest(xs: seq<Submission>, s: Submission) {
    s in xs && forall t :: t in xs ==> NoLater(t, s)
  }

  /** Tags and media are exactly those of all submissions; the latest submission's come first as given. */
  lemma ListsAreUnions(xs: seq<Submission>)
    requires xs != []
    ensures var r := Merged(xs);
      && r.Some?
      && (forall x :: x in r.value.tags <==> exists s :: s in xs && x in s.tags)
      && (forall x :: x in r.value.media <==> exists s :: s in xs && x in s.media)
      && exists s :: IsLatest(xs, s) && AddsOnce(s.tags, r.value.tags) && AddsOnce(s.media, r.value.media)
           && r.value.sourceUrl == s.sourceUrl && r.value.contentType == s.contentType
           && r.value.provenance == s.provenance
  {
    var inOrder := StableSort.Sorted(Older, xs);
    OlderRanks();
    StableSort.SortedEffect(Older, xs);
    StableSort.SameMembers(xs, inOrder);
    var latest := inOrder[|inOrder| - 1];
    assert latest in inOrder;
    assert IsLatest(xs, latest);
    AbsorbAllLists(FromLatest(latest), inOrder);
    AbsorbAllScalars(FromLatest(latest), inOrder);
    GatheredIsUnion((s: Submission) => s.tags, latest.tags, inOrder);
    GatheredIsUnion((s: Submission) => s.media, latest.media, inOrder);
  }

  // ----- sparse evidence erases nothing -----

  /** A submission that states no fact and lists nothing. */
  predicate Sparse(s: Submission) {
    s.title.None? && s.author.None? && s.publishedAt.None? && s.excerpt.None? && s.summary.None? && s.media == []
        && s.tags == []
  }

  /** `AddNew([], xs)` keeps the first occurrence of each member. */
  lemma {:induction false} FirstOccurrencesCommute(xs: seq<string>, ys: seq<string>)
    ensures AddNew([], AddNew(xs, ys)) == AddNew(AddNew([], xs), ys)
  {
    if ys != [] {
      var front, y := AddNew(xs, ys[..|ys| - 1]), ys[|ys| - 1];
      FirstOccurrencesCommute(xs, ys[..|ys| - 1]);
      AddNewEffect([], front);
      if y !in front { assert (front + [y])[..|front|] == front; }
    }
  }

  lemma {:induction false} GatheredFirstOccurrences(get: Submission -> seq<string>, xs: seq<string>,
      oldestFirst: seq<Submission>)
    ensures AddNew([], Gathered(get, xs, oldestFirst)) == Gathered(get, AddNew([], xs), oldestFirst)
    decreases |oldestFirst|
  {
    if oldestFirst != [] {
      var front, last := oldestFirst[..|oldestFirst| - 1], oldestFirst[|oldestFirst| - 1];
      GatheredFirstOccurrences(get, AddNew(xs, get(last)), front);
      FirstOccurrencesCommute(xs, get(last));
    }
  }

  /** Gathering from nothing is gathering from the latest submission, repetitions within it aside. */
  lemma GatheredFromNothing(get: Submission -> seq<string>, oldestFirst: seq<Submission>)
    requires oldestFirst != []
    ensures Gathered(get, [], oldestFirst)
         == AddNew([], Gathered(get, get(oldestFirst[|oldestFirst| - 1]), oldestFirst))
  {
    var front, latest := oldestFirst[..|oldestFirst| - 1], get(oldestFirst[|oldestFirst| - 1]);
    AddNothingNew(latest, latest);
    GatheredFirstOccurrences(get, latest, front);
  }

  lemma SparseIsNeutral(r: Reference, s: Submission, inOrder: seq<Submission>)
    requires Sparse(s)
    ensures AbsorbAll(r, inOrder + [s]) == AbsorbAll(r, inOrder)
  {
    assert (inOrder + [s])[..|inOrder|] == inOrder;
    assert Absorb(r, s) == r;
  }

  /**
   A newer submission without facts changes only the location, type and provenance; lists lose
   at most repetitions of the same member.
   */
  lemma SparseErasesNothing(xs: seq<Submission>, s: Submission)
    requires xs != [] && Sparse(s) && forall x :: x in xs ==> NoLater(x, s)
    ensures Merged(xs).Some? && Merged(xs + [s]).Some?
    ensures var r := Merged(xs).value;
      Merged(xs + [s]).value == r.(sourceUrl := s.sourceUrl, contentType := s.contentType, provenance := s.provenance,
                                   tags := AddNew([], r.tags), media := AddNew([], r.media))
  {
    var inOrder := StableSort.Sorted(Older, xs);
    OlderRanks();
    StableSort.SortedEffect(Older, xs);
    StableSort.SameMembers(xs, inOrder);
    StableSort.SortedLast(Older, xs, s);
    var latest := inOrder[|inOrder| - 1];
    SparseIsNeutral(FromLatest(s), s, inOrder);
    AbsorbFromSparse(s, latest, inOrder);
  }

  lemma AbsorbFromSparse(s: Submission, latest: Submission, inOrder: seq<Submission>)
    requires inOrder != [] && latest == inOrder[|inOrder| - 1] && Sparse(s)
    ensures var r := AbsorbAll(FromLatest(latest), inOrder);
      AbsorbAll(FromLatest(s), inOrder) ==
          r.(sourceUrl := s.sourceUrl, contentType := s.contentType, provenance := s.provenance,
                                              tags := AddNew([], r.tags), media := AddNew([], r.media))
  {
    AbsorbAllScalars(FromLatest(latest), inOrder);
    AbsorbAllScalars(FromLatest(s), inOrder);
    AbsorbAllLists(FromLatest(latest), inOrder);
    AbsorbAllLists(FromLatest(s), inOrder);
    GatheredFromNothing((x: Submission) => x.tags, inOrder);
    GatheredFromNothing((x: Submission) => x.media, inOrder);
  }

  /** A newer submission overrides facts it states, keeps the others, and adds to the lists. */
  lemma NewerOnlyAdds(xs: seq<Submission>, s: Submission)
    requires xs != [] && forall x :: x in xs ==> NoLater(x, s)
    ensures Merged(xs).Some? && Merged(xs + [s]).Some?
    ensures var r, t := Merged(xs).value, Merged(xs + [s]).value;
      && t.title == Or(s.title, r.title) && t.author == Or(s.author, r.author)
      && t.publishedAt == Or(s.publishedAt, r.publishedAt)
      && t.excerpt == Or(s.excerpt, r.excerpt) && t.summary == Or(s.summary, r.summary)
      && (forall x :: x in t.tags <==> x in s.tags || x in r.tags)
      && (forall x :: x in t.media <==> x in s.media || x in r.media)
  {
    var inOrder := StableSort.Sorted(Older, xs);
    OlderRanks();
    StableSort.SortedEffect(Older, xs);
    StableSort.SameMembers(xs, inOrder);
    StableSort.SortedLast(Older, xs, s);
    assert (inOrder + [s])[..|inOrder|] == inOrder;
    AbsorbAllScalars(FromLatest(inOrder[|inOrder| - 1]), inOrder);
    AbsorbAllScalars(FromLatest(s), inOrder + [s]);
    ListsGrow(xs, s);
  }

  lemma ListsGrow(xs: seq<Submission>, s: Submission)
    requires xs != []
    ensures Merged(xs).Some? && Merged(xs + [s]).Some?
    ensures var r, t := Merged(xs).value, Merged(xs + [s]).value;
      && (forall x :: x in t.tags <==> x in s.tags || x in r.tags)
      && (forall x :: x in t.media <==> x in s.media || x in r.media)
  {
    ListsAreUnions(xs);
    ListsAreUnions(xs + [s]);
  }
}
