/**
 What a reader that follows issued cursors sees of a log that is appended to, swept and pruned
 between its reads.
 */
module CursorCoverage {
  import opened Wrappers
  import opened Artifacts
  import opened StreamLog
  import opened Nodes
  import opened Cursors
  import opened BootstrapStream
  import opened BootstrapAdmission
  import opened BootstrapRuns

  /** A reader: its resume cursor, the position it stands for, the rows seen and the sequences missed. */
  datatype Reader = Reader(cursor: Option<string>, position: nat, seen: seq<Entry>, missed: set<nat>)

  const NEW_READER := Reader(None, 0, [], {})

  /** The rows of the complete log up to `n`, without the missed ones. */
  function Unmissed(history: seq<Entry>, missed: set<nat>, n: nat): seq<Entry>
    requires n <= |history|
  {
    if n == 0 then []
    else Unmissed(history, missed, n - 1) + if n in missed then [] else [history[n - 1]]
  }

  /** The sequences skipped when a page starts at `first` although `position` was the last consumed. */
  function Skipped(position: nat, first: nat): (skipped: set<nat>)
    ensures forall q :: q in skipped <==> position < q < first
  {
    if first <= position + 1 then {} else Skipped(position, first - 1) + {first - 1}
  }

  function Consume(r: Reader, page: Page): Reader {
    if page.entries == [] then r
    else
      Reader(page.nextCursor, page.entries[|page.entries| - 1].sequence, r.seen + page.entries,
             r.missed + Skipped(r.position, page.entries[0].sequence))
  }

  /**
   The reader saw every row up to its position exactly once and in order, except the missed
   ones; and every missed row had been pruned.
   */
  ghost predicate Covers(s: Stream, r: Reader) {
    && r.position <= |s.history|
    && Parse(r.cursor) == Some(r.position)
    && r.seen == Unmissed(s.history, r.missed, r.position)
    && (forall q :: q in r.missed ==> 1 <= q <= r.position && q < Oldest(s))
  }

  lemma {:induction false} UnmissedExtends(history: seq<Entry>, longer: seq<Entry>, missed: set<nat>, more: set<nat>,
      n: nat)
    requires history <= longer && n <= |history|
    requires missed <= more && forall q :: q in more && q !in missed ==> q > n
    ensures Unmissed(history, missed, n) == Unmissed(longer, more, n)
  {
    if n > 0 {
      UnmissedExtends(history, longer, missed, more, n - 1);
    }
  }

  /** A longer log with the same beginning is still covered. */
  lemma GrowthKeepsCover(s: Stream, t: Stream, r: Reader)
    requires Covers(s, r) && s.history <= t.history
    ensures Covers(t, r)
  {
    UnmissedExtends(s.history, t.history, r.missed, r.missed, r.position);
  }

  lemma {:induction false} UnmissedGap(history: seq<Entry>, missed: set<nat>, from: nat, n: nat)
    requires from <= n <= |history|
    requires forall q :: from < q <= n ==> q in missed
    ensures Unmissed(history, missed, n) == Unmissed(history, missed, from)
    decreases n
  {
    if from < n {
      UnmissedGap(history, missed, from, n - 1);
    }
  }

  lemma RowsSnoc(history: seq<Entry>, lo: nat, n: nat)
    requires 1 <= lo <= n <= |history|
    ensures Rows(history, lo, n + 1) == Rows(history, lo, n) + [history[n - 1]]
  {
  }

  lemma {:induction false} UnmissedStretch(history: seq<Entry>, missed: set<nat>, lo: nat, n: nat)
    requires 1 <= lo <= n + 1 && n <= |history|
    requires forall q :: lo <= q <= n ==> q !in missed
    ensures Unmissed(history, missed, n) == Unmissed(history, missed, lo - 1) + Rows(history, lo, n + 1)
    decreases n
  {
    if n >= lo {
      UnmissedStretch(history, missed, lo, n - 1);
      RowsSnoc(history, lo, n);
    }
  }

  /** The page after `position`: where it starts, where it ends, and what its cursor says. */
  lemma PageShape(s: Stream, next: nat, position: nat, limit: nat)
    requires Window(s, next) && next <= U64_MAX && limit > 0
    ensures var page := PageAfter(s.entries, position, limit);
      var lo := Later(position + 1, Oldest(s));
      var last := Earlier(lo + limit, next) - 1;
      && (page.entries == [] <==> lo >= next)
      && (lo < next ==>
            && page.entries == Rows(s.history, lo, last + 1)
            && page.entries[0].sequence == lo && page.entries[|page.entries| - 1].sequence == last
            && Parse(page.nextCursor) == Some(last))
  {
    RangeIsHistory(s, next, position + 1, limit);
    var lo := Later(position + 1, Oldest(s));
    if lo < next {
      CursorRoundTrip(Earlier(lo + limit, next) - 1);
    }
  }

  /** Consuming the rows `lo .. last` behind which everything was pruned keeps the cover. */
  lemma ConsumeKeepsCover(s: Stream, r: Reader, page: Page, lo: nat, last: nat)
    requires Covers(s, r)
    requires lo == Later(r.position + 1, Oldest(s)) && lo <= last <= |s.history|
    requires page.entries != [] && page.entries == Rows(s.history, lo, last + 1)
    requires page.entries[0].sequence == lo && page.entries[|page.entries| - 1].sequence == last
    requires Parse(page.nextCursor) == Some(last)
    ensures Covers(s, Consume(r, page))
    ensures Consume(r, page).missed == r.missed + Skipped(r.position, Oldest(s))
  {
    var missed := r.missed + Skipped(r.position, lo);
    UnmissedExtends(s.history, s.history, r.missed, missed, r.position);
    UnmissedGap(s.history, missed, r.position, lo - 1);
    UnmissedStretch(s.history, missed, lo, last);
    assert Skipped(r.position, lo) == Skipped(r.position, Oldest(s));
  }

  /**
   Reading from an issued cursor: the page continues the reader's view without repeats, and
   the only rows lost are those already pruned from behind the reader.
   */
  lemma PageContinuesCover(s: Stream, next: nat, r: Reader, limit: nat)
    requires Window(s, next) && next <= U64_MAX && limit > 0
    requires Covers(s, r)
    ensures var page := PageAfter(s.entries, r.position, limit);
      var after := Consume(r, page);
      && Covers(s, after)
      && (page.entries == [] <==> r.position == |s.history|)
      && after.missed == r.missed + (if page.entries == [] then {} else Skipped(r.position, Oldest(s)))
  {
    PageShape(s, next, r.position, limit);
    var lo := Later(r.position + 1, Oldest(s));
    if lo < next {
      ConsumeKeepsCover(s, r, PageAfter(s.entries, r.position, limit), lo, Earlier(lo + limit, next) - 1);
    }
  }

  /** A reader that is never more than the retained window behind misses nothing. */
  lemma PromptPageMissesNothing(s: Stream, next: nat, r: Reader, limit: nat)
    requires Window(s, next) && next <= U64_MAX && limit > 0
    requires Covers(s, r) && r.missed == {}
    requires |s.history| - r.position <= MAX_STREAM_ENTRIES
    ensures Consume(r, PageAfter(s.entries, r.position, limit)).missed == {}
  {
    PageContinuesCover(s, next, r, limit);
  }

  lemma {:induction false} NothingMissed(history: seq<Entry>, n: nat)
    requires n <= |history|
    ensures Unmissed(history, {}, n) == history[..n]
  {
    if n > 0 {
      NothingMissed(history, n - 1);
      assert history[..n] == history[..n - 1] + [history[n - 1]];
    }
  }

  // ----- a reader beside a running Bootstrap node -----

  /** Server operations interleaved with reads by this reader. */
  datatype Event = Serve(step: Step) | Poll(limit: Option<nat>, now: Time)

  datatype Scene = Scene(node: NodeState, reader: Reader)

  const OPENING := Scene(NEW_NODE, NEW_READER)

  function Next(x: Scene, e: Event): Scene {
    match e
    case Serve(step) => Scene(Apply(x.node, step), x.reader)
    case Poll(limit, now) =>
      var r := Read(x.node, x.reader.cursor, limit, true, now);
      Scene(r.state, if r.result.Ok? then Consume(x.reader, r.result.value) else x.reader)
  }

  function Play(events: seq<Event>): Scene {
    if events == [] then OPENING else Next(Play(events[..|events| - 1]), events[|events| - 1])
  }

  lemma {:induction false} ExpireAllExtendsLog(s: NodeState, l: seq<Announcement>, now: Time)
    ensures s.stream.history <= ExpireAll(s, l, now).stream.history
  {
    if l != [] {
      ExpireAllExtendsLog(s, l[..|l| - 1], now);
    }
  }

  lemma SweepExtendsLog(s: NodeState, now: Time)
    ensures s.stream.history <= Sweep(s, now).stream.history
  {
    ExpireAllExtendsLog(DropOrphans(s), Lapsed(s.slots, KeyOrder.InOrder(s.Ensured().admittedKeys), now), now);
  }

  lemma SubmitExtendsLog(s: NodeState, a: Announcement, bytes: nat, probe: Result<ManifestView, ProbeError>,
      enabled: bool, now: Time)
    ensures s.stream.history <= Admit(s, a, bytes, probe, enabled, now).state.stream.history
  {
  }

  lemma WithdrawalExtendsLog(s: NodeState, w: Withdrawal, bytes: nat, enabled: bool, peer: Option<Uuid>, now: Time)
    ensures s.stream.history <= AdmitWithdrawal(s, w, bytes, enabled, now).state.stream.history
    ensures s.stream.history <= RetainAndProject(s, w, peer, now).stream.history
  {
  }

  /** The complete log only grows. */
  lemma StepExtendsLog(s: NodeState, step: Step)
    ensures s.stream.history <= Apply(s, step).stream.history
  {
    match step
    case Submit(a, bytes, probe, enabled, now) => SubmitExtendsLog(s, a, bytes, probe, enabled, now);
    case SubmitWithdrawal(w, bytes, enabled, now) => WithdrawalExtendsLog(s, w, bytes, enabled, None, now);
    case SweepExpiry(now) => SweepExtendsLog(s, now);
    case ReadPage(cursor, limit, enabled, now) => SweepExtendsLog(s, now);
    case Receive(a, from, now) =>
    case ReceiveWithdrawal(w, peer, now) => WithdrawalExtendsLog(s, w, 0, true, peer, now);
  }

  /** The position past which cursors are refused. */
  lemma HighWaterIsNext(s: NodeState)
    requires LogInv(s)
    ensures HighWaterMark(s.stream.entries, s.runtime) == if s.runtime.Some? then s.Ensured().nextSequence else 0
  {
    WindowSize(s.stream, s.Ensured().nextSequence);
    if s.stream.entries.Keys != {} {
      assert s.Ensured().nextSequence - 1 in s.stream.entries.Keys;
    }
    assert s.runtime.None? ==> s.stream.entries.Keys == {};
  }

  /** An issued cursor is never refused, and it is answered from the swept log. */
  lemma PollAnswers(x: Scene, limit: Option<nat>, now: Time)
    requires LogInv(x.node) && Covers(x.node.stream, x.reader)
    ensures Read(x.node, x.reader.cursor, limit, true, now).result.Ok?
    ensures var y := Next(x, Poll(limit, now));
      && y.node == Sweep(x.node, now)
      && y.reader == Consume(x.reader, PageAfter(y.node.stream.entries, x.reader.position, ClampLimit(limit)))
  {
    HighWaterIsNext(x.node);
  }

  lemma SweptCovers(s: NodeState, r: Reader, limit: Option<nat>, now: Time)
    requires NodeInv(s) && Covers(s.stream, r) && |Sweep(s, now).stream.history| < U64_MAX
    ensures var t := Sweep(s, now);
      && Window(t.stream, t.Ensured().nextSequence)
      && Covers(t.stream, Consume(r, PageAfter(t.stream.entries, r.position, ClampLimit(limit))))
  {
    SweepEffect(s, now);
    SweepExtendsLog(s, now);
    GrowthKeepsCover(s.stream, Sweep(s, now).stream, r);
    PageContinuesCover(Sweep(s, now).stream, Sweep(s, now).Ensured().nextSequence, r, ClampLimit(limit));
  }

  /** An issued cursor is never refused, and the page continues the reader's view. */
  lemma PollContinues(x: Scene, limit: Option<nat>, now: Time)
    requires NodeInv(x.node) && Covers(x.node.stream, x.reader)
    requires |Sweep(x.node, now).stream.history| < U64_MAX
    ensures Read(x.node, x.reader.cursor, limit, true, now).result.Ok?
    ensures var y := Next(x, Poll(limit, now));
      && y.node == Sweep(x.node, now)
      && y.reader == Consume(x.reader, PageAfter(y.node.stream.entries, x.reader.position, ClampLimit(limit)))
      && Covers(y.node.stream, y.reader)
      && Window(y.node.stream, y.node.Ensured().nextSequence)
  {
    PollAnswers(x, limit, now);
    SweptCovers(x.node, x.reader, limit, now);
  }

  lemma NextExtendsLog(x: Scene, e: Event)
    ensures x.node.stream.history <= Next(x, e).node.stream.history
  {
    match e
    case Serve(step) => StepExtendsLog(x.node, step);
    case Poll(limit, now) => SweepExtendsLog(x.node, now);
  }

  lemma NextKeeps(x: Scene, e: Event)
    requires NodeInv(x.node) && Covers(x.node.stream, x.reader)
    requires |Next(x, e).node.stream.history| < U64_MAX
    ensures NodeInv(Next(x, e).node) && Covers(Next(x, e).node.stream, Next(x, e).reader)
  {
    match e
    case Serve(step) =>
      StepKeeps(x.node, step);
      StepExtendsLog(x.node, step);
      GrowthKeepsCover(x.node.stream, Apply(x.node, step).stream, x.reader);
    case Poll(limit, now) =>
      assert Next(x, e).node == x.node || Next(x, e).node == Sweep(x.node, now);
      if Next(x, e).node == Sweep(x.node, now) {
        SweepKeeps(x.node, now);
        PollContinues(x, limit, now);
      }
  }

  /** Cursor coverage over every interleaving of server operations and reads. */
  lemma {:induction false} ReaderCovers(events: seq<Event>)
    requires |Play(events).node.stream.history| < U64_MAX
    ensures NodeInv(Play(events).node)
    ensures Covers(Play(events).node.stream, Play(events).reader)
  {
    if events == [] {
      NewNodeInv();
    } else {
      var front, last := events[..|events| - 1], events[|events| - 1];
      NextExtendsLog(Play(front), last);
      ReaderCovers(front);
      NextKeeps(Play(front), last);
    }
  }

  /** Every poll finds the reader within the retained window of the swept log. */
  predicate Prompt(events: seq<Event>) {
    forall i :: 0 <= i < |events| && events[i].Poll? ==>
      var x := Play(events[..i]);
      |Sweep(x.node, events[i].now).stream.history| - x.reader.position <= MAX_STREAM_ENTRIES
  }

  /** A reader that polls before 8192 rows pass it sees the complete log, row for row. */
  lemma {:induction false} PromptReaderSeesAll(events: seq<Event>)
    requires |Play(events).node.stream.history| < U64_MAX
    requires Prompt(events)
    ensures Play(events).reader.missed == {}
    ensures Play(events).reader.position <= |Play(events).node.stream.history|
    ensures Play(events).reader.seen == Play(events).node.stream.history[..Play(events).reader.position]
  {
    ReaderCovers(events);
    PromptMisses(events);
    NothingMissed(Play(events).node.stream.history, Play(events).reader.position);
  }

  lemma {:induction false} PromptMisses(events: seq<Event>)
    requires |Play(events).node.stream.history| < U64_MAX
    requires Prompt(events)
    ensures Play(events).reader.missed == {}
  {
    if events != [] {
      var front, last := events[..|events| - 1], events[|events| - 1];
      NextExtendsLog(Play(front), last);
      assert Prompt(front) by {
        forall i | 0 <= i < |front| && front[i].Poll?
          ensures var x := Play(front[..i]);
            |Sweep(x.node, front[i].now).stream.history| - x.reader.position <= MAX_STREAM_ENTRIES
        {
          assert front[..i] == events[..i];
        }
      }
      PromptMisses(front);
      ReaderCovers(front);
      var x := Play(front);
      if last.Poll? && Next(x, last).node == Sweep(x.node, last.now) {
        PollContinues(x, last.limit, last.now);
        SweepExtendsLog(x.node, last.now);
        var t := Sweep(x.node, last.now);
        GrowthKeepsCover(x.node.stream, t.stream, x.reader);
        PromptPageMissesNothing(t.stream, t.Ensured().nextSequence, x.reader, ClampLimit(last.limit));
      }
    }
  }
}
