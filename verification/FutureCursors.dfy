/** The guard against cursors from the future, and the one future cursor it lets through. */
module FutureCursors {
  import opened Wrappers
  import opened Artifacts
  import opened SlotMaps
  import opened StreamLog
  import opened KeyOrder
  import opened Nodes
  import opened Cursors
  import opened BootstrapStream
  import opened BootstrapRuns
  import opened CursorCoverage

  /** A reader that resumes at `position`, counting the rows it gets from now on. */
  function Resuming(position: nat): Reader { Reader(Some(Encode(position)), position, [], {}) }

  /** Events after a given scene. */
  function PlayFrom(x: Scene, events: seq<Event>): Scene
    decreases |events|
  {
    if events == [] then x else PlayFrom(Next(x, events[0]), events[1..])
  }

  lemma {:induction false} PlayExtendsLog(x: Scene, events: seq<Event>)
    ensures x.node.stream.history <= PlayFrom(x, events).node.stream.history
    decreases |events|
  {
    if events != [] {
      NextExtendsLog(x, events[0]);
      PlayExtendsLog(Next(x, events[0]), events[1..]);
    }
  }

  // ----- never behind the cursor -----

  /** The reader's cursor is at `p` or later, and so are all rows it got, `p` itself excluded. */
  ghost predicate Beyond(r: Reader, p: nat) {
    && Parse(r.cursor).Some? && Parse(r.cursor).value >= p
    && forall e :: e in r.seen ==> e.sequence > p
  }

  lemma RowsAreNumbered(s: Stream, next: nat, lo: nat, hi: nat)
    requires Window(s, next) && 1 <= lo <= hi <= next
    ensures forall e :: e in Rows(s.history, lo, hi) ==> lo <= e.sequence
  {
    var rows := Rows(s.history, lo, hi);
    forall i | 0 <= i < |rows| ensures rows[i].sequence == lo + i {
      assert rows[i] == s.history[lo - 1 + i];
    }
  }

  lemma PageIsBeyond(s: Stream, next: nat, r: Reader, after: nat, limit: nat, p: nat)
    requires Window(s, next) && next <= U64_MAX && limit > 0
    requires Beyond(r, p) && Parse(r.cursor) == Some(after)
    ensures Beyond(Consume(r, PageAfter(s.entries, after, limit)), p)
  {
    PageShape(s, next, after, limit);
    var lo := Later(after + 1, Oldest(s));
    if lo < next { RowsAreNumbered(s, next, lo, Earlier(lo + limit, next)); }
  }

  lemma NextStaysBeyond(x: Scene, e: Event, p: nat)
    requires NodeInv(x.node) && Beyond(x.reader, p)
    requires |Next(x, e).node.stream.history| < U64_MAX
    ensures NodeInv(Next(x, e).node) && Beyond(Next(x, e).reader, p)
  {
    match e
    case Serve(step) => StepKeeps(x.node, step);
    case Poll(limit, now) =>
      var r := Read(x.node, x.reader.cursor, limit, true, now);
      if r.result.Ok? {
        SweepKeeps(x.node, now);
        var t := Sweep(x.node, now);
        PageIsBeyond(t.stream, t.Ensured().nextSequence, x.reader, Parse(x.reader.cursor).value, ClampLimit(limit), p);
      }
  }

  /** Whatever happens, a reader never gets a row at or before the position it resumed from. */
  lemma {:induction false} NothingBehindIsServed(x: Scene, events: seq<Event>, p: nat)
    requires NodeInv(x.node) && Beyond(x.reader, p)
    requires |PlayFrom(x, events).node.stream.history| < U64_MAX
    ensures Beyond(PlayFrom(x, events).reader, p)
    decreases |events|
  {
    if events != [] {
      PlayExtendsLog(Next(x, events[0]), events[1..]);
      NextStaysBeyond(x, events[0], p);
      NothingBehindIsServed(Next(x, events[0]), events[1..], p);
    }
  }

  // ----- everything ahead of the cursor is reached -----

  /** No lease has lapsed at `now`. */
  predicate AllLeased(s: Slots, now: Time) {
    forall k :: k in s.announcements ==> s.announcements[k].announcement.LeaseIsActive(now)
  }

  lemma {:induction false} EarlyTime(s: Slots, keys: set<PodKey>) returns (now: Time)
    requires keys <= s.announcements.Keys
    ensures forall k :: k in keys ==> s.announcements[k].announcement.LeaseIsActive(now)
    decreases keys
  {
    if keys == {} {
      now := 0;
    } else {
      var k :| k in keys;
      now := EarlyTime(s, keys - {k});
      if now >= s.announcements[k].announcement.expiresAt { now := s.announcements[k].announcement.expiresAt - 1; }
    }
  }

  lemma {:induction false} NothingLapsed(s: Slots, keys: seq<PodKey>, now: Time)
    requires AllLeased(s, now)
    ensures Lapsed(s, keys, now) == []
  {
    if keys != [] { NothingLapsed(s, keys[..|keys| - 1], now); }
  }

  /** A sweep that finds nothing lapsed writes nothing. */
  lemma QuietSweep(s: NodeState, now: Time)
    requires LogInv(s) && AllLeased(s.slots, now)
    ensures var t := Sweep(s, now);
      t.stream == s.stream && t.slots == s.slots && t.Ensured().nextSequence == s.Ensured().nextSequence && LogInv(t)
  {
    NothingLapsed(s.slots, InOrder(s.Ensured().admittedKeys), now);
  }

  /** A reader before the retained row `q` of a node on which nothing has lapsed at `now`. */
  ghost predicate Approaching(x: Scene, now: Time, q: nat) {
    && LogInv(x.node) && AllLeased(x.node.slots, now) && |x.node.stream.history| < U64_MAX
    && Parse(x.reader.cursor) == Some(x.reader.position)
    && x.reader.position < q <= |x.node.stream.history| && Oldest(x.node.stream) <= q
  }

  /** Such a poll changes no row and serves the page after the position. */
  lemma PollServes(x: Scene, now: Time, q: nat)
    requires Approaching(x, now, q)
    ensures var y := Next(x, Poll(None, now));
      && y.reader == Consume(x.reader, PageAfter(x.node.stream.entries, x.reader.position, ClampLimit(None)))
      && LogInv(y.node) && y.node.slots == x.node.slots && y.node.stream == x.node.stream
  {
    QuietSweep(x.node, now);
    HighWaterIsNext(x.node);
    if x.node.runtime.None? { EmptyWithoutRuntime(x.node); }
  }

  /** The page gets the row, or moves the reader closer. */
  lemma PageMovesCloser(s: Stream, next: nat, r: Reader, limit: nat, q: nat)
    requires Window(s, next) && next <= U64_MAX && limit > 0
    requires Parse(r.cursor) == Some(r.position) && r.position < q < next && Oldest(s) <= q
    ensures var after := Consume(r, PageAfter(s.entries, r.position, limit));
      && Parse(after.cursor) == Some(after.position) && after.position > r.position
      && (s.history[q - 1] in after.seen || after.position < q)
  {
    PageShape(s, next, r.position, limit);
    var lo := Later(r.position + 1, Oldest(s));
    var last := Earlier(lo + limit, next) - 1;
    RowsMoveCloser(s.history, r, PageAfter(s.entries, r.position, limit), lo, last, q);
  }

  lemma RowsMoveCloser(history: seq<Entry>, r: Reader, page: Page, lo: nat, last: nat, q: nat)
    requires r.position < lo <= q && lo <= last <= |history| && q <= |history|
    requires page.entries != [] && page.entries == Rows(history, lo, last + 1)
    requires page.entries[|page.entries| - 1].sequence == last && Parse(page.nextCursor) == Some(last)
    ensures var after := Consume(r, page);
      && Parse(after.cursor) == Some(after.position) && after.position > r.position
      && (history[q - 1] in after.seen || after.position < q)
  {
    if q <= last { RowIsInRows(history, lo, last + 1, q); }
  }

  lemma PollMovesCloser(x: Scene, now: Time, q: nat)
    requires Approaching(x, now, q)
    ensures var y := Next(x, Poll(None, now));
      && y.node.stream == x.node.stream
      && (x.node.stream.history[q - 1] in y.reader.seen
          || (Approaching(y, now, q) && y.reader.position > x.reader.position))
  {
    PollServes(x, now, q);
    PageMovesCloser(x.node.stream, x.node.Ensured().nextSequence, x.reader, ClampLimit(None), q);
  }

  lemma EmptyWithoutRuntime(s: NodeState)
    requires LogInv(s) && s.runtime.None?
    ensures s.stream.history == []
  {
  }

  lemma RowIsInRows(history: seq<Entry>, lo: nat, hi: nat, q: nat)
    requires 1 <= lo <= q < hi <= |history| + 1
    ensures history[q - 1] in Rows(history, lo, hi)
  {
    assert Rows(history, lo, hi)[q - lo] == history[q - 1];
  }

  predicate Polls(events: seq<Event>) {
    forall i :: 0 <= i < |events| ==> events[i].Poll?
  }

  /** Polling on reaches every retained row ahead of the cursor. */
  lemma {:induction false} PollsReachRow(x: Scene, now: Time, q: nat) returns (events: seq<Event>)
    requires Approaching(x, now, q)
    ensures Polls(events) && PlayFrom(x, events).node.stream == x.node.stream
    ensures x.node.stream.history[q - 1] in PlayFrom(x, events).reader.seen
    decreases q - x.reader.position
  {
    var y := Next(x, Poll(None, now));
    PollMovesCloser(x, now, q);
    if x.node.stream.history[q - 1] in y.reader.seen {
      events := [Poll(None, now)];
      PlayCons(x, Poll(None, now), []);
    } else {
      var rest := PollsReachRow(y, now, q);
      events := [Poll(None, now)] + rest;
      PlayCons(x, Poll(None, now), rest);
    }
  }

  lemma PlayCons(x: Scene, e: Event, rest: seq<Event>)
    ensures PlayFrom(x, [e] + rest) == PlayFrom(Next(x, e), rest)
    ensures rest == [] ==> PlayFrom(x, [e]) == Next(x, e)
  {
    assert ([e] + rest)[1..] == rest;
  }

  // ----- the exact cursor -----

  /** Some later events let the reader, resumed at `p`, get `row`. */
  ghost predicate CanGet(s: NodeState, p: nat, row: Entry) {
    exists events :: GetsBy(s, p, row, events)
  }

  predicate GetsBy(s: NodeState, p: nat, row: Entry, events: seq<Event>) {
    var end := PlayFrom(Scene(s, Resuming(p)), events);
    |end.node.stream.history| < U64_MAX && row in end.reader.seen
  }

  /**
   Every position up to the high-water mark is accepted, and the row written next can be got
   from it by later reads, whatever else the node does, if and only if it is not that mark.
   */
  lemma FutureCursorSkipsRow(s: NodeState, p: nat, step: Step, now: Time)
    requires NodeInv(s) && p <= HighWaterMark(s.stream.entries, s.runtime)
    requires var t := Apply(s, step).stream;
      |s.stream.history| < |t.history| < U64_MAX && Oldest(t) <= |s.stream.history| + 1
    ensures Read(s, Some(Encode(p)), None, true, now).result.Ok?
    ensures CanGet(Apply(s, step), p, Apply(s, step).stream.history[|s.stream.history|])
      <==> p != s.Ensured().nextSequence
  {
    var t, q := Apply(s, step), |s.stream.history| + 1;
    var row := t.stream.history[q - 1];
    HighWaterIsNext(s);
    CursorRoundTrip(p);
    StepKeeps(s, step);
    if p < q {
      var early := EarlyTime(t.slots, t.slots.announcements.Keys);
      var events := PollsReachRow(Scene(t, Resuming(p)), early, q);
      assert GetsBy(t, p, row, events);
    } else {
      forall events ensures !GetsBy(t, p, row, events) {
        if |PlayFrom(Scene(t, Resuming(p)), events).node.stream.history| < U64_MAX {
          NothingBehindIsServed(Scene(t, Resuming(p)), events, p);
        }
      }
    }
  }
}
