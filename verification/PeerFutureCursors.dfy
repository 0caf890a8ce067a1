/** The guard of the peer stream against cursors from the future lets the same cursor through. */
module PeerFutureCursors {
  import opened Wrappers
  import opened Artifacts
  import opened Rejection
  import opened StreamLog
  import opened Nodes
  import opened Cursors
  import opened BootstrapStream
  import opened PeerServing
  import opened PodAnnouncements
  import opened CursorCoverage
  import opened FutureCursors
  import opened PeerStreams
  import PageFailures

  lemma {:induction false} RunExtendsLog(x: Scene, events: seq<PeerEvent>)
    requires PeerWindow(x.node.peer)
    ensures PeerWindow(PlayPeerFrom(x, events).node.peer)
    ensures x.node.peer.stream.history <= PlayPeerFrom(x, events).node.peer.stream.history
  {
    if events != [] {
      RunExtendsLog(x, events[..|events| - 1]);
      ActKeepsLog(PlayPeerFrom(x, events[..|events| - 1]), events[|events| - 1]);
    }
  }

  lemma ActStaysBeyond(x: Scene, e: PeerEvent, p: nat)
    requires PeerWindow(x.node.peer) && Beyond(x.reader, p) && |x.node.peer.stream.history| < U64_MAX
    ensures Beyond(Act(x, e).reader, p)
  {
    if e.PollPeer? && ReadPeer(x.node.peer, x.reader.cursor, e.limit).Ok? {
      PageIsBeyond(x.node.peer.stream, x.node.peer.nextSequence, x.reader, Parse(x.reader.cursor).value,
                   ClampPeerLimit(e.limit), p);
    }
  }

  /** Whatever happens, a reader of the peer stream never gets a row at or before where it resumed. */
  lemma {:induction false} NothingBehindIsServedByPeer(x: Scene, events: seq<PeerEvent>, p: nat)
    requires PeerWindow(x.node.peer) && Beyond(x.reader, p)
    requires |PlayPeerFrom(x, events).node.peer.stream.history| < U64_MAX
    ensures Beyond(PlayPeerFrom(x, events).reader, p)
  {
    if events != [] {
      var front, last := events[..|events| - 1], events[|events| - 1];
      RunExtendsLog(x, front);
      ActKeepsLog(PlayPeerFrom(x, front), last);
      NothingBehindIsServedByPeer(x, front, p);
      ActStaysBeyond(PlayPeerFrom(x, front), last, p);
    }
  }

  // ----- everything ahead of the cursor is reached -----

  function PeerPolls(n: nat): seq<PeerEvent> {
    if n == 0 then [] else PeerPolls(n - 1) + [PollPeer(None, 0)]
  }

  /** A reader before the retained row `q` of a serving node. */
  ghost predicate PeerApproaching(p: PeerService, r: Reader, q: nat) {
    && PeerWindow(p) && p.enabled && |p.stream.history| < U64_MAX
    && Parse(r.cursor) == Some(r.position) && r.position < q <= |p.stream.history| && Oldest(p.stream) <= q
  }

  /** Such a poll is answered from the position, and the node stays as it is. */
  lemma PeerPollServes(x: Scene, q: nat)
    requires PeerApproaching(x.node.peer, x.reader, q)
    ensures Act(x, PollPeer(None, 0)) == Scene(x.node,
        Consume(x.reader, PageAfter(x.node.peer.stream.entries, x.reader.position, ClampPeerLimit(None))))
  {
  }

  lemma PeerPollMovesCloser(x: Scene, q: nat)
    requires PeerApproaching(x.node.peer, x.reader, q)
    ensures var y := Act(x, PollPeer(None, 0));
      && y.node == x.node
      && (x.node.peer.stream.history[q - 1] in y.reader.seen
          || (PeerApproaching(y.node.peer, y.reader, q) && y.reader.position > x.reader.position))
  {
    PeerPollServes(x, q);
    PageMovesCloser(x.node.peer.stream, x.node.peer.nextSequence, x.reader, ClampPeerLimit(None), q);
  }

  lemma PollKeepsSeen(x: Scene, row: Entry)
    requires row in x.reader.seen
    ensures row in Act(x, PollPeer(None, 0)).reader.seen && Act(x, PollPeer(None, 0)).node == x.node
  {
  }

  /** Each poll gets the row or moves the reader closer. */
  lemma {:induction false} PeerPollsApproach(x: Scene, n: nat, q: nat)
    requires PeerApproaching(x.node.peer, x.reader, q)
    ensures var y := PlayPeerFrom(x, PeerPolls(n));
      && y.node == x.node
      && (x.node.peer.stream.history[q - 1] in y.reader.seen
          || (PeerApproaching(y.node.peer, y.reader, q) && y.reader.position >= x.reader.position + n))
  {
    if n > 0 {
      var y := PlayPeerFrom(x, PeerPolls(n - 1));
      PeerPollsApproach(x, n - 1, q);
      assert PeerPolls(n)[..|PeerPolls(n)| - 1] == PeerPolls(n - 1);
      if x.node.peer.stream.history[q - 1] in y.reader.seen {
        PollKeepsSeen(y, x.node.peer.stream.history[q - 1]);
      } else {
        PeerPollMovesCloser(y, q);
      }
    }
  }

  // ----- the exact cursor -----

  /** Some later events let a reader of the peer stream, resumed at `p`, get `row`. */
  ghost predicate PeerCanGet(s: NodeState, p: nat, row: Entry) {
    exists events :: PeerGetsBy(s, p, row, events)
  }

  predicate PeerGetsBy(s: NodeState, p: nat, row: Entry, events: seq<PeerEvent>) {
    var end := PlayPeerFrom(Scene(s, Resuming(p)), events);
    |end.node.peer.stream.history| < U64_MAX && row in end.reader.seen
  }

  /** Only a serving node writes rows. */
  lemma GrowthMeansServing(x: Scene, e: PeerEvent)
    requires PeerWindow(x.node.peer)
    requires |Act(x, e).node.peer.stream.history| > |x.node.peer.stream.history|
    ensures Act(x, e).node.peer.enabled
  {
    if e.Enable? {
      var ad := Issued(e.me, e.v.endpoint.value, e.v.adId, e.at);
      var s := x.node;
      ProjectAllKeepsOffer(Offering(s.peer, ad, e.at),
        WorthServing(s.slots, KeyOrder.InOrder(s.slots.announcements.Keys), e.at), e.at);
    }
  }

  lemma AheadCanBeGot(t: NodeState, p: nat, q: nat)
    requires PeerWindow(t.peer) && t.peer.enabled && |t.peer.stream.history| < U64_MAX
    requires p < q <= |t.peer.stream.history| && Oldest(t.peer.stream) <= q
    ensures PeerCanGet(t, p, t.peer.stream.history[q - 1])
  {
    CursorRoundTrip(p);
    PeerPollsApproach(Scene(t, Resuming(p)), q, q);
    assert PeerGetsBy(t, p, t.peer.stream.history[q - 1], PeerPolls(q));
  }

  lemma BehindIsNeverGot(t: NodeState, p: nat, q: nat)
    requires PeerWindow(t.peer) && 1 <= q <= |t.peer.stream.history| && q <= p <= U64_MAX
    ensures !PeerCanGet(t, p, t.peer.stream.history[q - 1])
  {
    var row := t.peer.stream.history[q - 1];
    CursorRoundTrip(p);
    forall events ensures !PeerGetsBy(t, p, row, events) {
      if |PlayPeerFrom(Scene(t, Resuming(p)), events).node.peer.stream.history| < U64_MAX {
        NothingBehindIsServedByPeer(Scene(t, Resuming(p)), events, p);
      }
    }
  }

  lemma MarkIsAccepted(s: PeerService, p: nat)
    requires s.enabled && p <= s.nextSequence && p <= U64_MAX
    ensures ReadPeer(s, Some(Encode(p)), None).Ok?
  {
    CursorRoundTrip(p);
  }

  /**
   While serving, every position up to the high-water mark is accepted, and the row written next
   can be got from it by later reads, whatever else the node does, exactly when it is not that mark.
   */
  lemma PeerFutureCursorSkipsRow(x: Scene, p: nat, e: PeerEvent)
    requires PeerWindow(x.node.peer) && x.node.peer.enabled && p <= x.node.peer.nextSequence
    requires var s, t := x.node.peer.stream, Act(x, e).node.peer.stream;
      |s.history| < |t.history| < U64_MAX && Oldest(t) <= |s.history| + 1
    ensures ReadPeer(x.node.peer, Some(Encode(p)), None).Ok?
    ensures PeerCanGet(Act(x, e).node, p, Act(x, e).node.peer.stream.history[|x.node.peer.stream.history|])
      <==> p != x.node.peer.nextSequence
  {
    var t, q := Act(x, e).node, |x.node.peer.stream.history| + 1;
    MarkIsAccepted(x.node.peer, p);
    ActKeepsLog(x, e);
    GrowthMeansServing(x, e);
    assert t.peer.stream.history[q - 1] == t.peer.stream.history[|x.node.peer.stream.history|];
    if p < q { AheadCanBeGot(t, p, q); } else { BehindIsNeverGot(t, p, q); }
  }

  /** A node that has just begun to serve accepts cursor 1, from which its first row is never got. */
  lemma FirstRowIsSkipped()
    ensures var s := PageFailures.ServingNode();
      var t := Retain(s, Example(1, 10), LOCAL, 12).state;
      && ReadPeer(s.peer, Some(Encode(1)), None).Ok? && t.peer.stream.history == [PeerRow(1, Example(1, 10), 12)]
      && !PeerCanGet(t, 1, t.peer.stream.history[0]) && PeerCanGet(t, 0, t.peer.stream.history[0])
  {
    PageFailures.ServingNodeServes();
    FirstIsSkipped(PageFailures.ServingNode());
  }

  lemma FirstIsSkipped(s: NodeState)
    requires s.slots == SlotMaps.NO_SLOTS && s.peer.enabled && s.peer.nextSequence == 1
        && s.peer.stream == EMPTY_STREAM
    ensures var t := Retain(s, Example(1, 10), LOCAL, 12).state;
      && ReadPeer(s.peer, Some(Encode(1)), None).Ok? && t.peer.stream.history == [PeerRow(1, Example(1, 10), 12)]
      && !PeerCanGet(t, 1, t.peer.stream.history[0]) && PeerCanGet(t, 0, t.peer.stream.history[0])
  {
    var x, e := Scene(s, NEW_READER), Keep(Example(1, 10), LOCAL, 12);
    ActKeepsLog(x, e);
    assert Act(x, e).node.peer.stream.history == [PeerRow(1, Example(1, 10), 12)];
    PeerFutureCursorSkipsRow(x, 1, e);
    PeerFutureCursorSkipsRow(x, 0, e);
  }
}
