/**
 Redelivering a batch is a no-op: applying the same deliveries twice, at one instant and from
 one source, leaves exactly the slot that applying them once leaves, superseded withdrawals
 and provenance included.
 */
module Redelivery {
  import opened Wrappers
  import opened Artifacts
  import opened Retention
  import opened Convergence
  import opened SlotMaps

  /** One batch: every delivery at `now`, announcements from `from`, withdrawals from no peer. */
  predicate Batch(ds: seq<Delivery>, from: Provenance, now: Time) {
    forall i :: 0 <= i < |ds| ==> InBatch(ds[i], from, now)
  }

  predicate InBatch(d: Delivery, from: Provenance, now: Time) {
    d.at == now && (if d.OfAnnouncement? then d.from == from else d.peer == None)
  }

  lemma RunCons(s: Slot, d: Delivery, ds: seq<Delivery>)
    ensures Run(s, [d] + ds) == Run(Deliver(s, d), ds)
  {
    RunAppend(s, [d], ds);
    assert [d][..0] == [];
    assert Run(s, [d]) == Deliver(s, d);
  }

  predicate Live(d: Delivery) {
    d.OfAnnouncement? && Usable(d.a) && d.a.LeaseIsActive(d.at)
  }

  predicate Accepts(s: Slot, d: Delivery) {
    d.OfAnnouncement? && Announce(s, d.a, d.from, d.at).result.Ok?
  }

  predicate Removes(s: Slot, d: Delivery) {
    d.OfWithdrawal? && s.ann.Some? && Deliver(s, d).ann.None?
  }

  /** The announcement is replaced, refreshed or removed. */
  predicate Changes(s: Slot, d: Delivery) { Accepts(s, d) || Removes(s, d) }

  // ----- deliveries that cannot touch the announcement -----

  predicate Calm(ann: Option<KnownAnnouncement>, d: Delivery) {
    && (Live(d) ==> ann.Some? && Outranks(ann.value.announcement, d.a))
    && (d.OfWithdrawal? && d.w.Verify() && ann.Some? ==> d.w.withdrawnAt < ann.value.announcement.announcedAt)
  }

  predicate AllCalm(ann: Option<KnownAnnouncement>, ds: seq<Delivery>) {
    forall i :: 0 <= i < |ds| ==> Calm(ann, ds[i])
  }

  lemma CalmStep(s: Slot, d: Delivery)
    requires Sound(s) && Calm(s.ann, d)
    ensures Deliver(s, d).ann == s.ann && Sound(Deliver(s, d))
  {
    DeliverKeepsSound(s, d);
    if Live(d) { PreferenceIgnoresClock(s.ann.value.announcement, d.a, d.at); }
  }

  lemma {:induction false} CalmRun(s: Slot, ds: seq<Delivery>)
    requires Sound(s) && AllCalm(s.ann, ds)
    ensures Run(s, ds).ann == s.ann && Sound(Run(s, ds))
  {
    if ds != [] {
      CalmRun(s, ds[..|ds| - 1]);
      CalmStep(Run(s, ds[..|ds| - 1]), ds[|ds| - 1]);
    }
  }

  /** A withdrawal record as the batch writes it. */
  predicate Written(wd: Option<KnownWithdrawal>, now: Time) {
    wd.Some? ==> wd.value == KnownWithdrawal(wd.value.withdrawal, None, now)
  }

  /** `z` is not later than `x`. */
  predicate NotLater(z: Option<KnownWithdrawal>, x: Option<KnownWithdrawal>) {
    z.Some? ==> x.Some? && z.value.withdrawal.withdrawnAt <= x.value.withdrawal.withdrawnAt
  }

  /** A written record no later than `x` either ends as `x` does, or `x` is untouched. */
  lemma {:induction false} Absorbs(z: Slot, x: Slot, ds: seq<Delivery>, from: Provenance, now: Time)
    requires Sound(z) && Sound(x) && z.ann == x.ann
    requires AllCalm(x.ann, ds) && Batch(ds, from, now)
    requires Written(z.wd, now) && NotLater(z.wd, x.wd)
    ensures Run(x, ds) == x || Run(z, ds) == Run(x, ds)
    decreases |ds|
  {
    if ds != [] {
      var d, rest := ds[0], ds[1..];
      assert ds == [d] + rest;
      assert InBatch(d, from, now) && Calm(x.ann, d);
      RunCons(z, d, rest);
      RunCons(x, d, rest);
      CalmStep(z, d);
      CalmStep(x, d);
      if Deliver(x, d) == x {
        AbsorbStep(z, x, d, from, now);
        Absorbs(Deliver(z, d), x, rest, from, now);
      } else {
        AbsorbStep(z, x, d, from, now);
      }
    }
  }

  lemma AbsorbStep(z: Slot, x: Slot, d: Delivery, from: Provenance, now: Time)
    requires Sound(z) && Sound(x) && z.ann == x.ann
    requires Calm(x.ann, d) && InBatch(d, from, now)
    requires Written(z.wd, now) && NotLater(z.wd, x.wd)
    ensures if Deliver(x, d) == x
      then Written(Deliver(z, d).wd, now) && NotLater(Deliver(z, d).wd, x.wd)
      else Deliver(z, d) == Deliver(x, d)
  {
    CalmStep(z, d);
    CalmStep(x, d);
  }

  /** With the announcement out of reach, running the batch twice is running it once. */
  lemma {:induction false} CalmTwiceIsOnce(s: Slot, ds: seq<Delivery>, from: Provenance, now: Time)
    requires Sound(s) && AllCalm(s.ann, ds) && Batch(ds, from, now)
    ensures Run(Run(s, ds), ds) == Run(s, ds)
    decreases |ds|
  {
    if ds != [] {
      var d, rest := ds[0], ds[1..];
      assert ds == [d] + rest;
      assert InBatch(d, from, now) && Calm(s.ann, d);
      CalmStep(s, d);
      RunCons(s, d, rest);
      var x := Deliver(s, d);
      var y := Run(x, rest);
      CalmTwiceIsOnce(x, rest, from, now);
      CalmRun(x, rest);
      RunCons(y, d, rest);
      CalmStep(y, d);
      if Deliver(y, d) != y && x == s {
        var z := Deliver(y, d);
        HitIsWritten(y, s, d, from, now);
        Absorbs(z, x, rest, from, now);
      } else if Deliver(y, d) != y {
        HitIsSame(y, s, d, from, now);
      }
    }
  }

  lemma HitIsWritten(y: Slot, x: Slot, d: Delivery, from: Provenance, now: Time)
    requires Sound(x) && Sound(y) && x.ann == y.ann && Calm(x.ann, d) && InBatch(d, from, now)
    requires Deliver(x, d) == x && Deliver(y, d) != y
    ensures Written(Deliver(y, d).wd, now) && NotLater(Deliver(y, d).wd, x.wd) && Deliver(y, d).ann == x.ann
  {
    CalmStep(x, d);
    CalmStep(y, d);
  }

  lemma HitIsSame(y: Slot, x: Slot, d: Delivery, from: Provenance, now: Time)
    requires Sound(x) && Sound(y) && x.ann == y.ann && Calm(x.ann, d) && InBatch(d, from, now)
    requires Deliver(x, d) != x && Deliver(y, d) != y
    ensures Deliver(y, d) == Deliver(x, d)
  {
    CalmStep(x, d);
    CalmStep(y, d);
  }

  // ----- runs that leave the announcement alone -----

  predicate Unchanging(s: Slot, ds: seq<Delivery>) {
    ds == [] || (Unchanging(s, ds[..|ds| - 1]) && !Changes(Run(s, ds[..|ds| - 1]), ds[|ds| - 1]))
  }

  /** A delivery that does not change a kept announcement is calm for it. */
  lemma UnchangedIsCalm(s: Slot, d: Delivery)
    requires Sound(s) && !Changes(s, d)
    ensures Deliver(s, d).ann == s.ann
    ensures s.ann.Some? ==> Calm(s.ann, d)
  {
    if Live(d) && s.ann.Some? { PreferenceIgnoresClock(s.ann.value.announcement, d.a, d.at); }
  }

  lemma {:induction false} UnchangingIsCalm(s: Slot, ds: seq<Delivery>)
    requires Sound(s) && Unchanging(s, ds)
    ensures Run(s, ds).ann == s.ann
    ensures s.ann.Some? ==> AllCalm(s.ann, ds)
  {
    if ds != [] {
      UnchangingIsCalm(s, ds[..|ds| - 1]);
      RunKeepsSound(s, ds[..|ds| - 1]);
      UnchangedIsCalm(Run(s, ds[..|ds| - 1]), ds[|ds| - 1]);
    }
  }

  function Withdrawals(ds: seq<Delivery>): seq<Delivery> {
    if ds == [] then []
    else if ds[|ds| - 1].OfWithdrawal? then Withdrawals(ds[..|ds| - 1]) + [ds[|ds| - 1]]
    else Withdrawals(ds[..|ds| - 1])
  }

  lemma {:induction false} WithdrawalsAreCalm(ds: seq<Delivery>, from: Provenance, now: Time)
    requires Batch(ds, from, now)
    ensures AllCalm(None, Withdrawals(ds)) && Batch(Withdrawals(ds), from, now)
  {
    if ds != [] {
      assert InBatch(ds[|ds| - 1], from, now);
      WithdrawalsAreCalm(ds[..|ds| - 1], from, now);
    }
  }

  /** With no announcement kept and none accepted, only the withdrawals of a batch matter. */
  lemma {:induction false} OnlyWithdrawals(s: Slot, ds: seq<Delivery>)
    requires Sound(s) && s.ann.None? && Unchanging(s, ds)
    ensures Run(s, ds) == Run(s, Withdrawals(ds))
  {
    if ds != [] {
      var front, d := ds[..|ds| - 1], ds[|ds| - 1];
      OnlyWithdrawals(s, front);
      UnchangingIsCalm(s, front);
      if d.OfWithdrawal? {
        var mine := Withdrawals(ds);
        assert mine[..|mine| - 1] == Withdrawals(front);
      }
    }
  }

  /** Every live announcement of the batch is at or before the withdrawal kept in `s`. */
  predicate Blocks(s: Slot, ds: seq<Delivery>) {
    forall i :: 0 <= i < |ds| && Live(ds[i]) ==>
      s.wd.Some? && s.wd.value.withdrawal.withdrawnAt >= ds[i].a.announcedAt
  }

  lemma {:induction false} BlockedIsUnchanging(s: Slot, ds: seq<Delivery>)
    requires Sound(s) && s.ann.None? && Blocks(s, ds)
    ensures Unchanging(s, ds) && Run(s, ds).ann.None?
    ensures s.wd.Some? ==>
      Run(s, ds).wd.Some? && Run(s, ds).wd.value.withdrawal.withdrawnAt >= s.wd.value.withdrawal.withdrawnAt
  {
    if ds != [] {
      var front, d := ds[..|ds| - 1], ds[|ds| - 1];
      assert Blocks(s, front);
      BlockedIsUnchanging(s, front);
      assert Live(d) ==> s.wd.Some? && s.wd.value.withdrawal.withdrawnAt >= d.a.announcedAt;
    }
  }

  /** While no announcement is kept or accepted, a live announcement stays behind the withdrawal. */
  lemma {:induction false} UnchangingBlocks(s: Slot, ds: seq<Delivery>)
    requires Sound(s) && s.ann.None? && Unchanging(s, ds)
    ensures Blocks(Run(s, ds), ds)
  {
    if ds != [] {
      var front, d := ds[..|ds| - 1], ds[|ds| - 1];
      UnchangingBlocks(s, front);
      UnchangingIsCalm(s, front);
      RunKeepsSound(s, front);
      var u := Run(s, front);
      forall i | 0 <= i < |ds| && Live(ds[i])
        ensures Run(s, ds).wd.Some? && Run(s, ds).wd.value.withdrawal.withdrawnAt >= ds[i].a.announcedAt
      {
        if i < |front| {
          assert front[i] == ds[i];
          DeliverKeepsHighWater(u, d, ds[i].a.announcedAt);
          UnchangedIsCalm(u, d);
        }
      }
    }
  }

  /** A batch that changes no announcement, run twice. */
  lemma UnchangingTwice(s: Slot, ds: seq<Delivery>, from: Provenance, now: Time)
    requires Sound(s) && Unchanging(s, ds) && Batch(ds, from, now)
    ensures Run(Run(s, ds), ds) == Run(s, ds)
  {
    RunKeepsSound(s, ds);
    UnchangingIsCalm(s, ds);
    if s.ann.Some? {
      CalmTwiceIsOnce(s, ds, from, now);
    } else {
      UnchangingBlocks(s, ds);
      BlockedIsUnchanging(Run(s, ds), ds);
      OnlyWithdrawals(s, ds);
      OnlyWithdrawals(Run(s, ds), ds);
      WithdrawalsAreCalm(ds, from, now);
      CalmTwiceIsOnce(s, Withdrawals(ds), from, now);
    }
  }

  // ----- runs that do change it -----

  lemma UnchangingSnoc(s: Slot, ds: seq<Delivery>, d: Delivery)
    ensures Unchanging(s, ds + [d]) <==> Unchanging(s, ds) && !Changes(Run(s, ds), d)
  {
    assert (ds + [d])[..|ds|] == ds;
  }

  lemma RunSnoc(s: Slot, ds: seq<Delivery>, d: Delivery)
    ensures Run(s, ds + [d]) == Deliver(Run(s, ds), d)
  {
    assert (ds + [d])[..|ds|] == ds;
  }

  /** Splits a batch at the last delivery that changes the announcement. */
  lemma {:induction false} LastChange(s: Slot, ds: seq<Delivery>)
    returns (head: seq<Delivery>, last: Delivery, tail: seq<Delivery>)
    requires !Unchanging(s, ds)
    ensures ds == head + [last] + tail
    ensures Changes(Run(s, head), last)
    ensures Unchanging(Deliver(Run(s, head), last), tail)
  {
    var front, d := ds[..|ds| - 1], ds[|ds| - 1];
    assert ds == front + [d];
    if Changes(Run(s, front), d) {
      head, last, tail := front, d, [];
    } else {
      UnchangingSnoc(s, front, d);
      var rest;
      head, last, rest := LastChange(s, front);
      RunAppend(s, head + [last], rest);
      RunSnoc(s, head, last);
      UnchangingSnoc(Deliver(Run(s, head), last), rest, d);
      tail := rest + [d];
      assert head + [last] + tail == head + [last] + rest + [d];
    }
  }

  /** What a run has settled: no live announcement of it outranks the slot, none of its withdrawals is later. */
  lemma {:induction false} RunSettlesAll(s: Slot, ds: seq<Delivery>, i: nat)
    requires Sound(s) && i < |ds|
    ensures Live(ds[i]) ==> Settled(Run(s, ds), ds[i].a)
    ensures ds[i].OfWithdrawal? && ds[i].w.Verify() ==> Withheld(Run(s, ds), ds[i].w.withdrawnAt)
  {
    var front, d := ds[..|ds| - 1], ds[|ds| - 1];
    RunKeepsSound(s, front);
    if i == |ds| - 1 {
      DeliverySettles(Run(s, front), d);
    } else {
      RunSettlesAll(s, front, i);
      if Live(ds[i]) { DeliverKeepsSettled(Run(s, front), d, ds[i].a); }
      if ds[i].OfWithdrawal? { DeliverKeepsHighWater(Run(s, front), d, ds[i].w.withdrawnAt); }
    }
  }

  /** A slot that keeps `known`, up to an equally ranked copy of its announcement. */
  predicate KeepsRecord(s: Slot, known: KnownAnnouncement) {
    && s.ann.Some? && SameRank(s.ann.value.announcement, known.announcement)
    && s.ann.value.(announcement := known.announcement) == known
  }

  /** `known` was recorded in the batch, and nothing in `ds` outranks or withdraws it. */
  predicate Stands(known: KnownAnnouncement, ds: seq<Delivery>) {
    forall i :: 0 <= i < |ds| ==>
      && (Live(ds[i]) ==> !Outranks(ds[i].a, known.announcement))
      && (ds[i].OfWithdrawal? && ds[i].w.Verify() ==> ds[i].w.withdrawnAt < known.announcement.announcedAt)
  }

  ghost predicate RecordedBy(known: KnownAnnouncement, from: Provenance, now: Time) {
    exists ann: Option<KnownAnnouncement> :: known == Recorded(ann, known.announcement, from, now)
  }

  lemma {:induction false} StandingRecordStays(s: Slot, known: KnownAnnouncement, ds: seq<Delivery>, from: Provenance,
      now: Time)
    requires Sound(s) && KeepsRecord(s, known) && RecordedBy(known, from, now)
    requires Stands(known, ds) && Batch(ds, from, now)
    ensures KeepsRecord(Run(s, ds), known)
  {
    if ds != [] {
      var front, d := ds[..|ds| - 1], ds[|ds| - 1];
      StandingRecordStays(s, known, front, from, now);
      RunKeepsSound(s, front);
      assert InBatch(d, from, now);
      var u := Run(s, front);
      if Live(d) { PreferenceIgnoresClock(u.ann.value.announcement, d.a, d.at); }
    }
  }

  /** An accepted announcement is recorded alone, with its own source. */
  lemma AcceptedIsRecorded(x: Slot, d: Delivery, from: Provenance, now: Time)
    requires Sound(x) && InBatch(d, from, now) && Accepts(x, d)
    ensures var u := Deliver(x, d);
      Sound(u) && u == Slot(Some(Recorded(x.ann, d.a, from, now)), None) && RecordedBy(u.ann.value, from, now)
  {
    DeliverKeepsSound(x, d);
    var u := Deliver(x, d);
    assert u == Slot(Some(Recorded(x.ann, d.a, from, now)), None);
    assert u.ann.value == Recorded(x.ann, u.ann.value.announcement, from, now);
  }

  /** What was delivered before it cannot move the accepted announcement. */
  lemma AcceptedStands(s: Slot, head: seq<Delivery>, d: Delivery)
    requires Sound(s) && Accepts(Run(s, head), d)
    ensures Stands(Deliver(Run(s, head), d).ann.value, head)
  {
    var u := Deliver(Run(s, head), d);
    RunSnoc(s, head, d);
    forall i | 0 <= i < |head|
      ensures Live(head[i]) ==> !Outranks(head[i].a, u.ann.value.announcement)
      ensures head[i].OfWithdrawal? && head[i].w.Verify() ==>
        head[i].w.withdrawnAt < u.ann.value.announcement.announcedAt
    {
      assert (head + [d])[i] == head[i];
      RunSettlesAll(s, head + [d], i);
    }
  }

  /** Accepting it once more over its own record gives the same slot. */
  lemma ReacceptedIsSame(x: Slot, y: Slot, d: Delivery, from: Provenance, now: Time)
    requires Sound(x) && Sound(y) && InBatch(d, from, now) && Accepts(x, d)
    requires KeepsRecord(y, Deliver(x, d).ann.value)
    ensures Deliver(y, d) == Deliver(x, d)
  {
    AcceptedIsRecorded(x, d, from, now);
    PreferenceIgnoresClock(y.ann.value.announcement, d.a, d.at);
  }

  /** After the last acceptance of the first run, the second run has caught up. */
  lemma AcceptedTwice(s: Slot, head: seq<Delivery>, d: Delivery, tail: seq<Delivery>, from: Provenance, now: Time)
    requires Sound(s) && Batch(head, from, now) && InBatch(d, from, now)
    requires Accepts(Run(s, head), d) && Unchanging(Deliver(Run(s, head), d), tail)
    ensures var u := Deliver(Run(s, head), d);
      Deliver(Run(Run(u, tail), head), d) == u
  {
    var u := Deliver(Run(s, head), d);
    var v := Run(u, tail);
    RunKeepsSound(s, head);
    AcceptedIsRecorded(Run(s, head), d, from, now);
    AcceptedStands(s, head, d);
    UnchangingIsCalm(u, tail);
    RunKeepsSound(u, tail);
    StandingRecordStays(v, u.ann.value, head, from, now);
    RunKeepsSound(v, head);
    ReacceptedIsSame(Run(s, head), Run(v, head), d, from, now);
  }

  /** Every withdrawal of `ds` is at or before time `t`. */
  predicate WithdrawnBy(ds: seq<Delivery>, t: Time) {
    forall i :: 0 <= i < |ds| && ds[i].OfWithdrawal? && ds[i].w.Verify() ==> ds[i].w.withdrawnAt <= t
  }

  /** With nothing later to come, a kept withdrawal stays, or gives way to a written one of the same time. */
  lemma {:induction false} CeilingHolds(s: Slot, ds: seq<Delivery>, from: Provenance, now: Time)
    requires Sound(s) && s.ann.None? && s.wd.Some? && Blocks(s, ds) && Batch(ds, from, now)
    requires WithdrawnBy(ds, s.wd.value.withdrawal.withdrawnAt)
    ensures var t := Run(s, ds);
      && t.ann.None? && t.wd.Some?
      && t.wd.value.withdrawal.withdrawnAt == s.wd.value.withdrawal.withdrawnAt
      && (t == s || Written(t.wd, now))
    ensures (forall i :: 0 <= i < |ds| && ds[i].OfWithdrawal? && ds[i].w.Verify() ==>
        ds[i].w.withdrawnAt < s.wd.value.withdrawal.withdrawnAt)
      ==> Run(s, ds) == s
  {
    if ds != [] {
      var front, d := ds[..|ds| - 1], ds[|ds| - 1];
      assert forall i :: 0 <= i < |front| ==> front[i] == ds[i];
      CeilingHolds(s, front, from, now);
      assert InBatch(d, from, now);
      assert Live(d) ==> s.wd.value.withdrawal.withdrawnAt >= d.a.announcedAt;
    }
  }

  /** What the removal leaves: nothing before it, and nothing live at all, is later than the kept withdrawal. */
  lemma RemovalSettles(s: Slot, head: seq<Delivery>, d: Delivery, tail: seq<Delivery>, from: Provenance, now: Time)
    requires Sound(s) && Batch(head, from, now) && InBatch(d, from, now) && Batch(tail, from, now)
    requires Removes(Run(s, head), d) && Unchanging(Deliver(Run(s, head), d), tail)
    ensures var u := Deliver(Run(s, head), d);
      var v := Run(u, tail);
      && u == Slot(None, Some(KnownWithdrawal(d.w, None, now)))
      && v.ann.None? && v.wd.Some? && Sound(v) && Written(v.wd, now)
      && v.wd.value.withdrawal.withdrawnAt >= d.w.withdrawnAt
      && Blocks(v, head) && WithdrawnBy(head, d.w.withdrawnAt)
  {
    var u := Deliver(Run(s, head), d);
    var v := Run(u, tail);
    RunKeepsSound(s, head);
    DeliverKeepsSound(Run(s, head), d);
    RunKeepsSound(u, tail);
    UnchangingIsCalm(u, tail);
    RunKeepsHighWater(u, tail, d.w.withdrawnAt);
    TailIsWritten(u, tail, from, now);
    RunSnoc(s, head, d);
    forall i | 0 <= i < |head|
      ensures Live(head[i]) ==> d.w.withdrawnAt >= head[i].a.announcedAt
      ensures head[i].OfWithdrawal? && head[i].w.Verify() ==> head[i].w.withdrawnAt <= d.w.withdrawnAt
    {
      assert (head + [d])[i] == head[i];
      RunSettlesAll(s, head + [d], i);
    }
  }

  /** After the last removal of the first run, the second run ends the same. */
  lemma RemovedTwice(s: Slot, head: seq<Delivery>, d: Delivery, tail: seq<Delivery>, from: Provenance, now: Time)
    requires Sound(s) && Batch(head, from, now) && InBatch(d, from, now) && Batch(tail, from, now)
    requires Removes(Run(s, head), d) && Unchanging(Deliver(Run(s, head), d), tail)
    ensures var v := Run(Deliver(Run(s, head), d), tail);
      Run(Deliver(Run(v, head), d), tail) == v
  {
    var u := Deliver(Run(s, head), d);
    var v := Run(u, tail);
    RemovalSettles(s, head, d, tail, from, now);
    CeilingHolds(v, head, from, now);
    if v.wd.value.withdrawal.withdrawnAt > d.w.withdrawnAt {
      assert Run(v, head) == v && Deliver(v, d) == v;
      UnchangingTwice(u, tail, from, now);
    } else {
      assert Deliver(Run(v, head), d) == u;
    }
  }

  lemma {:induction false} TailIsWritten(u: Slot, ds: seq<Delivery>, from: Provenance, now: Time)
    requires Sound(u) && u.ann.None? && Written(u.wd, now) && Unchanging(u, ds) && Batch(ds, from, now)
    ensures Written(Run(u, ds).wd, now)
  {
    if ds != [] {
      TailIsWritten(u, ds[..|ds| - 1], from, now);
      assert InBatch(ds[|ds| - 1], from, now);
    }
  }

  /** Redelivering a batch of one key changes nothing. */
  lemma TwiceIsOnce(s: Slot, ds: seq<Delivery>, from: Provenance, now: Time)
    requires Sound(s) && Batch(ds, from, now)
    ensures Run(Run(s, ds), ds) == Run(s, ds)
  {
    if Unchanging(s, ds) {
      UnchangingTwice(s, ds, from, now);
    } else {
      var head, d, tail := LastChange(s, ds);
      assert forall i :: 0 <= i < |head| ==> head[i] == ds[i];
      assert d == ds[|head|] && forall i :: 0 <= i < |tail| ==> tail[i] == ds[|head| + 1 + i];
      RunAppend(s, head + [d], tail);
      RunSnoc(s, head, d);
      RunAppend(Run(s, ds), head + [d], tail);
      RunSnoc(Run(s, ds), head, d);
      if Accepts(Run(s, head), d) {
        AcceptedTwice(s, head, d, tail, from, now);
      } else {
        RemovedTwice(s, head, d, tail, from, now);
      }
    }
  }

  lemma {:induction false} ForKeyKeepsBatch(ds: seq<Delivery>, k: PodKey, from: Provenance, now: Time)
    requires Batch(ds, from, now)
    ensures Batch(ForKey(ds, k), from, now)
  {
    if ds != [] {
      assert InBatch(ds[|ds| - 1], from, now);
      ForKeyKeepsBatch(ds[..|ds| - 1], k, from, now);
    }
  }

  /** Redelivering a whole batch leaves both maps exactly as they were. */
  lemma RedeliveryChangesNothing(s: Slots, ds: seq<Delivery>, from: Provenance, now: Time)
    requires SoundSlots(s) && Batch(ds, from, now)
    ensures DeliverAll(DeliverAll(s, ds), ds) == DeliverAll(s, ds)
  {
    forall k ensures DeliverAll(DeliverAll(s, ds), ds).At(k) == DeliverAll(s, ds).At(k) {
      KeysAreIndependent(s, ds, k);
      KeysAreIndependent(DeliverAll(s, ds), ds, k);
      ForKeyKeepsBatch(ds, k, from, now);
      TwiceIsOnce(s.At(k), ForKey(ds, k), from, now);
    }
    SlotsAreTheirSlots(DeliverAll(DeliverAll(s, ds), ds), DeliverAll(s, ds));
  }
}
