/**
 The sequence-numbered, pruned lifecycle log behind both announcement streams. `history` is
 the complete log; only the model keeps it.
 */
module StreamLog {
  import opened Artifacts

  datatype EventKind = Admitted | Renewed | Withdrawn | Expired

  datatype Payload = AnnouncementPayload(announcement: Announcement) | WithdrawalPayload(withdrawal: Withdrawal)

  datatype Entry = Entry(sequence: nat, recordedAt: Time, kind: EventKind, origin: NodeId, slug: string,
      payload: Payload)
  {
    function Key(): PodKey { (origin, slug) }
  }

  const MAX_STREAM_ENTRIES: nat := 8_192

  datatype Stream = Stream(entries: map<nat, Entry>, history: seq<Entry>)

  const EMPTY_STREAM := Stream(map[], [])

  predicate IsLeast(m: nat, s: set<nat>) {
    m in s && forall x :: x in s ==> m <= x
  }

  lemma {:induction false} LeastOf(s: set<nat>) returns (m: nat)
    requires s != {}
    ensures IsLeast(m, s)
    decreases |s|
  {
    var first :| first in s;
    m := first;
    var rest := s - {first};
    assert forall x :: x in s ==> x == first || x in rest;
    if rest != {} {
      var l := LeastOf(rest);
      if l < m {
        m := l;
      }
    }
  }

  lemma LeastExists(s: set<nat>)
    requires s != {}
    ensures exists m :: IsLeast(m, s)
  {
    var m := LeastOf(s);
  }

  /** The first key of an ordered map. */
  function Least(s: set<nat>): (m: nat)
    requires s != {}
    ensures IsLeast(m, s)
  {
    LeastExists(s);
    var m :| IsLeast(m, s);
    m
  }

  predicate IsGreatest(m: nat, s: set<nat>) {
    m in s && forall x :: x in s ==> x <= m
  }

  lemma {:induction false} GreatestOf(s: set<nat>) returns (m: nat)
    requires s != {}
    ensures IsGreatest(m, s)
    decreases |s|
  {
    var first :| first in s;
    m := first;
    var rest := s - {first};
    assert forall x :: x in s ==> x == first || x in rest;
    if rest != {} {
      var l := GreatestOf(rest);
      if l > m {
        m := l;
      }
    }
  }

  lemma GreatestExists(s: set<nat>)
    requires s != {}
    ensures exists m :: IsGreatest(m, s)
  {
    var m := GreatestOf(s);
  }

  /** One past the last key of an ordered map, 0 when it is empty. */
  function PastEnd(s: set<nat>): (n: nat)
    ensures forall x :: x in s ==> x < n
    ensures s != {} ==> n > 0 && n - 1 in s
  {
    if s == {} then 0
    else
      GreatestExists(s);
      var m: nat :| IsGreatest(m, s);
      m + 1
  }

  /** Drops lowest sequences until at most `cap` rows remain. */
  function Pruned(entries: map<nat, Entry>, cap: nat): map<nat, Entry>
    decreases |entries|
  {
    if |entries| <= cap then entries
    else
      assert entries.Keys != {};
      Pruned(entries - {Least(entries.Keys)}, cap)
  }

  function Append(s: Stream, sequence: nat, row: Entry): Stream {
    Stream(Pruned(s.entries[sequence := row], MAX_STREAM_ENTRIES), s.history + [row])
  }

  function KeysFrom(entries: map<nat, Entry>, from: nat): set<nat> {
    set q | q in entries && q >= from
  }

  /** Rows from sequence `from` on, ascending, at most `limit` of them. */
  function RangeFrom(entries: map<nat, Entry>, from: nat, limit: nat): seq<Entry>
    decreases limit
  {
    var keys := KeysFrom(entries, from);
    if limit == 0 || keys == {} then [] else [entries[Least(keys)]] + RangeFrom(entries, Least(keys) + 1, limit - 1)
  }

  /** The retained rows are exactly the newest `MAX_STREAM_ENTRIES` of the complete log. */
  ghost predicate Window(s: Stream, next: nat) {
    && next == |s.history| + 1
    && (forall q :: q in s.entries <==> 1 <= q < next && next <= q + MAX_STREAM_ENTRIES)
    && (forall q :: q in s.entries ==> s.entries[q] == s.history[q - 1])
    && (forall i :: 0 <= i < |s.history| ==> s.history[i].sequence == i + 1)
  }

  /** Sequence number of the oldest retained row, or of the next one when none is retained. */
  function Oldest(s: Stream): nat {
    if |s.history| < MAX_STREAM_ENTRIES then 1 else |s.history| + 1 - MAX_STREAM_ENTRIES
  }

  lemma {:induction false} IntervalSize(s: set<nat>, lo: nat, hi: nat)
    requires lo <= hi
    requires forall q :: q in s <==> lo <= q < hi
    ensures |s| == hi - lo
    decreases hi - lo
  {
    if lo == hi {
      assert s == {};
    } else {
      IntervalSize(s - {lo}, lo + 1, hi);
    }
  }

  /** The log window: a contiguous interval of min(rows ever appended, 8192) sequences. */
  lemma WindowSize(s: Stream, next: nat)
    requires Window(s, next)
    ensures |s.entries| == if |s.history| < 8_192 then |s.history| else 8_192
    ensures forall q :: q in s.entries <==> Oldest(s) <= q < next
  {
    IntervalSize(s.entries.Keys, Oldest(s), next);
    assert |s.entries| == |s.entries.Keys|;
  }

  /** With one row too many, pruning removes exactly the oldest. */
  lemma PruneOne(entries: map<nat, Entry>, oldest: nat, cap: nat)
    requires |entries| == cap + 1
    requires oldest in entries && forall q :: q in entries ==> oldest <= q
    ensures Pruned(entries, cap) == entries - {oldest}
  {
    assert entries.Keys != {};
    assert Least(entries.Keys) == oldest;
    var kept := entries - {oldest};
    assert kept.Keys == entries.Keys - {oldest};
    assert |kept| == |kept.Keys| == cap;
  }

  lemma AppendedEntries(s: Stream, next: nat, row: Entry)
    requires Window(s, next)
    ensures var entries := Append(s, next, row).entries;
      entries == if |s.history| < MAX_STREAM_ENTRIES then s.entries[next := row]
          else s.entries[next := row] - {Oldest(s)}
  {
    WindowSize(s, next);
    var all := s.entries[next := row];
    assert all.Keys == s.entries.Keys + {next};
    assert |all| == |s.entries| + 1;
    if |all| > MAX_STREAM_ENTRIES {
      PruneOne(all, Oldest(s), MAX_STREAM_ENTRIES);
    }
  }

  lemma AppendedHistory(history: seq<Entry>, row: Entry)
    requires row.sequence == |history| + 1
    requires forall i :: 0 <= i < |history| ==> history[i].sequence == i + 1
    ensures forall i :: 0 <= i <= |history| ==> (history + [row])[i].sequence == i + 1
  {
    forall i | 0 <= i <= |history| ensures (history + [row])[i].sequence == i + 1 {
      assert (history + [row])[i] == if i == |history| then row else history[i];
    }
  }

  lemma AppendedKeys(s: Stream, next: nat, row: Entry, q: nat)
    requires Window(s, next)
    ensures q in Append(s, next, row).entries <==> 1 <= q <= next && next < q + MAX_STREAM_ENTRIES
    ensures q in Append(s, next, row).entries ==> Append(s, next, row).entries[q] == (s.history + [row])[q - 1]
  {
    AppendedEntries(s, next, row);
    WindowSize(s, next);
    if 1 <= q < next { assert (s.history + [row])[q - 1] == s.history[q - 1]; }
  }

  /** Appending advances the window by one row. */
  lemma AppendKeepsWindow(s: Stream, next: nat, row: Entry)
    requires Window(s, next) && row.sequence == next
    ensures Window(Append(s, next, row), next + 1)
  {
    AppendedHistory(s.history, row);
    forall q: nat
      ensures q in Append(s, next, row).entries <==> 1 <= q <= next && next < q + MAX_STREAM_ENTRIES
      ensures q in Append(s, next, row).entries ==> Append(s, next, row).entries[q] == (s.history + [row])[q - 1]
    {
      AppendedKeys(s, next, row, q);
    }
  }

  function Later(x: nat, y: nat): nat { if x < y then y else x }

  function Earlier(x: nat, y: nat): nat { if x < y then x else y }

  /** The rows of the complete log with sequences in `lo .. hi`, upper end excluded. */
  function Rows(history: seq<Entry>, lo: nat, hi: nat): seq<Entry>
    requires 1 <= lo && hi <= |history| + 1
  {
    if lo < hi then history[lo - 1..hi - 1] else []
  }

  lemma RowsCons(history: seq<Entry>, lo: nat, hi: nat)
    requires 1 <= lo < hi <= |history| + 1
    ensures Rows(history, lo, hi) == [history[lo - 1]] + Rows(history, lo + 1, hi)
  {
  }

  lemma RangeEmpty(entries: map<nat, Entry>, from: nat, limit: nat)
    requires limit == 0 || forall q :: q in entries ==> q < from
    ensures RangeFrom(entries, from, limit) == []
  {
    assert limit == 0 || KeysFrom(entries, from) == {};
  }

  lemma RangeStep(entries: map<nat, Entry>, from: nat, limit: nat, lo: nat)
    requires limit > 0 && lo in entries && from <= lo
    requires forall q :: q in entries && q >= from ==> lo <= q
    ensures RangeFrom(entries, from, limit) == [entries[lo]] + RangeFrom(entries, lo + 1, limit - 1)
  {
    var keys := KeysFrom(entries, from);
    assert lo in keys;
    assert Least(keys) == lo;
  }

  lemma {:induction false} RangeOfInterval(entries: map<nat, Entry>, history: seq<Entry>, oldest: nat, from: nat,
      limit: nat)
    requires 1 <= oldest <= |history| + 1
    requires forall q :: q in entries <==> oldest <= q < |history| + 1
    requires forall q :: q in entries ==> entries[q] == history[q - 1]
    ensures var lo := Later(from, oldest);
      RangeFrom(entries, from, limit) == Rows(history, lo, Earlier(lo + limit, |history| + 1))
    decreases limit
  {
    var lo := Later(from, oldest);
    if limit == 0 || lo >= |history| + 1 {
      RangeEmpty(entries, from, limit);
    } else {
      RangeStep(entries, from, limit, lo);
      RangeOfInterval(entries, history, oldest, lo + 1, limit - 1);
      RowsCons(history, lo, Earlier(lo + limit, |history| + 1));
    }
  }

  /** A page holds the next consecutive rows of the complete log, from the first retained one on. */
  lemma RangeIsHistory(s: Stream, next: nat, from: nat, limit: nat)
    requires Window(s, next)
    ensures var lo := Later(from, Oldest(s));
      RangeFrom(s.entries, from, limit) == Rows(s.history, lo, Earlier(lo + limit, next))
  {
    WindowSize(s, next);
    RangeOfInterval(s.entries, s.history, Oldest(s), from, limit);
  }
}
