/**
 The subscriber thread of stream/stream.h: it repeatedly reads the HEAD and the size of a stream
 that other threads keep publishing into, and passes new entries and HEADs to its subscriber.
 */
module Subscription {
  import opened StreamLog
  import opened Replica

  function EntryLineAt(log: seq<Entry>, k: nat): Line
    requires k < |log|
  {
    EntryLine(k, log[k].us, log[k].payload)
  }

  function EntryLines(log: seq<Entry>, lo: nat, hi: nat): (lines: seq<Line>)
    requires lo <= hi <= |log|
  {
    seq(hi - lo, k requires 0 <= k < hi - lo => EntryLineAt(log, lo + k))
  }

  datatype Thread = Thread(begin: nat, index: nat, head: int)

  function StartThread(begin: nat, fromUs: int): Thread {
    Thread(begin, begin, fromUs - 1)
  }

  datatype Pass = Pass(thread: Thread, lines: seq<Line>)

  /** One round of the loop, given what the stream held when it was looked at. */
  function Round(t: Thread, snap: Stream): Pass {
    if snap.head <= t.head then Pass(t, [])
    else
      var size := |snap.log|;
      var entries := if size > t.index then EntryLines(snap.log, t.index, size) else [];
      var head := if size > t.index then snap.log[size - 1].us else t.head;
      var headLine := if size >= t.begin && snap.head > head then [HeadLine(snap.head)] else [];
      Pass(Thread(t.begin, if size > t.index then size else t.index, snap.head), entries + headLine)
  }

  function Rounds(t: Thread, snaps: seq<Stream>): Pass
    decreases |snaps|
  {
    if snaps == [] then Pass(t, [])
    else
      var before := Rounds(t, snaps[..|snaps| - 1]);
      var last := Round(before.thread, snaps[|snaps| - 1]);
      Pass(last.thread, before.lines + last.lines)
  }

  /** The lines follow stream `s` from index `n`, everything before being stamped at most `last`:
      entries in order with no gap and no repeat, timestamps strictly increasing, and no HEAD ahead
      of an entry that has not been passed yet. */
  ghost predicate InOrder(s: Stream, n: nat, last: int, lines: seq<Line>)
    decreases |lines|
  {
    lines == [] || (
      last < lines[0].us &&
      match lines[0]
      case EntryLine(index, us, payload) =>
        index == n < |s.log| && s.log[n] == Entry(us, payload) && InOrder(s, n + 1, us, lines[1..])
      case HeadLine(us) =>
        us <= s.head && Covered(s, n, us) && InOrder(s, n, us, lines[1..]))
  }

  function EndIndex(n: nat, lines: seq<Line>): nat
    decreases |lines|
  {
    if lines == [] then n
    else EndIndex(if lines[0].EntryLine? then n + 1 else n, lines[1..])
  }

  function EndUs(last: int, lines: seq<Line>): int {
    if lines == [] then last else lines[|lines| - 1].us
  }

  lemma {:induction false} InOrderAppend(s: Stream, n: nat, last: int, a: seq<Line>, b: seq<Line>)
    ensures InOrder(s, n, last, a + b) <==>
              InOrder(s, n, last, a) && InOrder(s, EndIndex(n, a), EndUs(last, a), b)
    ensures EndIndex(n, a + b) == EndIndex(EndIndex(n, a), b)
    decreases |a|
  {
    if a == [] {
      assert a + b == b;
    } else {
      assert (a + b)[1..] == a[1..] + b;
      InOrderAppend(s, if a[0].EntryLine? then n + 1 else n, a[0].us, a[1..], b);
    }
  }

  lemma {:induction false} InOrderWeaken(s: Stream, n: nat, last: int, lower: int, lines: seq<Line>)
    requires InOrder(s, n, last, lines) && lower <= last
    ensures InOrder(s, n, lower, lines)
  {
  }

  lemma {:induction false} InOrderGrows(s: Stream, t: Stream, n: nat, last: int, lines: seq<Line>)
    requires InOrder(s, n, last, lines) && Grows(s, t)
    ensures InOrder(t, n, last, lines)
    decreases |lines|
  {
    if lines != [] {
      if lines[0].EntryLine? {
        assert t.log[..|s.log|][n] == s.log[n];
      } else {
        CoveredGrows(s, t, n, lines[0].us);
      }
      InOrderGrows(s, t, if lines[0].EntryLine? then n + 1 else n, lines[0].us, lines[1..]);
    }
  }

  lemma CoveredGrows(s: Stream, t: Stream, n: nat, us: int)
    requires Covered(s, n, us) && Grows(s, t) && us <= s.head
    ensures Covered(t, n, us)
  {
    forall j | n <= j < |t.log| ensures us < t.log[j].us {
      if j < |s.log| { assert t.log[..|s.log|][j] == s.log[j]; }
    }
  }

  lemma {:induction false} EntriesInOrder(s: Stream, lo: nat, hi: nat, last: int)
    requires Valid(s) && lo <= hi <= |s.log| && (lo < hi ==> last < s.log[lo].us)
    ensures InOrder(s, lo, last, EntryLines(s.log, lo, hi))
    ensures EndIndex(lo, EntryLines(s.log, lo, hi)) == hi
    ensures EndUs(last, EntryLines(s.log, lo, hi)) == if lo < hi then s.log[hi - 1].us else last
    decreases hi - lo
  {
    if lo < hi {
      assert EntryLines(s.log, lo, hi)[0] == EntryLineAt(s.log, lo);
      assert EntryLines(s.log, lo, hi)[1..] == EntryLines(s.log, lo + 1, hi);
      EntriesInOrder(s, lo + 1, hi, s.log[lo].us);
    }
  }

  /** What a thread that has passed lines up to `last` knows of the stream it reads. */
  ghost predicate ThreadOk(t: Thread, s: Stream, last: int) {
    && t.begin <= t.index && last <= t.head
    && (t.index <= |s.log| || t.index == t.begin)
    && Covered(s, t.index, last)
  }

  lemma RoundKeepsOrder(t: Thread, snap: Stream, last: int)
    requires Valid(snap) && ThreadOk(t, snap, last)
    ensures var p := Round(t, snap);
            && InOrder(snap, t.index, last, p.lines)
            && EndIndex(t.index, p.lines) == p.thread.index
            && ThreadOk(p.thread, snap, EndUs(last, p.lines))
            && p.thread.begin == t.begin
            && EndUs(last, p.lines) <= (if last <= snap.head then snap.head else last)
  {
    var size := |snap.log|;
    if snap.head > t.head {
      var from := if size > t.index then t.index else size;
      var entries := if size > t.index then EntryLines(snap.log, t.index, size) else [];
      if size > t.index {
        EntriesInOrder(snap, t.index, size, last);
      }
      var p := Round(t, snap);
      var headLine := p.lines[|entries|..];
      assert p.lines == entries + headLine;
      InOrderAppend(snap, t.index, last, entries, headLine);
      if headLine != [] {
        assert headLine[1..] == [];
        assert headLine[0] == HeadLine(snap.head);
      }
    }
  }

  ghost predicate Observes(snaps: seq<Stream>) {
    && (forall k :: 0 <= k < |snaps| ==> Valid(snaps[k]))
    && (forall k :: 0 < k < |snaps| ==> Grows(snaps[k - 1], snaps[k]))
  }

  lemma {:induction false} RoundsKeepOrder(begin: nat, fromUs: int, snaps: seq<Stream>)
    requires 0 <= fromUs && snaps != [] && Observes(snaps)
    ensures var p := Rounds(StartThread(begin, fromUs), snaps);
            var s := snaps[|snaps| - 1];
            && InOrder(s, begin, -1, p.lines)
            && EndIndex(begin, p.lines) == p.thread.index && p.thread.begin == begin
            && ThreadOk(p.thread, s, EndUs(-1, p.lines)) && EndUs(-1, p.lines) <= s.head
    decreases |snaps|
  {
    hide Round;
    var n, start := |snaps|, StartThread(begin, fromUs);
    var s, earlier := snaps[n - 1], snaps[..n - 1];
    var before := Rounds(start, earlier);
    if n > 1 {
      RoundsKeepOrder(begin, fromUs, earlier);
      var r := snaps[n - 2];
      assert earlier[n - 2] == r && Grows(r, s);
      InOrderGrows(r, s, begin, -1, before.lines);
      CoveredGrows(r, s, before.thread.index, EndUs(-1, before.lines));
    }
    var last := EndUs(-1, before.lines);
    RoundKeepsOrder(before.thread, s, last);
    InOrderAppend(s, begin, -1, before.lines, Round(before.thread, s).lines);
  }

  /** Where the thread stands when it has looked at `s`: past all entries, and at the HEAD, which it
      has passed on unless that is before `fromUs` or the log does not reach `begin` yet. */
  ghost predicate Level(begin: nat, fromUs: int, p: Pass, s: Stream) {
    && p.thread.begin == begin
    && (s.head < fromUs ==> p == Pass(StartThread(begin, fromUs), []))
    && (s.head >= fromUs ==>
          && p.thread.head == s.head
          && p.thread.index == (if |s.log| > begin then |s.log| else begin)
          && (begin <= |s.log| ==> EndUs(-1, p.lines) == s.head))
  }

  lemma RoundLevels(begin: nat, fromUs: int, p: Pass, r: Stream, s: Stream)
    requires 0 <= fromUs && Valid(r) && Valid(s) && Grows(r, s) && Level(begin, fromUs, p, r)
    ensures var q := Round(p.thread, s); Level(begin, fromUs, Pass(q.thread, p.lines + q.lines), s)
  {
    if s.head > r.head && s.head >= fromUs {
      assert |s.log| > 0 ==> s.log[|s.log| - 1].us <= s.head;
      var q := Round(p.thread, s);
      if |s.log| > p.thread.index {
        assert EntryLines(s.log, p.thread.index, |s.log|)[|s.log| - p.thread.index - 1]
            == EntryLineAt(s.log, |s.log| - 1);
      }
    } else {
      NothingNew(r, s);
      assert p.lines + [] == p.lines;
    }
  }

  lemma NothingNew(r: Stream, s: Stream)
    requires Valid(s) && Grows(r, s)
    ensures s.head == r.head ==> |s.log| == |r.log|
  {
    if |r.log| < |s.log| { assert r.head < s.log[|r.log|].us <= s.head; }
  }

  lemma {:induction false} RoundsLevel(begin: nat, fromUs: int, snaps: seq<Stream>)
    requires 0 <= fromUs && snaps != [] && Observes(snaps)
    ensures Level(begin, fromUs, Rounds(StartThread(begin, fromUs), snaps), snaps[|snaps| - 1])
    decreases |snaps|
  {
    hide Round, Valid, Level;
    var n, start := |snaps|, StartThread(begin, fromUs);
    var s, earlier := snaps[n - 1], snaps[..n - 1];
    if n > 1 {
      RoundsLevel(begin, fromUs, earlier);
      assert earlier[n - 2] == snaps[n - 2] && Grows(snaps[n - 2], s);
      RoundLevels(begin, fromUs, Rounds(start, earlier), snaps[n - 2], s);
    } else {
      NothingIsLevel(begin, fromUs);
      EmptyGrows(s);
      RoundLevels(begin, fromUs, Pass(start, []), EMPTY, s);
    }
  }

  lemma NothingIsLevel(begin: nat, fromUs: int)
    requires 0 <= fromUs
    ensures Level(begin, fromUs, Pass(StartThread(begin, fromUs), []), EMPTY) && Valid(EMPTY)
  {
  }

  lemma EmptyGrows(s: Stream)
    requires Valid(s)
    ensures Grows(EMPTY, s)
  {
    assert s.log[..0] == [];
  }

  /** Everything observed is passed on: the last line passed is stamped with the last HEAD seen, and
      the entries passed reach the end of the log. */
  lemma RoundsPassEverything(begin: nat, fromUs: int, snaps: seq<Stream>)
    requires 0 <= fromUs && snaps != [] && Observes(snaps)
    ensures var s, lines := snaps[|snaps| - 1], Rounds(StartThread(begin, fromUs), snaps).lines;
            begin <= |s.log| && fromUs <= s.head ==> EndUs(-1, lines) == s.head && EndIndex(begin, lines) == |s.log|
  {
    RoundsLevel(begin, fromUs, snaps);
    RoundsKeepOrder(begin, fromUs, snaps);
  }

  /** What `InOrder` says, read line by line. */
  lemma {:induction false} InOrderMeans(s: Stream, n: nat, last: int, lines: seq<Line>)
    requires InOrder(s, n, last, lines)
    ensures forall p, q :: 0 <= p < q < |lines| ==> last < lines[p].us < lines[q].us
    ensures forall p :: 0 <= p < |lines| && lines[p].EntryLine? ==>
              EndIndex(n, lines[..p]) < |s.log| && lines[p] == EntryLineAt(s.log, EndIndex(n, lines[..p]))
    ensures forall p, j :: 0 <= p < |lines| && lines[p].HeadLine? && n <= j < |s.log| && s.log[j].us <= lines[p].us
              ==> j < EndIndex(n, lines[..p])
    decreases |lines|
  {
    if lines != [] {
      var m, rest := if lines[0].EntryLine? then n + 1 else n, lines[1..];
      InOrderMeans(s, m, lines[0].us, rest);
      forall p | 0 < p < |lines| ensures EndIndex(n, lines[..p]) == EndIndex(m, rest[..p - 1]) {
        assert lines[..p][1..] == rest[..p - 1];
      }
      forall p, q | 0 <= p < q < |lines| ensures last < lines[p].us < lines[q].us {
        assert lines[q] == rest[q - 1];
        assert lines[0].us < rest[q - 1].us by {
          if q - 1 < |rest| - 1 { assert lines[0].us < rest[q - 1].us < rest[q].us; }
          FirstIsLater(s, m, lines[0].us, rest, q - 1);
        }
        if 0 < p { assert lines[p] == rest[p - 1]; }
      }
      forall p | 0 <= p < |lines| && lines[p].EntryLine?
        ensures EndIndex(n, lines[..p]) < |s.log| && lines[p] == EntryLineAt(s.log, EndIndex(n, lines[..p]))
      {
        if 0 < p { assert lines[p] == rest[p - 1]; }
      }
      forall p, j | 0 <= p < |lines| && lines[p].HeadLine? && n <= j < |s.log| && s.log[j].us <= lines[p].us
        ensures j < EndIndex(n, lines[..p])
      {
        if 0 < p {
          assert lines[p] == rest[p - 1];
          if j < m { EndIndexMonotone(m, rest[..p - 1]); }
        }
      }
    }
  }

  lemma {:induction false} FirstIsLater(s: Stream, n: nat, last: int, lines: seq<Line>, p: nat)
    requires InOrder(s, n, last, lines) && p < |lines|
    ensures last < lines[p].us
    decreases |lines|
  {
    if 0 < p {
      FirstIsLater(s, if lines[0].EntryLine? then n + 1 else n, lines[0].us, lines[1..], p - 1);
    }
  }

  lemma {:induction false} EndIndexMonotone(n: nat, lines: seq<Line>)
    ensures n <= EndIndex(n, lines)
    decreases |lines|
  {
    if lines != [] {
      EndIndexMonotone(if lines[0].EntryLine? then n + 1 else n, lines[1..]);
    }
  }

  function Snapshots(times: seq<Stream>, k: nat): seq<Stream>
    requires 2 * k <= |times|
  {
    seq(k, i requires 0 <= i < k => times[2 * i])
  }

  /** What the rounds look at is a growing stream, too. */
  lemma SnapshotsObserve(times: seq<Stream>, k: nat)
    requires Observes(times) && 2 * k <= |times|
    ensures Observes(Snapshots(times, k))
  {
    var snaps := Snapshots(times, k);
    forall i | 0 < i < k ensures Grows(snaps[i - 1], snaps[i]) {
      assert Grows(times[2 * i - 2], times[2 * i - 1]) && Grows(times[2 * i - 1], times[2 * i]);
      GrowsTransitive(times[2 * i - 2], times[2 * i - 1], times[2 * i]);
    }
  }

  /**
   `ThreadImpl` against an arbitrary schedule of other threads' publishes: the stream is in state
   `times[2 * k]` when round `k` reads its size and HEAD, and in state `times[2 * k + 1]`, possibly
   longer by then, when the entries are read. The subscriber answers `Done` to line number
   `patience`, or never when `patience` is zero.
   */
  method ThreadImpl(beginIdx: nat, fromUs: int, times: seq<Stream>, patience: nat)
    returns (passed: seq<Line>)
    requires 0 <= fromUs && times != [] && |times| % 2 == 0 && Observes(times)
    ensures passed <= Rounds(StartThread(beginIdx, fromUs), Snapshots(times, |times| / 2)).lines
    ensures |passed| != patience || patience == 0
            ==> passed == Rounds(StartThread(beginIdx, fromUs), Snapshots(times, |times| / 2)).lines
    ensures InOrder(times[|times| - 2], beginIdx, -1, passed)
    ensures InOrder(times[|times| - 1], beginIdx, -1, passed)
    ensures var s := times[|times| - 2];
            patience == 0 && beginIdx <= |s.log| && fromUs <= s.head
            ==> EndUs(-1, passed) == s.head && EndIndex(beginIdx, passed) == |s.log|
  {
    hide Rounds, InOrder, EndIndex, EndUs, Valid;
    passed := RunRounds(beginIdx, fromUs, times, patience);
    ghost var n := |times| / 2;
    SnapshotsObserve(times, n);
    EveryScheduleDeliversInOrder(beginIdx, fromUs, Snapshots(times, n), passed);
    RoundsPassEverything(beginIdx, fromUs, Snapshots(times, n));
    assert Snapshots(times, n)[n - 1] == times[|times| - 2];
    assert Grows(times[|times| - 2], times[|times| - 1]);
    InOrderGrows(times[|times| - 2], times[|times| - 1], beginIdx, -1, passed);
  }

  /** The loop. */
  method RunRounds(beginIdx: nat, fromUs: int, times: seq<Stream>, patience: nat)
    returns (passed: seq<Line>)
    requires 0 <= fromUs && times != [] && |times| % 2 == 0 && Observes(times)
    ensures passed <= Rounds(StartThread(beginIdx, fromUs), Snapshots(times, |times| / 2)).lines
    ensures |passed| != patience || patience == 0
            ==> passed == Rounds(StartThread(beginIdx, fromUs), Snapshots(times, |times| / 2)).lines
  {
    passed := [];
    var head, index: nat := fromUs - 1, beginIdx;
    var rounds := |times| / 2;
    ghost var start, snaps := StartThread(beginIdx, fromUs), Snapshots(times, rounds);
    for k := 0 to rounds
      invariant Rounds(start, snaps[..k]) == Pass(Thread(beginIdx, index, head), passed)
      invariant patience == 0 || |passed| < patience
    {
      assert Grows(times[2 * k + 1 - 1], times[2 * k + 1]);
      OneMoreRound(start, snaps, k);
      var done;
      index, head, passed, done := PassRound(beginIdx, index, head, times[2 * k], times[2 * k + 1], passed, patience);
      if done { return; }
    }
    assert snaps[..rounds] == snaps;
  }

  /** The body of the loop. */
  method PassRound(beginIdx: nat, index: nat, head: int, snap: Stream, later: Stream,
                   before: seq<Line>, patience: nat)
    returns (index': nat, head': int, passed: seq<Line>, done: bool)
    requires Valid(snap) && Grows(snap, later) && (patience == 0 || |before| < patience)
    ensures var round := Round(Thread(beginIdx, index, head), snap);
            && passed <= before + round.lines
            && (done ==> |passed| == patience != 0)
            && (!done ==> passed == before + round.lines && round.thread == Thread(beginIdx, index', head'))
            && (!done ==> patience == 0 || |passed| < patience)
  {
    index', head', passed, done := index, head, before, false;
    var size := |snap.log|;
    if snap.head > head {
      if size > index {
        passed, done := PassEntriesToSubscriber(later.log, index, size, passed, patience);
        SameEntries(snap, later, index, size);
        if done { return; }
        index' := size;
        head' := snap.log[size - 1].us;
      }
      if size >= beginIdx && snap.head > head' {
        passed := passed + [HeadLine(snap.head)];
        if |passed| == patience { return index', head', passed, true; }
      }
      head' := snap.head;
    }
  }

  method PassEntriesToSubscriber(log: seq<Entry>, index: nat, size: nat, before: seq<Line>, patience: nat)
    returns (passed: seq<Line>, done: bool)
    requires index <= size <= |log| && (patience == 0 || |before| < patience)
    ensures passed <= before + EntryLines(log, index, size)
    ensures done ==> |passed| == patience != 0
    ensures !done ==> passed == before + EntryLines(log, index, size) && (patience == 0 || |passed| < patience)
  {
    passed := before;
    for i := index to size
      invariant passed == before + EntryLines(log, index, i)
      invariant patience == 0 || |passed| < patience
    {
      passed := passed + [EntryLine(i, log[i].us, log[i].payload)];
      assert EntryLines(log, index, i + 1) == EntryLines(log, index, i) + [EntryLineAt(log, i)];
      if |passed| == patience {
        assert EntryLines(log, index, i + 1) <= EntryLines(log, index, size);
        return passed, true;
      }
    }
    done := false;
  }

  lemma SameEntries(s: Stream, t: Stream, lo: nat, hi: nat)
    requires Grows(s, t) && lo <= hi <= |s.log|
    ensures EntryLines(s.log, lo, hi) == EntryLines(t.log, lo, hi)
  {
    forall k | 0 <= k < hi - lo ensures EntryLines(s.log, lo, hi)[k] == EntryLines(t.log, lo, hi)[k] {
      assert t.log[..|s.log|][lo + k] == s.log[lo + k] == t.log[lo + k];
      assert EntryLines(s.log, lo, hi)[k] == EntryLineAt(s.log, lo + k);
      assert EntryLines(t.log, lo, hi)[k] == EntryLineAt(t.log, lo + k);
    }
  }

  lemma OneMoreRound(t: Thread, snaps: seq<Stream>, k: nat)
    requires k < |snaps|
    ensures var before := Rounds(t, snaps[..k]);
            var round := Round(before.thread, snaps[k]);
            && Rounds(t, snaps[..k + 1]) == Pass(round.thread, before.lines + round.lines)
            && before.lines + round.lines <= Rounds(t, snaps).lines
  {
    assert snaps[..k + 1][..k] == snaps[..k];
    RoundsArePrefixes(t, snaps, k + 1);
  }

  lemma {:induction false} RoundsArePrefixes(t: Thread, snaps: seq<Stream>, k: nat)
    requires k <= |snaps|
    ensures Rounds(t, snaps[..k]).lines <= Rounds(t, snaps).lines
    decreases |snaps|
  {
    if k < |snaps| {
      RoundsArePrefixes(t, snaps[..|snaps| - 1], k);
      assert snaps[..|snaps| - 1][..k] == snaps[..k];
    } else {
      assert snaps[..k] == snaps;
    }
  }

  /** Whatever the schedule, and wherever the subscriber stops, it has seen the log from `begin` on
      in order, with strictly increasing timestamps, and no HEAD ahead of its entries. */
  lemma EveryScheduleDeliversInOrder(begin: nat, fromUs: int, snaps: seq<Stream>, passed: seq<Line>)
    requires 0 <= fromUs && snaps != [] && Observes(snaps)
    requires passed <= Rounds(StartThread(begin, fromUs), snaps).lines
    ensures InOrder(snaps[|snaps| - 1], begin, -1, passed)
  {
    RoundsKeepOrder(begin, fromUs, snaps);
    var lines := Rounds(StartThread(begin, fromUs), snaps).lines;
    assert lines == passed + lines[|passed|..];
    InOrderAppend(snaps[|snaps| - 1], begin, -1, passed, lines[|passed|..]);
  }
}
