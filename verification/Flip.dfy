/**
 Handing the authority over a stream from its master to a follower: the validation made before the
 lock is taken, the diff that is sent back, and the controller that keeps track of who holds the
 publisher.
 */
module Flip {
  import opened StreamLog
  import opened Chunks
  import opened Replica
  import opened Subscription
  import opened Replication

  /** The checks made before the lock. `read` is the stream when its HEAD and last entry were read,
      `search` is the stream, possibly longer by then, when it was searched by timestamp. */
  predicate Validates(read: Stream, search: Stream, next: nat, head: int) {
    && head <= read.head
    && next <= |read.log|
    && (read.log != [] ==> Min(FirstAt(search.log, head + 1), |read.log|) == next)
  }

  /** The first `next` entries, and no other, are stamped at or before `head`. */
  ghost predicate Splits(s: Stream, next: nat, head: int) {
    && head <= s.head && next <= |s.log|
    && (forall j :: 0 <= j < next ==> s.log[j].us <= head)
    && Covered(s, next, head)
  }

  /** What the two reads establish, although entries may be published between them. */
  lemma ValidationMeans(read: Stream, search: Stream, next: nat, head: int)
    requires Valid(read) && Valid(search) && Grows(read, search)
    ensures Validates(read, search, next, head) <==> Splits(read, next, head)
  {
    var n, k := |read.log|, FirstAt(search.log, head + 1);
    forall j | 0 <= j < n ensures search.log[j] == read.log[j] {
      assert search.log[..n][j] == read.log[j];
    }
    if Validates(read, search, next, head) {
      forall j | next <= j < n ensures head < read.log[j].us {
        assert search.log[k].us <= search.log[j].us;
      }
    }
    if Splits(read, next, head) {
      FirstAtIs(search.log, head + 1, next);
    }
  }

  /** It stays true whatever is published later: later timestamps exceed the client's HEAD. */
  lemma ValidationLasts(read: Stream, s: Stream, next: nat, head: int)
    requires Grows(read, s) && Splits(read, next, head)
    ensures Splits(s, next, head)
  {
    forall j | 0 <= j < |read.log| ensures s.log[j] == read.log[j] {
      assert s.log[..|read.log|][j] == read.log[j];
    }
  }

  /** The HEAD line that ends a diff, if there is one. */
  function DiffTail(s: Stream, head: int): seq<Line> {
    if s.head > head && (s.log == [] || s.head > LastUs(s.log)) then [HeadLine(s.head)] else []
  }

  /** Everything a client with `next` entries and the given HEAD is missing. */
  function Diff(s: Stream, next: nat, head: int): seq<Line>
    requires next <= |s.log|
  {
    EntryLines(s.log, next, |s.log|) + DiffTail(s, head)
  }

  lemma {:induction false} TakeLinesAppend(mode: ReplicationMode, f: Follower, a: seq<Line>, b: seq<Line>)
    ensures TakeLines(mode, f, a + b)
         == var t := TakeLines(mode, f, a);
            if t.ok then TakeLines(mode, t.follower, b) else t
    decreases |a|
  {
    if a == [] {
      assert a + b == b;
    } else {
      assert (a + b)[1..] == a[1..] + b;
      var taken := TakeLine(mode, f, a[0]);
      if taken.Some? { TakeLinesAppend(mode, taken.value, a[1..], b); }
    }
  }

  /** A client whose HEAD is behind takes a run of entries whole, whatever it had before. */
  lemma {:induction false} TakesEntries(mode: ReplicationMode, f: Follower, s: Stream, hi: nat)
    requires Valid(s) && f.next == |f.stream.log| <= hi <= |s.log| && f.fromUs == 0
    requires f.next < hi ==> f.stream.head < s.log[f.next].us
    ensures TakeLines(mode, f, EntryLines(s.log, f.next, hi))
         == Taken(Follower(Stream(f.stream.log + s.log[f.next..hi],
                                  if f.next < hi then s.log[hi - 1].us else f.stream.head), hi, 0), true)
    decreases hi - f.next
  {
    var lines := EntryLines(s.log, f.next, hi);
    if f.next == hi {
      assert f.stream.log + s.log[hi..hi] == f.stream.log;
    } else {
      assert lines[0] == EntryLineAt(s.log, f.next);
      assert lines[1..] == EntryLines(s.log, f.next + 1, hi);
      var g := TakeLine(mode, f, lines[0]).value;
      TakesEntries(mode, g, s, hi);
      assert g.stream.log + s.log[f.next + 1..hi] == f.stream.log + s.log[f.next..hi];
    }
  }

  lemma CoveredDiffIsTaken(mode: ReplicationMode, client: Stream, s: Stream)
    requires Valid(s) && |client.log| <= |s.log| && client.head <= s.head
    requires Covered(s, |client.log|, client.head)
    ensures var n := |client.log|;
            var t := TakeLines(mode, Follower(client, n, 0), Diff(s, n, client.head));
            && t.ok && t.follower.stream.log == client.log + s.log[n..]
            && t.follower.stream.head == if DiffTail(s, client.head) != [] then s.head
                                         else if n < |s.log| then LastUs(s.log) else client.head
  {
    hide Ordered, EntryLines;
    var n, f := |client.log|, Follower(client, |client.log|, 0);
    var entries, tail := EntryLines(s.log, n, |s.log|), DiffTail(s, client.head);
    TakesEntries(mode, f, s, |s.log|);
    assert s.log[n..|s.log|] == s.log[n..];
    TakeLinesAppend(mode, f, entries, tail);
    if tail != [] {
      assert tail[1..] == [];
    }
  }

  lemma UncoveredDiffIsRejected(mode: ReplicationMode, client: Stream, s: Stream)
    requires Valid(s) && |client.log| <= |s.log| && !Covered(s, |client.log|, client.head)
    ensures !TakeLines(mode, Follower(client, |client.log|, 0), Diff(s, |client.log|, client.head)).ok
  {
    var n := |client.log|;
    assert s.log[n].us <= client.head;
    assert Diff(s, n, client.head)[0] == EntryLineAt(s.log, n);
  }

  lemma DiffEndsAtHead(s: Stream, next: nat, head: int)
    requires Valid(s) && Splits(s, next, head)
    ensures DiffTail(s, head) == [] ==> s.head == if next < |s.log| then LastUs(s.log) else head
  {
    var n := |s.log|;
    if next < n {
      assert head < s.log[n - 1].us <= s.head;
    } else if 0 < n {
      assert s.log[n - 1].us <= head;
    }
  }

  /** A client takes the whole diff exactly when no entry it would be sent is at or before its HEAD,
      and then has the master's entries after its own. With its HEAD at or past the entries before
      those, which the validation checks as well, it also has the master's HEAD. */
  lemma ClientTakesDiff(mode: ReplicationMode, client: Stream, s: Stream)
    requires Valid(s) && |client.log| <= |s.log| && client.head <= s.head
    ensures var n := |client.log|;
            var t := TakeLines(mode, Follower(client, n, 0), Diff(s, n, client.head));
            && (t.ok <==> Covered(s, n, client.head))
            && (t.ok ==> t.follower.stream.log == client.log + s.log[n..])
            && (Splits(s, n, client.head) ==> t.follower.stream == Stream(client.log + s.log[n..], s.head))
  {
    hide TakeLines, Diff;
    if Covered(s, |client.log|, client.head) {
      CoveredDiffIsTaken(mode, client, s);
      if Splits(s, |client.log|, client.head) { DiffEndsAtHead(s, |client.log|, client.head); }
    } else {
      UncoveredDiffIsRejected(mode, client, s);
    }
  }

  /** A client whose next index is not the one that its HEAD implies takes the diff all the same,
      exactly if its next index is the greater one. */
  lemma MismatchIsRejectedExactlyIfBehind(mode: ReplicationMode, client: Stream, s: Stream)
    requires Valid(s) && |client.log| <= |s.log| && client.head <= s.head
    ensures var n := |client.log|;
            TakeLines(mode, Follower(client, n, 0), Diff(s, n, client.head)).ok
            <==> FirstAt(s.log, client.head + 1) <= n
  {
    hide TakeLines, Diff;
    ClientTakesDiff(mode, client, s);
    var n, k := |client.log|, FirstAt(s.log, client.head + 1);
    if k <= n {
      forall j | n <= j < |s.log| ensures client.head < s.log[j].us {
        if k < j { assert s.log[k].us < s.log[j].us; }
      }
    } else {
      assert s.log[n].us < client.head + 1;
    }
  }

  /** A client with an entry at 1, and a master with entries at 5 and 7: the HEAD of the client implies
      index 0 and its next index is 1, but it would take the diff. */
  lemma MismatchedDiffIsTaken(mode: ReplicationMode)
    ensures exists client: Stream, s: Stream ::
              && Valid(client) && Valid(s) && client.head <= s.head && |client.log| <= |s.log|
              && FirstAt(s.log, client.head + 1) != |client.log| && !Validates(s, s, |client.log|, client.head)
              && TakeLines(mode, Follower(client, |client.log|, 0), Diff(s, |client.log|, client.head)).ok
  {
    hide TakeLines, Diff;
    var client, s := Stream([Entry(1, "a")], 1), Stream([Entry(5, "b"), Entry(7, "c")], 7);
    FirstAtIs(s.log, 2, 0);
    MismatchIsRejectedExactlyIfBehind(mode, client, s);
    assert Valid(client) && Valid(s) && FirstAt(s.log, client.head + 1) == 0;
  }

  /**
   The flip, end to end. A client was validated by two reads of the master's stream; the master went
   on publishing; then it gave its publisher up at state `given` and sent the diff. The response is
   taken whole with nothing left over, the client has the master's HEAD and every entry past its own,
   and it equals the master's stream exactly when its own entries were the master's.
   */
  lemma FlipTransfersEverything(k: Codec, mode: ReplicationMode, client: Stream,
                                read: Stream, search: Stream, given: Stream)
    requires Faithful(k) && Valid(client) && Valid(read) && Valid(search) && Valid(given)
    requires Grows(read, search) && Grows(search, given)
    requires Validates(read, search, |client.log|, client.head)
    ensures |client.log| <= |given.log|
    ensures var n := |client.log|;
            var fed := Feed("", Bytes(k, Diff(given, n, client.head)));
            var t := TakeRecords(k, mode, Follower(client, n, 0), fed.records);
            && fed.carry == "" && t.ok
            && t.follower.stream == Stream(client.log + given.log[n..], given.head)
            && (t.follower.stream == given <==> client.log == given.log[..n])
  {
    hide TakeLines, TakeRecords, Feed, Diff, Validates;
    var n := |client.log|;
    ValidationMeans(read, search, n, client.head);
    GrowsTransitive(read, search, given);
    ValidationLasts(read, given, n, client.head);
    var lines := Diff(given, n, client.head);
    WholeBodyIsLines(k, mode, Follower(client, n, 0), lines);
    ClientTakesDiff(mode, client, given);
    assert given.log == given.log[..n] + given.log[n..];
    assert (client.log + given.log[n..])[..n] == client.log;
  }

  lemma WholeBodyIsLines(k: Codec, mode: ReplicationMode, f: Follower, lines: seq<Line>)
    requires Faithful(k)
    ensures Feed("", Bytes(k, lines)).carry == ""
    ensures TakeRecords(k, mode, f, Feed("", Bytes(k, lines)).records) == TakeLines(mode, f, lines)
  {
    var bytes := Bytes(k, lines);
    assert "" + bytes == bytes;
    var m := ChunkIsLines(k, "", bytes, lines);
    assert lines[..m] == lines && lines[m..] == [];
    RecordsAreLines(k, mode, f, lines);
  }

  /** Zero means no restriction. */
  datatype Restrictions = Restrictions(maxIndexDiff: nat, maxDiffSize: nat, maxHeadDiff: int, maxClockDiff: int)

  predicate Forbids(k: Codec, r: Restrictions, s: Stream, next: nat, head: int)
    requires next <= |s.log|
  {
    || (r.maxIndexDiff != 0 && next != 0 && |s.log| - 1 >= next + r.maxIndexDiff)
    || (r.maxHeadDiff > 0 && s.head > head + r.maxHeadDiff)
    || (r.maxDiffSize != 0 && |Bytes(k, EntryLines(s.log, next, |s.log|))| > r.maxDiffSize)
  }

  /** The limits on the entries that are sent, on their bytes, and on how far the client's HEAD is
      behind. A client with no entries may be sent any number of them. */
  predicate WithinLimits(r: Restrictions, next: nat, sent: seq<Line>, k: Codec, behind: int) {
    && (r.maxIndexDiff == 0 || next == 0 || |sent| <= r.maxIndexDiff)
    && (r.maxHeadDiff <= 0 || behind <= r.maxHeadDiff)
    && (r.maxDiffSize == 0 || |Bytes(k, sent)| <= r.maxDiffSize)
  }

  lemma LimitsAreKept(k: Codec, r: Restrictions, s: Stream, next: nat, head: int)
    requires next <= |s.log|
    ensures !Forbids(k, r, s, next, head) <==> WithinLimits(r, next, EntryLines(s.log, next, |s.log|), k, s.head - head)
  {
  }

  method ValidateAndSendDiff(k: Codec, r: Restrictions, s: Stream, next: nat, head: int)
    returns (body: Option<string>)
    requires next <= |s.log|
    ensures body.None? <==> Forbids(k, r, s, next, head)
    ensures body.Some? <==> WithinLimits(r, next, EntryLines(s.log, next, |s.log|), k, s.head - head)
    ensures body.Some? ==> body.value == Bytes(k, Diff(s, next, head))
  {
    LimitsAreKept(k, r, s, next, head);
    if r.maxIndexDiff != 0 && next != 0 && |s.log| - 1 >= next + r.maxIndexDiff { return None; }
    if r.maxHeadDiff > 0 && s.head > head + r.maxHeadDiff { return None; }
    var text := "";
    for i := next to |s.log|
      invariant text == Bytes(k, EntryLines(s.log, next, i))
      invariant r.maxDiffSize != 0 ==> |text| <= r.maxDiffSize
    {
      text := text + (k.idxts(i, s.log[i].us) + "\t" + k.json(s.log[i].payload) + "\n");
      OneMoreLine(k, s.log, next, i);
      if r.maxDiffSize != 0 && |text| > r.maxDiffSize {
        BytesOfPart(k, s.log, next, i + 1);
        return None;
      }
    }
    ghost var entries := EntryLines(s.log, next, |s.log|);
    if s.head > head && (s.log == [] || s.head > s.log[|s.log| - 1].us) {
      text := text + (k.tsOnly(s.head) + "\n");
      BytesAppend(k, entries, [HeadLine(s.head)]);
      assert [HeadLine(s.head)][1..] == [];
      assert Bytes(k, [HeadLine(s.head)]) == k.tsOnly(s.head) + "\n";
    } else {
      assert Diff(s, next, head) == entries;
    }
    body := Some(text);
  }

  lemma OneMoreLine(k: Codec, log: seq<Entry>, lo: nat, hi: nat)
    requires lo <= hi < |log|
    ensures Bytes(k, EntryLines(log, lo, hi + 1))
         == Bytes(k, EntryLines(log, lo, hi)) + (k.idxts(hi, log[hi].us) + "\t" + k.json(log[hi].payload) + "\n")
  {
    var last := [EntryLineAt(log, hi)];
    assert EntryLines(log, lo, hi + 1) == EntryLines(log, lo, hi) + last;
    BytesAppend(k, EntryLines(log, lo, hi), last);
    assert last[1..] == [];
    assert Bytes(k, last) == Render(k, last[0]) + "\n";
  }

  lemma BytesOfPart(k: Codec, log: seq<Entry>, lo: nat, hi: nat)
    requires lo <= hi <= |log|
    ensures |Bytes(k, EntryLines(log, lo, hi))| <= |Bytes(k, EntryLines(log, lo, |log|))|
  {
    assert EntryLines(log, lo, |log|) == EntryLines(log, lo, hi) + EntryLines(log, hi, |log|);
    BytesAppend(k, EntryLines(log, lo, hi), EntryLines(log, hi, |log|));
  }
}
