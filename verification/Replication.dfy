/**
 One replication connection: the subscriber thread and the endpoint on the serving side, the bytes in
 flight, and the follower at the receiving end.

 The follower and the stream it reads from need not be the newest: both are copies of an
 authoritative stream `auth`, and either may be ahead of the other.
 */
module Replication {
  import opened StreamLog
  import opened Chunks
  import opened Replica
  import opened Subscription
  import opened PubSub
  import opened ServedRange

  /** The serving side: `i` and `since` as requested, and the lines sent but not yet taken, of which
      the follower already holds the first bytes in `carry`. */
  datatype Conn = Conn(thread: Thread, serving: bool, i: nat, since: int, pending: seq<Line>, carry: string)

  function Min(a: nat, b: nat): nat {
    if a < b then a else b
  }

  /** Subscribing: `since` is sent only when positive. The size of the stream is read before the log
      is searched by timestamp. */
  function Connect(f: Follower, size: nat, log: seq<Entry>): Conn {
    if 0 < f.fromUs
    then Conn(StartThread(Min(FirstAt(log, f.fromUs), size), f.fromUs), false, f.next, f.fromUs, [], "")
    else Conn(StartThread(f.next, 0), true, f.next, 0, [], "")
  }

  /** What the endpoint lets through. */
  function Passes(serving: bool, i: nat, since: int, line: Line): bool {
    serving || (
      match line
      case EntryLine(index, us, _) => index >= i && us >= since
      case HeadLine(us) => us >= since)
  }

  function Through(serving: bool, i: nat, since: int, lines: seq<Line>): (r: (bool, seq<Line>))
    decreases |lines|
  {
    if lines == [] then (serving, [])
    else
      var pass := Passes(serving, i, since, lines[0]);
      var rest := Through(pass, i, since, lines[1..]);
      (rest.0, (if pass then [lines[0]] else []) + rest.1)
  }

  function ServerRound(c: Conn, snap: Stream): Conn {
    var p := Round(c.thread, snap);
    var t := Through(c.serving, c.i, c.since, p.lines);
    c.(thread := p.thread, serving := t.0, pending := c.pending + t.1)
  }

  datatype Received = Received(follower: Follower, conn: Option<Conn>)

  /** A chunk arrives. An exception on any record drops the connection. */
  function Receive(k: Codec, mode: ReplicationMode, f: Follower, c: Conn, chunk: string): Received {
    var fed := Feed(c.carry, chunk);
    var taken := TakeRecords(k, mode, f, fed.records);
    if taken.ok && |fed.records| <= |c.pending|
    then Received(taken.follower, Some(c.(pending := c.pending[|fed.records|..], carry := fed.carry)))
    else Received(taken.follower, None)
  }

  /** A follower between sessions. */
  ghost predicate FollowerOk(f: Follower, auth: Stream) {
    && Valid(f.stream) && Grows(f.stream, auth)
    && f.next == |f.stream.log|
    && (f.fromUs == 0 || f.fromUs == f.stream.head + 1)
  }

  /** Where the lines in flight will take the follower. */
  function Expected(c: Conn, f: Follower): nat {
    EndIndex(|f.stream.log|, c.pending)
  }

  ghost predicate ConnOk(k: Codec, c: Conn, f: Follower, up: Stream, auth: Stream) {
    && c.thread.begin <= c.thread.index && -1 <= c.thread.head
    && InOrder(auth, |f.stream.log|, -1, c.pending)
    && BreakFree(c.carry) && c.carry <= Bytes(k, c.pending)
    && (c.serving ==>
          && c.thread.index == Expected(c, f)
          && ThreadOk(c.thread, up, EndUs(-1, c.pending)))
    && (!c.serving ==>
          && c.pending == [] && c.i == |f.stream.log| && 0 < c.since == f.stream.head + 1
          && c.thread.index <= c.i && c.thread.index <= |up.log| && c.since - 1 <= c.thread.head)
  }

  lemma EntriesCovered(f: Follower, up: Stream, auth: Stream)
    requires FollowerOk(f, auth) && Grows(up, auth)
    ensures Covered(up, |f.stream.log|, f.stream.head)
    ensures f.stream.head < up.head ==> |f.stream.log| <= |up.log|
  {
    forall j | |f.stream.log| <= j < |up.log| ensures f.stream.head < up.log[j].us {
      assert up.log[j] == auth.log[..|up.log|][j];
    }
    if |up.log| < |f.stream.log| {
      assert f.stream.log[|up.log|] == auth.log[..|f.stream.log|][|up.log|];
    }
  }

  /** A connection may be opened at any moment, whatever part of the stream was seen first. */
  lemma ConnectOk(k: Codec, f: Follower, size: nat, up: Stream, auth: Stream)
    requires FollowerOk(f, auth) && Valid(up) && Grows(up, auth) && size <= |up.log|
    ensures ConnOk(k, Connect(f, size, up.log), f, up, auth)
  {
    EntriesCovered(f, up, auth);
    if 0 < f.fromUs {
      var n := |f.stream.log|;
      assert n < |up.log| ==> f.fromUs <= up.log[n].us;
    }
  }

  /** The pair of index and timestamp that the follower sends makes a stream which has everything the
      follower has, resume at exactly the follower's size; entries published between the two reads
      of the server do not change that. */
  lemma ResumesAtFollowerSize(f: Follower, seen: Stream, up: Stream)
    requires FollowerOk(f, seen) && Valid(seen) && Valid(up) && Grows(seen, up)
    ensures Connect(f, |seen.log|, up.log).thread.index == |f.stream.log|
  {
    GrowsTransitive(f.stream, seen, up);
    if 0 < f.fromUs {
      var n := |f.stream.log|;
      forall j | 0 <= j < n ensures up.log[j].us < f.fromUs {
        assert up.log[..n][j] == f.stream.log[j];
      }
      FirstAtIs(up.log, f.fromUs, n);
    }
  }

  lemma {:induction false} ServingPassesAll(i: nat, since: int, lines: seq<Line>)
    ensures Through(true, i, since, lines) == (true, lines)
    decreases |lines|
  {
    if lines != [] {
      ServingPassesAll(i, since, lines[1..]);
      assert [lines[0]] + lines[1..] == lines;
    }
  }

  /** Entries the follower has are held back; from its size on everything goes through. */
  lemma {:induction false} EntriesThrough(i: nat, since: int, log: seq<Entry>, lo: nat, hi: nat, rest: seq<Line>)
    requires lo <= hi <= |log| && lo <= i
    requires forall j :: i <= j < hi ==> since <= log[j].us
    ensures var r := Through(false, i, since, EntryLines(log, lo, hi) + rest);
            if i < hi then r == (true, EntryLines(log, i, hi) + rest) else r == Through(false, i, since, rest)
    decreases hi - lo
  {
    var lines := EntryLines(log, lo, hi) + rest;
    if lo == hi {
      assert lines == rest;
    } else {
      assert lines[0] == EntryLineAt(log, lo);
      assert lines[1..] == EntryLines(log, lo + 1, hi) + rest;
      if lo < i {
        EntriesThrough(i, since, log, lo + 1, hi, rest);
        var more := Through(false, i, since, lines[1..]);
        assert [] + more.1 == more.1;
      } else {
        ServingPassesAll(i, since, lines[1..]);
        assert [lines[0]] + lines[1..] == lines;
      }
    }
  }

  lemma {:induction false} BytesAppend(k: Codec, a: seq<Line>, b: seq<Line>)
    ensures Bytes(k, a + b) == Bytes(k, a) + Bytes(k, b)
  {
    if a == [] {
      assert a + b == b;
    } else {
      assert (a + b)[1..] == a[1..] + b;
      BytesAppend(k, a[1..], b);
    }
  }

  lemma ServingRoundOk(k: Codec, c: Conn, f: Follower, up: Stream, auth: Stream)
    requires ConnOk(k, c, f, up, auth) && c.serving && Valid(up) && Grows(up, auth)
    ensures ConnOk(k, ServerRound(c, up), f, up, auth)
  {
    var p := Round(c.thread, up);
    var last := EndUs(-1, c.pending);
    ServingPassesAll(c.i, c.since, p.lines);
    RoundKeepsOrder(c.thread, up, last);
    InOrderGrows(up, auth, c.thread.index, last, p.lines);
    InOrderAppend(auth, |f.stream.log|, -1, c.pending, p.lines);
    BytesAppend(k, c.pending, p.lines);
  }

  /** What a round passes on while the follower still waits for its first line. */
  lemma WaitingRoundLines(c: Conn, up: Stream, n: nat) returns (head: seq<Line>)
    requires Valid(up) && !c.serving && c.i == n && c.thread.index <= n && up.head > c.thread.head
    requires c.thread.index <= |up.log| && Covered(up, n, c.since - 1)
    ensures head == [] || head == [HeadLine(up.head)]
    ensures |up.log| < c.thread.begin ==> head == []
    ensures n < |up.log| && head != [] ==> up.log[|up.log| - 1].us < up.head
    ensures Through(false, c.i, c.since, Round(c.thread, up).lines)
         == if n < |up.log| then (true, EntryLines(up.log, n, |up.log|) + head)
            else if head != [] && up.head >= c.since then (true, head) else (false, [])
  {
    var size, lo := |up.log|, c.thread.index;
    var entries, lines := EntryLines(up.log, lo, size), Round(c.thread, up).lines;
    head := lines[|entries|..];
    assert lines == entries + head;
    EntriesThrough(c.i, c.since, up.log, lo, size, head);
    HeadThrough(c.i, c.since, up.head);
  }

  lemma HeadThrough(i: nat, since: int, us: int)
    ensures Through(false, i, since, [HeadLine(us)]) == if us >= since then (true, [HeadLine(us)]) else (false, [])
  {
    var lines := [HeadLine(us)];
    assert lines[1..] == [];
    var rest := Through(us >= since, i, since, []).1;
    assert [HeadLine(us)] + rest == [HeadLine(us)] && [] + rest == [];
  }

  lemma EntriesThenHead(up: Stream, n: nat, head: seq<Line>)
    requires Valid(up) && n < |up.log| && (head == [] || head == [HeadLine(up.head)])
    requires head != [] ==> up.log[|up.log| - 1].us < up.head
    ensures var lines := EntryLines(up.log, n, |up.log|) + head;
            InOrder(up, n, -1, lines) && EndIndex(n, lines) == |up.log| && EndUs(-1, lines) <= up.head
  {
    var entries := EntryLines(up.log, n, |up.log|);
    EntriesInOrder(up, n, |up.log|, -1);
    InOrderAppend(up, n, -1, entries, head);
    assert head != [] ==> head[1..] == [];
  }

  /** The lines a round passes on are in order, and the thread has then read just past them. */
  lemma WaitingRoundInOrder(c: Conn, up: Stream, n: nat)
    requires Valid(up) && !c.serving && c.i == n && c.thread.index <= n && up.head > c.thread.head >= -1
    requires c.thread.index <= |up.log| && Covered(up, n, c.since - 1) && (c.since <= up.head ==> n <= |up.log|)
    ensures var through, t := Through(false, c.i, c.since, Round(c.thread, up).lines), Round(c.thread, up).thread;
            && InOrder(up, n, -1, through.1) && EndUs(-1, through.1) <= up.head
            && t.begin == c.thread.begin && t.head == up.head && c.thread.index <= t.index <= |up.log|
            && (through.0 ==> t.index == |up.log| == EndIndex(n, through.1))
            && (!through.0 ==> through.1 == [] && t.index <= n)
  {
    hide Through, Round;
    var head := WaitingRoundLines(c, up, n);
    RoundMoves(c.thread, up);
    if n < |up.log| {
      EntriesThenHead(up, n, head);
    } else if head != [] {
      assert head[1..] == [];
    }
  }

  lemma WaitingRoundOk(k: Codec, c: Conn, f: Follower, up: Stream, auth: Stream)
    requires ConnOk(k, c, f, up, auth) && !c.serving && Valid(up) && Grows(up, auth) && FollowerOk(f, auth)
    ensures ConnOk(k, ServerRound(c, up), f, up, auth)
  {
    hide Bytes, Valid, InOrder, Grows, EndUs;
    EntriesCovered(f, up, auth);
    BytesOfNone(k);
    if up.head > c.thread.head {
      hide Through, Round, EndIndex;
      WaitingRoundInOrder(c, up, |f.stream.log|);
      var lines := Through(false, c.i, c.since, Round(c.thread, up).lines).1;
      InOrderGrows(up, auth, |f.stream.log|, -1, lines);
      assert c.pending + lines == lines;
    } else {
      assert Round(c.thread, up) == Pass(c.thread, []);
      assert c.pending + [] == c.pending;
    }
  }

  lemma BytesOfNone(k: Codec)
    ensures Bytes(k, []) == ""
  {
  }

  lemma RoundMoves(t: Thread, up: Stream)
    requires up.head > t.head
    ensures Round(t, up).thread == Thread(t.begin, if |up.log| > t.index then |up.log| else t.index, up.head)
  {
  }

  lemma ServerRoundOk(k: Codec, c: Conn, f: Follower, up: Stream, auth: Stream)
    requires ConnOk(k, c, f, up, auth) && Valid(up) && Grows(up, auth) && FollowerOk(f, auth)
    ensures ConnOk(k, ServerRound(c, up), f, up, auth)
  {
    if c.serving { ServingRoundOk(k, c, f, up, auth); } else { WaitingRoundOk(k, c, f, up, auth); }
  }

  /** A follower that knows where it stands, in either mode, takes exactly the next entry, or a HEAD,
      ahead of its own HEAD, whoever sends it; and then its stream is just that much longer. */
  lemma TakesExactlyTheNext(mode: ReplicationMode, f: Follower, line: Line)
    requires f.next == |f.stream.log| && (f.fromUs == 0 || f.fromUs == f.stream.head + 1)
    ensures var t := TakeLine(mode, f, line);
            && (t.Some? <==> line.us > f.stream.head && (line.EntryLine? ==> line.index == |f.stream.log|))
            && (t.Some? ==>
                  && t.value.stream.head == line.us
                  && t.value.stream.log == f.stream.log + (if line.EntryLine? then [Entry(line.us, line.payload)] else [])
                  && t.value.next == |t.value.stream.log|
                  && (t.value.fromUs == 0 || t.value.fromUs == t.value.stream.head + 1))
  {
    assert f.stream.log + [] == f.stream.log;
  }

  /** Taking one line that tells the truth about the authoritative stream: the follower stays a
      faithful copy, and the only line it can reject is a HEAD it is not behind. */
  lemma TakeLineOk(mode: ReplicationMode, f: Follower, auth: Stream, lines: seq<Line>)
    requires Valid(auth) && FollowerOk(f, auth) && lines != [] && InOrder(auth, |f.stream.log|, -1, lines)
    ensures TakeLine(mode, f, lines[0]).None? <==> lines[0].HeadLine? && lines[0].us <= f.stream.head
    ensures TakeLine(mode, f, lines[0]).Some? ==>
              var g := TakeLine(mode, f, lines[0]).value;
              && FollowerOk(g, auth)
              && |g.stream.log| == EndIndex(|f.stream.log|, lines[..1])
              && g.stream.head == lines[0].us
              && InOrder(auth, |g.stream.log|, -1, lines[1..])
  {
    if lines[0].EntryLine? { TakeEntryOk(mode, f, auth, lines); } else { TakeHeadOk(mode, f, auth, lines); }
  }

  lemma TakeEntryOk(mode: ReplicationMode, f: Follower, auth: Stream, lines: seq<Line>)
    requires Valid(auth) && FollowerOk(f, auth) && lines != [] && lines[0].EntryLine?
    requires InOrder(auth, |f.stream.log|, -1, lines)
    ensures var g := TakeLine(mode, f, lines[0]);
            && g.Some? && FollowerOk(g.value, auth)
            && |g.value.stream.log| == EndIndex(|f.stream.log|, lines[..1])
            && g.value.stream.head == lines[0].us
            && InOrder(auth, |g.value.stream.log|, -1, lines[1..])
  {
    var n := |f.stream.log|;
    assert lines[..1][1..] == [];
    assert auth.log[..n + 1] == f.stream.log + [auth.log[n]];
    InOrderWeaken(auth, n + 1, lines[0].us, -1, lines[1..]);
  }

  lemma TakeHeadOk(mode: ReplicationMode, f: Follower, auth: Stream, lines: seq<Line>)
    requires Valid(auth) && FollowerOk(f, auth) && lines != [] && lines[0].HeadLine?
    requires InOrder(auth, |f.stream.log|, -1, lines)
    ensures var g := TakeLine(mode, f, lines[0]);
            && (g.None? <==> lines[0].us <= f.stream.head)
            && (g.Some? ==>
                  && FollowerOk(g.value, auth)
                  && |g.value.stream.log| == EndIndex(|f.stream.log|, lines[..1])
                  && g.value.stream.head == lines[0].us
                  && InOrder(auth, |g.value.stream.log|, -1, lines[1..]))
  {
    assert lines[..1][1..] == [];
    InOrderWeaken(auth, |f.stream.log|, lines[0].us, -1, lines[1..]);
  }

  lemma {:induction false} TakeLinesOk(mode: ReplicationMode, f: Follower, auth: Stream, lines: seq<Line>, m: nat)
    requires Valid(auth) && FollowerOk(f, auth) && m <= |lines| && InOrder(auth, |f.stream.log|, -1, lines)
    ensures var t := TakeLines(mode, f, lines[..m]);
            && FollowerOk(t.follower, auth)
            && (t.ok ==> |t.follower.stream.log| == EndIndex(|f.stream.log|, lines[..m]))
            && (t.ok ==> InOrder(auth, |t.follower.stream.log|, -1, lines[m..]))
    decreases m
  {
    if 0 < m {
      TakeLineOk(mode, f, auth, lines);
      var taken := TakeLine(mode, f, lines[0]);
      if taken.Some? {
        TakeLinesOk(mode, taken.value, auth, lines[1..], m - 1);
        assert lines[..m][1..] == lines[1..][..m - 1];
        assert lines[1..][m - 1..] == lines[m..];
        assert lines[..1][1..] == [];
      }
    }
  }

  lemma CarryIsFed(carry: string, chunk: string)
    requires BreakFree(carry)
    ensures Feed(carry, chunk) == Feed("", carry + chunk)
  {
    FeedRun("", carry, chunk);
    assert "" + carry == carry;
  }

  /** The bytes that have arrived are so many whole lines, and the first part of the next. */
  lemma ChunkIsLines(k: Codec, carry: string, chunk: string, lines: seq<Line>) returns (m: nat)
    requires Faithful(k) && BreakFree(carry) && carry + chunk <= Bytes(k, lines)
    ensures m <= |lines|
    ensures Feed(carry, chunk).records == Rendered(k, lines[..m])
    ensures BreakFree(Feed(carry, chunk).carry) && Feed(carry, chunk).carry <= Bytes(k, lines[m..])
    ensures carry + chunk == Bytes(k, lines) ==> m == |lines|
  {
    hide Feed;
    CarryIsFed(carry, chunk);
    m := ReceivedBytesAreWholeLines(k, lines, |carry + chunk|);
    if m < |lines| {
      BytesAppend(k, lines[..m + 1], lines[m + 1..]);
      assert lines[..m + 1] + lines[m + 1..] == lines;
    }
    assert Bytes(k, lines)[..|carry + chunk|] == carry + chunk;
    if m < |lines| {
      assert Bytes(k, lines[m..]) == Render(k, lines[m]) + ("\n" + Bytes(k, lines[m..][1..]));
    }
  }

  lemma CountDelivered(a: nat, lines: seq<Line>, m: nat)
    requires m <= |lines|
    ensures EndIndex(a, lines) == EndIndex(EndIndex(a, lines[..m]), lines[m..])
  {
    assert lines == lines[..m] + lines[m..];
    InOrderAppend(EMPTY, a, -1, lines[..m], lines[m..]);
  }

  /** Whatever bytes arrive, cut wherever, the follower stays a faithful copy and never takes a
      truncated line; the connection, if it survives, stays in step. */
  lemma ReceiveOk(k: Codec, mode: ReplicationMode, f: Follower, c: Conn, chunk: string, up: Stream, auth: Stream)
    requires Faithful(k) && Valid(auth) && FollowerOk(f, auth) && ConnOk(k, c, f, up, auth)
    requires c.carry + chunk <= Bytes(k, c.pending)
    ensures var r := Receive(k, mode, f, c, chunk);
            && FollowerOk(r.follower, auth)
            && (r.conn.Some? ==> ConnOk(k, r.conn.value, r.follower, up, auth))
  {
    var m := ChunkIsLines(k, c.carry, chunk, c.pending);
    RecordsAreLines(k, mode, f, c.pending[..m]);
    TakeLinesOk(mode, f, auth, c.pending, m);
    CountDelivered(|f.stream.log|, c.pending, m);
    var r := Receive(k, mode, f, c, chunk);
    if r.conn.Some? {
      if c.serving {
        assert EndUs(-1, r.conn.value.pending) <= EndUs(-1, c.pending) by {
          FirstLinesLater(auth, |f.stream.log|, c.pending);
        }
      } else {
        assert c.pending == [] && m == 0;
        assert TakeLines(mode, f, c.pending[..0]) == Taken(f, true);
      }
    }
  }

  lemma FirstLinesLater(auth: Stream, n: nat, lines: seq<Line>)
    requires InOrder(auth, n, -1, lines)
    ensures -1 <= EndUs(-1, lines)
  {
    if lines != [] { FirstIsLater(auth, n, -1, lines, |lines| - 1); }
  }

  /** The request a follower makes: an index, and a timestamp when there is one. */
  function SubscribeParams(i: nat, since: nat): Params {
    Params(i, 0, since, 0, 0, 0, 0, 0, false, false, false)
  }

  /** The HTTP endpoint, asked as a follower asks, never ends by itself and sends exactly the lines
      that `Through` lets pass. */
  lemma {:induction false} EndpointSendsTheBytes(k: Codec, i: nat, since: nat, e: Endpoint, events: seq<Event>, lines: seq<Line>)
    requires |events| == |lines|
    requires forall j :: 0 <= j < |events| ==> events[j].line == lines[j] && !events[j].terminating
    requires e.fromUs == since && e.toUs == 0 && e.n == 0 && !e.started && (!e.serving ==> 0 < since)
    ensures var r := RunParsed(k, SubscribeParams(i, since), e, events);
            && r.response.More? && r.out == Bytes(k, Through(e.serving, i, since, lines).1)
            && r.endpoint.serving == Through(e.serving, i, since, lines).0
    decreases |lines|
  {
    if lines != [] {
      var p, ev := SubscribeParams(i, since), events[0];
      var pass := Passes(e.serving, i, since, lines[0]);
      var first := StepParsed(k, p, e, ev);
      assert first.response.More? && first.endpoint.serving == pass;
      assert first.out == if pass then Render(k, lines[0]) + "\n" else "";
      EndpointSendsTheBytes(k, i, since, first.endpoint, events[1..], lines[1..]);
      var rest := Through(pass, i, since, lines[1..]).1;
      BytesAppend(k, if pass then [lines[0]] else [], rest);
      assert [lines[0]][1..] == [];
      assert Bytes(k, [lines[0]]) == Render(k, lines[0]) + "\n";
    }
  }

  /** Lines stamped after the follower's HEAD are all taken. */
  lemma {:induction false} TakesAll(mode: ReplicationMode, f: Follower, auth: Stream, lines: seq<Line>)
    requires Valid(auth) && FollowerOk(f, auth) && InOrder(auth, |f.stream.log|, f.stream.head, lines)
    ensures var t := TakeLines(mode, f, lines);
            && t.ok && FollowerOk(t.follower, auth)
            && t.follower.stream.head == EndUs(f.stream.head, lines)
            && |t.follower.stream.log| == EndIndex(|f.stream.log|, lines)
    decreases |lines|
  {
    if lines != [] {
      InOrderWeaken(auth, |f.stream.log|, f.stream.head, -1, lines);
      TakeLineOk(mode, f, auth, lines);
      assert lines[..1][1..] == [];
      TakesAll(mode, TakeLine(mode, f, lines[0]).value, auth, lines[1..]);
    }
  }

  /** A copy that reaches the HEAD and the size of the whole, is the whole. */
  lemma LevelMeansEqual(copy: Stream, whole: Stream)
    requires Valid(copy) && Valid(whole) && Grows(copy, whole) && copy.head == whole.head
    ensures copy == whole
  {
    NoneMissing(copy, whole);
    assert whole.log[..|whole.log|] == whole.log;
  }

  lemma NoneMissing(copy: Stream, whole: Stream)
    requires Valid(whole) && Grows(copy, whole)
    ensures copy.head == whole.head ==> |copy.log| == |whole.log|
  {
    if |copy.log| < |whole.log| {
      assert copy.head < whole.log[|copy.log|].us <= whole.head;
    }
  }

  lemma CatchUpLines(f: Follower, up: Stream) returns (head: seq<Line>)
    requires Valid(up) && FollowerOk(f, up) && f.stream.head < up.head
    ensures var n, size := |f.stream.log|, |up.log|;
            && n <= size
            && ServerRound(Connect(f, size, up.log), up).pending == EntryLines(up.log, n, size) + head
            && (head == [HeadLine(up.head)] || (head == [] && n < size && up.log[size - 1].us == up.head))
            && (n < size && head != [] ==> up.log[size - 1].us < up.head)
  {
    var n, c := |f.stream.log|, Connect(f, |up.log|, up.log);
    ResumesAtFollowerSize(f, up, up);
    var round := Round(c.thread, up).lines;
    head := round[|up.log| - n..];
    assert round == EntryLines(up.log, n, |up.log|) + head;
    if c.serving {
      ServingPassesAll(c.i, c.since, round);
    } else {
      EntriesThrough(c.i, c.since, up.log, n, |up.log|, head);
      HeadThrough(c.i, c.since, up.head);
    }
    var through := Through(c.serving, c.i, c.since, round).1;
    assert [] + through == through;
  }

  lemma CatchUpInOrder(f: Follower, up: Stream, head: seq<Line>)
    requires Valid(up) && FollowerOk(f, up) && f.stream.head < up.head
    requires head == [HeadLine(up.head)] ||
             (head == [] && |f.stream.log| < |up.log| && up.log[|up.log| - 1].us == up.head)
    requires |f.stream.log| < |up.log| && head != [] ==> up.log[|up.log| - 1].us < up.head
    ensures var lines := EntryLines(up.log, |f.stream.log|, |up.log|) + head;
            InOrder(up, |f.stream.log|, f.stream.head, lines) && EndUs(f.stream.head, lines) == up.head
  {
    var n, size := |f.stream.log|, |up.log|;
    var entries := EntryLines(up.log, n, size);
    EntriesInOrder(up, n, size, f.stream.head);
    InOrderAppend(up, n, f.stream.head, entries, head);
    assert head != [] ==> head[1..] == [];
  }

  /** One undisturbed session brings any follower level with a stream it is a copy of. */
  lemma OneSessionCatchesUp(k: Codec, mode: ReplicationMode, f: Follower, up: Stream)
    requires Faithful(k) && Valid(up) && FollowerOk(f, up)
    ensures var c := ServerRound(Connect(f, |up.log|, up.log), up);
            Receive(k, mode, f, c, Bytes(k, c.pending)).follower.stream == up
  {
    hide ServerRound, TakeLines, InOrder, Feed, Bytes, Valid, TakeRecords, Rendered;
    var c0 := Connect(f, |up.log|, up.log);
    var c := ServerRound(c0, up);
    var bytes := Bytes(k, c.pending);
    ConnectOk(k, f, |up.log|, up, up);
    ServerRoundOk(k, c0, f, up, up);
    assert c.carry == "" by { NoCarry(c0, up); }
    assert "" + bytes == bytes && c.pending[..|c.pending|] == c.pending;
    var m := ChunkIsLines(k, "", bytes, c.pending);
    RecordsAreLines(k, mode, f, c.pending);
    if f.stream.head < up.head {
      var head := CatchUpLines(f, up);
      CatchUpInOrder(f, up, head);
      TakesAll(mode, f, up, c.pending);
      LevelMeansEqual(TakeLines(mode, f, c.pending).follower.stream, up);
    } else {
      LevelMeansEqual(f.stream, up);
      NothingNewToTake(mode, f, up, c.pending);
    }
  }

  lemma NoCarry(c: Conn, up: Stream)
    ensures ServerRound(c, up).carry == c.carry
  {
  }

  lemma NothingNewToTake(mode: ReplicationMode, f: Follower, auth: Stream, lines: seq<Line>)
    requires Valid(auth) && FollowerOk(f, auth) && f.stream == auth && InOrder(auth, |f.stream.log|, -1, lines)
    ensures TakeLines(mode, f, lines).follower == f
  {
    if lines != [] { TakeLineOk(mode, f, auth, lines); }
  }

  /** After lines in order, no entry is left at or before the last timestamp passed. */
  lemma {:induction false} InOrderEndCovered(s: Stream, n: nat, last: int, lines: seq<Line>)
    requires Valid(s) && InOrder(s, n, last, lines) && Covered(s, n, last)
    ensures Covered(s, EndIndex(n, lines), EndUs(last, lines))
    decreases |lines|
  {
    if lines != [] {
      InOrderEndCovered(s, if lines[0].EntryLine? then n + 1 else n, lines[0].us, lines[1..]);
    }
  }

  /** A connection stays in step while the streams at both its ends grow towards the authoritative
      one, and while that one grows. */
  lemma ConnKeeps(k: Codec, c: Conn, f: Follower, up: Stream, up': Stream, auth: Stream, auth': Stream)
    requires ConnOk(k, c, f, up, auth) && Grows(up, up') && Grows(up', auth') && Grows(auth, auth') && Valid(auth')
    ensures ConnOk(k, c, f, up', auth')
  {
    var n := |f.stream.log|;
    InOrderGrows(auth, auth', n, -1, c.pending);
    InOrderEndCovered(auth', n, -1, c.pending);
    forall j | Expected(c, f) <= j < |up'.log| ensures EndUs(-1, c.pending) < up'.log[j].us {
      assert up'.log[j] == auth'.log[..|up'.log|][j];
    }
  }

  /** Whatever is taken, the follower's stream only grows. */
  lemma {:induction false} TakingGrows(k: Codec, mode: ReplicationMode, f: Follower, records: seq<string>)
    requires Valid(f.stream)
    ensures Grows(f.stream, TakeRecords(k, mode, f, records).follower.stream)
    ensures Valid(TakeRecords(k, mode, f, records).follower.stream)
    decreases |records|
  {
    if records != [] && TakeRaw(k, mode, f, records[0]).Some? {
      var g := TakeRaw(k, mode, f, records[0]).value;
      assert Grows(f.stream, g.stream) && Valid(g.stream);
      TakingGrows(k, mode, g, records[1..]);
      GrowsTransitive(f.stream, g.stream, TakeRecords(k, mode, g, records[1..]).follower.stream);
    }
  }
}
