/**
 The receiving end of replication: lines on the wire, the follower that takes them one by one, and
 the object that feeds it raw chunks.
 */
module Replica {
  import opened StreamLog
  import opened Chunks

  /** What one line of the feed says: an indexed entry, or the HEAD alone. */
  datatype Line = EntryLine(index: nat, us: int, payload: string) | HeadLine(us: int)

  /** The textual forms: of an index with a timestamp, of an entry, and of a HEAD alone. `parse`
      gives `None` on text that is not a line; `usOf` reads the timestamp out of an index text. */
  datatype Codec = Codec(
    idxts: (nat, int) -> string,
    json: string -> string,
    tsOnly: int -> string,
    parse: string -> Option<Line>,
    usOf: string -> int)

  function Render(c: Codec, l: Line): string {
    match l
    case EntryLine(index, us, payload) => c.idxts(index, us) + "\t" + c.json(payload)
    case HeadLine(us) => c.tsOnly(us)
  }

  /** What is assumed of the serialization: it reads back, and no line contains a line break. */
  ghost predicate Faithful(c: Codec) {
    && (forall l: Line :: c.parse(Render(c, l)) == Some(l) && Render(c, l) != "" && BreakFree(Render(c, l)))
    && (forall index: nat, us: int :: c.usOf(c.idxts(index, us)) == us && '\t' !in c.idxts(index, us))
  }

  datatype ReplicationMode = Checked | Unchecked

  /** The follower: its own stream, and the position it will ask to resume from. */
  datatype Follower = Follower(stream: Stream, next: nat, fromUs: int)

  /** One line. `None` is any exception: nothing has changed. */
  function TakeLine(mode: ReplicationMode, f: Follower, line: Line): Option<Follower> {
    match line
    case EntryLine(index, us, payload) =>
      if mode.Checked? && ((0 < f.fromUs && us < f.fromUs) || index != f.next) then None
      else if mode.Unchecked? && index != |f.stream.log| then None
      else (
        match Publish(f.stream, us, payload)
        case None => None
        case Some(s) => Some(Follower(s, f.next + 1, 0)))
    case HeadLine(us) =>
      if mode.Checked? && 0 < f.fromUs && us < f.fromUs then None
      else (
        match UpdateHead(f.stream, us)
        case None => None
        case Some(s) => Some(Follower(s, f.next, us + 1)))
  }

  function TakeRaw(c: Codec, mode: ReplicationMode, f: Follower, raw: string): Option<Follower> {
    match c.parse(raw)
    case None => None
    case Some(line) => TakeLine(mode, f, line)
  }

  datatype Taken = Taken(follower: Follower, ok: bool)

  /** Lines are taken in order until one of them throws. */
  function TakeLines(mode: ReplicationMode, f: Follower, lines: seq<Line>): Taken
    decreases |lines|
  {
    if lines == [] then Taken(f, true)
    else (
      match TakeLine(mode, f, lines[0])
      case None => Taken(f, false)
      case Some(g) => TakeLines(mode, g, lines[1..]))
  }

  function TakeRecords(c: Codec, mode: ReplicationMode, f: Follower, records: seq<string>): (t: Taken)
    ensures |f.stream.log| <= |t.follower.stream.log|
    decreases |records|
  {
    if records == [] then Taken(f, true)
    else (
      match TakeRaw(c, mode, f, records[0])
      case None => Taken(f, false)
      case Some(g) => TakeRecords(c, mode, g, records[1..]))
  }

  /** `RemoteStreamSubscriber` of stream/replicator.h with a `StreamReplicator` as its subscriber. */
  class RemoteStreamSubscriber {
    const codec: Codec
    const mode: ReplicationMode
    const publisher: Persister
    var nextExpectedIndex: nat
    var fromUs: int
    var carriedOver: string

    constructor (codec: Codec, mode: ReplicationMode, publisher: Persister, startIdx: nat, fromUs: int)
      ensures this.codec == codec && this.mode == mode && this.publisher == publisher
      ensures nextExpectedIndex == startIdx && this.fromUs == fromUs && carriedOver == ""
    {
      this.codec, this.mode, this.publisher := codec, mode, publisher;
      nextExpectedIndex, this.fromUs, carriedOver := startIdx, fromUs, "";
    }

    function State(): Follower
      reads this, publisher
    {
      Follower(publisher.View(), nextExpectedIndex, fromUs)
    }

    method PassEntryToSubscriber(raw: string) returns (ok: bool)
      requires Valid(publisher.View())
      modifies this`nextExpectedIndex, this`fromUs, publisher
      ensures Valid(publisher.View())
      ensures ok == TakeRaw(codec, mode, old(State()), raw).Some?
      ensures State() == if ok then TakeRaw(codec, mode, old(State()), raw).value else old(State())
    {
      var parsed := codec.parse(raw);
      if parsed.None? { return false; }
      match parsed.value {
        case EntryLine(index, us, payload) =>
          if mode.Checked? {
            if (0 < fromUs && us < fromUs) || index != nextExpectedIndex { return false; }
            ok := publisher.PublishEntry(us, payload);
          } else {
            ok := publisher.PublishUnsafe(index, us, payload);
          }
          if !ok { return; }
          nextExpectedIndex := nextExpectedIndex + 1;
          fromUs := 0;
        case HeadLine(us) =>
          if mode.Checked? && 0 < fromUs && us < fromUs { return false; }
          ok := publisher.AdvanceHead(us);
          if !ok { return; }
          fromUs := us + 1;
      }
    }

    method PassChunkToSubscriber(chunk: string) returns (ok: bool)
      requires Valid(publisher.View())
      modifies this, publisher
      ensures Valid(publisher.View())
      ensures Taken(State(), ok)
           == TakeRecords(codec, mode, old(State()), Feed(old(carriedOver), chunk).records)
      ensures ok ==> carriedOver == Feed(old(carriedOver), chunk).carry
    {
      hide Feed, TakeRaw;
      ghost var all := Feed(carriedOver, chunk);
      ghost var goal := TakeRecords(codec, mode, State(), all.records);
      var beginPos := 0;
      assert chunk[0..] == chunk;
      if carriedOver != "" {
        beginPos := NextBreak(chunk, 0);
        FeedCarried(carriedOver, chunk, beginPos);
        if beginPos == |chunk| {
          carriedOver := carriedOver + chunk;
          return true;
        }
        ok := PassEntryToSubscriber(carriedOver + chunk[..beginPos]);
        if !ok { return; }
        carriedOver := "";
      }
      while true
        invariant 0 <= beginPos <= |chunk| && carriedOver == ""
        invariant Valid(publisher.View())
        invariant all.carry == Feed("", chunk[beginPos..]).carry
        invariant goal == TakeRecords(codec, mode, State(), Feed("", chunk[beginPos..]).records)
        decreases |chunk| - beginPos
      {
        beginPos := SkipBreaks(chunk, beginPos);
        if beginPos == |chunk| { return true; }
        var endPos := NextBreak(chunk, beginPos + 1);
        FeedOneLine(chunk, beginPos, endPos);
        if endPos == |chunk| {
          carriedOver := chunk[beginPos..];
          return true;
        }
        ok := PassEntryToSubscriber(chunk[beginPos..endPos]);
        if !ok { return; }
        beginPos := endPos + 1;
      }
    }
  }

  method NextBreak(chunk: string, from: nat) returns (pos: nat)
    requires from <= |chunk|
    ensures from <= pos <= |chunk|
    ensures forall i :: from <= i < pos ==> !IsBreak(chunk[i])
    ensures pos < |chunk| ==> IsBreak(chunk[pos])
  {
    pos := from;
    while pos < |chunk| && chunk[pos] != '\n' && chunk[pos] != '\r'
      invariant from <= pos <= |chunk|
      invariant forall i :: from <= i < pos ==> !IsBreak(chunk[i])
    {
      pos := pos + 1;
    }
  }

  method SkipBreaks(chunk: string, from: nat) returns (pos: nat)
    requires from <= |chunk|
    ensures from <= pos <= |chunk|
    ensures pos < |chunk| ==> !IsBreak(chunk[pos])
    ensures Feed("", chunk[pos..]) == Feed("", chunk[from..])
    ensures pos == |chunk| ==> Feed("", chunk[from..]) == Scanned([], "")
  {
    pos := from;
    while pos < |chunk| && (chunk[pos] == '\n' || chunk[pos] == '\r')
      invariant from <= pos <= |chunk|
      invariant Feed("", chunk[pos..]) == Feed("", chunk[from..])
    {
      assert chunk[pos..][1..] == chunk[pos + 1..];
      pos := pos + 1;
    }
  }

  lemma FeedCarried(carry: string, chunk: string, end: nat)
    requires carry != "" && end <= |chunk|
    requires forall i :: 0 <= i < end ==> !IsBreak(chunk[i])
    requires end < |chunk| ==> IsBreak(chunk[end])
    ensures end == |chunk| ==> Feed(carry, chunk) == Scanned([], carry + chunk)
    ensures end < |chunk| ==>
              var rest := Feed("", chunk[end..]);
              Feed(carry, chunk) == Scanned([carry + chunk[..end]] + rest.records, rest.carry)
  {
    FeedRun(carry, chunk[..end], chunk[end..]);
    assert chunk[..end] + chunk[end..] == chunk;
    if end < |chunk| {
      assert Feed("", chunk[end..]) == Feed("", chunk[end..][1..]);
    }
  }

  lemma FeedOneLine(chunk: string, begin: nat, end: nat)
    requires begin < end <= |chunk|
    requires !IsBreak(chunk[begin]) && forall i :: begin + 1 <= i < end ==> !IsBreak(chunk[i])
    requires end < |chunk| ==> IsBreak(chunk[end])
    ensures end == |chunk| ==> Feed("", chunk[begin..]) == Scanned([], chunk[begin..])
    ensures end < |chunk| ==>
              var rest := Feed("", chunk[end + 1..]);
              Feed("", chunk[begin..]) == Scanned([chunk[begin..end]] + rest.records, rest.carry)
  {
    FeedRun("", chunk[begin..end], chunk[end..]);
    assert chunk[begin..end] + chunk[end..] == chunk[begin..];
    assert "" + chunk[begin..end] == chunk[begin..end];
    if end < |chunk| {
      assert chunk[end..][1..] == chunk[end + 1..];
    }
  }

  /** The bytes of a sequence of lines, each ended by one line break. */
  function Bytes(c: Codec, lines: seq<Line>): string {
    if lines == [] then "" else Render(c, lines[0]) + "\n" + Bytes(c, lines[1..])
  }

  function Rendered(c: Codec, lines: seq<Line>): seq<string> {
    seq(|lines|, k requires 0 <= k < |lines| => Render(c, lines[k]))
  }

  lemma {:induction false} FeedLine(c: Codec, line: Line, rest: string)
    requires Faithful(c)
    ensures Feed("", Render(c, line) + "\n" + rest)
         == Scanned([Render(c, line)] + Feed("", rest).records, Feed("", rest).carry)
  {
    var text := Render(c, line);
    assert text + "\n" + rest == text + ("\n" + rest);
    FeedRun("", text, "\n" + rest);
    assert "" + text == text;
    assert ("\n" + rest)[1..] == rest;
  }

  /** However many bytes arrive, exactly the lines whose break has arrived are reported; what is
      left over is a proper part of the next line. */
  lemma {:induction false} ReceivedBytesAreWholeLines(c: Codec, lines: seq<Line>, k: nat)
    returns (m: nat)
    requires Faithful(c) && k <= |Bytes(c, lines)|
    ensures m <= |lines| && |Bytes(c, lines[..m])| <= k
    ensures m < |lines| ==> k < |Bytes(c, lines[..m + 1])|
    ensures Feed("", Bytes(c, lines)[..k]).records == Rendered(c, lines[..m])
    ensures m == |lines| ==> Feed("", Bytes(c, lines)[..k]).carry == ""
    ensures m < |lines| ==> Feed("", Bytes(c, lines)[..k]).carry <= Render(c, lines[m])
    decreases |lines|
  {
    hide Render;
    if lines == [] {
      m := 0;
    } else {
      var text, all := Render(c, lines[0]), Bytes(c, lines);
      var rest := Bytes(c, lines[1..]);
      if k <= |text| {
        m := 0;
        assert all[..k] == text[..k];
        FeedRun("", text[..k], "");
        assert text[..k] + "" == text[..k] && "" + text[..k] == text[..k];
        assert lines[..1][1..] == [] && lines[..1][0] == lines[0];
      } else {
        var i := ReceivedBytesAreWholeLines(c, lines[1..], k - |text| - 1);
        m := i + 1;
        assert all[..k] == text + "\n" + rest[..k - |text| - 1];
        FeedLine(c, lines[0], rest[..k - |text| - 1]);
        BytesStep(c, lines, m);
        if m < |lines| { BytesStep(c, lines, m + 1); }
        assert Rendered(c, lines[..m]) == [text] + Rendered(c, lines[1..][..i]);
      }
    }
  }

  lemma BytesStep(c: Codec, lines: seq<Line>, m: nat)
    requires 0 < m <= |lines|
    ensures Bytes(c, lines[..m]) == Render(c, lines[0]) + "\n" + Bytes(c, lines[1..][..m - 1])
  {
    assert lines[..m][1..] == lines[1..][..m - 1];
  }

  lemma {:induction false} RecordsAreLines(c: Codec, mode: ReplicationMode, f: Follower, lines: seq<Line>)
    requires Faithful(c)
    ensures TakeRecords(c, mode, f, Rendered(c, lines)) == TakeLines(mode, f, lines)
    decreases |lines|
  {
    if lines != [] {
      assert Rendered(c, lines)[1..] == Rendered(c, lines[1..]);
      var taken := TakeLine(mode, f, lines[0]);
      if taken.Some? { RecordsAreLines(c, mode, taken.value, lines[1..]); }
    }
  }

  /** Any way of cutting any part of the feed into chunks gives the follower a whole number of lines
      of that feed, in order, and nothing else. */
  lemma ChunksDeliverLines(c: Codec, mode: ReplicationMode, f: Follower, lines: seq<Line>, chunks: seq<string>)
    returns (m: nat)
    requires Faithful(c) && Flatten(chunks) <= Bytes(c, lines)
    ensures m <= |lines|
    ensures TakeRecords(c, mode, f, FeedAll("", chunks).records) == TakeLines(mode, f, lines[..m])
    ensures |Bytes(c, lines[..m])| <= |Flatten(chunks)|
    ensures m < |lines| ==> |Flatten(chunks)| < |Bytes(c, lines[..m + 1])|
  {
    ChunkingIndependence("", chunks);
    m := ReceivedBytesAreWholeLines(c, lines, |Flatten(chunks)|);
    assert Bytes(c, lines)[..|Flatten(chunks)|] == Flatten(chunks);
    RecordsAreLines(c, mode, f, lines[..m]);
  }
}
