/**
 Reassembling lines from a byte stream that arrives cut at arbitrary places. `Feed` is the
 reference: it looks at one character at a time and knows nothing about chunks.
 */
module Chunks {

  predicate IsBreak(c: char) {
    c == '\n' || c == '\r'
  }

  ghost predicate BreakFree(s: string) {
    forall i :: 0 <= i < |s| ==> !IsBreak(s[i])
  }

  ghost predicate AllBreaks(s: string) {
    forall i :: 0 <= i < |s| ==> IsBreak(s[i])
  }

  /** The lines completed so far, and the unterminated tail. */
  datatype Scanned = Scanned(records: seq<string>, carry: string)

  function Feed(carry: string, bytes: string): Scanned
    decreases |bytes|
  {
    if bytes == "" then Scanned([], carry)
    else if IsBreak(bytes[0]) then
      var rest := Feed("", bytes[1..]);
      if carry == "" then rest else Scanned([carry] + rest.records, rest.carry)
    else Feed(carry + [bytes[0]], bytes[1..])
  }

  function FeedAll(carry: string, chunks: seq<string>): Scanned
    decreases |chunks|
  {
    if chunks == [] then Scanned([], carry)
    else
      var first := Feed(carry, chunks[0]);
      var rest := FeedAll(first.carry, chunks[1..]);
      Scanned(first.records + rest.records, rest.carry)
  }

  function Flatten(chunks: seq<string>): string {
    if chunks == [] then "" else chunks[0] + Flatten(chunks[1..])
  }

  lemma {:induction false} FeedAppend(carry: string, a: string, b: string)
    ensures Feed(carry, a + b)
         == Scanned(Feed(carry, a).records + Feed(Feed(carry, a).carry, b).records,
                    Feed(Feed(carry, a).carry, b).carry)
    decreases |a|
  {
    if a == "" {
      assert a + b == b;
    } else {
      assert (a + b)[1..] == a[1..] + b;
      FeedAppend(if IsBreak(a[0]) then "" else carry + [a[0]], a[1..], b);
    }
  }

  /** However the stream is cut, the records and the carry depend on the bytes alone. */
  lemma {:induction false} ChunkingIndependence(carry: string, chunks: seq<string>)
    ensures FeedAll(carry, chunks) == Feed(carry, Flatten(chunks))
    decreases |chunks|
  {
    if chunks != [] {
      ChunkingIndependence(Feed(carry, chunks[0]).carry, chunks[1..]);
      FeedAppend(carry, chunks[0], Flatten(chunks[1..]));
    }
  }

  /** A line together with the line breaks in front of it. */
  datatype Piece = Piece(gap: string, record: string)

  ghost predicate WellCut(pieces: seq<Piece>, lastGap: string, tail: string) {
    && (forall k :: 0 <= k < |pieces| ==>
          && AllBreaks(pieces[k].gap) && (0 < k ==> pieces[k].gap != "")
          && BreakFree(pieces[k].record) && pieces[k].record != "")
    && AllBreaks(lastGap) && (pieces != [] ==> lastGap != "") && BreakFree(tail)
  }

  function Assemble(pieces: seq<Piece>, lastGap: string, tail: string): string {
    if pieces == [] then lastGap + tail
    else pieces[0].gap + pieces[0].record + Assemble(pieces[1..], lastGap, tail)
  }

  function Records(pieces: seq<Piece>): seq<string> {
    seq(|pieces|, k requires 0 <= k < |pieces| => pieces[k].record)
  }

  lemma {:induction false} FeedGap(gap: string, rest: string)
    requires AllBreaks(gap)
    ensures Feed("", gap + rest) == Feed("", rest)
    decreases |gap|
  {
    if gap == "" {
      assert gap + rest == rest;
    } else {
      assert (gap + rest)[1..] == gap[1..] + rest;
      FeedGap(gap[1..], rest);
    }
  }

  lemma {:induction false} FeedRun(carry: string, run: string, rest: string)
    requires BreakFree(run)
    ensures Feed(carry, run + rest) == Feed(carry + run, rest)
    decreases |run|
  {
    if run == "" {
      assert run + rest == rest;
      assert carry + run == carry;
    } else {
      assert (run + rest)[1..] == run[1..] + rest;
      assert carry + run == carry + [run[0]] + run[1..];
      FeedRun(carry + [run[0]], run[1..], rest);
    }
  }

  /** `Feed` finds exactly the terminated maximal break-free runs: any decomposition into runs and
      gaps is the one it reports. */
  lemma {:induction false} FeedFindsTheRuns(pieces: seq<Piece>, lastGap: string, tail: string)
    requires WellCut(pieces, lastGap, tail)
    ensures Feed("", Assemble(pieces, lastGap, tail)) == Scanned(Records(pieces), tail)
  {
    if pieces == [] {
      FeedGap(lastGap, tail);
      FeedRun("", tail, "");
      assert tail + "" == tail && "" + tail == tail;
    } else {
      var p, rest := pieces[0], Assemble(pieces[1..], lastGap, tail);
      assert p.gap + p.record + rest == p.gap + (p.record + rest);
      FeedGap(p.gap, p.record + rest);
      FeedRun("", p.record, rest);
      assert "" + p.record == p.record;
      FeedFindsTheRuns(pieces[1..], lastGap, tail);
      assert rest != "" && IsBreak(rest[0]) by {
        if |pieces| > 1 {
          var q := pieces[1..][0];
          assert q == pieces[1];
          assert rest == q.gap + (q.record + Assemble(pieces[1..][1..], lastGap, tail));
        }
      }
      assert Feed("", rest) == Feed("", rest[1..]);
      assert Records(pieces) == [p.record] + Records(pieces[1..]);
    }
  }

  /** Every byte string has such a decomposition. */
  lemma {:induction false} EveryStreamIsWellCut(bytes: string)
    returns (pieces: seq<Piece>, lastGap: string, tail: string)
    ensures WellCut(pieces, lastGap, tail) && Assemble(pieces, lastGap, tail) == bytes
  {
    if bytes == "" {
      pieces, lastGap, tail := [], "", "";
    } else {
      pieces, lastGap, tail := EveryStreamIsWellCut(bytes[1..]);
      var c := bytes[0];
      if pieces == [] {
        if IsBreak(c) {
          lastGap := [c] + lastGap;
        } else if lastGap == "" {
          tail := [c] + tail;
        } else {
          pieces := [Piece("", [c])];
          assert pieces[1..] == [];
        }
      } else {
        var p, rest := pieces[0], pieces[1..];
        if IsBreak(c) {
          pieces := [Piece([c] + p.gap, p.record)] + rest;
        } else if p.gap == "" {
          pieces := [Piece("", [c] + p.record)] + rest;
        } else {
          pieces := [Piece("", [c])] + pieces;
          assert pieces[1..] == [p] + rest;
        }
        assert pieces[1..] == rest || pieces[1..][1..] == rest;
      }
    }
  }
}
