/**
 A subscription that waits for new entries, with a limit on the time it covers: which lines, HEAD
 updates among them, it is sent, and which line ends it.
 */
module PeriodLimit {
  import opened Replica
  import opened PubSub
  import opened ServedRange
  import opened Replication

  /** From index `i` and time `since` on, for `period`, with the indexes and the HEADs or without. */
  function LiveParams(i: nat, since: nat, period: nat, entriesOnly: bool): Params {
    SubscribeParams(i, since).(period := period, entriesOnly := entriesOnly)
  }

  function Text(k: Codec, entriesOnly: bool, line: Line): string {
    if !entriesOnly then Render(k, line) + "\n"
    else if line.EntryLine? then k.json(line.payload) + "\n"
    else ""
  }

  function Texts(k: Codec, entriesOnly: bool, lines: seq<Line>): string {
    if lines == [] then "" else Text(k, entriesOnly, lines[0]) + Texts(k, entriesOnly, lines[1..])
  }

  /** The lines before the first one stamped after `limit`. */
  function Until(lines: seq<Line>, limit: int): seq<Line> {
    if lines == [] || lines[0].us > limit then [] else [lines[0]] + Until(lines[1..], limit)
  }

  /** The lines within the period, which begins with the first of them; `limit` is its end, if known. */
  function InPeriod(period: nat, limit: int, lines: seq<Line>): seq<Line> {
    if period == 0 || lines == [] then lines
    else Until(lines, if limit != 0 then limit else lines[0].us + period)
  }

  lemma {:induction false} UntilMeans(lines: seq<Line>, limit: int)
    ensures Until(lines, limit) <= lines
    ensures forall j :: 0 <= j < |Until(lines, limit)| ==> lines[j].us <= limit
    ensures |Until(lines, limit)| < |lines| ==> lines[|Until(lines, limit)|].us > limit
  {
    if lines != [] && lines[0].us <= limit { UntilMeans(lines[1..], limit); }
  }

  // An array: only entries are sent, and the array is closed only by an entry.

  function ArrayParams(i: nat, since: nat, period: nat, entriesOnly: bool): Params {
    LiveParams(i, since, period, entriesOnly).(asArray := true)
  }

  /** The entries among the lines, with what goes before each. */
  function Elements(k: Codec, entriesOnly: bool, started: bool, lines: seq<Line>): string
    decreases |lines|
  {
    if lines == [] then ""
    else if lines[0].HeadLine? then Elements(k, entriesOnly, started, lines[1..])
    else
      (if started then ",\n" else "[\n") + Text(k, entriesOnly, lines[0])
      + Elements(k, entriesOnly, true, lines[1..])
  }

  predicate AnyEntry(lines: seq<Line>) {
    lines != [] && (lines[0].EntryLine? || AnyEntry(lines[1..]))
  }

  /** What ends the response: a HEAD just ends it, an entry closes the array first. */
  function Ending(started: bool, line: Line): string {
    if line.HeadLine? then "" else if started then "]\n" else "[]\n"
  }

  lemma OneLineOfArray(k: Codec, i: nat, since: nat, period: nat, entriesOnly: bool, e: Endpoint, ev: Event)
    requires !ev.terminating && ev.line.us >= 0 && Passes(e.serving, i, since, ev.line)
    requires e.fromUs == since && e.n == 0 && (!e.serving ==> 0 < since) && (period == 0 ==> e.toUs == 0)
    ensures var r := StepParsed(k, ArrayParams(i, since, period, entriesOnly), e, ev);
            var limit := if period != 0 && e.toUs == 0 then ev.line.us + period else e.toUs;
            && (r.response.Done? <==> period != 0 && ev.line.us > limit)
            && r.out == (if r.response.Done? then Ending(e.started, ev.line)
                         else Elements(k, entriesOnly, e.started, [ev.line]))
            && r.endpoint.serving && r.endpoint.toUs == limit && r.endpoint.fromUs == since && r.endpoint.n == 0
            && (r.response.More? ==> r.endpoint.started == (e.started || ev.line.EntryLine?))
  {
    assert [ev.line][1..] == [];
    var t := (if e.started then ",\n" else "[\n") + Text(k, entriesOnly, ev.line);
    assert t + "" == t;
  }

  lemma LineOfArrayHeldBack(k: Codec, i: nat, since: nat, period: nat, entriesOnly: bool, e: Endpoint, ev: Event)
    requires !ev.terminating && !Passes(e.serving, i, since, ev.line)
    requires e.fromUs == since && 0 < since
    ensures StepParsed(k, ArrayParams(i, since, period, entriesOnly), e, ev) == Served(e, "", More)
  {
  }

  lemma {:induction false} ElementsOf(k: Codec, entriesOnly: bool, started: bool, line: Line, rest: seq<Line>)
    ensures Elements(k, entriesOnly, started, [line] + rest)
         == Elements(k, entriesOnly, started, [line]) + Elements(k, entriesOnly, started || line.EntryLine?, rest)
  {
    assert ([line] + rest)[1..] == rest && [line][1..] == [];
    assert "" + Elements(k, entriesOnly, started, rest) == Elements(k, entriesOnly, started, rest);
    var t := (if started then ",\n" else "[\n") + Text(k, entriesOnly, line);
    assert t + "" == t;
  }

  /** What is sent of the lines let through: the entries within the period, as elements. If a line
      stamped after the period ends the response, the array is closed exactly if that line is an
      entry: a HEAD leaves it open. */
  ghost predicate ArraySent(k: Codec, entriesOnly: bool, started: bool, period: nat, limit: int,
                            through: seq<Line>, out: string, done: bool) {
    var shown := InPeriod(period, limit, through);
    && shown <= through
    && (done <==> |shown| < |through|)
    && out == Elements(k, entriesOnly, started, shown)
              + (if done then Ending(started || AnyEntry(shown), through[|shown|]) else "")
  }

  lemma NothingSent(k: Codec, entriesOnly: bool, started: bool, period: nat, limit: int)
    ensures ArraySent(k, entriesOnly, started, period, limit, [], "", false)
  {
  }

  lemma LineEnds(k: Codec, entriesOnly: bool, started: bool, period: nat, limit: int, line: Line, rest: seq<Line>)
    requires period != 0 && limit != 0 && line.us > limit
    ensures ArraySent(k, entriesOnly, started, period, limit, [line] + rest, Ending(started, line), true)
  {
    assert InPeriod(period, limit, [line] + rest) == [];
    assert "" + Ending(started, line) == Ending(started, line);
  }

  lemma LineGoesOn(k: Codec, entriesOnly: bool, started: bool, period: nat, limit: int, line: Line, rest: seq<Line>,
                   out: string, done: bool)
    requires line.us >= 0 && (period == 0 ==> limit == 0) && (period != 0 && limit != 0 ==> line.us <= limit)
    requires var next := if period != 0 && limit == 0 then line.us + period else limit;
             ArraySent(k, entriesOnly, started || line.EntryLine?, period, next, rest, out, done)
    ensures ArraySent(k, entriesOnly, started, period, limit, [line] + rest,
                      Elements(k, entriesOnly, started, [line]) + out, done)
  {
    hide Elements, Text, Ending, Until, InPeriod;
    var next := if period != 0 && limit == 0 then line.us + period else limit;
    Shift(period, limit, line, rest);
    var shown := InPeriod(period, next, rest);
    ElementsOf(k, entriesOnly, started, line, shown);
    assert ([line] + shown)[1..] == shown && ([line] + rest)[1..] == rest;
    if done { assert ([line] + rest)[|shown| + 1] == rest[|shown|]; }
  }

  lemma {:induction false} ArrayIsClosedExactlyByAnEntry(k: Codec, i: nat, since: nat, period: nat, entriesOnly: bool,
                                                         e: Endpoint, events: seq<Event>, lines: seq<Line>)
    requires |events| == |lines|
    requires forall j :: 0 <= j < |events| ==> events[j].line == lines[j] && !events[j].terminating && lines[j].us >= 0
    requires e.fromUs == since && e.n == 0 && (!e.serving ==> 0 < since)
    requires period == 0 || !e.serving ==> e.toUs == 0
    ensures var r := RunParsed(k, ArrayParams(i, since, period, entriesOnly), e, events);
            ArraySent(k, entriesOnly, e.started, period, e.toUs, Through(e.serving, i, since, lines).1,
                      r.out, r.response.Done?)
    decreases |lines|
  {
    hide StepParsed, Text, Elements, Ending, ArraySent;
    if lines == [] {
      NothingSent(k, entriesOnly, e.started, period, e.toUs);
    } else {
      var p, ev := ArrayParams(i, since, period, entriesOnly), events[0];
      var first := StepParsed(k, p, e, ev);
      if Passes(e.serving, i, since, lines[0]) {
        OneLineOfArray(k, i, since, period, entriesOnly, e, ev);
        var rest := Through(true, i, since, lines[1..]).1;
        assert Through(e.serving, i, since, lines).1 == [lines[0]] + rest;
        if first.response.More? {
          ArrayIsClosedExactlyByAnEntry(k, i, since, period, entriesOnly, first.endpoint, events[1..], lines[1..]);
          var r := RunParsed(k, p, first.endpoint, events[1..]);
          LineGoesOn(k, entriesOnly, e.started, period, e.toUs, lines[0], rest, r.out, r.response.Done?);
        } else {
          LineEnds(k, entriesOnly, e.started, period, e.toUs, lines[0], rest);
        }
      } else {
        LineOfArrayHeldBack(k, i, since, period, entriesOnly, e, ev);
        ArrayIsClosedExactlyByAnEntry(k, i, since, period, entriesOnly, e, events[1..], lines[1..]);
        var rest := Through(false, i, since, lines[1..]).1;
        assert Through(e.serving, i, since, lines).1 == [] + rest == rest;
        var r := RunParsed(k, p, e, events[1..]);
        assert RunParsed(k, p, e, events) == r.(out := "" + r.out) && "" + r.out == r.out;
      }
    }
  }

  /** An entry at 1 and then a HEAD at 9, with a period of 5: the array is begun and never closed. */
  lemma HeadLeavesArrayOpen(k: Codec, payload: string)
    ensures var events := [Event(EntryLine(0, 1, payload), 0, false), Event(HeadLine(9), 0, false)];
            var p := ArrayParams(0, 0, 5, true);
            var r := RunParsed(k, p, Opened(p), events);
            r.response.Done? && r.out == "[\n" + k.json(payload) + "\n"
  {
    var events := [Event(EntryLine(0, 1, payload), 0, false), Event(HeadLine(9), 0, false)];
    var p := ArrayParams(0, 0, 5, true);
    var first := StepParsed(k, p, Opened(p), events[0]);
    OneLineOfArray(k, 0, 0, 5, true, Opened(p), events[0]);
    OneLineOfArray(k, 0, 0, 5, true, first.endpoint, events[1]);
    assert events[1..] == [events[1]];
    var second := StepParsed(k, p, first.endpoint, events[1]);
    assert RunParsed(k, p, first.endpoint, [events[1]]) == second;
    assert [EntryLine(0, 1, payload)][1..] == [];
    assert first.out + "" == first.out;
  }

  /** One line that is let through: it ends the response exactly if it is past the end of the period. */
  lemma OneLine(k: Codec, i: nat, since: nat, period: nat, entriesOnly: bool, e: Endpoint, ev: Event)
    requires !ev.terminating && ev.line.us >= 0 && Passes(e.serving, i, since, ev.line)
    requires e.fromUs == since && e.n == 0 && !e.started && (!e.serving ==> 0 < since) && (period == 0 ==> e.toUs == 0)
    ensures var r := StepParsed(k, LiveParams(i, since, period, entriesOnly), e, ev);
            var limit := if period != 0 && e.toUs == 0 then ev.line.us + period else e.toUs;
            && (r.response.Done? <==> period != 0 && ev.line.us > limit)
            && r.out == (if r.response.Done? then "" else Text(k, entriesOnly, ev.line))
            && r.endpoint.serving && r.endpoint.toUs == limit
            && r.endpoint.fromUs == since && r.endpoint.n == 0 && !r.endpoint.started
  {
  }

  lemma LineHeldBack(k: Codec, i: nat, since: nat, period: nat, entriesOnly: bool, e: Endpoint, ev: Event)
    requires !ev.terminating && !Passes(e.serving, i, since, ev.line)
    requires e.fromUs == since && 0 < since
    ensures StepParsed(k, LiveParams(i, since, period, entriesOnly), e, ev) == Served(e, "", More)
  {
  }

  /** Over every run: what is sent is what is let through within the period, and the response ends
      exactly with the first line let through, entry or HEAD, that is stamped after the period. */
  lemma {:induction false} PeriodEndsTheResponse(k: Codec, i: nat, since: nat, period: nat, entriesOnly: bool,
                                                 e: Endpoint, events: seq<Event>, lines: seq<Line>)
    requires |events| == |lines|
    requires forall j :: 0 <= j < |events| ==> events[j].line == lines[j] && !events[j].terminating && lines[j].us >= 0
    requires e.fromUs == since && e.n == 0 && !e.started && (!e.serving ==> 0 < since)
    requires period == 0 || !e.serving ==> e.toUs == 0
    ensures var r := RunParsed(k, LiveParams(i, since, period, entriesOnly), e, events);
            var through := Through(e.serving, i, since, lines).1;
            var shown := InPeriod(period, e.toUs, through);
            && r.out == Texts(k, entriesOnly, shown)
            && (r.response.Done? <==> shown != through)
    decreases |lines|
  {
    hide StepParsed, Text;
    if lines != [] {
      var p, ev := LiveParams(i, since, period, entriesOnly), events[0];
      var first := StepParsed(k, p, e, ev);
      if Passes(e.serving, i, since, lines[0]) {
        OneLine(k, i, since, period, entriesOnly, e, ev);
        var rest := Through(true, i, since, lines[1..]).1;
        assert Through(e.serving, i, since, lines).1 == [lines[0]] + rest;
        assert ([lines[0]] + rest)[1..] == rest;
        if first.response.More? {
          PeriodEndsTheResponse(k, i, since, period, entriesOnly, first.endpoint, events[1..], lines[1..]);
          Shift(period, e.toUs, lines[0], rest);
        }
      } else {
        LineHeldBack(k, i, since, period, entriesOnly, e, ev);
        PeriodEndsTheResponse(k, i, since, period, entriesOnly, e, events[1..], lines[1..]);
        var rest := Through(false, i, since, lines[1..]).1;
        assert Through(e.serving, i, since, lines).1 == [] + rest == rest;
        var r := RunParsed(k, p, e, events[1..]);
        assert RunParsed(k, p, e, events) == r.(out := "" + r.out) && "" + r.out == r.out;
      }
    }
  }

  lemma Shift(period: nat, limit: int, line: Line, rest: seq<Line>)
    requires line.us >= 0 && (period == 0 ==> limit == 0)
    requires period != 0 && limit != 0 ==> line.us <= limit
    ensures var next := if period != 0 && limit == 0 then line.us + period else limit;
            InPeriod(period, limit, [line] + rest) == [line] + InPeriod(period, next, rest)
  {
    var all := [line] + rest;
    assert all[0] == line && all[1..] == rest;
    var end := if limit != 0 then limit else line.us + period;
    if period != 0 { assert Until(all, end) == [line] + Until(rest, end); }
    if rest == [] { assert Until(rest, end) == []; }
  }
}
