/**
 What the HTTP endpoint serves: both of its forms say the same thing on every run, and a request
 that does not wait is answered with exactly the range of entries it asked for.
 */
module ServedRange {
  import opened StreamLog
  import opened Replica
  import opened PubSub

  /** One call into the endpoint. `last` is the index of the last published entry at that moment. */
  datatype Event = Event(line: Line, last: nat, terminating: bool)

  function StepParsed(c: Codec, p: Params, e: Endpoint, ev: Event): Served {
    match ev.line
    case EntryLine(index, us, payload) => OnEntry(c, p, e, ev.terminating, index, us, payload, ev.last)
    case HeadLine(us) => OnHead(c, p, e, ev.terminating, us)
  }

  function StepRaw(c: Codec, p: Params, e: Endpoint, ev: Event): Served {
    match ev.line
    case EntryLine(index, us, payload) => OnRawLine(c, p, e, ev.terminating, Render(c, ev.line), index, ev.last)
    case HeadLine(us) => OnHead(c, p, e, ev.terminating, us)
  }

  /** A run ends at the first `Done`. */
  function RunParsed(c: Codec, p: Params, e: Endpoint, events: seq<Event>): Served
    decreases |events|
  {
    if events == [] then Served(e, "", More)
    else
      var first := StepParsed(c, p, e, events[0]);
      if first.response.Done? then first
      else
        var rest := RunParsed(c, p, first.endpoint, events[1..]);
        rest.(out := first.out + rest.out)
  }

  function RunRaw(c: Codec, p: Params, e: Endpoint, events: seq<Event>): Served
    decreases |events|
  {
    if events == [] then Served(e, "", More)
    else
      var first := StepRaw(c, p, e, events[0]);
      if first.response.Done? then first
      else
        var rest := RunRaw(c, p, first.endpoint, events[1..]);
        rest.(out := first.out + rest.out)
  }

  lemma {:induction false} TabPosIs(s: string, k: nat)
    requires k < |s| && s[k] == '\t' && '\t' !in s[..k]
    ensures TabPos(s) == k
  {
    if 0 < k {
      assert s[0] == s[..k][0];
      assert s[1..][..k - 1] == s[..k][1..];
      TabPosIs(s[1..], k - 1);
    }
  }

  lemma TabEndsTheIndex(c: Codec, index: nat, us: int, payload: string)
    requires Faithful(c)
    ensures TabPos(Render(c, EntryLine(index, us, payload))) == |c.idxts(index, us)|
  {
    var idx, raw := c.idxts(index, us), Render(c, EntryLine(index, us, payload));
    assert raw[..|idx|] == idx;
    TabPosIs(raw, |idx|);
  }

  lemma StepsAgree(c: Codec, p: Params, e: Endpoint, ev: Event)
    requires Faithful(c)
    ensures StepRaw(c, p, e, ev) == StepParsed(c, p, e, ev)
  {
    if ev.line.EntryLine? {
      var EntryLine(index, us, payload) := ev.line;
      var raw := Render(c, ev.line);
      TabEndsTheIndex(c, index, us, payload);
      assert raw[..TabPos(raw)] == c.idxts(index, us);
      assert raw[TabPos(raw) + 1..] == c.json(payload);
    }
  }

  /** On lines that serialize the same records the two forms keep the same state, give the same
      answers and send the same bytes. */
  lemma {:induction false} FormsBisimulate(c: Codec, p: Params, e: Endpoint, events: seq<Event>)
    requires Faithful(c)
    ensures RunRaw(c, p, e, events) == RunParsed(c, p, e, events)
    decreases |events|
  {
    if events != [] {
      StepsAgree(c, p, e, events[0]);
      FormsBisimulate(c, p, StepParsed(c, p, e, events[0]).endpoint, events[1..]);
    }
  }

  /** Told to terminate, the endpoint ends at once and sends no line any more. */
  lemma TerminationEnds(c: Codec, p: Params, e: Endpoint, events: seq<Event>)
    requires events != [] && events[0].terminating
    ensures var r := RunParsed(c, p, e, events);
            && r.response.Done? && r.endpoint == e
            && r.out == if p.asArray && events[0].line.EntryLine? then (if e.started then "]\n" else "[]\n") else ""
  {
  }

  function Max(a: int, b: int): int {
    if a < b then b else a
  }

  function IdxByTail(p: Params, size: nat): nat {
    if p.tail == 0 || size <= p.tail then 0 else size - p.tail
  }

  /** The first index served: the tightest of `i`, `tail` and the earliest timestamp. */
  function Start(p: Params, s: Stream): nat {
    if p.tail == TAIL_FROM_NOW_ON then |s.log|
    else Max(Max(p.i, IdxByTail(p, |s.log|)), FirstAt(s.log, EarliestUs(p)))
  }

  function TextAt(c: Codec, p: Params, log: seq<Entry>, k: nat): string
    requires k < |log|
  {
    EntryText(c, p, k, log[k].us, log[k].payload)
  }

  function TextSize(c: Codec, p: Params, log: seq<Entry>, lo: nat, hi: nat): nat
    requires lo <= hi <= |log|
  {
    if lo == hi then 0 else TextSize(c, p, log, lo, hi - 1) + |TextAt(c, p, log, hi - 1)|
  }

  /** Entry `j` of a range beginning at `start` is inside every limit of the request. */
  predicate Within(c: Codec, p: Params, log: seq<Entry>, start: nat, j: nat)
    requires start <= j < |log|
  {
    && (p.period != 0 ==> log[j].us <= log[start].us + p.period)
    && (p.n != 0 ==> j - start < p.n)
    && (p.stopAfterBytes != 0 ==> TextSize(c, p, log, start, j) < p.stopAfterBytes)
  }

  /** One past the last index served: the first entry outside a limit, or the end of the log. */
  function Stop(c: Codec, p: Params, log: seq<Entry>, start: nat, from: nat): (r: nat)
    requires start <= from <= |log|
    ensures from <= r <= |log|
    ensures forall j :: from <= j < r ==> Within(c, p, log, start, j)
    ensures r < |log| ==> !Within(c, p, log, start, r)
    decreases |log| - from
  {
    if from < |log| && Within(c, p, log, start, from) then Stop(c, p, log, start, from + 1) else from
  }

  function Joined(c: Codec, p: Params, log: seq<Entry>, lo: nat, hi: nat): string
    requires lo <= hi <= |log|
  {
    if lo == hi then ""
    else
      var separator := if !p.asArray then "" else if lo < hi - 1 then ",\n" else "[\n";
      Joined(c, p, log, lo, hi - 1) + (separator + TextAt(c, p, log, hi - 1))
  }

  /** The whole answer for the range from `lo` up to but not including `hi`. */
  function Body(c: Codec, p: Params, log: seq<Entry>, lo: nat, hi: nat): string
    requires lo <= hi <= |log|
  {
    Joined(c, p, log, lo, hi) + (if !p.asArray then "" else if lo < hi then "]\n" else "[]\n")
  }

  /** Where the subscription begins: unlike `Start`, it does not respect `i` together with a
      timestamp; the endpoint does that. */
  function BeginIdx(p: Params, s: Stream): nat {
    if p.tail == TAIL_FROM_NOW_ON then |s.log|
    else if p.tail != 0 then Max(p.i, IdxByTail(p, |s.log|))
    else if 0 < p.recent || 0 < p.since then FirstAt(s.log, EarliestUs(p))
    else p.i
  }

  lemma AdmitsFromStart(p: Params, s: Stream, index: nat)
    requires Valid(s) && index < |s.log| && p.tail != TAIL_FROM_NOW_ON
    ensures Admits(p, Opened(p), index, s.log[index].us, |s.log| - 1) <==> Start(p, s) <= index
  {
    var k := FirstAt(s.log, EarliestUs(p));
    assert s.log[index].us >= EarliestUs(p) <==> k <= index by {
      if k < index { assert s.log[k].us < s.log[index].us; }
    }
  }

  /** The state and the text after the range from `start` up to `index` has been served. */
  ghost predicate ServedUpTo(c: Codec, p: Params, log: seq<Entry>, start: nat, index: nat, e: Endpoint, out: string)
    requires start <= index <= |log|
  {
    && out == Joined(c, p, log, start, index)
    && e.serving && e.size == TextSize(c, p, log, start, index)
    && e.started == (p.asArray && start < index)
    && e.toUs == (if p.period != 0 && start < index then log[start].us + p.period else 0)
    && (p.n == 0 ==> e.n == 0) && (p.n != 0 ==> e.n == p.n - (index - start) && 0 < e.n)
  }

  /** What serving entry `index` must have done: sent it and gone on, or ended the whole range. */
  ghost predicate RangeStep(c: Codec, p: Params, log: seq<Entry>, start: nat, index: nat, out: string, r: Served)
    requires start <= index < |log|
  {
    var stop := Stop(c, p, log, start, start);
    if r.response.Done? then out + r.out == Body(c, p, log, start, stop)
    else
      && index + 1 < |log| && index + 1 <= stop
      && ServedUpTo(c, p, log, start, index + 1, r.endpoint, out + r.out)
      && (p.stopAfterBytes == 0 || r.endpoint.size < p.stopAfterBytes)
  }

  lemma StopNext(c: Codec, p: Params, log: seq<Entry>, start: nat, index: nat)
    requires start <= index < |log| && index <= Stop(c, p, log, start, start)
    ensures Within(c, p, log, start, index) ==> index + 1 <= Stop(c, p, log, start, start)
    ensures !Within(c, p, log, start, index) ==> Stop(c, p, log, start, start) == index
  {
    StopFrom(c, p, log, start, index);
  }

  /** After an entry was sent, the range ends there exactly when the endpoint says `Done`. */
  lemma SentEndsTheRange(c: Codec, p: Params, log: seq<Entry>, start: nat, index: nat, e: Endpoint)
    requires p.noWait && start <= index < |log| && Within(c, p, log, start, index)
    requires e.size == TextSize(c, p, log, start, index) && index <= Stop(c, p, log, start, start)
    requires if p.n == 0 then e.n == 0 else e.n == p.n - (index - start) && 0 < e.n
    ensures index + 1 <= Stop(c, p, log, start, start)
    ensures var r := Sent(p, e, index, |log| - 1, TextAt(c, p, log, index));
            r.response.Done? ==> Stop(c, p, log, start, start) == index + 1
  {
    StopNext(c, p, log, start, index);
    if index + 1 < |log| {
      StopNext(c, p, log, start, index + 1);
    }
  }

  lemma SendOneEntry(c: Codec, p: Params, log: seq<Entry>, start: nat, index: nat, e: Endpoint, out: string)
    requires p.noWait && start <= index < |log|
    requires ServedUpTo(c, p, log, start, index, e, out) && index <= Stop(c, p, log, start, start)
    requires Within(c, p, log, start, index)
    ensures var e1 := e.(toUs := if p.period != 0 then log[start].us + p.period else 0);
            var r := Sent(p, e1, index, |log| - 1, TextAt(c, p, log, index));
            RangeStep(c, p, log, start, index, out, Closing(p, r))
  {
    hide Stop, Within, TextAt;
    var e1 := e.(toUs := if p.period != 0 then log[start].us + p.period else 0);
    var text := TextAt(c, p, log, index);
    var r := Sent(p, e1, index, |log| - 1, text);
    SentEndsTheRange(c, p, log, start, index, e1);
    var joined := Joined(c, p, log, start, index + 1);
    assert joined == out + r.out;
    if r.response.Done? {
      AppendClosing(out, r.out, if p.asArray then "]\n" else "", joined);
    }
  }

  lemma AppendClosing(out: string, text: string, closing: string, joined: string)
    requires joined == out + text
    ensures out + (text + closing) == joined + closing
    ensures closing == "" ==> out + text == joined + closing
  {
  }

  /** Serving one more entry of the range: either it is sent, or the range ends before it. */
  lemma OneMoreEntry(c: Codec, p: Params, s: Stream, start: nat, index: nat, e: Endpoint, out: string)
    requires Valid(s) && p.noWait && start <= index < |s.log|
    requires ServedUpTo(c, p, s.log, start, index, e, out) && index <= Stop(c, p, s.log, start, start)
    requires p.stopAfterBytes == 0 || e.size < p.stopAfterBytes
    ensures var r := Emit(p, e, index, s.log[index].us, |s.log| - 1, TextAt(c, p, s.log, index));
            RangeStep(c, p, s.log, start, index, out, Closing(p, r))
  {
    hide Emit, Sent, Stop, RangeStep, TextAt, Closing;
    EmitCases(c, p, s, start, index, e, out);
    if p.period != 0 && s.log[index].us > s.log[start].us + p.period {
      RangeEndsBefore(c, p, s.log, start, index, e, out);
    } else {
      SendOneEntry(c, p, s.log, start, index, e, out);
    }
  }

  lemma EmitCases(c: Codec, p: Params, s: Stream, start: nat, index: nat, e: Endpoint, out: string)
    requires Valid(s) && start <= index < |s.log| && ServedUpTo(c, p, s.log, start, index, e, out)
    ensures var e1 := e.(toUs := if p.period != 0 then s.log[start].us + p.period else 0);
            var text := TextAt(c, p, s.log, index);
            Emit(p, e, index, s.log[index].us, |s.log| - 1, text)
            == if p.period != 0 && s.log[index].us > s.log[start].us + p.period then Served(e1, "", Done)
               else Sent(p, e1, index, |s.log| - 1, text)
  {
    hide Sent, TextAt, TextSize, Joined;
  }

  lemma RangeEndsBefore(c: Codec, p: Params, log: seq<Entry>, start: nat, index: nat, e: Endpoint, out: string)
    requires start <= index < |log| && ServedUpTo(c, p, log, start, index, e, out)
    requires index <= Stop(c, p, log, start, start) && !Within(c, p, log, start, index)
    requires p.period != 0 && log[index].us > log[start].us + p.period
    ensures var e1 := e.(toUs := if p.period != 0 then log[start].us + p.period else 0);
            RangeStep(c, p, log, start, index, out, Closing(p, Served(e1, "", Done)))
  {
    hide Stop, TextAt, Joined, TextSize;
    StopNext(c, p, log, start, index);
    AppendClosing(out, "", if p.asArray then "]\n" else "", out + "");
    assert out + "" == out;
  }

  lemma {:induction false} StopFrom(c: Codec, p: Params, log: seq<Entry>, start: nat, index: nat)
    requires start <= index <= |log| && Stop(c, p, log, start, start) >= index
    ensures Stop(c, p, log, start, start) == Stop(c, p, log, start, index)
    decreases index - start
  {
    if start < index {
      StopFrom(c, p, log, start, index - 1);
      assert Within(c, p, log, start, index - 1);
    }
  }

  datatype Reply = NoContent | Content(body: string)

  /** The whole answer to a request that does not wait. */
  function Answer(c: Codec, p: Params, s: Stream): string {
    var start := Start(p, s);
    if start >= |s.log| then if p.asArray then "[]\n" else ""
    else Body(c, p, s.log, start, Stop(c, p, s.log, start, start))
  }

  /** The endpoint and what it has sent, when entries before `index` have been passed to it. */
  ghost predicate Progress(c: Codec, p: Params, s: Stream, index: nat, e: Endpoint, out: string)
    requires index < |s.log|
  {
    var start := Start(p, s);
    if index <= start then e == Opened(p) && out == "" && (e.serving ==> start == index)
    else
      && ServedUpTo(c, p, s.log, start, index, e, out) && index <= Stop(c, p, s.log, start, start)
      && (p.stopAfterBytes == 0 || e.size < p.stopAfterBytes)
  }

  lemma Advance(c: Codec, p: Params, s: Stream, index: nat, e: Endpoint, out: string)
    requires Valid(s) && p.noWait && p.tail != TAIL_FROM_NOW_ON && index < |s.log|
    requires Progress(c, p, s, index, e, out)
    ensures var r := OnEntry(c, p, e, false, index, s.log[index].us, s.log[index].payload, |s.log| - 1);
            if r.response.Done? then out + r.out == Answer(c, p, s)
            else index + 1 < |s.log| && Progress(c, p, s, index + 1, r.endpoint, out + r.out)
  {
    AdmitsFromStart(p, s, index);
    var start := Start(p, s);
    if start <= index {
      OneMoreEntry(c, p, s, start, index, e.(serving := true), out);
    }
  }

  method SelectBegin(p: Params, s: Stream) returns (beginIdx: nat, fromUs: int)
    requires Valid(s)
    ensures beginIdx == BeginIdx(p, s)
    ensures beginIdx < |s.log| ==> s.head > fromUs - 1
  {
    var size := |s.log|;
    beginIdx, fromUs := 0, 0;
    if p.tail != 0 {
      if p.tail == TAIL_FROM_NOW_ON {
        beginIdx := size;
      } else {
        var idxByTail := if p.tail < size then size - p.tail else 0;
        beginIdx := Max(p.i, idxByTail);
      }
    } else if 0 < p.recent {
      fromUs := p.requestUs - p.recent;
    } else if 0 < p.since {
      fromUs := p.since;
    } else {
      beginIdx := p.i;
    }
    if 0 < fromUs {
      beginIdx := Max(beginIdx, FirstAt(s.log, fromUs));
    }
    assert size > 0 ==> 0 <= s.log[0].us <= s.head;
    assert FirstAt(s.log, fromUs) < size ==> fromUs <= s.log[FirstAt(s.log, fromUs)].us <= s.head;
  }

  lemma Begun(c: Codec, p: Params, s: Stream)
    requires Valid(s)
    ensures BeginIdx(p, s) >= |s.log| ==> Start(p, s) >= |s.log|
    ensures BeginIdx(p, s) < |s.log| ==>
              p.tail != TAIL_FROM_NOW_ON && Progress(c, p, s, BeginIdx(p, s), Opened(p), "")
  {
    assert |s.log| > 0 ==> 0 <= s.log[0].us;
    assert EarliestUs(p) <= 0 ==> FirstAt(s.log, EarliestUs(p)) == 0;
  }

  /** `ServeDataViaHTTP` of stream/stream.h for a request with `nowait`, over a log that does not
      change meanwhile: the subscriber thread's first round passes entries from the beginning index
      on, and never gets to the end without a `Done`. */
  method ServeDataViaHTTP(c: Codec, p: Params, s: Stream) returns (r: Reply)
    requires Valid(s) && p.noWait
    ensures r.NoContent? <==> BeginIdx(p, s) >= |s.log|
    ensures r.NoContent? ==> Start(p, s) >= |s.log|
    ensures r.Content? ==> r.body == Answer(c, p, s)
  {
    hide Progress, Answer, RunFrom, BeginIdx, Start;
    var index, fromUs := SelectBegin(p, s);
    Begun(c, p, s);
    if index >= |s.log| { return NoContent; }
    var endpoint := new PubSubHTTPEndpoint(c, p);
    RunServesTheRange(c, p, s, index, endpoint.State(), endpoint.response);
    while true
      invariant index < |s.log| && fresh(endpoint)
      invariant endpoint.codec == c && endpoint.params == p
      invariant RunFrom(c, p, s, index, endpoint.State()).response.Done?
      invariant endpoint.response + RunFrom(c, p, s, index, endpoint.State()).out == Answer(c, p, s)
      decreases |s.log| - index
    {
      var done := PassEntry(endpoint, s, index);
      if done { return Content(endpoint.response); }
      index := index + 1;
    }
  }

  method PassEntry(endpoint: PubSubHTTPEndpoint, s: Stream, index: nat) returns (done: bool)
    requires index < |s.log| && RunFrom(endpoint.codec, endpoint.params, s, index, endpoint.State()).response.Done?
    modifies endpoint
    ensures var c, p := endpoint.codec, endpoint.params;
            var all := old(endpoint.response) + RunFrom(c, p, s, index, old(endpoint.State())).out;
            if done then endpoint.response == all
            else && index + 1 < |s.log| && RunFrom(c, p, s, index + 1, endpoint.State()).response.Done?
                 && endpoint.response + RunFrom(c, p, s, index + 1, endpoint.State()).out == all
  {
    hide OnEntry;
    ghost var c, p, e, out := endpoint.codec, endpoint.params, endpoint.State(), endpoint.response;
    var r := endpoint.OnParsedEntry(false, index, s.log[index].us, s.log[index].payload, |s.log| - 1);
    done := r.Done?;
    if !done {
      ghost var served := OnEntry(c, p, e, false, index, s.log[index].us, s.log[index].payload, |s.log| - 1);
      ghost var rest := RunFrom(c, p, s, index + 1, served.endpoint);
      assert out + served.out + rest.out == out + (served.out + rest.out);
    }
  }

  /** The endpoint is given entries from `index` on, up to the first `Done`. */
  function RunFrom(c: Codec, p: Params, s: Stream, index: nat, e: Endpoint): Served
    requires index < |s.log|
    decreases |s.log| - index
  {
    var r := OnEntry(c, p, e, false, index, s.log[index].us, s.log[index].payload, |s.log| - 1);
    if r.response.Done? || index + 1 == |s.log| then r
    else
      var rest := RunFrom(c, p, s, index + 1, r.endpoint);
      rest.(out := r.out + rest.out)
  }

  lemma RunOne(c: Codec, p: Params, s: Stream, index: nat, e: Endpoint, out: string)
    returns (done: bool, e': Endpoint, out': string)
    requires Valid(s) && p.noWait && p.tail != TAIL_FROM_NOW_ON && index < |s.log|
    requires Progress(c, p, s, index, e, out)
    ensures done ==> RunFrom(c, p, s, index, e).response.Done?
    ensures done ==> out + RunFrom(c, p, s, index, e).out == Answer(c, p, s)
    ensures !done ==> index + 1 < |s.log| && Progress(c, p, s, index + 1, e', out')
    ensures !done ==> RunFrom(c, p, s, index, e).response == RunFrom(c, p, s, index + 1, e').response
    ensures !done ==> out + RunFrom(c, p, s, index, e).out == out' + RunFrom(c, p, s, index + 1, e').out
  {
    hide Progress, Answer, OnEntry;
    Advance(c, p, s, index, e, out);
    var r := OnEntry(c, p, e, false, index, s.log[index].us, s.log[index].payload, |s.log| - 1);
    done, e', out' := r.response.Done?, r.endpoint, out + r.out;
    if !done {
      var rest := RunFrom(c, p, s, index + 1, r.endpoint);
      assert out + r.out + rest.out == out + (r.out + rest.out);
    }
  }

  lemma {:induction false} RunServesTheRange(c: Codec, p: Params, s: Stream, index: nat, e: Endpoint, out: string)
    requires Valid(s) && p.noWait && p.tail != TAIL_FROM_NOW_ON && index < |s.log|
    requires Progress(c, p, s, index, e, out)
    ensures RunFrom(c, p, s, index, e).response.Done?
    ensures out + RunFrom(c, p, s, index, e).out == Answer(c, p, s)
    decreases |s.log| - index
  {
    hide Progress, Answer, RunFrom;
    var done, e', out' := RunOne(c, p, s, index, e, out);
    if !done {
      RunServesTheRange(c, p, s, index + 1, e', out');
    }
  }

  /** The first index as documented, with every constraint combined. */
  function DocumentedStart(p: Params, s: Stream): nat {
    Max(Max(p.i, IdxByTail(p, |s.log|)),
        Max(FirstAt(s.log, p.since), if p.recent == 0 then 0 else FirstAt(s.log, p.requestUs - p.recent)))
  }

  /** An entry that the other limits of the request admit. */
  predicate OtherwiseAsked(p: Params, s: Stream, j: nat)
    requires j < |s.log|
  {
    p.i <= j && IdxByTail(p, |s.log|) <= j && p.requestUs - p.recent <= s.log[j].us
  }

  /** With `recent` given, the code leaves `since` out. It starts where the documentation says exactly
      when `recent` was not given, or no entry that the other limits admit is older than `since`. */
  lemma SinceIsIgnoredWithRecent(p: Params, s: Stream)
    requires Valid(s) && p.tail != TAIL_FROM_NOW_ON
    ensures Start(p, s) == DocumentedStart(p, s) <==>
              p.recent == 0 ||
              forall j :: 0 <= j < |s.log| && OtherwiseAsked(p, s, j) ==> p.since <= s.log[j].us
  {
    if p.recent != 0 {
      var k, start := FirstAt(s.log, p.since), Start(p, s);
      AskedFromStart(p, s);
      if start < k {
        assert OtherwiseAsked(p, s, start) && s.log[start].us < p.since;
      } else {
        forall j | 0 <= j < |s.log| && OtherwiseAsked(p, s, j) ensures p.since <= s.log[j].us {
          assert k <= start <= j;
          if k < j { assert s.log[k].us < s.log[j].us; }
        }
      }
    }
  }

  lemma AskedFromStart(p: Params, s: Stream)
    requires Valid(s) && p.tail != TAIL_FROM_NOW_ON && p.recent != 0
    ensures forall j :: 0 <= j < |s.log| ==> (OtherwiseAsked(p, s, j) <==> Start(p, s) <= j)
  {
    var k := FirstAt(s.log, p.requestUs - p.recent);
    forall j | 0 <= j < |s.log| ensures OtherwiseAsked(p, s, j) <==> Start(p, s) <= j {
      if k < j { assert s.log[k].us < s.log[j].us; }
    }
  }

  /** A request made at 20 for the last 15 microseconds and for what is since 8, of a log with entries
      at 7 and at 9: the code starts from the first, the documentation from the second. */
  lemma RecentAndSinceDisagree()
    ensures exists p: Params, s: Stream ::
              && Valid(s) && p.tail == 0 && p.recent != 0 && p.since != 0
              && Start(p, s) == 0 && DocumentedStart(p, s) == 1
  {
    var p := Params(0, 0, 8, 15, 20, 0, 0, 0, true, false, false);
    var s := Stream([Entry(7, ""), Entry(9, "")], 9);
    FirstAtIs(s.log, 5, 0);
    FirstAtIs(s.log, 8, 1);
    assert Valid(s) && Start(p, s) == 0 && DocumentedStart(p, s) == 1;
  }
}
