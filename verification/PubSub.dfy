/**
 The HTTP endpoint of stream/pubsub.h that serves a range of a stream, in its two forms: given
 parsed entries, and given raw log lines whose timestamp is parsed only when it is needed.
 */
module PubSub {
  import opened Replica

  /** `tail=0` is turned into this value by the request parser. */
  const TAIL_FROM_NOW_ON: nat := 0xFFFF_FFFF_FFFF_FFFF

  /** The request. Zero stands for a parameter that was not given. */
  datatype Params = Params(
    i: nat, tail: nat, since: nat, recent: nat, requestUs: int,
    n: nat, period: nat, stopAfterBytes: nat,
    noWait: bool, entriesOnly: bool, asArray: bool)

  datatype Endpoint = Endpoint(serving: bool, fromUs: int, toUs: int, n: nat, size: nat, started: bool)

  datatype Response = Done | More

  datatype Served = Served(endpoint: Endpoint, out: string, response: Response)

  /** The earliest timestamp asked for: `recent` wins over `since`. */
  function EarliestUs(p: Params): int {
    if 0 < p.recent then p.requestUs - p.recent else p.since
  }

  function Opened(p: Params): Endpoint {
    Endpoint(p.recent == 0 && p.since == 0, EarliestUs(p), 0, p.n, 0, false)
  }

  predicate Admits(p: Params, e: Endpoint, index: nat, us: int, last: nat) {
    index >= p.i && (p.tail == 0 || last - index < p.tail) && (e.fromUs == 0 || us >= e.fromUs)
  }

  /** Sending the text of one entry, and deciding whether to go on. */
  function Sent(p: Params, e: Endpoint, index: nat, last: nat, text: string): Served {
    var out := (if !p.asArray then "" else if e.started then ",\n" else "[\n") + text;
    var e1 := e.(size := e.size + |text|, started := e.started || p.asArray);
    if p.stopAfterBytes != 0 && e1.size >= p.stopAfterBytes then Served(e1, out, Done)
    else
      var e2 := if e1.n != 0 then e1.(n := e1.n - 1) else e1;
      Served(e2, out, if (e1.n != 0 && e2.n == 0) || (index == last && p.noWait) then Done else More)
  }

  function Emit(p: Params, e: Endpoint, index: nat, us: int, last: nat, text: string): Served {
    var e1 := if p.period != 0 && e.toUs == 0 then e.(toUs := us + p.period) else e;
    if e1.toUs != 0 && us > e1.toUs then Served(e1, "", Done) else Sent(p, e1, index, last, text)
  }

  function Closing(p: Params, r: Served): Served {
    if r.response.Done? && p.asArray
    then r.(out := r.out + (if r.endpoint.started then "]\n" else "[]\n"))
    else r
  }

  function Consider(p: Params, e: Endpoint, terminating: bool, index: nat, us: int, last: nat, text: string): Served {
    if terminating then Served(e, "", Done)
    else if e.serving || Admits(p, e, index, us, last)
    then Emit(p, e.(serving := true), index, us, last, text)
    else Served(e, "", if index == last && p.noWait then Done else More)
  }

  function Serve(p: Params, e: Endpoint, terminating: bool, index: nat, us: int, last: nat, text: string): Served {
    Closing(p, Consider(p, e, terminating, index, us, last, text))
  }

  function EntryText(c: Codec, p: Params, index: nat, us: int, payload: string): string {
    (if p.entriesOnly then c.json(payload) else c.idxts(index, us) + "\t" + c.json(payload)) + "\n"
  }

  function TabPos(s: string): (k: nat)
    ensures k <= |s| && '\t' !in s[..k] && (k < |s| ==> s[k] == '\t')
  {
    if s == "" || s[0] == '\t' then 0
    else
      var k := TabPos(s[1..]);
      assert s[..1 + k] == [s[0]] + s[1..][..k];
      1 + k
  }

  function UsOf(c: Codec, raw: string): int {
    c.usOf(raw[..TabPos(raw)])
  }

  function RawText(p: Params, raw: string): string {
    (if p.entriesOnly && TabPos(raw) < |raw| then raw[TabPos(raw) + 1..] else raw) + "\n"
  }

  function OnEntry(c: Codec, p: Params, e: Endpoint, terminating: bool,
                   index: nat, us: int, payload: string, last: nat): Served
  {
    Serve(p, e, terminating, index, us, last, EntryText(c, p, index, us, payload))
  }

  function OnRawLine(c: Codec, p: Params, e: Endpoint, terminating: bool,
                     raw: string, index: nat, last: nat): Served
  {
    Serve(p, e, terminating, index, UsOf(c, raw), last, RawText(p, raw))
  }

  function OnHead(c: Codec, p: Params, e: Endpoint, terminating: bool, us: int): Served {
    if terminating then Served(e, "", Done)
    else
      var e1 := if !e.serving && 0 < e.fromUs && us >= e.fromUs then e.(serving := true) else e;
      if !e1.serving then Served(e1, "", More)
      else
        var e2 := if p.period != 0 && e1.toUs == 0 then e1.(toUs := us + p.period) else e1;
        if e2.toUs != 0 && us > e2.toUs then Served(e2, "", Done)
        else Served(e2, if !p.asArray && !p.entriesOnly then c.tsOnly(us) + "\n" else "", More)
  }

  /** `PubSubHTTPEndpointImpl`. `response` is everything sent so far. */
  class PubSubHTTPEndpoint {
    const codec: Codec
    const params: Params
    var serving: bool
    var fromUs: int
    var toUs: int
    var n: nat
    var size: nat
    var started: bool
    var response: string

    constructor (codec: Codec, params: Params)
      ensures this.codec == codec && this.params == params
      ensures State() == Opened(params) && response == ""
    {
      this.codec, this.params := codec, params;
      serving, fromUs, toUs, n, size, started, response := true, 0, 0, 0, 0, false, "";
      if 0 < params.recent {
        serving, fromUs := false, params.requestUs - params.recent;
      } else if 0 < params.since {
        serving, fromUs := false, params.since;
      }
      if 0 < params.n { n := params.n; }
    }

    function State(): Endpoint
      reads this
    {
      Endpoint(serving, fromUs, toUs, n, size, started)
    }

    /** The object went to the state, sent the text and gave the answer that `s` says. */
    twostate predicate Did(s: Served, r: Response)
      reads this
    {
      State() == s.endpoint && response == old(response) + s.out && r == s.response
    }

    method OnParsedEntry(terminating: bool, index: nat, us: int, payload: string, last: nat) returns (r: Response)
      modifies this
      ensures Did(OnEntry(codec, params, old(State()), terminating, index, us, payload, last), r)
    {
      hide Consider, EntryText;
      r := PassParsedEntry(terminating, index, us, payload, last);
      if r.Done? && params.asArray {
        response := response + if started then "]\n" else "[]\n";
      }
    }

    method PassParsedEntry(terminating: bool, index: nat, us: int, payload: string, last: nat) returns (r: Response)
      modifies this
      ensures Did(Consider(params, old(State()), terminating, index, us, last,
                           EntryText(codec, params, index, us, payload)), r)
    {
      hide Sent;
      if terminating { return Done; }
      if !serving {
        if index >= params.i && (params.tail == 0 || last - index < params.tail) && (fromUs == 0 || us >= fromUs) {
          serving := true;
        }
        if !serving && index == last && params.noWait { return Done; }
      }
      if serving {
        if params.period != 0 && toUs == 0 { toUs := us + params.period; }
        if toUs != 0 && us > toUs { return Done; }
        var text := (if params.entriesOnly then codec.json(payload)
                     else codec.idxts(index, us) + "\t" + codec.json(payload)) + "\n";
        r := Send(text, index, last);
        return;
      }
      r := More;
    }

    /** The part after the text has been built, written out twice in the source. */
    method Send(text: string, index: nat, last: nat) returns (r: Response)
      modifies this
      ensures Did(Sent(params, old(State()), index, last, text), r)
    {
      size := size + |text|;
      if params.asArray {
        if !started {
          response := response + "[\n";
          started := true;
        } else {
          response := response + ",\n";
        }
      }
      response := response + text;
      if params.stopAfterBytes != 0 && size >= params.stopAfterBytes { return Done; }
      if n != 0 {
        n := n - 1;
        if n == 0 { return Done; }
      }
      if index == last && params.noWait { return Done; }
      r := More;
    }

    method OnRaw(terminating: bool, raw: string, index: nat, last: nat) returns (r: Response)
      modifies this
      ensures Did(OnRawLine(codec, params, old(State()), terminating, raw, index, last), r)
    {
      hide Consider, UsOf, RawText;
      r := PassRaw(terminating, raw, index, last);
      if r.Done? && params.asArray {
        response := response + if started then "]\n" else "[]\n";
      }
    }

    method PassRaw(terminating: bool, raw: string, index: nat, last: nat) returns (r: Response)
      modifies this
      ensures Did(Consider(params, old(State()), terminating, index, UsOf(codec, raw), last,
                           RawText(params, raw)), r)
    {
      hide Sent, UsOf, RawText, TabPos;
      if terminating { return Done; }
      var currentUs := 0;
      if !serving {
        if index >= params.i && (params.tail == 0 || last - index < params.tail) {
          if fromUs != 0 { currentUs := CurrentUs(raw, currentUs); }
          if fromUs == 0 || currentUs >= fromUs { serving := true; }
        }
        if !serving && index == last && params.noWait { return Done; }
      }
      if serving {
        if params.period != 0 && toUs == 0 {
          currentUs := CurrentUs(raw, currentUs);
          toUs := currentUs + params.period;
        }
        if toUs != 0 {
          currentUs := CurrentUs(raw, currentUs);
          if currentUs > toUs { return Done; }
        }
        var text := ResponseData(raw);
        r := Send(text, index, last);
        return;
      }
      r := More;
    }

    method ResponseData(raw: string) returns (text: string)
      ensures text == RawText(params, raw)
    {
      text := raw;
      if params.entriesOnly {
        var tab := TabPos(raw);
        if tab < |raw| { text := raw[tab + 1..]; }
      }
      text := text + "\n";
    }

    /** The timestamp is parsed at most once, except that a timestamp of zero is parsed again. */
    method CurrentUs(raw: string, cached: int) returns (us: int)
      requires cached == 0 || cached == UsOf(codec, raw)
      ensures us == UsOf(codec, raw)
    {
      us := cached;
      if us == 0 { us := codec.usOf(raw[..TabPos(raw)]); }
    }

    method OnHeadUpdate(terminating: bool, us: int) returns (r: Response)
      modifies this
      ensures Did(OnHead(codec, params, old(State()), terminating, us), r)
    {
      if terminating { return Done; }
      if !serving && 0 < fromUs && us >= fromUs { serving := true; }
      if serving {
        if params.period != 0 && toUs == 0 { toUs := us + params.period; }
        if toUs != 0 && us > toUs { return Done; }
        if !params.asArray && !params.entriesOnly { response := response + (codec.tsOnly(us) + "\n"); }
      }
      r := More;
    }
  }
}
