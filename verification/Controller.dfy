/**
 `MasterFlipController` of stream/replicator.h: who holds the publisher of a stream, and how a
 request to flip is answered. `Node` is the value of one controller with its stream.
 */
module Controller {
  import opened StreamLog
  import opened Chunks
  import opened Replica
  import opened Replication
  import opened Flip

  const ONE_SECOND: nat := 1_000_000

  datatype Exposed = Exposed(key: nat, delay: nat, blockUntil: int, restrictions: Restrictions)

  /** The remote follower: whom it follows, the position it asks from, and its connection, if open. */
  datatype Link = Link(upstream: int, mode: ReplicationMode, next: nat, fromUs: int, conn: Option<Conn>)

  /** `master`: the stream can be published into. `borrowed`: the controller keeps the publisher. */
  datatype Node = Node(stream: Stream, master: bool, borrowed: bool, link: Option<Link>, exposed: Option<Exposed>)

  function FollowerOf(n: Node): Follower
    requires n.link.Some?
  {
    Follower(n.stream, n.link.value.next, n.link.value.fromUs)
  }

  /** Subscribing anew, from what the stream holds now. */
  function Subscribed(upstream: int, mode: ReplicationMode, s: Stream): Link {
    Link(upstream, mode, |s.log|, s.head + 1, None)
  }

  /** Following a remote stream. When already following nothing changes; when the remote stream does
      not respond, the publisher goes back to where it was. */
  function Follow(n: Node, upstream: int, mode: ReplicationMode, responds: bool): Node {
    if n.link.Some? then n
    else if !responds then if n.borrowed then n else n.(master := true)
    else n.(master := false, borrowed := false, link := Some(Subscribed(upstream, mode, n.stream)))
  }

  datatype FlipRequest = FlipRequest(next: nat, head: int, key: nat, clock: Option<int>)

  datatype Verdict = Refused | Forwarded | Granted

  function Abs(x: int): nat {
    if x < 0 then -x else x
  }

  predicate ClockFails(x: Exposed, r: FlipRequest, now: int) {
    var max := x.restrictions.maxClockDiff;
    max > 0 && (r.clock.None? || Abs(r.clock.value - now) > max)
  }

  /** The checks under the lock. `now` is read first, `later` after a wrong key. */
  function Decide(n: Node, r: FlipRequest, now: int, later: int): (Node, Verdict) {
    if n.exposed.None? || n.borrowed then (n, Refused)
    else
      var x := n.exposed.value;
      if now < x.blockUntil || ClockFails(x, r, now) then (n, Refused)
      else if n.link.Some? then (n, Forwarded)
      else if r.key != x.key then
        (n.(exposed := Some(x.(blockUntil := later + x.delay, delay := 2 * x.delay))), Refused)
      else (n, Granted)
  }

  /** Giving the publisher up and sending the diff, or taking it back when the diff is forbidden. */
  function Give(k: Codec, n: Node, r: FlipRequest): (Node, Option<seq<Line>>)
    requires n.exposed.Some? && r.next <= |n.stream.log|
  {
    if Forbids(k, n.exposed.value.restrictions, n.stream, r.next, r.head)
    then (n.(master := true, borrowed := false), None)
    else (n.(master := false, borrowed := true), Some(Diff(n.stream, r.next, r.head)))
  }

  /** The client's end of a flip: the response is taken as one chunk, and the client becomes the
      master; without a response, or when it cannot be taken whole, it subscribes again. */
  function Concluded(k: Codec, n: Node, response: Option<string>): (Node, bool)
    requires n.link.Some?
  {
    var link := n.link.value;
    if response.None? then (n.(link := Some(Subscribed(link.upstream, link.mode, n.stream))), false)
    else
      var f := Follower(n.stream, |n.stream.log|, 0);
      var t := TakeRecords(k, link.mode, f, Feed("", response.value).records);
      var s := t.follower.stream;
      if t.ok then (n.(stream := s, link := None, master := true), true)
      else (n.(stream := s, link := Some(Subscribed(link.upstream, link.mode, s))), false)
  }

  /** The answer to a request, with the reads `read` and `search` made before the lock, and the
      response of the node followed, if this one has to flip it first. */
  function Handled(k: Codec, n: Node, read: Stream, search: Stream, r: FlipRequest,
                   now: int, later: int, upstream: Option<string>): (Node, Option<seq<Line>>)
    requires r.next <= |n.stream.log| || !Validates(read, search, r.next, r.head)
  {
    if !Validates(read, search, r.next, r.head) then (n, None)
    else
      var d := Decide(n, r, now, later);
      match d.1
      case Refused => (d.0, None)
      case Granted => Give(k, n, r)
      case Forwarded =>
        var c := Concluded(k, n, upstream);
        if c.1 then Give(k, c.0, r) else (c.0, None)
  }

  /** The client's clock, where the restrictions ask for it. */
  predicate ClockIsNear(max: int, clock: Option<int>, now: int) {
    max <= 0 || (clock.Some? && now - max <= clock.value <= now + max)
  }

  /** The checks under the lock that have nothing to do with the key: exposed, with the publisher not
      given up already, not blocked after a wrong key, and with a clock that is near enough. */
  predicate Open(n: Node, r: FlipRequest, now: int) {
    && n.exposed.Some? && !n.borrowed
    && n.exposed.value.blockUntil <= now && ClockIsNear(n.exposed.value.restrictions.maxClockDiff, r.clock, now)
  }

  /** When a request is answered with a diff, and with which: at a node that follows nobody exactly to
      a validated request with the right key that no restriction forbids; at a node that follows
      another, whatever the key, exactly if that node was flipped. */
  lemma AnsweredExactly(k: Codec, n: Node, read: Stream, search: Stream, r: FlipRequest,
                        now: int, later: int, upstream: Option<string>)
    requires r.next <= |n.stream.log|
    ensures var h := Handled(k, n, read, search, r, now, later, upstream);
            && (n.link.None? ==>
                  (h.1.Some? <==> && Validates(read, search, r.next, r.head) && Open(n, r, now)
                                  && r.key == n.exposed.value.key
                                  && !Forbids(k, n.exposed.value.restrictions, n.stream, r.next, r.head)))
            && (n.link.Some? ==>
                  (h.1.Some? <==> && Validates(read, search, r.next, r.head) && Open(n, r, now)
                                  && Concluded(k, n, upstream).1
                                  && !Forbids(k, n.exposed.value.restrictions, h.0.stream, r.next, r.head)))
            && (h.1.Some? ==> h.1.value == Diff(h.0.stream, r.next, r.head) && h.0.borrowed && !h.0.master)
            && (h.1.None? && OnlyMaster(n) ==> h.0.stream == n.stream && OnlyMaster(h.0))
  {
    hide Validates, Forbids, Diff, TakeRecords;
  }

  predicate OnlyMaster(n: Node) {
    n.master && !n.borrowed && n.link.None?
  }

  class MasterFlipController {
    const codec: Codec
    const stream: Persister
    var master: bool
    var borrowed: bool
    var link: Option<Link>
    var exposed: Option<Exposed>

    function State(): Node
      reads this, stream
    {
      Node(stream.View(), master, borrowed, link, exposed)
    }

    constructor (codec: Codec, stream: Persister)
      ensures this.codec == codec && this.stream == stream
      ensures State() == Node(stream.View(), true, false, None, None)
    {
      this.codec, this.stream := codec, stream;
      master, borrowed, link, exposed := true, false, None, None;
    }

    /** `key` is the secret drawn at random. */
    method ExposeViaHTTP(key: nat, restrictions: Restrictions) returns (ok: bool)
      modifies this`exposed
      ensures ok == old(exposed).None?
      ensures exposed == if ok then Some(Exposed(key, ONE_SECOND, 0, restrictions)) else old(exposed)
    {
      ok := exposed.None?;
      if ok { exposed := Some(Exposed(key, ONE_SECOND, 0, restrictions)); }
    }

    method FollowRemoteStream(upstream: int, mode: ReplicationMode, responds: bool) returns (ok: bool)
      modifies this
      ensures State() == Follow(old(State()), upstream, mode, responds)
      ensures ok == (old(link).None? && responds)
    {
      if link.Some? { return false; }
      ok := responds;
      if responds {
        master := false;
        link := Some(Link(upstream, mode, |stream.entries|, stream.head + 1, None));
        borrowed := false;
      } else if !borrowed {
        master := true;
      }
    }

    /** `FlipRemoteStreamFromMasterToFollower`, then becoming the master. */
    method ConcludeFlip(response: Option<string>) returns (ok: bool)
      requires link.Some? && Valid(stream.View())
      modifies this, stream
      ensures Valid(stream.View())
      ensures (State(), ok) == Concluded(codec, old(State()), response)
    {
      var l := link.value;
      ok := false;
      if response.Some? {
        var subscriber := new RemoteStreamSubscriber(codec, l.mode, stream, |stream.entries|, 0);
        ok := subscriber.PassChunkToSubscriber(response.value);
      }
      if ok {
        link := None;
        master := true;
      } else {
        link := Some(Link(l.upstream, l.mode, |stream.entries|, stream.head + 1, None));
      }
    }

    /** `FlipToMaster`. `response` is what the node followed answers. */
    method FlipToMaster(response: Option<string>) returns (ok: bool)
      requires Valid(stream.View())
      modifies this, stream
      ensures Valid(stream.View())
      ensures if old(master) || old(link).None? then State() == old(State()) && !ok
              else (State(), ok) == Concluded(codec, old(State()), response)
    {
      if master { return false; }
      if link.None? { return false; }
      ok := ConcludeFlip(response);
    }

    method CheckUnderLock(r: FlipRequest, now: int, later: int) returns (v: Verdict)
      modifies this`exposed
      ensures (State(), v) == Decide(old(State()), r, now, later)
      ensures v.Forwarded? <==> Open(old(State()), r, now) && link.Some?
      ensures v.Granted? <==> Open(old(State()), r, now) && link.None? && r.key == old(exposed).value.key
    {
      if exposed.None? || borrowed { return Refused; }
      var x := exposed.value;
      if now < x.blockUntil { return Refused; }
      var max := x.restrictions.maxClockDiff;
      if max > 0 && (r.clock.None? || Abs(r.clock.value - now) > max) { return Refused; }
      if link.Some? { return Forwarded; }
      if r.key != x.key {
        exposed := Some(x.(blockUntil := later + x.delay, delay := 2 * x.delay));
        return Refused;
      }
      v := Granted;
    }

    method GiveUp(r: FlipRequest) returns (body: Option<string>)
      requires exposed.Some? && r.next <= |stream.entries|
      modifies this
      ensures State() == Give(codec, old(State()), r).0
      ensures var lines := Give(codec, old(State()), r).1;
              body == if lines.Some? then Some(Bytes(codec, lines.value)) else None
    {
      master, borrowed := false, true;
      body := ValidateAndSendDiff(codec, exposed.value.restrictions, Stream(stream.entries, stream.head), r.next, r.head);
      if body.None? {
        borrowed := false;
        master := true;
      }
    }

    /** The request handler, `MasterFlipRequest`. */
    method MasterFlipRequest(read: Stream, search: Stream, r: FlipRequest, now: int, later: int,
                             upstream: Option<string>) returns (body: Option<string>)
      requires Valid(read) && Valid(search) && Valid(stream.View())
      requires Grows(read, search) && Grows(search, stream.View())
      modifies this, stream
      ensures Valid(stream.View())
      ensures var h := Handled(codec, old(State()), read, search, r, now, later, upstream);
              && State() == h.0
              && body == if h.1.Some? then Some(Bytes(codec, h.1.value)) else None
      ensures old(link).None? ==>
                (body.Some? <==> && Validates(read, search, r.next, r.head) && Open(old(State()), r, now)
                                 && r.key == old(exposed).value.key
                                 && !Forbids(codec, old(exposed).value.restrictions, old(stream.View()), r.next, r.head))
    {
      if r.next <= |stream.entries| { AnsweredExactly(codec, State(), read, search, r, now, later, upstream); }
      if r.head > read.head { return None; }
      if r.next > |read.log| { return None; }
      if read.log != [] {
        var byTimestamp := Min(FirstAt(search.log, r.head + 1), |read.log|);
        if byTimestamp != r.next { return None; }
      }
      var v := CheckUnderLock(r, now, later);
      if v.Refused? { return None; }
      if v.Forwarded? {
        var ok := ConcludeFlip(upstream);
        if !ok { return None; }
      }
      body := GiveUp(r);
    }
  }
}
