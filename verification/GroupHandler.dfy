/**
 The steps in which a group answers a flip request do to the node that is asked, and answer, what
 the request handler of its controller does.
 */
module GroupHandler {
  import opened StreamLog
  import opened Replica
  import opened Flip
  import opened Controller
  import opened Group

  /** The node asked can take its lock now, and the request was validated. */
  ghost predicate Asked(g: Group, read: Stream, search: Stream) {
    && g.flip != [] && Top(g).phase.Validated? && Top(g).server in g.nodes
    && !Locked(g, Top(g).server) && !IsClient(g, Top(g).server)
    && Validates(read, search, Top(g).request.next, Top(g).request.head)
    && Top(g).request.next <= |g.nodes[Top(g).server].stream.log|
  }

  /** What the request has come to: `lines` sent back out of the stream `given`, or nothing. */
  ghost predicate Answered(g: Group, f: Frame, n: Node, lines: Option<seq<Line>>, given: Stream) {
    && g.flip != [] && f.server in g.nodes && g.nodes[f.server] == n
    && Top(g) == f.(phase := if lines.Some? then Responded(lines.value, given) else Failed)
  }

  lemma TopOfSetPhase(g: Group, p: Phase)
    requires g.flip != []
    ensures SetPhase(g, p).flip != [] && Top(SetPhase(g, p)) == Top(g).(phase := p)
    ensures SetPhase(g, p).nodes == g.nodes
  {
  }

  /** Validation is the first thing the handler does. */
  lemma FailedValidationIsTheHandler(k: Codec, g: Group, read: Stream, now: int, later: int, upstream: Option<string>)
    requires g.flip != [] && Top(g).phase == Read(read)
    requires Top(g).client in g.nodes && Top(g).server in g.nodes && g.nodes[Top(g).client].link.Some?
    requires var f := Top(g); !Validates(read, g.nodes[f.server].stream, f.request.next, f.request.head)
    ensures var f, n := Top(g), g.nodes[Top(g).server];
            var h := Handled(k, n, read, n.stream, f.request, now, later, upstream);
            Answered(FlipStep(k, g, FlipValidate), f, h.0, h.1, n.stream)
  {
    TopOfSetPhase(g, Failed);
  }

  /** Where the node follows nobody: locking, and giving if it is granted. */
  lemma LockAndGiveAreTheHandler(k: Codec, g: Group, read: Stream, search: Stream,
                                 now: int, later: int, clock: Option<int>, upstream: Option<string>)
    requires Asked(g, read, search) && g.nodes[Top(g).server].link.None?
    ensures var f, n := Top(g), g.nodes[Top(g).server];
            var h := Handled(k, n, read, search, f.request, now, later, upstream);
            var g1 := Lock(g, now, later, clock);
            && g1.flip != [] && Top(g1).server in g1.nodes
            && Answered(if Top(g1).phase.Ready? then Grant(k, g1) else g1, f, h.0, h.1, n.stream)
  {
    hide Forbids, Diff;
    var f, n := Top(g), g.nodes[Top(g).server];
    var d := Decide(n, f.request, now, later);
    if d.1.Granted? {
      TopOfSetPhase(g, Ready);
      var g1 := SetPhase(g, Ready);
      var given := Give(k, n, f.request);
      TopOfSetPhase(Put(g1, f.server, given.0),
                    if given.1.Some? then Responded(given.1.value, n.stream) else Failed);
    } else {
      TopOfSetPhase(Put(g, f.server, d.0), Failed);
    }
  }

  /** Where it follows another node: it asks that node first, and has changed nothing but its own
      subscription while it waits. When the answer `upstream` to the inner request is concluded, in
      whatever state the rest of the group is by then, it goes on as the handler does. */
  lemma ForwardingIsTheHandler(k: Codec, g: Group, read: Stream, search: Stream, now: int, later: int,
                               clock: Option<int>, inner: Group, upstream: Option<string>)
    requires Asked(g, read, search)
    requires Decide(g.nodes[Top(g).server], Top(g).request, now, later).1.Forwarded?
    requires var f := Top(g);
             && inner.flip != [] && inner.flip[..|inner.flip| - 1] == g.flip && Top(inner).client == f.server
             && f.server in inner.nodes && inner.nodes[f.server] == Lock(g, now, later, clock).nodes[f.server]
    ensures var f, n := Top(g), g.nodes[Top(g).server];
            var h := Handled(k, n, read, search, f.request, now, later, upstream);
            && inner.nodes[f.server].link.Some?
            && (var g1 := Conclude(k, inner, upstream);
                && g1.flip != [] && Top(g1).server in g1.nodes
                && Answered(if Top(g1).phase.Ready? then Grant(k, g1) else g1, f, h.0, h.1,
                            Concluded(k, n, upstream).0.stream))
  {
    hide Forbids, Diff, Validates, TakeRecords;
    var f, n := Top(g), g.nodes[Top(g).server];
    var c := Concluded(k, n, upstream);
    assert inner.nodes[f.server] == WithConn(n, None);
    assert Concluded(k, inner.nodes[f.server], upstream) == c;
    var rest := Put(inner, f.server, c.0).(flip := g.flip);
    var phase := if c.1 then Ready else Failed;
    assert Conclude(k, inner, upstream) == SetPhase(rest, phase);
    TopOfSetPhase(rest, phase);
    if c.1 {
      var g1 := SetPhase(rest, Ready);
      var given := Give(k, c.0, f.request);
      TopOfSetPhase(Put(g1, f.server, given.0),
                    if given.1.Some? then Responded(given.1.value, c.0.stream) else Failed);
    }
  }
}
