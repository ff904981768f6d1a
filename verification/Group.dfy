/**
 A group of nodes that follow one another and flip, in every interleaving: publishes, connections
 that open, deliver bytes and break anywhere, and one flip at a time, passed on along a chain of
 followers, refused, or with its response lost.
 */
module Group {
  import opened StreamLog
  import opened Replica
  import opened Replication
  import opened Flip
  import opened Controller

  /** How far a request has got: sent, the HEAD read, validated (and, below the top of the chain, in
      the handler that waits under its lock), ready to give the publisher up, answered with a diff of
      the stream as it was given, or failed. */
  datatype Phase = Sent | Read(read: Stream) | Validated | Ready | Responded(lines: seq<Line>, given: Stream) | Failed

  datatype Frame = Frame(client: int, server: int, request: FlipRequest, phase: Phase)

  /** The nodes, and the chain of requests of the flip under way; the last one is the innermost. */
  datatype Group = Group(nodes: map<int, Node>, flip: seq<Frame>)

  datatype Step =
    | Publish(node: int, us: int, payload: string)
    | UpdateHead(node: int, us: int)
    | Join(node: int, stream: Stream, upstream: int, mode: ReplicationMode)
    | Follow(node: int, upstream: int, mode: ReplicationMode, responds: bool)
    | Expose(node: int, key: nat, restrictions: Restrictions)
    | Connect(node: int, size: nat)
    | Serve(node: int)
    | Deliver(node: int, chunk: string)
    | Disconnect(node: int)
    | FlipStart(node: int, key: nat, clock: Option<int>)
    | FlipRead
    | FlipValidate
    | FlipLock(now: int, later: int, clock: Option<int>)
    | FlipGive
    | FlipRespond
    | FlipLose
    | FlipFail

  predicate IsClient(g: Group, i: int) {
    exists j :: 0 <= j < |g.flip| && g.flip[j].client == i
  }

  /** The mutex of a node is held by a handler that waits for its own upstream, or is about to give. */
  predicate Locked(g: Group, i: int) {
    exists j :: 0 <= j < |g.flip| && g.flip[j].server == i && (j + 1 < |g.flip| || g.flip[j].phase.Ready?)
  }

  function Put(g: Group, i: int, n: Node): Group {
    g.(nodes := g.nodes[i := n])
  }

  function WithConn(n: Node, c: Option<Conn>): Node
    requires n.link.Some?
  {
    n.(link := Some(n.link.value.(conn := c)))
  }

  function SetPhase(g: Group, p: Phase): Group
    requires g.flip != []
  {
    var top := |g.flip| - 1;
    g.(flip := g.flip[top := g.flip[top].(phase := p)])
  }

  function Top(g: Group): Frame
    requires g.flip != []
  {
    g.flip[|g.flip| - 1]
  }

  /** The innermost request is over; the handler that was waiting for it goes on. */
  function Pop(g: Group, p: Phase): Group
    requires g.flip != []
  {
    var rest := g.(flip := g.flip[..|g.flip| - 1]);
    if rest.flip == [] then rest else SetPhase(rest, p)
  }

  function Request(n: Node, key: nat, clock: Option<int>): FlipRequest {
    FlipRequest(|n.stream.log|, n.stream.head, key, clock)
  }

  /** Terminating the subscription and sending the request to the node followed. */
  function Push(g: Group, i: int, key: nat, clock: Option<int>): Group
    requires i in g.nodes && g.nodes[i].link.Some?
  {
    var n := g.nodes[i];
    var g1 := Put(g, i, WithConn(n, None));
    g1.(flip := g1.flip + [Frame(i, n.link.value.upstream, Request(n, key, clock), Sent)])
  }

  function Lock(g: Group, now: int, later: int, clock: Option<int>): Group
    requires g.flip != [] && Top(g).server in g.nodes
  {
    var f := Top(g);
    var n := g.nodes[f.server];
    if Locked(g, f.server) || IsClient(g, f.server) then g
    else
      var d := Decide(n, f.request, now, later);
      match d.1
      case Refused => SetPhase(Put(g, f.server, d.0), Failed)
      case Granted => SetPhase(g, Ready)
      case Forwarded => if n.link.Some? then Push(g, f.server, f.request.key, clock) else g
  }

  function Grant(k: Codec, g: Group): Group
    requires g.flip != [] && Top(g).server in g.nodes
  {
    var f := Top(g);
    var n := g.nodes[f.server];
    if n.exposed.None? || |n.stream.log| < f.request.next then g
    else
      var given := Give(k, n, f.request);
      SetPhase(Put(g, f.server, given.0),
               if given.1.Some? then Responded(given.1.value, n.stream) else Failed)
  }

  function Conclude(k: Codec, g: Group, response: Option<string>): Group
    requires g.flip != [] && Top(g).client in g.nodes && g.nodes[Top(g).client].link.Some?
  {
    var c := Concluded(k, g.nodes[Top(g).client], response);
    Pop(Put(g, Top(g).client, c.0), if c.1 then Ready else Failed)
  }

  /** One step of a flip; a step that is not enabled changes nothing. */
  function FlipStep(k: Codec, g: Group, step: Step): Group {
    if g.flip == [] then g
    else
      var f := Top(g);
      if f.client !in g.nodes || f.server !in g.nodes || g.nodes[f.client].link.None? then g
      else
        match (f.phase, step)
        case (Sent, FlipRead) => SetPhase(g, Read(g.nodes[f.server].stream))
        case (Read(r), FlipValidate) =>
          SetPhase(g, if Validates(r, g.nodes[f.server].stream, f.request.next, f.request.head) then Validated else Failed)
        case (Validated, FlipLock(now, later, clock)) => Lock(g, now, later, clock)
        case (Ready, FlipGive) => Grant(k, g)
        case (Responded(lines, _), FlipRespond) => Conclude(k, g, Some(Bytes(k, lines)))
        case (Responded(_, _), FlipLose) => Conclude(k, g, None)
        case (Failed, FlipFail) => Conclude(k, g, None)
        case _ => g
  }

  /** One step of a connection: node `i` follows node `u`. */
  function ConnStep(k: Codec, g: Group, i: int, step: Step): Group
    requires i in g.nodes
  {
    var n := g.nodes[i];
    if n.link.None? || n.link.value.upstream !in g.nodes then g
    else
      var up := g.nodes[n.link.value.upstream].stream;
      match (n.link.value.conn, step)
      case (None, Connect(_, size)) =>
        if IsClient(g, i) || size > |up.log| then g
        else Put(g, i, WithConn(n, Some(Replication.Connect(FollowerOf(n), size, up.log))))
      case (Some(c), Serve(_)) => Put(g, i, WithConn(n, Some(ServerRound(c, up))))
      case (Some(c), Deliver(_, chunk)) =>
        if !(c.carry + chunk <= Bytes(k, c.pending)) then g
        else
          var r := Receive(k, n.link.value.mode, FollowerOf(n), c, chunk);
          var l := n.link.value.(next := r.follower.next, fromUs := r.follower.fromUs, conn := r.conn);
          Put(g, i, n.(stream := r.follower.stream, link := Some(l)))
      case (Some(_), Disconnect(_)) => Put(g, i, WithConn(n, None))
      case _ => g
  }

  ghost function Apply(k: Codec, g: Group, step: Step): Group {
    match step
    case Publish(i, us, payload) =>
      if i in g.nodes && g.nodes[i].master && us > g.nodes[i].stream.head
      then Put(g, i, g.nodes[i].(stream := StreamLog.Publish(g.nodes[i].stream, us, payload).value)) else g
    case UpdateHead(i, us) =>
      if i in g.nodes && g.nodes[i].master && us > g.nodes[i].stream.head
      then Put(g, i, g.nodes[i].(stream := StreamLog.UpdateHead(g.nodes[i].stream, us).value)) else g
    case Join(i, s, u, mode) =>
      if i !in g.nodes && u in g.nodes && Valid(s) && Grows(s, g.nodes[u].stream)
      then Put(g, i, Controller.Follow(Node(s, true, false, None, None), u, mode, true)) else g
    case Follow(i, u, mode, responds) =>
      if i in g.nodes && u in g.nodes && !Locked(g, i)
      then Put(g, i, Controller.Follow(g.nodes[i], u, mode, responds)) else g
    case Expose(i, key, restrictions) =>
      if i in g.nodes && g.nodes[i].exposed.None?
      then Put(g, i, g.nodes[i].(exposed := Some(Exposed(key, ONE_SECOND, 0, restrictions)))) else g
    case Connect(i, _) => if i in g.nodes then ConnStep(k, g, i, step) else g
    case Serve(i) => if i in g.nodes then ConnStep(k, g, i, step) else g
    case Deliver(i, _) => if i in g.nodes then ConnStep(k, g, i, step) else g
    case Disconnect(i) => if i in g.nodes then ConnStep(k, g, i, step) else g
    case FlipStart(i, key, clock) =>
      if i in g.nodes && g.flip == [] && !g.nodes[i].master && g.nodes[i].link.Some?
      then Push(g, i, key, clock) else g
    case _ => FlipStep(k, g, step)
  }

  ghost function Run(k: Codec, g: Group, steps: seq<Step>): Group {
    if steps == [] then g else Apply(k, Run(k, g, steps[..|steps| - 1]), steps[|steps| - 1])
  }

  /** A group begins with one node, the master of its stream. */
  ghost predicate Initial(g: Group) {
    g.flip == [] && exists i :: BeginsWith(g, i)
  }

  ghost predicate BeginsWith(g: Group, i: int) {
    && g.nodes.Keys == {i} && Valid(g.nodes[i].stream)
    && g.nodes[i].master && !g.nodes[i].borrowed && g.nodes[i].link.None?
  }

  // The invariant.

  /** The publisher of a stream is in exactly one place. */
  ghost predicate OnePublisher(n: Node) {
    && (n.master ==> !n.borrowed && n.link.None?)
    && (n.borrowed ==> n.link.None?)
    && (n.master || n.borrowed || n.link.Some?)
  }

  ghost predicate LinkOk(k: Codec, nodes: map<int, Node>, auth: Stream, n: Node)
    requires n.link.Some?
  {
    var l := n.link.value;
    && l.upstream in nodes
    && FollowerOk(FollowerOf(n), auth)
    && (l.conn.Some? ==> ConnOk(k, l.conn.value, FollowerOf(n), nodes[l.upstream].stream, auth))
  }

  ghost predicate NodeOk(k: Codec, nodes: map<int, Node>, auth: Stream, n: Node) {
    && Valid(n.stream) && Grows(n.stream, auth) && OnePublisher(n)
    && (n.link.Some? ==> LinkOk(k, nodes, auth, n))
  }

  /** All nodes are copies of the stream that node `h` holds, and only `h` can be a master. */
  ghost predicate NodesOk(k: Codec, nodes: map<int, Node>, h: int) {
    && h in nodes
    && (forall i :: i in nodes ==> NodeOk(k, nodes, nodes[h].stream, nodes[i]))
    && (forall i :: i in nodes && nodes[i].master ==> i == h)
  }

  ghost predicate FrameOk(nodes: map<int, Node>, h: int, f: Frame)
    requires h in nodes
  {
    && f.client in nodes && f.server in nodes
    && (var c := nodes[f.client];
        && c.link.Some? && c.link.value.upstream == f.server && c.link.value.conn.None?
        && f.request.next == |c.stream.log| && f.request.head == c.stream.head)
    && match f.phase
       case Read(r) => Valid(r) && Grows(r, nodes[f.server].stream)
       case Ready => nodes[f.server].master
       case Responded(lines, given) =>
         && given == nodes[h].stream && f.request.next <= |given.log|
         && lines == Diff(given, f.request.next, f.request.head)
         && (forall i :: i in nodes ==> !nodes[i].master)
       case _ => true
  }

  ghost predicate ChainOk(flip: seq<Frame>) {
    && (forall j :: 0 <= j < |flip| - 1 ==> flip[j].phase == Validated && flip[j + 1].client == flip[j].server)
    && (forall a, b :: 0 <= a < b < |flip| ==> flip[a].client != flip[b].client)
  }

  ghost predicate Inv(k: Codec, g: Group, h: int) {
    && NodesOk(k, g.nodes, h)
    && (forall j :: 0 <= j < |g.flip| ==> FrameOk(g.nodes, h, g.flip[j]))
    && ChainOk(g.flip)
  }
}
