/**
 Safety of the group: in every run at most one node is a master, every node holds a faithful copy of
 the authoritative stream, and a delivered flip hands over exactly what the old master gave up.
 */
module GroupSafety {
  import opened StreamLog
  import opened Chunks
  import opened Replica
  import opened Replication
  import opened Flip
  import opened Controller
  import opened Group

  lemma GrowsRefl(s: Stream)
    ensures Grows(s, s)
  {
    assert s.log[..|s.log|] == s.log;
  }

  lemma GrowsAntisymmetric(a: Stream, b: Stream)
    requires Grows(a, b) && Grows(b, a)
    ensures a == b
  {
    assert b.log[..|a.log|] == b.log;
  }

  /** Nodes moved from `nodes` to `nodes'`: no stream shrank or forked. */
  ghost predicate Moved(nodes: map<int, Node>, nodes': map<int, Node>, auth: Stream, auth': Stream) {
    && nodes.Keys <= nodes'.Keys && Valid(auth') && Grows(auth, auth')
    && (forall j :: j in nodes ==> Grows(nodes[j].stream, nodes'[j].stream))
    && (forall j :: j in nodes ==> Grows(nodes'[j].stream, auth'))
  }

  /** What a node is to the others survives their moves, if it does not move itself. */
  lemma NodeKeeps(k: Codec, nodes: map<int, Node>, nodes': map<int, Node>, auth: Stream, auth': Stream, n: Node)
    requires Moved(nodes, nodes', auth, auth') && NodeOk(k, nodes, auth, n)
    ensures NodeOk(k, nodes', auth', n)
  {
    hide ConnOk;
    GrowsTransitive(n.stream, auth, auth');
    if n.link.Some? && n.link.value.conn.Some? {
      var u := n.link.value.upstream;
      ConnKeeps(k, n.link.value.conn.value, FollowerOf(n), nodes[u].stream, nodes'[u].stream, auth, auth');
    }
  }

  /** Replacing one node, when the authoritative stream may grow with it, or its holder change. */
  lemma PutOk(k: Codec, nodes: map<int, Node>, h: int, i: int, n: Node, h': int)
    requires NodesOk(k, nodes, h) && h' in nodes[i := n]
    requires var auth, auth' := nodes[h].stream, nodes[i := n][h'].stream;
             && Valid(auth') && Grows(auth, auth') && Grows(n.stream, auth')
             && (i in nodes ==> Grows(nodes[i].stream, n.stream))
             && NodeOk(k, nodes[i := n], auth', n)
    requires n.master ==> i == h'
    requires forall j :: j in nodes && j != i && nodes[j].master ==> j == h'
    ensures NodesOk(k, nodes[i := n], h')
    ensures Moved(nodes, nodes[i := n], nodes[h].stream, nodes[i := n][h'].stream)
  {
    hide ConnOk, Valid;
    var nodes' := nodes[i := n];
    var auth, auth' := nodes[h].stream, nodes'[h'].stream;
    forall j | j in nodes
      ensures Grows(nodes[j].stream, nodes'[j].stream) && Grows(nodes'[j].stream, auth')
    {
      GrowsRefl(nodes[j].stream);
      GrowsTransitive(nodes[j].stream, auth, auth');
    }
    forall j | j in nodes' ensures NodeOk(k, nodes', auth', nodes'[j]) {
      if j != i { NodeKeeps(k, nodes, nodes', auth, auth', nodes[j]); }
    }
  }

  /** A frame survives the move of a node that is not its client, as long as a server that is about to
      give stays master, and none appears once a diff is on its way. */
  lemma FrameKeeps(nodes: map<int, Node>, h: int, i: int, n: Node, h': int, f: Frame)
    requires h in nodes && FrameOk(nodes, h, f) && h' in nodes[i := n]
    requires i in nodes ==> Grows(nodes[i].stream, n.stream)
    requires i == f.client ==> && n.link.Some? && n.link.value.upstream == f.server && n.link.value.conn.None?
                               && n.stream == nodes[i].stream
    requires i == f.server && f.phase.Ready? ==> n.master
    requires f.phase.Responded? ==> !n.master && nodes[i := n][h'].stream == nodes[h].stream
    ensures FrameOk(nodes[i := n], h', f)
  {
    if f.phase.Read? && i == f.server { GrowsTransitive(f.phase.read, nodes[i].stream, n.stream); }
  }

  /** The common case: node `i` moves, and no request is affected. */
  lemma MoveOk(k: Codec, g: Group, h: int, i: int, n: Node, h': int)
    requires Inv(k, g, h) && NodesOk(k, g.nodes[i := n], h')
    requires i in g.nodes ==> Grows(g.nodes[i].stream, n.stream)
    requires IsClient(g, i) ==> && i in g.nodes && n.stream == g.nodes[i].stream && n.link == g.nodes[i].link
    requires forall j :: 0 <= j < |g.flip| && g.flip[j].server == i && g.flip[j].phase.Ready? ==> n.master
    requires forall j :: 0 <= j < |g.flip| && g.flip[j].phase.Responded? ==>
               !n.master && g.nodes[i := n][h'].stream == g.nodes[h].stream
    ensures Inv(k, Put(g, i, n), h')
  {
    hide NodesOk, FrameOk;
    assert h in g.nodes && h' in g.nodes[i := n] by { HolderIn(k, g.nodes, h); HolderIn(k, g.nodes[i := n], h'); }
    forall j | 0 <= j < |g.flip| ensures FrameOk(g.nodes[i := n], h', g.flip[j]) {
      ClientLinked(g.nodes, h, g.flip[j]);
      FrameKeeps(g.nodes, h, i, n, h', g.flip[j]);
    }
  }

  lemma HolderIn(k: Codec, nodes: map<int, Node>, h: int)
    requires NodesOk(k, nodes, h)
    ensures h in nodes
  {
  }

  lemma ClientLinked(nodes: map<int, Node>, h: int, f: Frame)
    requires h in nodes && FrameOk(nodes, h, f)
    ensures f.client in nodes && f.server in nodes && nodes[f.client].link.Some?
    ensures nodes[f.client].link.value.upstream == f.server && nodes[f.client].link.value.conn.None?
  {
  }

  /** The master publishes or advances its HEAD. */
  lemma PublishOk(k: Codec, g: Group, h: int, i: int, s: Stream)
    requires Inv(k, g, h) && i in g.nodes && g.nodes[i].master && Valid(s) && Grows(g.nodes[i].stream, s)
    ensures Inv(k, Put(g, i, g.nodes[i].(stream := s)), h)
  {
    hide ConnOk, Valid;
    var n := g.nodes[i].(stream := s);
    GrowsRefl(s);
    PutOk(k, g.nodes, h, i, n, h);
    forall j | 0 <= j < |g.flip| ensures g.flip[j].client != i && !g.flip[j].phase.Responded? {
      assert FrameOk(g.nodes, h, g.flip[j]);
    }
    MoveOk(k, g, h, i, n, h);
  }

  /** A follower moves along its connection. */
  lemma FollowerMoves(k: Codec, g: Group, h: int, i: int, n: Node)
    requires Inv(k, g, h) && i in g.nodes && g.nodes[i].link.Some? && !IsClient(g, i)
    requires n.link.Some? && n.link.value.upstream == g.nodes[i].link.value.upstream
    requires n == g.nodes[i].(stream := n.stream, link := n.link)
    requires Grows(g.nodes[i].stream, n.stream) && FollowerOk(FollowerOf(n), g.nodes[h].stream)
    requires var u := n.link.value.upstream;
             n.link.value.conn.Some? ==>
               u in g.nodes && ConnOk(k, n.link.value.conn.value, FollowerOf(n), g.nodes[u].stream, g.nodes[h].stream)
    ensures Inv(k, Put(g, i, n), h)
  {
    hide ConnOk, Valid;
    var u, auth, nodes' := n.link.value.upstream, g.nodes[h].stream, g.nodes[i := n];
    assert NodeOk(k, g.nodes, auth, g.nodes[i]) && NodeOk(k, g.nodes, auth, g.nodes[h]);
    assert nodes'[h].stream == auth by {
      if i == h { GrowsAntisymmetric(auth, n.stream); }
    }
    GrowsRefl(auth);
    if n.link.value.conn.Some? {
      assert NodeOk(k, g.nodes, auth, g.nodes[u]);
      GrowsRefl(g.nodes[u].stream);
      ConnKeeps(k, n.link.value.conn.value, FollowerOf(n), g.nodes[u].stream, nodes'[u].stream, auth, auth);
    }
    PutOk(k, g.nodes, h, i, n, h);
    MoveOk(k, g, h, i, n, h);
  }

  lemma Linked(k: Codec, g: Group, h: int, i: int)
    requires Inv(k, g, h) && i in g.nodes && g.nodes[i].link.Some?
    ensures h in g.nodes
    ensures var u := g.nodes[i].link.value.upstream;
            && u in g.nodes && Valid(g.nodes[u].stream) && Grows(g.nodes[u].stream, g.nodes[h].stream)
            && Valid(g.nodes[h].stream)
            && FollowerOk(FollowerOf(g.nodes[i]), g.nodes[h].stream)
  {
    assert NodeOk(k, g.nodes, g.nodes[h].stream, g.nodes[i]);
    assert NodeOk(k, g.nodes, g.nodes[h].stream, g.nodes[g.nodes[i].link.value.upstream]);
    assert NodeOk(k, g.nodes, g.nodes[h].stream, g.nodes[h]);
  }

  lemma ConnectedIsNotClient(k: Codec, g: Group, h: int, i: int)
    requires Inv(k, g, h) && i in g.nodes && g.nodes[i].link.Some? && g.nodes[i].link.value.conn.Some?
    ensures !IsClient(g, i)
    ensures ConnOk(k, g.nodes[i].link.value.conn.value, FollowerOf(g.nodes[i]),
                   g.nodes[g.nodes[i].link.value.upstream].stream, g.nodes[h].stream)
  {
    hide ConnOk;
    assert NodeOk(k, g.nodes, g.nodes[h].stream, g.nodes[i]);
    forall j | 0 <= j < |g.flip| ensures g.flip[j].client != i {
      assert FrameOk(g.nodes, h, g.flip[j]);
    }
  }

  lemma ConnStepOk(k: Codec, g: Group, h: int, i: int, step: Step)
    requires Faithful(k) && Inv(k, g, h) && i in g.nodes
    ensures Inv(k, ConnStep(k, g, i, step), h)
  {
    hide Inv, ConnOk, Valid, FollowerOk, Receive, Faithful, Grows, ServerRound, Replication.Connect;
    var n := g.nodes[i];
    if n.link.Some? && n.link.value.upstream in g.nodes {
      Linked(k, g, h, i);
      var f, up, auth := FollowerOf(n), g.nodes[n.link.value.upstream].stream, g.nodes[h].stream;
      GrowsRefl(n.stream);
      match (n.link.value.conn, step)
      case (None, Connect(_, size)) =>
        if !IsClient(g, i) && size <= |up.log| {
          ConnectOk(k, f, size, up, auth);
          FollowerMoves(k, g, h, i, WithConn(n, Some(Replication.Connect(f, size, up.log))));
        }
      case (Some(c), Serve(_)) =>
        ConnectedIsNotClient(k, g, h, i);
        ServerRoundOk(k, c, f, up, auth);
        FollowerMoves(k, g, h, i, WithConn(n, Some(ServerRound(c, up))));
      case (Some(c), Deliver(_, chunk)) =>
        if c.carry + chunk <= Bytes(k, c.pending) {
          ConnectedIsNotClient(k, g, h, i);
          ReceiveOk(k, n.link.value.mode, f, c, chunk, up, auth);
          DeliveryGrows(k, n.link.value.mode, f, c, chunk, auth);
          var r := Receive(k, n.link.value.mode, f, c, chunk);
          var l := n.link.value.(next := r.follower.next, fromUs := r.follower.fromUs, conn := r.conn);
          FollowerMoves(k, g, h, i, n.(stream := r.follower.stream, link := Some(l)));
        }
      case (Some(_), Disconnect(_)) =>
        ConnectedIsNotClient(k, g, h, i);
        FollowerMoves(k, g, h, i, WithConn(n, None));
      case _ =>
    }
  }

  lemma DeliveryGrows(k: Codec, mode: ReplicationMode, f: Follower, c: Conn, chunk: string, auth: Stream)
    requires FollowerOk(f, auth)
    ensures Grows(f.stream, Receive(k, mode, f, c, chunk).follower.stream)
  {
    TakingGrows(k, mode, f, Feed(c.carry, chunk).records);
  }

  /** A new node joins, with an empty stream or with a copy of what it is going to follow. */
  lemma JoinOk(k: Codec, g: Group, h: int, i: int, s: Stream, u: int, mode: ReplicationMode)
    requires Inv(k, g, h) && i !in g.nodes && u in g.nodes && Valid(s) && Grows(s, g.nodes[u].stream)
    ensures Inv(k, Put(g, i, Controller.Follow(Node(s, true, false, None, None), u, mode, true)), h)
  {
    hide ConnOk, Valid;
    var n, auth := Controller.Follow(Node(s, true, false, None, None), u, mode, true), g.nodes[h].stream;
    assert NodeOk(k, g.nodes, auth, g.nodes[u]) && NodeOk(k, g.nodes, auth, g.nodes[h]);
    GrowsTransitive(s, g.nodes[u].stream, auth);
    GrowsRefl(auth);
    PutOk(k, g.nodes, h, i, n, h);
    forall j | 0 <= j < |g.flip| ensures g.flip[j].client != i && g.flip[j].server != i {
      assert FrameOk(g.nodes, h, g.flip[j]);
    }
    MoveOk(k, g, h, i, n, h);
  }

  /** A node keeps its stream, and with it its place among the others. */
  lemma RoleChangeOk(k: Codec, g: Group, h: int, i: int, n: Node)
    requires Inv(k, g, h) && i in g.nodes && n.stream == g.nodes[i].stream
    requires OnePublisher(n) && (n.master ==> g.nodes[i].master)
    requires n.link == g.nodes[i].link ||
             (g.nodes[i].link.None? && n.link.Some? && n.link.value.upstream in g.nodes
              && n.link.value == Subscribed(n.link.value.upstream, n.link.value.mode, n.stream))
    requires forall j :: 0 <= j < |g.flip| && g.flip[j].server == i && g.flip[j].phase.Ready? ==> n.master
    ensures Inv(k, Put(g, i, n), h)
  {
    hide ConnOk, Valid;
    var auth := g.nodes[h].stream;
    assert NodeOk(k, g.nodes, auth, g.nodes[i]) && NodeOk(k, g.nodes, auth, g.nodes[h]);
    GrowsRefl(auth);
    GrowsRefl(n.stream);
    SameStreams(k, g.nodes, i, n, auth);
    PutOk(k, g.nodes, h, i, n, h);
    forall j | 0 <= j < |g.flip|
      ensures g.flip[j].client == i ==> g.nodes[i].link.Some?
      ensures g.flip[j].phase.Responded? ==> !g.nodes[i].master
    {
      assert FrameOk(g.nodes, h, g.flip[j]);
    }
    MoveOk(k, g, h, i, n, h);
  }

  lemma SameStreams(k: Codec, nodes: map<int, Node>, i: int, n: Node, auth: Stream)
    requires i in nodes && NodeOk(k, nodes, auth, nodes[i]) && n.stream == nodes[i].stream && OnePublisher(n)
    requires n.link == nodes[i].link ||
             (n.link.Some? && n.link.value.upstream in nodes
              && n.link.value == Subscribed(n.link.value.upstream, n.link.value.mode, n.stream))
    ensures NodeOk(k, nodes[i := n], auth, n)
  {
    hide ConnOk;
  }

  lemma FollowOk(k: Codec, g: Group, h: int, i: int, u: int, mode: ReplicationMode, responds: bool)
    requires Inv(k, g, h) && i in g.nodes && u in g.nodes && !Locked(g, i)
    ensures Inv(k, Put(g, i, Controller.Follow(g.nodes[i], u, mode, responds)), h)
  {
    hide ConnOk, Valid;
    assert NodeOk(k, g.nodes, g.nodes[h].stream, g.nodes[i]);
    RoleChangeOk(k, g, h, i, Controller.Follow(g.nodes[i], u, mode, responds));
  }

  lemma ExposureOk(k: Codec, g: Group, h: int, i: int, x: Option<Exposed>)
    requires Inv(k, g, h) && i in g.nodes
    ensures Inv(k, Put(g, i, g.nodes[i].(exposed := x)), h)
  {
    hide ConnOk, Valid;
    assert NodeOk(k, g.nodes, g.nodes[h].stream, g.nodes[i]);
    forall j | 0 <= j < |g.flip| && g.flip[j].server == i && g.flip[j].phase.Ready? ensures g.nodes[i].master {
      assert FrameOk(g.nodes, h, g.flip[j]);
    }
    RoleChangeOk(k, g, h, i, g.nodes[i].(exposed := x));
  }

  /** Ending the subscription of a node that is not asking for a flip already. */
  lemma UnsubscribeOk(k: Codec, g: Group, h: int, i: int)
    requires Inv(k, g, h) && i in g.nodes && g.nodes[i].link.Some? && !IsClient(g, i)
    ensures Inv(k, Put(g, i, WithConn(g.nodes[i], None)), h)
  {
    hide ConnOk, Valid, FollowerOk;
    Linked(k, g, h, i);
    GrowsRefl(g.nodes[i].stream);
    FollowerMoves(k, g, h, i, WithConn(g.nodes[i], None));
  }

  /** A request is sent on: by a node that wants to be the master, or by a handler for its client. */
  lemma PushOk(k: Codec, g: Group, h: int, i: int, key: nat, clock: Option<int>)
    requires Inv(k, g, h) && i in g.nodes && g.nodes[i].link.Some? && !IsClient(g, i)
    requires g.flip != [] ==> Top(g).server == i && Top(g).phase.Validated?
    ensures Inv(k, Push(g, i, key, clock), h)
  {
    hide NodesOk, FrameOk;
    UnsubscribeOk(k, g, h, i);
    Linked(k, g, h, i);
    var g1, g2 := Put(g, i, WithConn(g.nodes[i], None)), Push(g, i, key, clock);
    var f := g2.flip[|g.flip|];
    NewFrameOk(g1.nodes, h, f);
    forall j | 0 <= j < |g2.flip| ensures FrameOk(g2.nodes, h, g2.flip[j]) {
      assert j < |g.flip| ==> g2.flip[j] == g1.flip[j];
    }
    forall j | 0 <= j < |g2.flip| - 1
      ensures g2.flip[j].phase == Validated && g2.flip[j + 1].client == g2.flip[j].server
    {
      assert j + 1 < |g.flip| ==> g.flip[j].phase == Validated && g.flip[j + 1].client == g.flip[j].server;
    }
  }

  lemma NewFrameOk(nodes: map<int, Node>, h: int, f: Frame)
    requires h in nodes && f.client in nodes && f.server in nodes && f.phase.Sent?
    requires nodes[f.client].link.Some? && nodes[f.client].link.value.conn.None?
    requires nodes[f.client].link.value.upstream == f.server
    requires f.request.next == |nodes[f.client].stream.log| && f.request.head == nodes[f.client].stream.head
    ensures FrameOk(nodes, h, f)
  {
  }

  /** The innermost request moves to a phase that what is known of the nodes supports. */
  lemma SetPhaseOk(k: Codec, g: Group, h: int, p: Phase)
    requires Inv(k, g, h) && g.flip != [] && FrameOk(g.nodes, h, Top(g).(phase := p))
    ensures Inv(k, SetPhase(g, p), h)
  {
    hide NodesOk, FrameOk;
  }

  lemma TopOk(k: Codec, g: Group, h: int)
    requires Inv(k, g, h) && g.flip != []
    ensures h in g.nodes && FrameOk(g.nodes, h, Top(g))
    ensures var s := Top(g).server; s in g.nodes && NodeOk(k, g.nodes, g.nodes[h].stream, g.nodes[s])
    ensures var c := Top(g).client; c in g.nodes && NodeOk(k, g.nodes, g.nodes[h].stream, g.nodes[c])
    ensures Valid(g.nodes[h].stream)
  {
    hide NodeOk, ConnOk;
    var n := |g.flip| - 1;
    assert FrameOk(g.nodes, h, g.flip[n]);
    ValidHolder(k, g.nodes, h);
  }

  lemma ValidHolder(k: Codec, nodes: map<int, Node>, h: int)
    requires NodesOk(k, nodes, h)
    ensures Valid(nodes[h].stream)
  {
    hide ConnOk, Valid;
    assert NodeOk(k, nodes, nodes[h].stream, nodes[h]);
  }

  lemma LockOk(k: Codec, g: Group, h: int, now: int, later: int, clock: Option<int>)
    requires Inv(k, g, h) && g.flip != [] && Top(g).phase.Validated?
    ensures Top(g).server in g.nodes
    ensures Inv(k, Lock(g, now, later, clock), h)
  {
    hide ConnOk, Valid, NodesOk, FollowerOk;
    TopOk(k, g, h);
    var f := Top(g);
    var n := g.nodes[f.server];
    if !Locked(g, f.server) && !IsClient(g, f.server) {
      var d := Decide(n, f.request, now, later);
      match d.1
      case Refused =>
        assert d.0 == n.(exposed := d.0.exposed);
        ExposureOk(k, g, h, f.server, d.0.exposed);
        var g1 := Put(g, f.server, d.0);
        TopOk(k, g1, h);
        SetPhaseOk(k, g1, h, Failed);
      case Granted => SetPhaseOk(k, g, h, Ready);
      case Forwarded => PushOk(k, g, h, f.server, f.request.key, clock);
    }
  }

  /** The master gives its publisher up, and from then on there is none. */
  lemma GrantOk(k: Codec, g: Group, h: int)
    requires Inv(k, g, h) && g.flip != [] && Top(g).phase.Ready?
    ensures Top(g).server in g.nodes
    ensures Inv(k, Grant(k, g), h)
  {
    hide ConnOk, Valid, FollowerOk, Forbids, Diff, LinkOk, Grows;
    TopOk(k, g, h);
    var f := Top(g);
    var n := g.nodes[f.server];
    assert f.server == h;
    if n.exposed.Some? && f.request.next <= |n.stream.log| {
      var given := Give(k, n, f.request);
      var g1 := SetPhase(g, Validated);
      SetPhaseOk(k, g, h, Validated);
      forall j | 0 <= j < |g1.flip| ensures !g1.flip[j].phase.Ready? { }
      RoleChangeOk(k, g1, h, f.server, given.0);
      var g2 := Put(g1, f.server, given.0);
      TopOk(k, g2, h);
      var p := if given.1.Some? then Responded(given.1.value, n.stream) else Failed;
      SetPhaseOk(k, g2, h, p);
      assert SetPhase(g2, p) == Grant(k, g);
    }
  }

  /** What the client makes of the diff: the very stream that was given up. */
  lemma DiffMakesEqual(k: Codec, n: Node, auth: Stream)
    requires Faithful(k) && n.link.Some? && Valid(n.stream) && Valid(auth) && Grows(n.stream, auth)
    ensures |n.stream.log| <= |auth.log|
    ensures Concluded(k, n, Some(Bytes(k, Diff(auth, |n.stream.log|, n.stream.head))))
         == (n.(stream := auth, link := None, master := true), true)
  {
    hide TakeRecords, TakeLines, Feed, Diff, Faithful;
    var next, head := |n.stream.log|, n.stream.head;
    forall j | 0 <= j < next ensures auth.log[j].us <= head {
      assert auth.log[..next][j] == n.stream.log[j];
    }
    ClientTakesDiff(n.link.value.mode, n.stream, auth);
    WholeBodyIsLines(k, n.link.value.mode, Follower(n.stream, next, 0), Diff(auth, next, head));
    assert n.stream.log + auth.log[next..] == auth.log;
  }

  /** Without the innermost request: its client is then asking for nothing. */
  lemma DropTop(k: Codec, g: Group, h: int)
    requires Inv(k, g, h) && g.flip != []
    ensures var rest := g.(flip := g.flip[..|g.flip| - 1]);
            && Inv(k, rest, h) && !IsClient(rest, Top(g).client)
            && (forall j :: 0 <= j < |rest.flip| ==> rest.flip[j].phase.Validated?)
            && (rest.flip != [] ==> Top(rest).server == Top(g).client)
  {
    hide NodesOk, FrameOk;
    var top := |g.flip| - 1;
    var rest := g.(flip := g.flip[..top]);
    forall j | 0 <= j < top
      ensures rest.flip[j].phase == Validated && rest.flip[j].client != Top(g).client
    {
      assert g.flip[j].phase == Validated && g.flip[j + 1].client == g.flip[j].server;
    }
    if 0 < top { assert g.flip[top - 1 + 1].client == g.flip[top - 1].server; }
  }

  /** A flip that failed, or whose response was lost: the client subscribes again. */
  lemma ConcludeWithoutResponse(k: Codec, g: Group, h: int)
    requires Inv(k, g, h) && g.flip != []
    ensures Top(g).client in g.nodes && g.nodes[Top(g).client].link.Some?
    ensures Inv(k, Conclude(k, g, None), h)
  {
    hide ConnOk, Valid, NodesOk;
    TopOk(k, g, h);
    DropTop(k, g, h);
    var c, rest := Top(g).client, g.(flip := g.flip[..|g.flip| - 1]);
    var n := Concluded(k, g.nodes[c], None).0;
    GrowsRefl(n.stream);
    FollowerMoves(k, rest, h, c, n);
    var g1 := Put(rest, c, n);
    if g1.flip != [] {
      TopOk(k, g1, h);
      SetPhaseOk(k, g1, h, Failed);
    }
  }

  /** A flip whose response arrives: the client holds exactly the stream given up, and is the one
      master. */
  lemma ConcludeWithResponse(k: Codec, g: Group, h: int)
    requires Faithful(k) && Inv(k, g, h) && g.flip != [] && Top(g).phase.Responded?
    ensures var c, f := Top(g).client, Top(g);
            && c in g.nodes && g.nodes[c].link.Some?
            && (var g' := Conclude(k, g, Some(Bytes(k, f.phase.lines)));
                && Inv(k, g', c) && g'.nodes[c].master && g'.nodes[c].stream == f.phase.given)
  {
    hide ConnOk, Valid, Diff, Faithful, Concluded;
    TopOk(k, g, h);
    DropTop(k, g, h);
    var c, auth, rest := Top(g).client, g.nodes[h].stream, g.(flip := g.flip[..|g.flip| - 1]);
    DiffMakesEqual(k, g.nodes[c], auth);
    var n := Concluded(k, g.nodes[c], Some(Bytes(k, Top(g).phase.lines))).0;
    GrowsRefl(auth);
    PutOk(k, g.nodes, h, c, n, c);
    MoveOk(k, rest, h, c, n, c);
    var g1 := Put(rest, c, n);
    if g1.flip != [] {
      TopOk(k, g1, c);
      SetPhaseOk(k, g1, c, Ready);
    }
  }

  lemma FlipStepOk(k: Codec, g: Group, h: int, step: Step) returns (h': int)
    requires Faithful(k) && Inv(k, g, h)
    ensures Inv(k, FlipStep(k, g, step), h')
  {
    hide ConnOk, NodesOk, FollowerOk, Conclude, Lock, Grant, Faithful;
    h' := h;
    if g.flip != [] {
      var f := Top(g);
      TopOk(k, g, h);
      match (f.phase, step)
      case (Sent, FlipRead) =>
        GrowsRefl(g.nodes[f.server].stream);
        SetPhaseOk(k, g, h, Read(g.nodes[f.server].stream));
      case (Read(r), FlipValidate) =>
        SetPhaseOk(k, g, h, if Validates(r, g.nodes[f.server].stream, f.request.next, f.request.head) then Validated else Failed);
      case (Validated, FlipLock(now, later, clock)) => LockOk(k, g, h, now, later, clock);
      case (Ready, FlipGive) => GrantOk(k, g, h);
      case (Responded(lines, _), FlipRespond) => ConcludeWithResponse(k, g, h); h' := f.client;
      case (Responded(_, _), FlipLose) => ConcludeWithoutResponse(k, g, h);
      case (Failed, FlipFail) => ConcludeWithoutResponse(k, g, h);
      case _ =>
    }
  }

  /** Every step keeps the invariant, for some holder of the authoritative stream. */
  lemma StepOk(k: Codec, g: Group, h: int, step: Step) returns (h': int)
    requires Faithful(k) && Inv(k, g, h)
    ensures Inv(k, Apply(k, g, step), h')
  {
    hide Inv, ConnStep, FlipStep, Faithful;
    h' := h;
    match step
    case Publish(i, us, payload) =>
      if i in g.nodes && g.nodes[i].master && us > g.nodes[i].stream.head {
        var s := StreamLog.Publish(g.nodes[i].stream, us, payload).value;
        ValidStream(k, g, h, i);
        PublishKeeps(g.nodes[i].stream, s, us);
        PublishOk(k, g, h, i, s);
      }
    case UpdateHead(i, us) =>
      if i in g.nodes && g.nodes[i].master && us > g.nodes[i].stream.head {
        ValidStream(k, g, h, i);
        var s := StreamLog.UpdateHead(g.nodes[i].stream, us).value;
        PublishKeeps(g.nodes[i].stream, s, us);
        PublishOk(k, g, h, i, s);
      }
    case Join(i, s, u, mode) =>
      if i !in g.nodes && u in g.nodes && Valid(s) && Grows(s, g.nodes[u].stream) { JoinOk(k, g, h, i, s, u, mode); }
    case Follow(i, u, mode, responds) =>
      if i in g.nodes && u in g.nodes && !Locked(g, i) { FollowOk(k, g, h, i, u, mode, responds); }
    case Expose(i, key, restrictions) =>
      if i in g.nodes && g.nodes[i].exposed.None? {
        ExposureOk(k, g, h, i, Some(Exposed(key, ONE_SECOND, 0, restrictions)));
      }
    case Connect(i, _) => if i in g.nodes { ConnStepOk(k, g, h, i, step); }
    case Serve(i) => if i in g.nodes { ConnStepOk(k, g, h, i, step); }
    case Deliver(i, _) => if i in g.nodes { ConnStepOk(k, g, h, i, step); }
    case Disconnect(i) => if i in g.nodes { ConnStepOk(k, g, h, i, step); }
    case FlipStart(i, key, clock) =>
      if i in g.nodes && g.flip == [] && !g.nodes[i].master && g.nodes[i].link.Some? { PushOk(k, g, h, i, key, clock); }
    case _ => h' := FlipStepOk(k, g, h, step);
  }

  lemma ValidStream(k: Codec, g: Group, h: int, i: int)
    requires Inv(k, g, h) && i in g.nodes
    ensures Valid(g.nodes[i].stream)
  {
    hide ConnOk, Valid;
    assert NodeOk(k, g.nodes, g.nodes[h].stream, g.nodes[i]);
  }

  lemma PublishKeeps(s: Stream, t: Stream, us: int)
    requires Valid(s) && us > s.head && t.head == us
    requires t.log == s.log || (|t.log| == |s.log| + 1 && t.log[..|s.log|] == s.log && t.log[|s.log|].us == us)
    ensures Valid(t) && Grows(s, t)
  {
    assert s.log[..|s.log|] == s.log;
  }

  /** The invariant holds in every state a group can reach. */
  lemma {:induction false} EveryRunIsSafe(k: Codec, g: Group, steps: seq<Step>) returns (h: int)
    requires Faithful(k) && Initial(g)
    ensures Inv(k, Run(k, g, steps), h)
    decreases |steps|
  {
    hide Faithful;
    if steps == [] {
      h :| BeginsWith(g, h);
      GrowsRefl(g.nodes[h].stream);
    } else {
      var h0 := EveryRunIsSafe(k, g, steps[..|steps| - 1]);
      h := StepOk(k, Run(k, g, steps[..|steps| - 1]), h0, steps[|steps| - 1]);
    }
  }

  /**
   What that means: in every state of every run some node holds the authoritative stream; no other
   node is a master; the log of every node is a prefix of that stream's log, its HEAD is not ahead,
   and it misses no entry stamped at or before its own HEAD.
   */
  lemma OneMasterAndFaithfulCopies(k: Codec, g: Group, steps: seq<Step>) returns (h: int)
    requires Faithful(k) && Initial(g)
    ensures var r := Run(k, g, steps).nodes;
            && h in r
            && (forall i :: i in r && r[i].master ==> i == h)
            && (forall i :: i in r ==> r[i].stream.log <= r[h].stream.log && r[i].stream.head <= r[h].stream.head)
            && (forall i, e :: i in r && e in r[h].stream.log && e.us <= r[i].stream.head ==> e in r[i].stream.log)
  {
    hide Faithful, ConnOk, Run;
    h := EveryRunIsSafe(k, g, steps);
    var r := Run(k, g, steps).nodes;
    forall i | i in r ensures Grows(r[i].stream, r[h].stream) {
      assert NodeOk(k, r, r[h].stream, r[i]);
    }
    forall i, e | i in r && e in r[h].stream.log && e.us <= r[i].stream.head ensures e in r[i].stream.log {
      CopyHasEntry(r[i].stream, r[h].stream, e);
    }
  }

  lemma CopyHasEntry(copy: Stream, whole: Stream, e: Entry)
    requires Grows(copy, whole) && e in whole.log && e.us <= copy.head
    ensures e in copy.log
  {
    var j :| 0 <= j < |whole.log| && whole.log[j] == e;
    assert copy.log[j] == whole.log[..|copy.log|][j];
  }

  /** In every run, when a flip's response arrives its client becomes the master, with exactly the
      entries and the HEAD that the old master had when it gave its publisher up. */
  lemma FlipHandsOverExactly(k: Codec, g: Group, steps: seq<Step>)
    requires Faithful(k) && Initial(g)
    requires var r := Run(k, g, steps); r.flip != [] && Top(r).phase.Responded?
    ensures var r, r' := Run(k, g, steps), Run(k, g, steps + [FlipRespond]);
            var f := Top(r);
            && f.client in r'.nodes && r'.nodes[f.client].master && r'.nodes[f.client].stream == f.phase.given
            && (forall i :: i in r'.nodes && r'.nodes[i].master ==> i == f.client)
  {
    hide Faithful, Apply, Inv, Run;
    var h := EveryRunIsSafe(k, g, steps);
    OneMoreStep(k, g, steps, FlipRespond);
    ResponseStep(k, Run(k, g, steps), h);
  }

  lemma OneMoreStep(k: Codec, g: Group, steps: seq<Step>, step: Step)
    ensures Run(k, g, steps + [step]) == Apply(k, Run(k, g, steps), step)
  {
    assert (steps + [step])[..|steps|] == steps;
  }

  lemma ResponseStep(k: Codec, g: Group, h: int)
    requires Faithful(k) && Inv(k, g, h) && g.flip != [] && Top(g).phase.Responded?
    ensures var f, g' := Top(g), Apply(k, g, FlipRespond);
            && f.client in g'.nodes && g'.nodes[f.client].master && g'.nodes[f.client].stream == f.phase.given
            && (forall i :: i in g'.nodes && g'.nodes[i].master ==> i == f.client)
  {
    hide Faithful, ConnOk, Conclude, FrameOk, NodeOk;
    ConcludeWithResponse(k, g, h);
    TopIn(k, g, h);
    assert Apply(k, g, FlipRespond) == Conclude(k, g, Some(Bytes(k, Top(g).phase.lines)));
  }

  lemma TopIn(k: Codec, g: Group, h: int)
    requires Inv(k, g, h) && g.flip != []
    ensures Top(g).client in g.nodes && Top(g).server in g.nodes && g.nodes[Top(g).client].link.Some?
  {
    hide NodesOk;
    assert h in g.nodes by { HolderIn(k, g.nodes, h); }
    ClientLinked(g.nodes, h, g.flip[|g.flip| - 1]);
  }

  /** In every run, a step that answers a request with a diff finds its server the master of the
      stream recorded as given, and leaves it without the publisher. */
  lemma GivingTakesThePublisher(k: Codec, g: Group, steps: seq<Step>)
    requires Faithful(k) && Initial(g)
    requires var r := Run(k, g, steps); r.flip != [] && Top(r).phase.Ready?
    ensures var r, r' := Run(k, g, steps), Run(k, g, steps + [FlipGive]);
            r'.flip != [] && Top(r').phase.Responded? ==>
              var f := Top(r');
              && f.server in r.nodes && r.nodes[f.server].master && r.nodes[f.server].stream == f.phase.given
              && (forall i :: i in r'.nodes ==> !r'.nodes[i].master)
  {
    hide Faithful, Run, Inv, Apply;
    var h := EveryRunIsSafe(k, g, steps);
    OneMoreStep(k, g, steps, FlipGive);
    GiveStep(k, Run(k, g, steps), h);
  }

  lemma GiveStep(k: Codec, r: Group, h: int)
    requires Inv(k, r, h) && r.flip != [] && Top(r).phase.Ready?
    ensures var r' := Apply(k, r, FlipGive);
            r'.flip != [] && Top(r').phase.Responded? ==>
              var f := Top(r');
              && f.server in r.nodes && r.nodes[f.server].master && r.nodes[f.server].stream == f.phase.given
              && (forall i :: i in r'.nodes ==> !r'.nodes[i].master)
  {
    hide ConnOk, NodesOk, Grows, Valid, Covered, Diff, Splits, ChainOk;
    TopOk(k, r, h);
    GrantOk(k, r, h);
    TopOk(k, Grant(k, r), h);
  }
}
