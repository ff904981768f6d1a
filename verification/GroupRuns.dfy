/**
 What the steps of a group achieve when they are taken one after the other: a follower catches up,
 and a flip is granted exactly to those who may have it.
 */
module GroupRuns {
  import opened StreamLog
  import opened Replica
  import opened Replication
  import opened Flip
  import opened Controller
  import opened Group
  import opened GroupSafety

  // One step of the innermost request.

  predicate Standing(nodes: map<int, Node>, f: Frame) {
    f.client in nodes && f.server in nodes && nodes[f.client].link.Some?
  }

  lemma TopOf(nodes: map<int, Node>, rest: seq<Frame>, f: Frame)
    ensures var g := Group(nodes, rest + [f]);
            && g.flip != [] && Top(g) == f && g.flip[..|g.flip| - 1] == rest
            && forall p :: SetPhase(g, p) == Group(nodes, rest + [f.(phase := p)])
  {
    var g := Group(nodes, rest + [f]);
    forall p ensures SetPhase(g, p) == Group(nodes, rest + [f.(phase := p)]) {
      assert (rest + [f])[|rest| := f.(phase := p)] == rest + [f.(phase := p)];
    }
  }

  lemma ReadStep(k: Codec, nodes: map<int, Node>, rest: seq<Frame>, f: Frame)
    requires Standing(nodes, f) && f.phase.Sent?
    ensures FlipStep(k, Group(nodes, rest + [f]), FlipRead)
         == Group(nodes, rest + [f.(phase := Read(nodes[f.server].stream))])
  {
    TopOf(nodes, rest, f);
  }

  lemma ValidateStep(k: Codec, nodes: map<int, Node>, rest: seq<Frame>, f: Frame)
    requires Standing(nodes, f) && f.phase.Read?
    requires Validates(f.phase.read, nodes[f.server].stream, f.request.next, f.request.head)
    ensures FlipStep(k, Group(nodes, rest + [f]), FlipValidate) == Group(nodes, rest + [f.(phase := Validated)])
  {
    TopOf(nodes, rest, f);
  }

  predicate Free(nodes: map<int, Node>, rest: seq<Frame>, f: Frame) {
    var g := Group(nodes, rest + [f]);
    !Locked(g, f.server) && !IsClient(g, f.server)
  }

  lemma LockStep(k: Codec, nodes: map<int, Node>, rest: seq<Frame>, f: Frame, now: int, later: int, clock: Option<int>)
    requires Standing(nodes, f) && f.phase.Validated? && Free(nodes, rest, f) && nodes[f.server].link.None?
    ensures var d := Decide(nodes[f.server], f.request, now, later);
            FlipStep(k, Group(nodes, rest + [f]), FlipLock(now, later, clock))
            == if d.1.Granted? then Group(nodes, rest + [f.(phase := Ready)])
               else Group(nodes[f.server := d.0], rest + [f.(phase := Failed)])
  {
    TopOf(nodes, rest, f);
    TopOf(nodes[f.server := Decide(nodes[f.server], f.request, now, later).0], rest, f);
  }

  lemma ForwardStep(k: Codec, nodes: map<int, Node>, rest: seq<Frame>, f: Frame, now: int, later: int, clock: Option<int>)
    requires Standing(nodes, f) && f.phase.Validated? && Free(nodes, rest, f)
    requires nodes[f.server].link.Some? && Open(nodes[f.server], f.request, now)
    ensures var n := nodes[f.server];
            FlipStep(k, Group(nodes, rest + [f]), FlipLock(now, later, clock))
            == Group(nodes[f.server := WithConn(n, None)],
                     rest + [f] + [Frame(f.server, n.link.value.upstream, Request(n, f.request.key, clock), Sent)])
  {
    TopOf(nodes, rest, f);
  }

  lemma GiveStepOf(k: Codec, nodes: map<int, Node>, rest: seq<Frame>, f: Frame)
    requires Standing(nodes, f) && f.phase.Ready?
    requires nodes[f.server].exposed.Some? && f.request.next <= |nodes[f.server].stream.log|
    ensures var n := nodes[f.server];
            var given := Give(k, n, f.request);
            FlipStep(k, Group(nodes, rest + [f]), FlipGive)
            == Group(nodes[f.server := given.0],
                     rest + [f.(phase := if given.1.Some? then Responded(given.1.value, n.stream) else Failed)])
  {
    TopOf(nodes, rest, f);
    TopOf(nodes[f.server := Give(k, nodes[f.server], f.request).0], rest, f);
  }

  /** The request below is over; `p` is what the one above it goes on with. */
  function Popped(nodes: map<int, Node>, rest: seq<Frame>, p: Phase): Group {
    if rest == [] then Group(nodes, []) else Group(nodes, rest[|rest| - 1 := rest[|rest| - 1].(phase := p)])
  }

  lemma RespondStep(k: Codec, nodes: map<int, Node>, rest: seq<Frame>, f: Frame)
    requires Standing(nodes, f) && f.phase.Responded?
    ensures var c := Concluded(k, nodes[f.client], Some(Bytes(k, f.phase.lines)));
            FlipStep(k, Group(nodes, rest + [f]), FlipRespond)
            == Popped(nodes[f.client := c.0], rest, if c.1 then Ready else Failed)
  {
    hide Concluded;
    TopOf(nodes, rest, f);
  }

  lemma FailStep(k: Codec, nodes: map<int, Node>, rest: seq<Frame>, f: Frame)
    requires Standing(nodes, f) && f.phase.Failed?
    ensures var c := Concluded(k, nodes[f.client], None);
            FlipStep(k, Group(nodes, rest + [f]), FlipFail) == Popped(nodes[f.client := c.0], rest, Failed)
  {
    TopOf(nodes, rest, f);
  }

  lemma FailedWaits(k: Codec, nodes: map<int, Node>, rest: seq<Frame>, f: Frame)
    requires Standing(nodes, f) && f.phase.Failed?
    ensures var g := Group(nodes, rest + [f]); FlipStep(k, g, FlipGive) == g && FlipStep(k, g, FlipRespond) == g
  {
    TopOf(nodes, rest, f);
  }

  // A faithful copy passes the validation.

  lemma CopyIsValidated(copy: Stream, whole: Stream)
    requires Valid(copy) && Valid(whole) && Grows(copy, whole)
    ensures Validates(whole, whole, |copy.log|, copy.head)
  {
    forall j | 0 <= j < |copy.log| ensures whole.log[j].us <= copy.head {
      assert whole.log[..|copy.log|][j] == copy.log[j];
    }
    GrowsRefl(whole);
    ValidationMeans(whole, whole, |copy.log|, copy.head);
  }

  // A flip from start to end.

  /** All steps of a flip of the master that node `c` follows; the last two are taken as they apply. */
  function FlipSteps(c: int, key: nat, clock: Option<int>, now: int, later: int): seq<Step> {
    [FlipStart(c, key, clock), FlipRead, FlipValidate, FlipLock(now, later, None), FlipGive, FlipRespond, FlipFail]
  }

  ghost function Then(k: Codec, g: Group, steps: seq<Step>): Group
    decreases |steps|
  {
    if steps == [] then g else Then(k, Apply(k, g, steps[0]), steps[1..])
  }

  lemma {:induction false} RunThen(k: Codec, g: Group, steps: seq<Step>, more: seq<Step>)
    ensures Run(k, g, steps + more) == Then(k, Run(k, g, steps), more)
    decreases |more|
  {
    hide Apply;
    if more == [] {
      assert steps + more == steps;
    } else {
      OneMoreStep(k, g, steps, more[0]);
      assert steps + more == (steps + [more[0]]) + more[1..];
      RunThen(k, g, steps + [more[0]], more[1..]);
    }
  }

  /** The node `c` may have the flip: it has the key, and nothing forbids it. */
  predicate MayFlip(k: Codec, n: Node, r: FlipRequest, now: int)
    requires r.next <= |n.stream.log|
  {
    Open(n, r, now) && r.key == n.exposed.value.key && !Forbids(k, n.exposed.value.restrictions, n.stream, r.next, r.head)
  }

  /** The client follows the master directly, and no flip is under way. */
  predicate Follows(g: Group, c: int, m: int) {
    && g.flip == [] && c in g.nodes && m in g.nodes && c != m
    && !g.nodes[c].master && g.nodes[c].link.Some? && g.nodes[c].link.value.upstream == m
    && g.nodes[m].master && g.nodes[m].link.None? && !g.nodes[m].borrowed
  }

  lemma ReadAndValidate(k: Codec, nodes: map<int, Node>, rest: seq<Frame>, f: Frame)
    requires Standing(nodes, f) && f.phase.Sent? && Copied(nodes, f)
    ensures FlipStep(k, FlipStep(k, Group(nodes, rest + [f]), FlipRead), FlipValidate)
         == Group(nodes, rest + [f.(phase := Validated)])
  {
    hide FlipStep, Validates, Valid, Grows;
    CopyIsValidated(nodes[f.client].stream, nodes[f.server].stream);
    ReadStep(k, nodes, rest, f);
    ValidateStep(k, nodes, rest, f.(phase := Read(nodes[f.server].stream)));
  }

  /** The steps up to the lock. */
  lemma Reaches(k: Codec, g: Group, c: int, u: int, key: nat, clock: Option<int>)
    requires g.flip == [] && c in g.nodes && u in g.nodes && c != u && !g.nodes[c].master
    requires g.nodes[c].link.Some? && g.nodes[c].link.value.upstream == u
    requires Valid(g.nodes[c].stream) && Valid(g.nodes[u].stream) && Grows(g.nodes[c].stream, g.nodes[u].stream)
    ensures var n := g.nodes[c];
            var nodes := g.nodes[c := WithConn(n, None)];
            var f := Frame(c, u, Request(n, key, clock), Validated);
            && Then(k, g, [FlipStart(c, key, clock), FlipRead, FlipValidate]) == Group(nodes, [f])
            && Standing(nodes, f) && Free(nodes, [], f) && Copied(nodes, f)
  {
    hide FlipStep, Valid, Grows;
    var n := g.nodes[c];
    var nodes := g.nodes[c := WithConn(n, None)];
    var f := Frame(c, u, Request(n, key, clock), Sent);
    assert |n.stream.log| <= |g.nodes[u].stream.log| by { SizesGrow(n.stream, g.nodes[u].stream); }
    assert Apply(k, g, FlipStart(c, key, clock)) == Group(nodes, [] + [f]) by {
      assert g.flip + [f] == [f];
    }
    ReadAndValidate(k, nodes, [], f);
    ThreeSteps(k, g, FlipStart(c, key, clock), FlipRead, FlipValidate);
  }

  lemma SizesGrow(a: Stream, b: Stream)
    requires Grows(a, b)
    ensures |a.log| <= |b.log|
  {
  }

  lemma OneStep(k: Codec, g: Group, a: Step)
    ensures Then(k, g, [a]) == Apply(k, g, a)
  {
    hide Apply;
    assert [a][1..] == [];
  }

  lemma ThreeSteps(k: Codec, g: Group, a: Step, b: Step, c: Step)
    ensures Then(k, g, [a, b, c]) == Apply(k, Apply(k, Apply(k, g, a), b), c)
  {
    hide Apply;
    OneStep(k, Apply(k, Apply(k, g, a), b), c);
    assert [a, b, c][1..] == [b, c] && [b, c][1..] == [c];
    assert Then(k, Apply(k, g, a), [b, c]) == Then(k, Apply(k, Apply(k, g, a), b), [c]);
  }

  lemma FourSteps(k: Codec, g: Group, a: Step, b: Step, c: Step, d: Step)
    ensures Then(k, g, [a, b, c, d]) == Apply(k, Apply(k, Apply(k, Apply(k, g, a), b), c), d)
  {
    hide Apply;
    assert [a, b, c, d][1..] == [b, c, d];
    ThreeSteps(k, Apply(k, g, a), b, c, d);
  }

  lemma {:induction false} ThenThen(k: Codec, g: Group, a: seq<Step>, b: seq<Step>)
    ensures Then(k, g, a + b) == Then(k, Then(k, g, a), b)
    decreases |a|
  {
    hide Apply;
    if a == [] {
      assert a + b == b;
    } else {
      assert (a + b)[1..] == a[1..] + b;
      ThenThen(k, Apply(k, g, a[0]), a[1..], b);
    }
  }

  /** What the flip makes of the nodes. */
  ghost predicate HandedOver(before: Group, after: Group, c: int, m: int)
    requires c in before.nodes && m in before.nodes && before.nodes[c].link.Some?
  {
    after == Group(AfterFlip(before.nodes, c, m), [])
  }

  /** Nothing changes, but that the client subscribes anew, and that a wrong key is remembered. */
  ghost predicate LeftAlone(before: Group, after: Group, c: int, m: int)
    requires c in before.nodes && m in before.nodes && before.nodes[c].link.Some?
  {
    var n, l := before.nodes[c], before.nodes[c].link.value;
    && after.flip == [] && m in after.nodes
    && after.nodes == before.nodes[m := before.nodes[m].(exposed := after.nodes[m].exposed)]
                                  [c := n.(link := Some(Subscribed(l.upstream, l.mode, n.stream)))]
  }

  /** A request that may be granted, with those that wait for it in `rest`. */
  ghost predicate Grantable(k: Codec, nodes: map<int, Node>, rest: seq<Frame>, f: Frame, now: int) {
    && Standing(nodes, f) && f.client != f.server && f.phase.Validated? && Free(nodes, rest, f)
    && nodes[f.server].link.None? && Copied(nodes, f) && MayFlip(k, nodes[f.server], f.request, now)
  }

  /** The client is a faithful copy, and asks for what it lacks. */
  ghost predicate Copied(nodes: map<int, Node>, f: Frame)
    requires Standing(nodes, f)
  {
    var n, s := nodes[f.client].stream, nodes[f.server].stream;
    && f.request.next == |n.log| <= |s.log| && f.request.head == n.head && Valid(n) && Valid(s) && Grows(n, s)
  }

  function AfterFlip(nodes: map<int, Node>, c: int, m: int): map<int, Node>
    requires c in nodes && m in nodes
  {
    nodes[m := nodes[m].(master := false, borrowed := true)]
         [c := nodes[c].(stream := nodes[m].stream, link := None, master := true)]
  }

  /** The server gives, and the client takes. */
  lemma GiveAndRespond(k: Codec, nodes: map<int, Node>, rest: seq<Frame>, f: Frame)
    requires Faithful(k) && Standing(nodes, f) && f.client != f.server && f.phase.Ready? && Copied(nodes, f)
    requires nodes[f.server].exposed.Some?
    requires !Forbids(k, nodes[f.server].exposed.value.restrictions, nodes[f.server].stream, f.request.next, f.request.head)
    ensures FlipStep(k, FlipStep(k, Group(nodes, rest + [f]), FlipGive), FlipRespond)
         == Popped(AfterFlip(nodes, f.client, f.server), rest, Ready)
  {
    hide FlipStep, Diff, Valid, Grows, Forbids, Bytes, Faithful, Concluded;
    var m, c := nodes[f.server], nodes[f.client];
    GiveStepOf(k, nodes, rest, f);
    var lines := Diff(m.stream, f.request.next, f.request.head);
    var nodes1 := nodes[f.server := m.(master := false, borrowed := true)];
    RespondStep(k, nodes1, rest, f.(phase := Responded(lines, m.stream)));
    DiffMakesEqual(k, c, m.stream);
  }

  lemma GrantedSteps(k: Codec, nodes: map<int, Node>, rest: seq<Frame>, f: Frame, now: int, later: int)
    requires Faithful(k) && Grantable(k, nodes, rest, f, now)
    ensures Then(k, Group(nodes, rest + [f]), [FlipLock(now, later, None), FlipGive, FlipRespond])
         == Popped(AfterFlip(nodes, f.client, f.server), rest, Ready)
  {
    hide FlipStep, Forbids, Faithful, Free, Copied, AfterFlip, Popped;
    ThreeSteps(k, Group(nodes, rest + [f]), FlipLock(now, later, None), FlipGive, FlipRespond);
    LockStep(k, nodes, rest, f, now, later, None);
    GiveAndRespond(k, nodes, rest, f.(phase := Ready)) by { SameCopied(nodes, f); }
  }

  lemma SameCopied(nodes: map<int, Node>, f: Frame)
    requires Standing(nodes, f) && Copied(nodes, f)
    ensures Copied(nodes, f.(phase := Ready))
  {
  }

  lemma GrantedRun(k: Codec, nodes: map<int, Node>, f: Frame, now: int, later: int)
    requires Faithful(k) && Grantable(k, nodes, [], f, now)
    ensures Then(k, Group(nodes, [f]), [FlipLock(now, later, None), FlipGive, FlipRespond, FlipFail])
         == Group(AfterFlip(nodes, f.client, f.server), [])
  {
    hide Apply, Faithful, AfterFlip, FlipStep, Free, Copied, MayFlip;
    var g := Group(nodes, [] + [f]);
    assert g == Group(nodes, [f]);
    var three := [FlipLock(now, later, None), FlipGive, FlipRespond];
    assert [FlipLock(now, later, None), FlipGive, FlipRespond, FlipFail] == three + [FlipFail];
    ThenThen(k, g, three, [FlipFail]);
    GrantedSteps(k, nodes, [], f, now, later);
    var g1 := Popped(AfterFlip(nodes, f.client, f.server), [], Ready);
    OneStep(k, g1, FlipFail);
    NothingToFail(k, g1);
  }

  lemma NothingToFail(k: Codec, g: Group)
    requires g.flip == []
    ensures Apply(k, g, FlipFail) == g
  {
  }

  lemma RefusedRun(k: Codec, nodes: map<int, Node>, f: Frame, now: int, later: int)
    requires Standing(nodes, f) && f.client != f.server && f.phase.Validated? && Free(nodes, [], f)
    requires nodes[f.server].link.None? && nodes[f.server].master && !nodes[f.server].borrowed
    requires f.request.next <= |nodes[f.server].stream.log|
    requires !MayFlip(k, nodes[f.server], f.request, now)
    ensures var g := Then(k, Group(nodes, [f]), [FlipLock(now, later, None), FlipGive, FlipRespond, FlipFail]);
            var m, c := nodes[f.server], nodes[f.client];
            && f.server in g.nodes && g.flip == []
            && g.nodes == nodes[f.server := m.(exposed := g.nodes[f.server].exposed)]
                               [f.client := Concluded(k, c, None).0]
  {
    hide FlipStep, Diff, Forbids, Concluded;
    var m, c := nodes[f.server], nodes[f.client];
    var g := Group(nodes, [] + [f]);
    assert g == Group(nodes, [f]);
    FourSteps(k, g, FlipLock(now, later, None), FlipGive, FlipRespond, FlipFail);
    LockStep(k, nodes, [], f, now, later, None);
    var d := Decide(m, f.request, now, later);
    var nodes1 := if d.1.Granted? then nodes[f.server := m] else nodes[f.server := d.0];
    var f1 := f.(phase := Failed);
    if d.1.Granted? {
      GiveStepOf(k, nodes, [], f.(phase := Ready));
    } else {
      FailedWaits(k, nodes1, [], f1);
    }
    FailedWaits(k, nodes1, [], f1);
    FailStep(k, nodes1, [], f1);
  }

  /** A run of all steps of a flip, from any reachable state in which a follower follows the master:
      the follower becomes the master, with the master's stream, exactly if it has the key and neither
      a block nor a restriction is in the way; otherwise no node's part changes. */
  lemma FlipIsGrantedExactly(k: Codec, g: Group, steps: seq<Step>, c: int, m: int,
                             key: nat, clock: Option<int>, now: int, later: int)
    requires Faithful(k) && Initial(g)
    requires Follows(Run(k, g, steps), c, m)
    ensures var before, after := Run(k, g, steps), Run(k, g, steps + FlipSteps(c, key, clock, now, later));
            var request := Request(before.nodes[c], key, clock);
            && request.next <= |before.nodes[m].stream.log|
            && (MayFlip(k, before.nodes[m], request, now) ==> HandedOver(before, after, c, m))
            && (!MayFlip(k, before.nodes[m], request, now) ==> LeftAlone(before, after, c, m))
  {
    hide Run, Inv, FlipStep, Apply, Valid, Grows, MayFlip, Then, Standing, Free, Faithful, Initial;
    var h := EveryRunIsSafe(k, g, steps);
    var before := Run(k, g, steps);
    Copies(k, before, h, c, m);
    var n := before.nodes[c];
    var nodes := before.nodes[c := WithConn(n, None)];
    var f := Frame(c, m, Request(n, key, clock), Validated);
    var first := [FlipStart(c, key, clock), FlipRead, FlipValidate];
    var second := [FlipLock(now, later, None), FlipGive, FlipRespond, FlipFail];
    RunThen(k, g, steps, FlipSteps(c, key, clock, now, later));
    assert FlipSteps(c, key, clock, now, later) == first + second;
    ThenThen(k, before, first, second);
    Reaches(k, before, c, m, key, clock);
    if MayFlip(k, before.nodes[m], f.request, now) {
      GrantedRun(k, nodes, f, now, later);
      assert AfterFlip(nodes, c, m) == AfterFlip(before.nodes, c, m);
    } else {
      RefusedRun(k, nodes, f, now, later);
    }
  }

  lemma Copies(k: Codec, g: Group, h: int, c: int, m: int)
    requires Inv(k, g, h) && Follows(g, c, m)
    ensures Valid(g.nodes[c].stream) && Valid(g.nodes[m].stream) && Grows(g.nodes[c].stream, g.nodes[m].stream)
    ensures |g.nodes[c].stream.log| <= |g.nodes[m].stream.log|
  {
    hide ConnOk, FollowerOk;
    assert m == h;
  }

  // A flip that is passed on.

  lemma TwoSteps(k: Codec, g: Group, a: Step, b: Step)
    ensures Then(k, g, [a, b]) == Apply(k, Apply(k, g, a), b)
  {
    hide Apply;
    assert [a, b][1..] == [b];
    OneStep(k, Apply(k, g, a), b);
  }

  /** Node `c` follows `u`, which follows the master `m`; everyone may have what they ask for. */
  ghost predicate MayPassOn(k: Codec, nodes: map<int, Node>, c: int, u: int, m: int,
                            key: nat, clock: Option<int>, now: int, clock': Option<int>, now': int) {
    && c in nodes && u in nodes && m in nodes && c != u && u != m && c != m
    && !nodes[c].master && nodes[c].link.Some? && nodes[c].link.value.upstream == u
    && !nodes[u].master && nodes[u].link.Some? && nodes[u].link.value.upstream == m
    && nodes[m].link.None?
    && (var x, y, z := nodes[c].stream, nodes[u].stream, nodes[m].stream;
        && Valid(x) && Valid(y) && Valid(z) && Grows(x, y) && Grows(y, z) && Grows(x, z)
        && Open(nodes[u], Request(nodes[c], key, clock), now)
        && MayFlip(k, nodes[m], Request(nodes[u], key, clock'), now')
        && !Forbids(k, nodes[u].exposed.value.restrictions, z, |x.log|, x.head))
  }

  function InnerSteps(now: int, later: int): seq<Step> {
    [FlipRead, FlipValidate] + [FlipLock(now, later, None), FlipGive, FlipRespond]
  }

  /** The request to `m`, while the one from `c` waits: afterwards `u` is ready to give. */
  lemma InnerFlip(k: Codec, nodes: map<int, Node>, fc: Frame, fu: Frame, now: int, later: int)
    requires Faithful(k) && Standing(nodes, fu) && fu.client != fu.server && fu.phase.Sent? && Copied(nodes, fu)
    requires fc.server == fu.client && fc.client != fu.server && fc.phase.Validated? && nodes[fu.server].link.None?
    requires MayFlip(k, nodes[fu.server], fu.request, now)
    ensures Then(k, Group(nodes, [fc] + [fu]), InnerSteps(now, later))
         == Group(AfterFlip(nodes, fu.client, fu.server), [fc.(phase := Ready)])
  {
    hide FlipStep, AfterFlip, Faithful, MayFlip, Valid, Grows;
    var g := Group(nodes, [fc] + [fu]);
    var three := [FlipLock(now, later, None), FlipGive, FlipRespond];
    ThenThen(k, g, [FlipRead, FlipValidate], three);
    TwoSteps(k, g, FlipRead, FlipValidate);
    ReadAndValidate(k, nodes, [fc], fu);
    GrantedSteps(k, nodes, [fc], fu.(phase := Validated), now, later);
    assert [fc][0 := fc.(phase := Ready)] == [fc.(phase := Ready)];
  }

  /** A flip asked of a node that itself follows is passed on with its key, and ends with the first
      one asking as the master, with the master's stream, and the two others without the publisher. */
  lemma FlipIsPassedOn(k: Codec, g: Group, c: int, u: int, m: int, key: nat,
                       clock: Option<int>, now: int, later: int, clock': Option<int>, now': int, later': int)
    requires Faithful(k) && g.flip == [] && MayPassOn(k, g.nodes, c, u, m, key, clock, now, clock', now')
    ensures Then(k, g, [FlipStart(c, key, clock), FlipRead, FlipValidate] + [FlipLock(now, later, clock')]
                       + InnerSteps(now', later') + [FlipGive, FlipRespond])
         == Group(AfterFlip(AfterFlip(g.nodes, u, m), c, u), [])
  {
    hide FlipStep, Faithful, MayFlip, Valid, Grows, Then, InnerSteps, Forbids;
    var n, nu := g.nodes[c], g.nodes[u];
    var first, second, third := [FlipStart(c, key, clock), FlipRead, FlipValidate], [FlipLock(now, later, clock')],
                                InnerSteps(now', later');
    ThenThen(k, g, first + second + third, [FlipGive, FlipRespond]);
    ThenThen(k, g, first + second, third);
    ThenThen(k, g, first, second);
    var nodes1 := g.nodes[c := WithConn(n, None)];
    var fc := Frame(c, u, Request(n, key, clock), Validated);
    Reaches(k, g, c, u, key, clock);
    OneStep(k, Group(nodes1, [fc]), FlipLock(now, later, clock'));
    assert [] + [fc] == [fc];
    ForwardStep(k, nodes1, [], fc, now, later, clock');
    var nodes2 := nodes1[u := WithConn(nu, None)];
    var fu := Frame(u, m, Request(nu, key, clock'), Sent);
    SizesGrow(nu.stream, g.nodes[m].stream);
    SizesGrow(n.stream, g.nodes[m].stream);
    InnerFlip(k, nodes2, fc, fu, now', later');
    var nodes3 := AfterFlip(nodes2, u, m);
    TwoSteps(k, Group(nodes3, [fc.(phase := Ready)]), FlipGive, FlipRespond);
    assert [] + [fc.(phase := Ready)] == [fc.(phase := Ready)];
    GiveAndRespond(k, nodes3, [], fc.(phase := Ready));
    assert AfterFlip(nodes3, c, u) == AfterFlip(AfterFlip(g.nodes, u, m), c, u);
  }

  // A follower that is connected, served and sent everything.

  /** Of two copies of one stream, the one whose HEAD is behind is a copy of the other. */
  lemma CopiesCompare(a: Stream, b: Stream, whole: Stream)
    requires Valid(a) && Valid(b) && Grows(a, whole) && Grows(b, whole) && a.head <= b.head
    ensures Grows(a, b)
  {
    if a.log != [] {
      var j := |a.log| - 1;
      assert whole.log[..|a.log|][j] == a.log[j];
      assert whole.log[j].us <= b.head;
    }
    assert b.log == whole.log[..|b.log|];
    assert b.log[..|a.log|] == whole.log[..|a.log|];
    forall j | |a.log| <= j < |b.log| ensures a.head < b.log[j].us {
      assert whole.log[..|b.log|][j] == b.log[j];
    }
  }

  /** One undisturbed session of node `i`, and the bytes it is sent. */
  ghost function SessionBytes(k: Codec, g: Group, i: int): string
    requires i in g.nodes && g.nodes[i].link.Some? && g.nodes[i].link.value.upstream in g.nodes
  {
    var up := g.nodes[g.nodes[i].link.value.upstream].stream;
    Bytes(k, ServerRound(Replication.Connect(FollowerOf(g.nodes[i]), |up.log|, up.log), up).pending)
  }

  /** Node `i` follows `u`, with no connection open and no flip asked for. */
  ghost predicate Waits(g: Group, i: int, u: int) {
    && i in g.nodes && u in g.nodes && !IsClient(g, i)
    && g.nodes[i].link.Some? && g.nodes[i].link.value.upstream == u && g.nodes[i].link.value.conn.None?
  }

  lemma SessionSteps(k: Codec, g: Group, i: int, u: int)
    requires Waits(g, i, u) && i != u
    ensures var up, n := g.nodes[u].stream, g.nodes[i];
            var c := ServerRound(Replication.Connect(FollowerOf(n), |up.log|, up.log), up);
            var r := Receive(k, n.link.value.mode, FollowerOf(n), c, SessionBytes(k, g, i));
            var after := Then(k, g, [Connect(i, |up.log|), Serve(i), Deliver(i, SessionBytes(k, g, i))]);
            && i in after.nodes && after.nodes[i].stream == r.follower.stream && after.flip == g.flip
            && forall j :: j in g.nodes && j != i ==> j in after.nodes && after.nodes[j] == g.nodes[j]
  {
    hide ServerRound, Replication.Connect, Receive, Bytes;
    var up, n := g.nodes[u].stream, g.nodes[i];
    var bytes := SessionBytes(k, g, i);
    var c0 := Replication.Connect(FollowerOf(n), |up.log|, up.log);
    var c := ServerRound(c0, up);
    ThreeSteps(k, g, Connect(i, |up.log|), Serve(i), Deliver(i, bytes));
    var g1 := Put(g, i, WithConn(n, Some(c0)));
    assert Apply(k, g, Connect(i, |up.log|)) == g1;
    var g2 := Put(g1, i, WithConn(n, Some(c)));
    assert Apply(k, g1, Serve(i)) == g2;
    FreshHasNoCarry(FollowerOf(n), up);
    assert c.carry + bytes == bytes;
    assert FollowerOf(g2.nodes[i]) == FollowerOf(n);
  }

  lemma FreshHasNoCarry(f: Follower, up: Stream)
    ensures ServerRound(Replication.Connect(f, |up.log|, up.log), up).carry == ""
  {
  }

  /** In any reachable state, a session makes a follower that is not ahead equal to its upstream, and
      changes no other node. */
  lemma SessionCatchesUp(k: Codec, g: Group, steps: seq<Step>, i: int, u: int)
    requires Faithful(k) && Initial(g) && i != u
    requires Waits(Run(k, g, steps), i, u)
    ensures var before := Run(k, g, steps);
            var up := before.nodes[u].stream;
            var bytes := SessionBytes(k, before, i);
            var after := Run(k, g, steps + [Connect(i, |up.log|), Serve(i), Deliver(i, bytes)]);
            before.nodes[i].stream.head <= up.head ==>
              && i in after.nodes && after.nodes[i].stream == up
              && (forall j :: j in before.nodes && j != i ==> j in after.nodes && after.nodes[j] == before.nodes[j])
  {
    hide Run, Inv, Apply, Then, Faithful, Initial, Receive, ServerRound, Bytes;
    var h := EveryRunIsSafe(k, g, steps);
    var before := Run(k, g, steps);
    var up, n := before.nodes[u].stream, before.nodes[i];
    var bytes := SessionBytes(k, before, i);
    RunThen(k, g, steps, [Connect(i, |up.log|), Serve(i), Deliver(i, bytes)]);
    SessionSteps(k, before, i, u);
    if n.stream.head <= up.head {
      FollowerIsCopy(k, before, h, i, u);
      OneSessionCatchesUp(k, n.link.value.mode, FollowerOf(n), up);
    }
  }

  lemma FollowerIsCopy(k: Codec, g: Group, h: int, i: int, u: int)
    requires Inv(k, g, h) && Waits(g, i, u) && g.nodes[i].stream.head <= g.nodes[u].stream.head
    ensures Valid(g.nodes[u].stream) && FollowerOk(FollowerOf(g.nodes[i]), g.nodes[u].stream)
  {
    hide ConnOk;
    Linked(k, g, h, i);
    assert Valid(g.nodes[i].stream) && Grows(g.nodes[i].stream, g.nodes[h].stream);
    CopiesCompare(g.nodes[i].stream, g.nodes[u].stream, g.nodes[h].stream);
  }

  /** A node that has given its publisher up, or a new one, begins to follow: from then on it waits for
      a connection to the node it was told to follow, and keeps its stream. */
  lemma FollowingBegins(k: Codec, g: Group, i: int, u: int, mode: ReplicationMode)
    requires i in g.nodes && u in g.nodes && i != u && g.nodes[i].link.None? && !Locked(g, i) && !IsClient(g, i)
    ensures var after := Apply(k, g, Step.Follow(i, u, mode, true));
            && Waits(after, i, u) && !after.nodes[i].master && after.nodes[i].stream == g.nodes[i].stream
            && after.nodes[u] == g.nodes[u] && after.nodes[i].link.value.mode == mode
  {
  }

  lemma JoiningBegins(k: Codec, g: Group, i: int, u: int, mode: ReplicationMode)
    requires i !in g.nodes && u in g.nodes && !IsClient(g, i) && Valid(g.nodes[u].stream)
    ensures var after := Apply(k, g, Join(i, EMPTY, u, mode));
            && Waits(after, i, u) && !after.nodes[i].master && after.nodes[i].stream == EMPTY
            && after.nodes[u] == g.nodes[u]
  {
    assert g.nodes[u].stream.log[..0] == [];
  }

  /** An attempt to follow that fails changes nothing in any reachable state. */
  lemma FailedFollowChangesNothing(k: Codec, g: Group, steps: seq<Step>, i: int, u: int, mode: ReplicationMode)
    requires Faithful(k) && Initial(g)
    ensures Run(k, g, steps + [Step.Follow(i, u, mode, false)]) == Run(k, g, steps)
  {
    var h := EveryRunIsSafe(k, g, steps);
    OneMoreStep(k, g, steps, Step.Follow(i, u, mode, false));
    StaysAsItIs(k, Run(k, g, steps), h, i, u, mode);
  }

  lemma StaysAsItIs(k: Codec, g: Group, h: int, i: int, u: int, mode: ReplicationMode)
    requires Inv(k, g, h)
    ensures Apply(k, g, Step.Follow(i, u, mode, false)) == g
  {
    hide ConnOk, FollowerOk;
    if i in g.nodes {
      assert OnePublisher(g.nodes[i]);
      assert Controller.Follow(g.nodes[i], u, mode, false) == g.nodes[i];
    }
  }

  /** What the master publishes reaches a follower that is connected next. */
  lemma PublishedReachesFollower(k: Codec, g: Group, steps: seq<Step>, i: int, m: int, us: int, payload: string)
    requires Faithful(k) && Initial(g)
    requires var r := Run(k, g, steps); Waits(r, i, m) && r.nodes[m].master && us > r.nodes[m].stream.head
    ensures var published := steps + [Step.Publish(m, us, payload)];
            var r := Run(k, g, published);
            && Waits(r, i, m)
            && (var size, bytes := |r.nodes[m].stream.log|, SessionBytes(k, r, i);
                var after := Run(k, g, published + [Connect(i, size), Serve(i), Deliver(i, bytes)]);
                && i in after.nodes && after.nodes[i].stream.head == us
                && after.nodes[i].stream.log == Run(k, g, steps).nodes[m].stream.log + [Entry(us, payload)])
  {
    hide Run, Inv, Faithful, Initial, SessionBytes;
    var h := EveryRunIsSafe(k, g, steps);
    var published := steps + [Step.Publish(m, us, payload)];
    OneMoreStep(k, g, steps, Step.Publish(m, us, payload));
    var before, r := Run(k, g, steps), Run(k, g, published);
    MasterIsAhead(k, before, h, i, m);
    assert r.nodes[m].stream == Stream(before.nodes[m].stream.log + [Entry(us, payload)], us);
    assert r.nodes[i] == before.nodes[i];
    SessionCatchesUp(k, g, published, i, m);
  }

  /** So does a HEAD update. */
  lemma HeadReachesFollower(k: Codec, g: Group, steps: seq<Step>, i: int, m: int, us: int)
    requires Faithful(k) && Initial(g)
    requires var r := Run(k, g, steps); Waits(r, i, m) && r.nodes[m].master && us > r.nodes[m].stream.head
    ensures var updated := steps + [Step.UpdateHead(m, us)];
            var r := Run(k, g, updated);
            && Waits(r, i, m)
            && (var size, bytes := |r.nodes[m].stream.log|, SessionBytes(k, r, i);
                var after := Run(k, g, updated + [Connect(i, size), Serve(i), Deliver(i, bytes)]);
                i in after.nodes && after.nodes[i].stream == Stream(Run(k, g, steps).nodes[m].stream.log, us))
  {
    hide Run, Inv, Faithful, Initial, SessionBytes;
    var h := EveryRunIsSafe(k, g, steps);
    var updated := steps + [Step.UpdateHead(m, us)];
    OneMoreStep(k, g, steps, Step.UpdateHead(m, us));
    var before, r := Run(k, g, steps), Run(k, g, updated);
    MasterIsAhead(k, before, h, i, m);
    assert r.nodes[m].stream == Stream(before.nodes[m].stream.log, us);
    assert r.nodes[i] == before.nodes[i];
    SessionCatchesUp(k, g, updated, i, m);
  }

  /** A follower whose connection breaks waits for the next one, with what it has received. */
  lemma DisconnectedWaits(k: Codec, g: Group, i: int)
    requires i in g.nodes && g.nodes[i].link.Some? && g.nodes[i].link.value.conn.Some? && !IsClient(g, i)
    requires g.nodes[i].link.value.upstream in g.nodes
    ensures var after := Apply(k, g, Disconnect(i));
            && Waits(after, i, g.nodes[i].link.value.upstream)
            && FollowerOf(after.nodes[i]) == FollowerOf(g.nodes[i]) && after.nodes[i].master == g.nodes[i].master
  {
  }

  const NO_LIMITS := Restrictions(0, 0, 0, 0)

  /** From the beginning: the master is exposed, a new node joins and asks for the flip with the key; it
      is then the master of the same stream. With another key, it is not. */
  lemma FlipFromTheStart(k: Codec, g: Group, m: int, c: int, mode: ReplicationMode,
                         secret: nat, key: nat, now: int, later: int)
    requires Faithful(k) && g.flip == [] && BeginsWith(g, m) && g.nodes[m].exposed.None? && c != m && now >= 0
    ensures var after := Run(k, g, [Expose(m, secret, NO_LIMITS), Join(c, EMPTY, m, mode)]
                                   + FlipSteps(c, key, None, now, later));
            && c in after.nodes && m in after.nodes
            && (key == secret ==> after.nodes[c].master && !after.nodes[m].master
                                  && after.nodes[c].stream == g.nodes[m].stream)
            && (key != secret ==> !after.nodes[c].master && after.nodes[m].master)
  {
    hide Apply, Faithful, FlipSteps, FlipStep;
    var a, b := Expose(m, secret, NO_LIMITS), Join(c, EMPTY, m, mode);
    assert Initial(g);
    RunThen(k, g, [], [a, b]);
    assert [] + [a, b] == [a, b] && Run(k, g, []) == g;
    TwoSteps(k, g, a, b);
    var r := Run(k, g, [a, b]);
    FirstSteps(k, g, m, c, mode, secret);
    FlipIsGrantedExactly(k, g, [a, b], c, m, key, None, now, later);
    NothingForbidden(k, r.nodes[m].stream);
  }

  lemma FirstSteps(k: Codec, g: Group, m: int, c: int, mode: ReplicationMode, secret: nat)
    requires g.flip == [] && BeginsWith(g, m) && g.nodes[m].exposed.None? && c != m
    ensures var r := Apply(k, Apply(k, g, Expose(m, secret, NO_LIMITS)), Join(c, EMPTY, m, mode));
            && Follows(r, c, m) && r.nodes[c].stream == EMPTY
            && r.nodes[m] == g.nodes[m].(exposed := Some(Exposed(secret, ONE_SECOND, 0, NO_LIMITS)))
  {
    assert g.nodes[m].stream.log[..0] == [];
  }

  lemma NothingForbidden(k: Codec, s: Stream)
    ensures !Forbids(k, NO_LIMITS, s, 0, -1)
  {
  }

  lemma MasterIsAhead(k: Codec, g: Group, h: int, i: int, m: int)
    requires Inv(k, g, h) && Waits(g, i, m) && g.nodes[m].master
    ensures i != m && g.nodes[i].stream.head <= g.nodes[m].stream.head
  {
    hide ConnOk, FollowerOk;
    assert m == h && OnePublisher(g.nodes[m]);
  }
}
