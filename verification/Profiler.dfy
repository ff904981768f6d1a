/**
 The hierarchical profiler of profiler/profiler.h, for one thread: a trie of scopes, the stack of the
 scopes the thread is in, and what a report says about them. Times are microseconds.
 */
module Profiler {
  /** A scope is told apart by the address of its name. */
  type Scope = nat
  type Path = seq<Scope>

  /** `entered` is 0 while the thread is not in the scope. */
  datatype Node = Node(entered: nat, total: int, entries: nat)

  /** The map of subscopes of a node, as a list. */
  datatype Forest = Nil | One(scope: Scope, node: Node, inside: Forest, next: Forest)

  datatype Profile = Profile(root: Node, inside: Forest, stack: Path)

  datatype Event = Enter(scope: Scope, at: nat) | Leave(at: nat) | Reset(at: nat)

  function Us(n: Node, now: nat): int {
    if n.entered != 0 then n.total + (now - n.entered) else n.total
  }

  function ResetNode(n: Node, now: nat): Node {
    Node(if n.entered != 0 then now else 0, 0, 1)
  }

  function ResetAll(f: Forest, now: nat): Forest {
    if f.Nil? then Nil
    else One(f.scope, ResetNode(f.node, now), ResetAll(f.inside, now), ResetAll(f.next, now))
  }

  function EnterNode(n: Node, now: nat): Node {
    n.(entered := now, entries := n.entries + 1)
  }

  function LeaveNode(n: Node, now: nat): Node {
    n.(entered := 0, total := n.total + (now - n.entered))
  }

  const FRESH := Node(0, 0, 0)

  /** Enter the scope at `p`; a node that is not there is created. */
  function EnterAt(f: Forest, p: Path, now: nat): Forest
    requires p != []
    decreases |p|, f
  {
    if f.Nil? then
      if |p| == 1 then One(p[0], EnterNode(FRESH, now), Nil, Nil)
      else One(p[0], FRESH, EnterAt(Nil, p[1..], now), Nil)
    else if f.scope != p[0] then f.(next := EnterAt(f.next, p, now))
    else if |p| == 1 then f.(node := EnterNode(f.node, now))
    else f.(inside := EnterAt(f.inside, p[1..], now))
  }

  function LeaveAt(f: Forest, p: Path, now: nat): Forest
    requires p != []
    decreases f
  {
    if f.Nil? then Nil
    else if f.scope != p[0] then f.(next := LeaveAt(f.next, p, now))
    else if |p| == 1 then f.(node := LeaveNode(f.node, now))
    else f.(inside := LeaveAt(f.inside, p[1..], now))
  }

  function Start(stamp: nat): Profile {
    Profile(Node(stamp, 0, 1), Nil, [])
  }

  /** Leaving needs a scope to leave: the source asserts it. */
  predicate Can(s: Profile, e: Event) {
    e.at > 0 && (e.Leave? ==> s.stack != [])
  }

  function Apply(s: Profile, e: Event): Profile
    requires Can(s, e)
  {
    match e
    case Enter(c, at) => s.(inside := EnterAt(s.inside, s.stack + [c], at), stack := s.stack + [c])
    case Leave(at) => s.(inside := LeaveAt(s.inside, s.stack, at), stack := s.stack[..|s.stack| - 1])
    case Reset(at) => s.(root := ResetNode(s.root, at), inside := ResetAll(s.inside, at))
  }

  // The report.

  datatype Report = Report(scope: Scope, entries: nat, us: int, subscopes: seq<Report>)

  function Fill(f: Forest, now: nat): seq<Report> {
    if f.Nil? then []
    else [Report(f.scope, f.node.entries, Us(f.node, now), Fill(f.inside, now))] + Fill(f.next, now)
  }

  function TotalUs(rs: seq<Report>): int {
    if rs == [] then 0 else rs[0].us + TotalUs(rs[1..])
  }

  /** The assertions the report makes about one node and what is inside. */
  predicate NodeOk(n: Node, inside: Forest, now: nat) {
    n.entries > 0 && (n.entered != 0 ==> n.entered <= now) && TotalUs(Fill(inside, now)) <= Us(n, now)
  }

  predicate ForestOk(f: Forest, now: nat) {
    f.Nil? || (NodeOk(f.node, f.inside, now) && ForestOk(f.inside, now) && ForestOk(f.next, now))
  }

  lemma {:induction false} TotalNext(rs: seq<Report>, i: nat)
    requires i < |rs|
    ensures TotalUs(rs[..i + 1]) == TotalUs(rs[..i]) + rs[i].us
  {
    if i > 0 {
      assert rs[..i + 1][1..] == rs[1..][..i] && rs[..i][1..] == rs[1..][..i - 1];
      TotalNext(rs[1..], i - 1);
    } else {
      assert rs[..1][1..] == [];
    }
  }

  /** Fill the entry of one node; `ok` is whether no assertion failed. */
  method FillNode(scope: Scope, n: Node, inside: Forest, now: nat) returns (r: Report, ok: bool)
    ensures r == Report(scope, n.entries, Us(n, now), Fill(inside, now))
    ensures ok <==> NodeOk(n, inside, now) && ForestOk(inside, now)
    decreases inside, 1
  {
    var us := Us(n, now);
    var subscopes, fine := FillAll(inside, now);
    var total := 0;
    for i := 0 to |subscopes|
      invariant total == TotalUs(subscopes[..i])
    {
      TotalNext(subscopes, i);
      total := total + subscopes[i].us;
    }
    assert subscopes[..|subscopes|] == subscopes;
    ok := n.entries > 0 && (n.entered != 0 ==> n.entered <= now) && total <= us && fine;
    r := Report(scope, n.entries, us, subscopes);
  }

  method FillAll(f: Forest, now: nat) returns (rs: seq<Report>, ok: bool)
    ensures rs == Fill(f, now)
    ensures ok <==> ForestOk(f, now)
    decreases f, 0
  {
    if f.Nil? { return [], true; }
    var r, fine := FillNode(f.scope, f.node, f.inside, now);
    rs, ok := FillAll(f.next, now);
    rs, ok := [r] + rs, ok && fine;
  }

  class PerThread {
    var root: Node
    var inside: Forest
    var stack: Path

    function State(): Profile
      reads this
    {
      Profile(root, inside, stack)
    }

    constructor (stamp: nat)
      ensures State() == Start(stamp)
    {
      root, inside, stack := Node(stamp, 0, 1), Nil, [];
    }

    method EnterScope(scope: Scope, now: nat)
      requires now > 0
      modifies this
      ensures State() == Apply(old(State()), Enter(scope, now))
    {
      stack := stack + [scope];
      inside := EnterAt(inside, stack, now);
    }

    /** A scope is left last entered first: it is the destructor of a local variable. */
    method LeaveScope(scope: Scope, now: nat)
      requires now > 0
      requires stack != [] && stack[|stack| - 1] == scope
      modifies this
      ensures State() == Apply(old(State()), Leave(now))
    {
      inside := LeaveAt(inside, stack, now);
      stack := stack[..|stack| - 1];
    }

    method RecursiveReset(now: nat)
      requires now > 0
      modifies this
      ensures State() == Apply(old(State()), Reset(now))
    {
      root := ResetNode(root, now);
      inside := ResetAll(inside, now);
    }
  }
}
