/**
 What the times of a profiler report mean. A history of what the thread did determines how long it
 was in each scope, without any trie; the report says exactly that for every scope but the root.
 */
module ProfilerTime {
  import opened StreamLog
  import opened Profiler

  function StackAfter(h: seq<Event>): Path {
    if h == [] then []
    else
      var s, e := StackAfter(h[..|h| - 1]), h[|h| - 1];
      match e
      case Enter(c, _) => s + [c]
      case Leave(_) => if s == [] then [] else s[..|s| - 1]
      case Reset(_) => s
  }

  function LastAt(h: seq<Event>): nat {
    if h == [] then 0 else h[|h| - 1].at
  }

  /** Scopes are left last entered first, and the clock does not go back. */
  predicate Legal(h: seq<Event>) {
    h == [] || (
      var prior, e := h[..|h| - 1], h[|h| - 1];
      Legal(prior) && e.at > 0 && LastAt(prior) <= e.at && (e.Leave? ==> StackAfter(prior) != []))
  }

  function Run(stamp: nat, h: seq<Event>): (s: Profile)
    requires Legal(h)
    ensures s.stack == StackAfter(h)
  {
    if h == [] then Start(stamp) else Apply(Run(stamp, h[..|h| - 1]), h[|h| - 1])
  }

  /** For how long, since the last reset, the thread was in `p` or in scopes inside it. */
  function Spent(h: seq<Event>, p: Path, now: nat): int {
    if h == [] then 0
    else
      var e := h[|h| - 1];
      (if p <= StackAfter(h) then now - e.at else 0) + (if e.Reset? then 0 else Spent(h[..|h| - 1], p, e.at))
  }

  /** For how long, since the last reset, the thread was in `p` and in no scope inside it. */
  function Own(h: seq<Event>, p: Path, now: nat): int {
    if h == [] then 0
    else
      var e := h[|h| - 1];
      (if p == StackAfter(h) then now - e.at else 0) + (if e.Reset? then 0 else Own(h[..|h| - 1], p, e.at))
  }

  predicate Seen(h: seq<Event>, p: Path) {
    h != [] && (Seen(h[..|h| - 1], p) || (h[|h| - 1].Enter? && StackAfter(h) == p))
  }

  /** Times entered; a reset leaves one entry to every scope it finds. */
  function Entries(h: seq<Event>, p: Path): nat {
    if h == [] then 0
    else
      var prior, e := h[..|h| - 1], h[|h| - 1];
      match e
      case Enter(_, _) => Entries(prior, p) + (if StackAfter(h) == p then 1 else 0)
      case Leave(_) => Entries(prior, p)
      case Reset(_) => if Seen(prior, p) then 1 else 0
  }

  // Looking up one scope of the trie.

  function Look(f: Forest, p: Path): Option<Node>
    requires p != []
    decreases f
  {
    if f.Nil? then None
    else if f.scope != p[0] then Look(f.next, p)
    else if |p| == 1 then Some(f.node)
    else Look(f.inside, p[1..])
  }

  lemma Tails(p: Path, q: Path)
    requires p != [] && q != [] && p[0] == q[0]
    ensures q[1..] == p[1..] <==> q == p
    ensures q[1..] <= p[1..] <==> q <= p
  {
    assert q == [q[0]] + q[1..] && p == [p[0]] + p[1..];
  }

  lemma {:induction false} LookEntered(f: Forest, p: Path, now: nat)
    requires p != []
    ensures Look(EnterAt(f, p, now), p) == Some(EnterNode(if Look(f, p).Some? then Look(f, p).value else FRESH, now))
    decreases |p|, f
  {
    if f.Nil? {
      if |p| > 1 { LookEntered(Nil, p[1..], now); }
    } else if f.scope != p[0] {
      LookEntered(f.next, p, now);
    } else if |p| > 1 {
      LookEntered(f.inside, p[1..], now);
    }
  }

  lemma {:induction false} LookNone(p: Path, q: Path, now: nat)
    requires p != [] && q != [] && !(q <= p)
    ensures Look(EnterAt(Nil, p, now), q) == None
    decreases |p|
  {
    if |p| > 1 && q[0] == p[0] && |q| > 1 {
      Tails(p, q);
      LookNone(p[1..], q[1..], now);
    }
  }

  lemma {:induction false} LookOther(f: Forest, p: Path, q: Path, now: nat)
    requires p != [] && q != [] && q != p
    requires Look(f, q).Some? || !(q <= p)
    ensures Look(EnterAt(f, p, now), q) == Look(f, q)
    decreases |p|, f
  {
    if f.Nil? {
      LookNone(p, q, now);
    } else if f.scope != p[0] {
      if f.scope != q[0] { LookOther(f.next, p, q, now); }
    } else if |p| > 1 && q[0] == p[0] && |q| > 1 {
      Tails(p, q);
      LookOther(f.inside, p[1..], q[1..], now);
    }
  }

  lemma {:induction false} LookLeft(f: Forest, p: Path, q: Path, now: nat)
    requires p != [] && q != []
    ensures Look(LeaveAt(f, p, now), q)
         == if q == p && Look(f, q).Some? then Some(LeaveNode(Look(f, q).value, now)) else Look(f, q)
    decreases f
  {
    if f.One? {
      if f.scope != p[0] {
        if f.scope != q[0] { LookLeft(f.next, p, q, now); }
      } else if |p| > 1 && q[0] == p[0] && |q| > 1 {
        Tails(p, q);
        LookLeft(f.inside, p[1..], q[1..], now);
      }
    }
  }

  lemma {:induction false} LookReset(f: Forest, q: Path, now: nat)
    requires q != []
    ensures Look(ResetAll(f, now), q)
         == if Look(f, q).Some? then Some(ResetNode(Look(f, q).value, now)) else None
    decreases f
  {
    if f.One? {
      if f.scope != q[0] {
        LookReset(f.next, q, now);
      } else if |q| > 1 {
        LookReset(f.inside, q[1..], now);
      }
    }
  }

  // What every history keeps, scope by scope.

  predicate NodeIs(n: Option<Node>, h: seq<Event>, p: Path) {
    && (n.Some? <==> Seen(h, p))
    && (p <= StackAfter(h) ==> n.Some?)
    && (n.None? ==> Entries(h, p) == 0)
    && (n.Some? ==>
          && (n.value.entered != 0 <==> p <= StackAfter(h))
          && n.value.entered <= LastAt(h)
          && n.value.entries == Entries(h, p)
          && n.value.entries > 0)
  }

  /** The trie holds exactly the scopes entered so far; those on the stack are the entered ones; and
      each knows how often it was entered and for how long. */
  lemma {:induction false} TrieTellsTime(stamp: nat, h: seq<Event>, p: Path, now: nat)
    requires Legal(h) && p != [] && LastAt(h) <= now
    ensures NodeIs(Look(Run(stamp, h).inside, p), h, p)
    ensures Seen(h, p) ==> Us(Look(Run(stamp, h).inside, p).value, now) == Spent(h, p, now)
    ensures !Seen(h, p) ==> Spent(h, p, now) == 0
  {
    if h != [] {
      var prior, e := h[..|h| - 1], h[|h| - 1];
      TrieTellsTime(stamp, prior, p, e.at);
      var f, s := Run(stamp, prior).inside, StackAfter(prior);
      match e
      case Enter(c, at) => EnterTellsTime(f, s, c, at, h, p, now);
      case Leave(at) => LeaveTellsTime(f, s, at, h, p, now);
      case Reset(at) => LookReset(f, p, at);
    }
  }

  lemma EnterTellsTime(f: Forest, s: Path, c: Scope, at: nat, h: seq<Event>, p: Path, now: nat)
    requires h != [] && Legal(h) && h[|h| - 1] == Enter(c, at) && p != [] && at <= now
    requires var prior := h[..|h| - 1];
      && s == StackAfter(prior) && NodeIs(Look(f, p), prior, p)
      && Spent(prior, p, at) == (if Look(f, p).Some? then Us(Look(f, p).value, at) else 0)
    ensures var n := Look(EnterAt(f, s + [c], at), p);
      NodeIs(n, h, p) && Spent(h, p, now) == if n.Some? then Us(n.value, now) else 0
  {
    var q := s + [c];
    assert StackAfter(h) == q;
    assert p <= q <==> p <= s || p == q by { if p <= q && p != q { assert p == q[..|p|] == s[..|p|]; } }
    if p == q {
      assert !(p <= s);
      LookEntered(f, q, at);
    } else {
      LookOther(f, q, p, at);
    }
  }

  lemma LeaveTellsTime(f: Forest, s: Path, at: nat, h: seq<Event>, p: Path, now: nat)
    requires h != [] && Legal(h) && h[|h| - 1] == Leave(at) && p != [] && at <= now
    requires var prior := h[..|h| - 1];
      && s == StackAfter(prior) && NodeIs(Look(f, p), prior, p)
      && Spent(prior, p, at) == (if Look(f, p).Some? then Us(Look(f, p).value, at) else 0)
    ensures var n := Look(LeaveAt(f, s, at), p);
      NodeIs(n, h, p) && Spent(h, p, now) == if n.Some? then Us(n.value, now) else 0
  {
    var q := s[..|s| - 1];
    assert StackAfter(h) == q;
    assert p <= s <==> p <= q || p == s by { if p <= s && p != s { assert p == s[..|p|] == q[..|p|]; } }
    LookLeft(f, s, p, at);
  }

  // Conservation: the time of a scope is its own time and the times of its subscopes.

  function SumSpent(h: seq<Event>, p: Path, ks: seq<Scope>, now: nat): int {
    if ks == [] then 0 else Spent(h, p + [ks[0]], now) + SumSpent(h, p, ks[1..], now)
  }

  predicate Distinct(ks: seq<Scope>) {
    ks == [] || (ks[0] !in ks[1..] && Distinct(ks[1..]))
  }

  predicate Covers(h: seq<Event>, p: Path, ks: seq<Scope>) {
    h == [] || (Covers(h[..|h| - 1], p, ks) && (p < StackAfter(h) ==> StackAfter(h)[|p|] in ks))
  }

  function SumHere(s: Path, p: Path, ks: seq<Scope>, dt: int): int {
    if ks == [] then 0 else (if p + [ks[0]] <= s then dt else 0) + SumHere(s, p, ks[1..], dt)
  }

  lemma {:induction false} OneSubscopeAtATime(s: Path, p: Path, ks: seq<Scope>, dt: int)
    requires Distinct(ks)
    ensures SumHere(s, p, ks, dt) == if p < s && s[|p|] in ks then dt else 0
  {
    if ks != [] {
      OneSubscopeAtATime(s, p, ks[1..], dt);
      assert p + [ks[0]] <= s <==> p < s && s[|p|] == ks[0];
    }
  }

  lemma {:induction false} SumSplits(h: seq<Event>, p: Path, ks: seq<Scope>, now: nat)
    requires h != []
    ensures var e := h[|h| - 1];
      SumSpent(h, p, ks, now)
        == SumHere(StackAfter(h), p, ks, now - e.at)
         + (if e.Reset? then 0 else SumSpent(h[..|h| - 1], p, ks, e.at))
  {
    if ks != [] { SumSplits(h, p, ks[1..], now); }
  }

  lemma {:induction false} SumOfNothing(p: Path, ks: seq<Scope>, now: nat)
    ensures SumSpent([], p, ks, now) == 0
  {
    if ks != [] { SumOfNothing(p, ks[1..], now); }
  }

  lemma {:induction false} TimeIsConserved(h: seq<Event>, p: Path, ks: seq<Scope>, now: nat)
    requires Distinct(ks) && Covers(h, p, ks)
    ensures Spent(h, p, now) == Own(h, p, now) + SumSpent(h, p, ks, now)
  {
    if h == [] {
      SumOfNothing(p, ks, now);
    } else {
      var e := h[|h| - 1];
      SumSplits(h, p, ks, now);
      OneSubscopeAtATime(StackAfter(h), p, ks, now - e.at);
      if !e.Reset? { TimeIsConserved(h[..|h| - 1], p, ks, e.at); }
      assert p <= StackAfter(h) <==> p == StackAfter(h) || p < StackAfter(h);
    }
  }

  lemma {:induction false} OwnIsNotNegative(h: seq<Event>, p: Path, now: nat)
    requires Legal(h) && LastAt(h) <= now
    ensures Own(h, p, now) >= 0
  {
    if h != [] { OwnIsNotNegative(h[..|h| - 1], p, h[|h| - 1].at); }
  }
}
