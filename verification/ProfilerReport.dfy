/**
 Whether the assertions of a profiler report hold: always below the root, and for the root exactly
 when the thread was idle for long enough.
 */
module ProfilerReport {
  import opened StreamLog
  import opened Profiler
  import opened ProfilerTime

  function Keys(f: Forest): seq<Scope> {
    if f.Nil? then [] else [f.scope] + Keys(f.next)
  }

  predicate Unique(f: Forest) {
    f.Nil? || (f.scope !in Keys(f.next) && Unique(f.inside) && Unique(f.next))
  }

  /** The subscopes of `p`. */
  function Kids(f: Forest, p: Path): Forest
    decreases |p|, f
  {
    if p == [] then f
    else if f.Nil? then Nil
    else if f.scope != p[0] then Kids(f.next, p)
    else Kids(f.inside, p[1..])
  }

  lemma {:induction false} EnterKeys(f: Forest, p: Path, now: nat)
    requires p != [] && Unique(f)
    ensures Unique(EnterAt(f, p, now))
    ensures forall k :: k in Keys(EnterAt(f, p, now)) ==> k in Keys(f) || k == p[0]
    decreases |p|, f
  {
    if f.Nil? {
      if |p| > 1 { EnterKeys(Nil, p[1..], now); }
    } else if f.scope != p[0] {
      EnterKeys(f.next, p, now);
    } else if |p| > 1 {
      EnterKeys(f.inside, p[1..], now);
    }
  }

  lemma {:induction false} LeaveKeys(f: Forest, p: Path, now: nat)
    requires p != [] && Unique(f)
    ensures Unique(LeaveAt(f, p, now)) && Keys(LeaveAt(f, p, now)) == Keys(f)
    decreases f
  {
    if f.One? {
      if f.scope != p[0] {
        LeaveKeys(f.next, p, now);
      } else if |p| > 1 {
        LeaveKeys(f.inside, p[1..], now);
      }
    }
  }

  lemma {:induction false} ResetKeys(f: Forest, now: nat)
    requires Unique(f)
    ensures Unique(ResetAll(f, now)) && Keys(ResetAll(f, now)) == Keys(f)
  {
    if f.One? {
      ResetKeys(f.inside, now);
      ResetKeys(f.next, now);
    }
  }

  lemma {:induction false} RunIsUnique(stamp: nat, h: seq<Event>)
    requires Legal(h)
    ensures Unique(Run(stamp, h).inside)
  {
    if h != [] {
      var prior, e := h[..|h| - 1], h[|h| - 1];
      RunIsUnique(stamp, prior);
      var s := Run(stamp, prior);
      match e
      case Enter(c, at) => EnterKeys(s.inside, s.stack + [c], at);
      case Leave(at) => LeaveKeys(s.inside, s.stack, at);
      case Reset(at) => ResetKeys(s.inside, at);
    }
  }

  lemma {:induction false} UniqueKeys(f: Forest)
    requires Unique(f)
    ensures Distinct(Keys(f))
  {
    if f.One? { UniqueKeys(f.next); }
  }

  lemma {:induction false} UniqueKids(f: Forest, p: Path)
    requires Unique(f)
    ensures Unique(Kids(f, p))
    decreases |p|, f
  {
    if p != [] && f.One? {
      if f.scope != p[0] { UniqueKids(f.next, p); } else { UniqueKids(f.inside, p[1..]); }
    }
  }

  lemma {:induction false} LookKid(f: Forest, p: Path, c: Scope)
    ensures Look(f, p + [c]) == Look(Kids(f, p), [c])
    decreases |p|, f
  {
    if p == [] {
      assert p + [c] == [c];
    } else if f.One? {
      if f.scope != p[0] {
        LookKid(f.next, p, c);
      } else {
        assert (p + [c])[1..] == p[1..] + [c];
        LookKid(f.inside, p[1..], c);
      }
    }
  }

  lemma {:induction false} LookKey(f: Forest, c: Scope)
    ensures Look(f, [c]).Some? <==> c in Keys(f)
  {
    if f.One? && f.scope != c { LookKey(f.next, c); }
  }

  // The sum of the times of the subscopes.

  /** Each subscope in `g` shows the time spent in it. */
  ghost predicate Shows(g: Forest, h: seq<Event>, p: Path, now: nat) {
    forall c :: c in Keys(g) ==> Look(g, [c]).Some? && Us(Look(g, [c]).value, now) == Spent(h, p + [c], now)
  }

  lemma {:induction false} TotalIsSum(g: Forest, h: seq<Event>, p: Path, now: nat)
    requires Unique(g) && Shows(g, h, p, now)
    ensures TotalUs(Fill(g, now)) == SumSpent(h, p, Keys(g), now)
  {
    if g.One? {
      assert Shows(g.next, h, p, now) by {
        forall c | c in Keys(g.next)
          ensures Look(g.next, [c]).Some? && Us(Look(g.next, [c]).value, now) == Spent(h, p + [c], now)
        {
          assert c in Keys(g) && c != g.scope;
        }
      }
      TotalIsSum(g.next, h, p, now);
      assert g.scope in Keys(g);
      assert Keys(g)[1..] == Keys(g.next);
      assert Fill(g, now)[1..] == Fill(g.next, now);
    }
  }

  lemma {:induction false} StackIsSeen(h: seq<Event>, p: Path)
    requires Legal(h) && p != [] && p <= StackAfter(h)
    ensures Seen(h, p)
  {
    TrieTellsTime(0, h, p, LastAt(h));
  }

  /** Whatever was entered under `p` is among its subscopes in the end. */
  lemma {:induction false} KeysCover(h: seq<Event>, p: Path, ks: seq<Scope>)
    requires Legal(h)
    requires forall c :: Seen(h, p + [c]) ==> c in ks
    ensures Covers(h, p, ks)
  {
    if h != [] {
      var s := StackAfter(h);
      if p < s {
        assert p + [s[|p|]] <= s;
        StackIsSeen(h, p + [s[|p|]]);
      }
      KeysCover(h[..|h| - 1], p, ks);
    }
  }

  /** The subscopes of any path, the root included, show the time not spent in the scope itself. */
  lemma SubscopesAddUp(stamp: nat, h: seq<Event>, p: Path, now: nat)
    requires Legal(h) && LastAt(h) <= now
    ensures TotalUs(Fill(Kids(Run(stamp, h).inside, p), now)) == Spent(h, p, now) - Own(h, p, now)
  {
    var f := Run(stamp, h).inside;
    var g := Kids(f, p);
    RunIsUnique(stamp, h);
    UniqueKids(f, p);
    UniqueKeys(g);
    forall c ensures Seen(h, p + [c]) <==> c in Keys(g)
      ensures Seen(h, p + [c]) ==> Look(g, [c]).Some? && Us(Look(g, [c]).value, now) == Spent(h, p + [c], now)
    {
      LookKid(f, p, c);
      LookKey(g, c);
      TrieTellsTime(stamp, h, p + [c], now);
    }
    TotalIsSum(g, h, p, now);
    KeysCover(h, p, Keys(g));
    TimeIsConserved(h, p, Keys(g), now);
  }

  lemma ScopeIsFine(stamp: nat, h: seq<Event>, p: Path, now: nat)
    requires Legal(h) && LastAt(h) <= now && p != [] && Seen(h, p)
    ensures var f := Run(stamp, h).inside; var n := Look(f, p);
      n.Some? && NodeOk(n.value, Kids(f, p), now)
  {
    TrieTellsTime(stamp, h, p, now);
    SubscopesAddUp(stamp, h, p, now);
    OwnIsNotNegative(h, p, now);
  }

  // The report itself.

  /** The entry of the scope at `p` in a report. */
  function Find(rs: seq<Report>, p: Path): Option<Report>
    requires p != []
    decreases |p|, |rs|
  {
    if rs == [] then None
    else if rs[0].scope != p[0] then Find(rs[1..], p)
    else if |p| == 1 then Some(rs[0])
    else Find(rs[0].subscopes, p[1..])
  }

  lemma {:induction false} FindInFill(f: Forest, p: Path, now: nat)
    requires p != []
    ensures Find(Fill(f, now), p)
         == if Look(f, p).None? then None
            else Some(Report(p[|p| - 1], Look(f, p).value.entries, Us(Look(f, p).value, now), Fill(Kids(f, p), now)))
    decreases |p|, f
  {
    if f.One? {
      var rs := Fill(f, now);
      assert rs[1..] == Fill(f.next, now);
      if f.scope != p[0] {
        FindInFill(f.next, p, now);
      } else if |p| > 1 {
        FindInFill(f.inside, p[1..], now);
      } else {
        assert p[1..] == [];
      }
    }
  }

  /** The report has an entry for exactly the scopes that were entered. It shows how often the scope
      was entered, and the time the thread was in it since the last reset, which is the scope's own time
      and the times that the report shows for its subscopes. */
  lemma ReportIsExact(stamp: nat, h: seq<Event>, p: Path, now: nat)
    requires Legal(h) && LastAt(h) <= now && p != []
    ensures var r := Find(Fill(Run(stamp, h).inside, now), p);
      && (r.Some? <==> Seen(h, p))
      && (r.Some? ==>
            && r.value.scope == p[|p| - 1]
            && r.value.entries == Entries(h, p)
            && r.value.us == Spent(h, p, now)
            && r.value.us == Own(h, p, now) + TotalUs(r.value.subscopes))
  {
    FindInFill(Run(stamp, h).inside, p, now);
    TrieTellsTime(stamp, h, p, now);
    SubscopesAddUp(stamp, h, p, now);
  }

  // The whole trie.

  lemma {:induction false} KidsOf(f: Forest, p: Path, c: Scope)
    ensures Kids(f, p + [c]) == Kids(Kids(f, p), [c])
    decreases |p|, f
  {
    if p == [] {
      assert p + [c] == [c];
    } else if f.One? {
      if f.scope != p[0] {
        KidsOf(f.next, p, c);
      } else {
        assert (p + [c])[1..] == p[1..] + [c];
        KidsOf(f.inside, p[1..], c);
      }
    }
  }

  /** `g` is a tail of the list of the subscopes of `p`. */
  ghost predicate TailOf(g: Forest, all: Forest) {
    forall c :: c in Keys(g) ==> Look(g, [c]) == Look(all, [c]) && Kids(g, [c]) == Kids(all, [c])
  }

  lemma {:induction false} TailOk(stamp: nat, h: seq<Event>, p: Path, g: Forest, now: nat)
    requires Legal(h) && LastAt(h) <= now
    requires Unique(g) && TailOf(g, Kids(Run(stamp, h).inside, p))
    ensures ForestOk(g, now)
    decreases g
  {
    if g.One? {
      var f := Run(stamp, h).inside;
      var q := p + [g.scope];
      assert g.scope in Keys(g);
      assert Look(g, [g.scope]) == Some(g.node) && Kids(g, [g.scope]) == g.inside;
      LookKid(f, p, g.scope);
      KidsOf(f, p, g.scope);
      TrieTellsTime(stamp, h, q, now);
      ScopeIsFine(stamp, h, q, now);
      TailOk(stamp, h, q, g.inside, now);
      forall c | c in Keys(g.next)
        ensures Look(g.next, [c]) == Look(Kids(f, p), [c]) && Kids(g.next, [c]) == Kids(Kids(f, p), [c])
      {
        assert c in Keys(g) && c != g.scope;
      }
      TailOk(stamp, h, p, g.next, now);
    }
  }

  /** No assertion about a scope other than the root can fail, in any report of any history. */
  lemma EveryScopeIsReported(stamp: nat, h: seq<Event>, now: nat)
    requires Legal(h) && LastAt(h) <= now
    ensures ForestOk(Run(stamp, h).inside, now)
  {
    RunIsUnique(stamp, h);
    TailOk(stamp, h, [], Run(stamp, h).inside, now);
  }

  // The root, whose clock starts at `stamp`, after the first scope may have been entered.

  predicate WasReset(h: seq<Event>) {
    h != [] && (h[|h| - 1].Reset? || WasReset(h[..|h| - 1]))
  }

  lemma {:induction false} RootTellsTime(stamp: nat, h: seq<Event>, now: nat)
    requires Legal(h) && stamp > 0
    ensures var n := Run(stamp, h).root;
      && n.entered > 0 && n.entries == 1 && n.total == 0
      && (WasReset(h) ==> Us(n, now) == Spent(h, [], now))
      && (!WasReset(h) ==> n.entered == stamp && Us(n, now) == now - stamp)
    ensures h != [] && !WasReset(h) ==> Spent(h, [], now) == now - h[0].at
    ensures WasReset(h) ==> Run(stamp, h).root.entered <= LastAt(h)
  {
    if h != [] {
      var prior, e := h[..|h| - 1], h[|h| - 1];
      RootTellsTime(stamp, prior, e.at);
      if prior == [] { assert h == [e]; } else { assert prior[0] == h[0]; }
    }
  }

  /** The assertion that the subscopes of the root take no more than the root: it always holds after a
      reset; before, it holds exactly if the thread was in no scope for at least as long as the root's
      clock was late. */
  lemma RootAddsUpExactlyIfIdle(stamp: nat, h: seq<Event>, now: nat)
    requires Legal(h) && 0 < stamp <= now && LastAt(h) <= now && h != []
    ensures var s := Run(stamp, h);
      NodeOk(s.root, s.inside, now) <==> WasReset(h) || Own(h, [], now) >= stamp - h[0].at
  {
    RootTellsTime(stamp, h, now);
    SubscopesAddUp(stamp, h, [], now);
    OwnIsNotNegative(h, [], now);
  }

  /** A thread that is still in the scope it first entered: the clock is strictly increasing, so the
      root was stamped later than that scope was, and the assertion fails. */
  lemma FirstScopeOutlastsRoot(stamp: nat, c: Scope, at: nat, now: nat)
    requires 0 < at < stamp <= now
    ensures Legal([Enter(c, at)])
    ensures var s := Run(stamp, [Enter(c, at)]); !NodeOk(s.root, s.inside, now)
  {
    var h := [Enter(c, at)];
    assert h[..|h| - 1] == [];
    assert Legal([]) && StackAfter([]) == [];
    assert StackAfter(h) == [c] && Legal(h);
    assert Own(h, [], now) == 0;
    RootAddsUpExactlyIfIdle(stamp, h, now);
  }
}
