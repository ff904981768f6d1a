/**
 What a block matches, said without lists and without any order: `Yields`. The results of a block
 are exactly what it yields; how often and in which order they come is stated block by block.
 */
module NlpMeaning {
  import opened StreamLog
  import opened Nlp
  import opened NlpLaws

  /** Block `b` matches the terms from `begin` to `end`, with value `v`. */
  ghost predicate Yields(b: Block, begin: nat, end: nat, v: Value) {
    match b
    case Leaf(_, _, emits) => v in emits(begin, end)
    case Void(of) => v == UnitValue && exists w :: Yields(of, begin, end, w)
    case Or(l, r, asLeft, asRight) =>
      if IsUnit(l) && IsUnit(r) then
        v == UnitValue && ((exists w :: Yields(l, begin, end, w)) || (exists w :: Yields(r, begin, end, w)))
      else
        (exists w :: Yields(l, begin, end, w) && v == asLeft(w)) || (exists w :: Yields(r, begin, end, w) && v == asRight(w))
    case And(l, r) => exists x, y :: Yields(l, begin, end, x) && Yields(r, begin, end, y) && v == Cat(x, y)
    case Seq(_, l, r) =>
      exists m: nat, x, y ::
        begin <= m <= end && Yields(l, begin, m, x) && Yields(r, m, end, y) && v == Combined(IsUnit(l), IsUnit(r), x, y)
    case Map(of, _, _, f) => exists w :: Yields(of, begin, end, w) && v == f(w)
    case Filter(of, keep) => keep(v) && Yields(of, begin, end, v)
  }

  /** `Unit`s are dropped from a sequence, unless there is nothing else. */
  function Combined(leftUnit: bool, rightUnit: bool, x: Value, y: Value): Value {
    if leftUnit && rightUnit then UnitValue else if leftUnit then y else if rightUnit then x else Cat(x, y)
  }

  lemma {:induction false} InMapped(f: Value -> Value, vs: seq<Value>, v: Value)
    ensures v in Mapped(f, vs) <==> exists w :: w in vs && v == f(w)
  {
    if vs != [] {
      InMapped(f, vs[1..], v);
      assert forall w :: w in vs <==> w == vs[0] || w in vs[1..];
    }
  }

  lemma {:induction false} InKept(keep: Value -> bool, vs: seq<Value>, v: Value)
    ensures v in Kept(keep, vs) <==> keep(v) && v in vs
  {
    if vs != [] {
      InKept(keep, vs[1..], v);
      assert v in vs <==> v == vs[0] || v in vs[1..];
    }
  }

  lemma NotEmpty(vs: seq<Value>)
    ensures vs != [] <==> exists w :: w in vs
  {
    if vs != [] { assert vs[0] in vs; }
  }

  /** In every window, the results of a block are exactly what it yields. */
  lemma {:induction false} ResultsAreWhatIsYielded(b: Block, begin: nat, end: nat, v: Value)
    ensures v in Results(b, begin, end) <==> Yields(b, begin, end, v)
    decreases b
  {
    match b
    case Leaf(_, _, _) =>
    case Void(of) =>
      forall w ensures w in Results(of, begin, end) <==> Yields(of, begin, end, w) {
        ResultsAreWhatIsYielded(of, begin, end, w);
      }
      NotEmpty(Results(of, begin, end));
    case Or(l, r, _, _) =>
      forall w ensures w in Results(l, begin, end) <==> Yields(l, begin, end, w) {
        ResultsAreWhatIsYielded(l, begin, end, w);
      }
      forall w ensures w in Results(r, begin, end) <==> Yields(r, begin, end, w) {
        ResultsAreWhatIsYielded(r, begin, end, w);
      }
      OrYields(b, begin, end, v);
    case And(l, r) =>
      forall w ensures w in Results(l, begin, end) <==> Yields(l, begin, end, w) {
        ResultsAreWhatIsYielded(l, begin, end, w);
      }
      forall w ensures w in Results(r, begin, end) <==> Yields(r, begin, end, w) {
        ResultsAreWhatIsYielded(r, begin, end, w);
      }
      InCross(Results(l, begin, end), Results(r, begin, end), v);
    case Seq(_, l, r) =>
      forall m: nat, w ensures w in Results(l, begin, m) <==> Yields(l, begin, m, w) {
        ResultsAreWhatIsYielded(l, begin, m, w);
      }
      forall m: nat, w ensures w in Results(r, m, end) <==> Yields(r, m, end, w) {
        ResultsAreWhatIsYielded(r, m, end, w);
      }
      SeqYields(b, begin, end, v);
    case Map(of, _, _, f) =>
      forall w ensures w in Results(of, begin, end) <==> Yields(of, begin, end, w) {
        ResultsAreWhatIsYielded(of, begin, end, w);
      }
      InMapped(f, Results(of, begin, end), v);
    case Filter(of, keep) =>
      ResultsAreWhatIsYielded(of, begin, end, v);
      InKept(keep, Results(of, begin, end), v);
  }

  lemma OrYields(b: Block, begin: nat, end: nat, v: Value)
    requires b.Or?
    requires forall w :: w in Results(b.lhs, begin, end) <==> Yields(b.lhs, begin, end, w)
    requires forall w :: w in Results(b.rhs, begin, end) <==> Yields(b.rhs, begin, end, w)
    ensures v in Results(b, begin, end) <==> Yields(b, begin, end, v)
  {
    var xs, ys := Results(b.lhs, begin, end), Results(b.rhs, begin, end);
    NotEmpty(xs);
    NotEmpty(ys);
    if !IsUnit(b) {
      InMapped(b.asLeft, xs, v);
      InMapped(b.asRight, ys, v);
      assert Results(b, begin, end) == Mapped(b.asLeft, xs) + Mapped(b.asRight, ys);
    }
  }

  ghost predicate Splittable(b: Block, begin: nat, end: nat, v: Value)
    requires b.Seq?
  {
    exists m: nat, x, y ::
      && begin <= m <= end && x in Results(b.lhs, begin, m) && y in Results(b.rhs, m, end)
      && v == Combined(IsUnit(b.lhs), IsUnit(b.rhs), x, y)
  }

  lemma SeqSplits(b: Block, begin: nat, end: nat, v: Value)
    requires b.Seq?
    ensures v in Results(b, begin, end) <==> Splittable(b, begin, end, v)
  {
    hide Results;
    var l, r := b.lhs, b.rhs;
    var s := Seq(L2R, l, r);
    SameEitherWay(b, begin, end, v);
    if v in Results(s, begin, end) {
      var m, x, y := Find(s, begin, end, v);
      assert x in Results(b.lhs, begin, m) && y in Results(b.rhs, m, end);
    }
    if Splittable(b, begin, end, v) {
      var m: nat, x, y :| begin <= m <= end && x in Results(l, begin, m) && y in Results(r, m, end)
                       && v == Combined(IsUnit(l), IsUnit(r), x, y);
      Has(s, begin, end, v, m, x, y);
    }
  }

  lemma SameEitherWay(b: Block, begin: nat, end: nat, v: Value)
    requires b.Seq?
    ensures v in Results(b, begin, end) <==> v in Results(Seq(L2R, b.lhs, b.rhs), begin, end)
  {
    hide Results;
    DirectionKeepsResults(b.lhs, b.rhs, begin, end);
    if b.direction.L2R? {
      assert b == Seq(L2R, b.lhs, b.rhs);
    } else {
      assert b == Seq(R2L, b.lhs, b.rhs);
      assert v in multiset(Results(b, begin, end)) <==> v in multiset(Results(Seq(L2R, b.lhs, b.rhs), begin, end));
    }
  }

  lemma SeqYields(b: Block, begin: nat, end: nat, v: Value)
    requires b.Seq?
    requires forall m: nat, w :: w in Results(b.lhs, begin, m) <==> Yields(b.lhs, begin, m, w)
    requires forall m: nat, w :: w in Results(b.rhs, m, end) <==> Yields(b.rhs, m, end, w)
    ensures v in Results(b, begin, end) <==> Yields(b, begin, end, v)
  {
    hide Results, IsUnit, Combined;
    SeqSplits(b, begin, end, v);
  }

  // How often, and in which order.

  lemma {:induction false} MappedAt(f: Value -> Value, vs: seq<Value>)
    ensures |Mapped(f, vs)| == |vs| && forall i :: 0 <= i < |vs| ==> Mapped(f, vs)[i] == f(vs[i])
  {
    if vs != [] { MappedAt(f, vs[1..]); }
  }

  /** `Or` of what is not all `Unit`s: each result of the left hand side, then each of the right. */
  lemma OrInOrder(b: Block, begin: nat, end: nat)
    requires b.Or? && !IsUnit(b)
    ensures var rs, xs, ys := Results(b, begin, end), Results(b.lhs, begin, end), Results(b.rhs, begin, end);
            && |rs| == |xs| + |ys|
            && (forall i :: 0 <= i < |xs| ==> rs[i] == b.asLeft(xs[i]))
            && (forall i :: 0 <= i < |ys| ==> rs[|xs| + i] == b.asRight(ys[i]))
  {
    MappedAt(b.asLeft, Results(b.lhs, begin, end));
    MappedAt(b.asRight, Results(b.rhs, begin, end));
  }

  lemma OrCommutes(b: Block, begin: nat, end: nat)
    requires b.Or?
    ensures multiset(Results(b, begin, end)) == multiset(Results(Or(b.rhs, b.lhs, b.asRight, b.asLeft), begin, end))
  {
    hide Mapped;
    var swapped := Or(b.rhs, b.lhs, b.asRight, b.asLeft);
    assert IsUnit(swapped) <==> IsUnit(b);
  }

  lemma {:induction false} AfterAt(x: Value, ys: seq<Value>)
    ensures |After(x, ys)| == |ys| && forall i :: 0 <= i < |ys| ==> After(x, ys)[i] == Cat(x, ys[i])
  {
    if ys != [] { AfterAt(x, ys[1..]); }
  }

  lemma {:induction false} CrossSize(xs: seq<Value>, ys: seq<Value>)
    ensures |Cross(xs, ys)| == |xs| * |ys|
  {
    if xs != [] {
      CrossSize(xs[1..], ys);
      AfterAt(xs[0], ys);
      assert |xs| * |ys| == |ys| + (|xs| - 1) * |ys|;
    }
  }

  lemma CrossAt(xs: seq<Value>, ys: seq<Value>, a: nat, b: nat)
    requires a < |xs| && b < |ys|
    ensures a * |ys| + b < |Cross(xs, ys)| && Cross(xs, ys)[a * |ys| + b] == Cat(xs[a], ys[b])
  {
    var rest := xs[a..];
    assert xs == xs[..a] + rest;
    CrossAppendLeft(xs[..a], rest, ys);
    CrossSize(xs[..a], ys);
    AfterAt(rest[0], ys);
    assert Cross(rest, ys) == After(rest[0], ys) + Cross(rest[1..], ys);
  }

  /** `And`: every pair of results once, the results of the right hand side varying fastest. */
  lemma AndInOrder(b: Block, begin: nat, end: nat)
    requires b.And?
    ensures var rs, xs, ys := Results(b, begin, end), Results(b.lhs, begin, end), Results(b.rhs, begin, end);
            && |rs| == |xs| * |ys|
            && (forall i, j :: 0 <= i < |xs| && 0 <= j < |ys| ==>
                  PairAt(rs, |ys|, i, j) == Some(Cat(xs[i], ys[j])))
  {
    hide Cross;
    var rs, xs, ys := Results(b, begin, end), Results(b.lhs, begin, end), Results(b.rhs, begin, end);
    CrossSize(xs, ys);
    forall i, j | 0 <= i < |xs| && 0 <= j < |ys| ensures PairAt(rs, |ys|, i, j) == Some(Cat(xs[i], ys[j])) {
      CrossAt(xs, ys, i, j);
    }
  }

  /** Row `i`, column `j` of a list written row by row. */
  function PairAt(rs: seq<Value>, width: nat, i: nat, j: nat): Option<Value> {
    if i * width + j < |rs| then Some(rs[i * width + j]) else None
  }

  lemma {:induction false} KeptAppend(keep: Value -> bool, vs: seq<Value>, ws: seq<Value>)
    ensures Kept(keep, vs + ws) == Kept(keep, vs) + Kept(keep, ws)
  {
    if vs == [] {
      assert vs + ws == ws;
    } else {
      assert (vs + ws)[1..] == vs[1..] + ws;
      KeptAppend(keep, vs[1..], ws);
    }
  }

  lemma {:induction false} KeptMapped(keep: Value -> bool, f: Value -> Value, before: Value -> bool, vs: seq<Value>)
    requires forall v :: before(v) == keep(f(v))
    ensures Kept(keep, Mapped(f, vs)) == Mapped(f, Kept(before, vs))
  {
    if vs != [] {
      KeptMapped(keep, f, before, vs[1..]);
      assert Mapped(f, vs)[1..] == Mapped(f, vs[1..]);
      var rest := Kept(before, vs[1..]);
      if before(vs[0]) {
        assert Kept(before, vs) == [vs[0]] + rest && ([vs[0]] + rest)[1..] == rest;
      } else {
        assert Kept(before, vs) == [] + rest == rest;
        assert Kept(keep, Mapped(f, vs)) == [] + Kept(keep, Mapped(f, vs[1..])) == Kept(keep, Mapped(f, vs[1..]));
      }
    }
  }

  /** Filtering an `Or` is filtering its sides, order included. */
  lemma FilterOfOr(b: Block, keep: Value -> bool, left: Value -> bool, right: Value -> bool, begin: nat, end: nat)
    requires b.Or? && !IsUnit(b)
    requires forall v :: left(v) == keep(b.asLeft(v))
    requires forall v :: right(v) == keep(b.asRight(v))
    ensures Results(Filter(b, keep), begin, end)
         == Results(Or(Filter(b.lhs, left), Filter(b.rhs, right), b.asLeft, b.asRight), begin, end)
  {
    hide Kept, Mapped;
    var xs, ys := Results(b.lhs, begin, end), Results(b.rhs, begin, end);
    var sides := Or(Filter(b.lhs, left), Filter(b.rhs, right), b.asLeft, b.asRight);
    assert !IsUnit(sides);
    KeptAppend(keep, Mapped(b.asLeft, xs), Mapped(b.asRight, ys));
    KeptMapped(keep, b.asLeft, left, xs);
    KeptMapped(keep, b.asRight, right, ys);
    assert Results(b, begin, end) == Mapped(b.asLeft, xs) + Mapped(b.asRight, ys);
    assert Results(sides, begin, end) == Mapped(b.asLeft, Kept(left, xs)) + Mapped(b.asRight, Kept(right, ys));
  }

  lemma KeptBag(keep: Value -> bool, vs: seq<Value>)
    requires vs != []
    ensures multiset(Kept(keep, vs))
         == (if keep(vs[0]) then multiset{vs[0]} else multiset{}) + multiset(Kept(keep, vs[1..]))
  {
  }

  lemma FirstAndRest(vs: seq<Value>)
    requires vs != []
    ensures multiset(vs) == multiset{vs[0]} + multiset(vs[1..])
  {
    assert vs == [vs[0]] + vs[1..];
  }

  lemma AddToEither(v: Value, a: Bag, b: Bag, c: Bag)
    requires a + b == c
    ensures (multiset{v} + a) + (multiset{} + b) == multiset{v} + c
    ensures (multiset{} + a) + (multiset{v} + b) == multiset{v} + c
  {
  }

  /** What a filter keeps and what it drops is everything, each as often. */
  lemma {:induction false} KeptAndDropped(keep: Value -> bool, drop: Value -> bool, vs: seq<Value>)
    requires forall v :: drop(v) == !keep(v)
    ensures multiset(Kept(keep, vs)) + multiset(Kept(drop, vs)) == multiset(vs)
  {
    if vs != [] {
      var rest := vs[1..];
      KeptAndDropped(keep, drop, rest);
      hide Kept;
      KeptBag(keep, vs);
      KeptBag(drop, vs);
      FirstAndRest(vs);
      AddToEither(vs[0], multiset(Kept(keep, rest)), multiset(Kept(drop, rest)), multiset(rest));
    }
  }

  lemma FilterSplits(of: Block, keep: Value -> bool, drop: Value -> bool, begin: nat, end: nat)
    requires forall v :: drop(v) == !keep(v)
    ensures multiset(Results(Filter(of, keep), begin, end)) + multiset(Results(Filter(of, drop), begin, end))
         == multiset(Results(of, begin, end))
  {
    KeptAndDropped(keep, drop, Results(of, begin, end));
  }

  lemma MapInOrder(b: Block, begin: nat, end: nat)
    requires b.Map?
    ensures var rs, vs := Results(b, begin, end), Results(b.of, begin, end);
            |rs| == |vs| && forall i :: 0 <= i < |vs| ==> rs[i] == b.f(vs[i])
  {
    MappedAt(b.f, Results(b.of, begin, end));
  }

  lemma JoinedOfNone(b: Block, xs: seq<Value>, ys: seq<Value>)
    requires b.Seq? && (xs == [] || ys == [])
    ensures Joined(b, xs, ys) == []
  {
    TimesEmpty(|xs|);
    TimesEmpty(|ys|);
    CrossEmpty(xs);
    CrossBackEmpty(ys);
  }

  lemma JoinedBegins(b: Block, xs: seq<Value>, ys: seq<Value>)
    requires b.Seq? && xs != [] && ys != []
    ensures Joined(b, xs, ys) != []
    ensures !IsUnit(b) ==> Joined(b, xs, ys)[0] == Combined(IsUnit(b.lhs), IsUnit(b.rhs), xs[0], ys[0])
  {
    assert Times(|xs|, ys) == ys + Times(|xs| - 1, ys);
    assert Times(|ys|, xs) == xs + Times(|ys| - 1, xs);
  }

  lemma {:induction false} SplitsBegin(b: Block, begin: nat, from: nat, m: nat, end: nat)
    requires b.Seq? && begin <= from <= m <= end
    requires Results(b.lhs, begin, m) != [] && Results(b.rhs, m, end) != []
    requires forall k :: from <= k < m ==> Results(b.lhs, begin, k) == [] || Results(b.rhs, k, end) == []
    ensures Splits(b, begin, from, end) != []
    ensures var x, y := Results(b.lhs, begin, m)[0], Results(b.rhs, m, end)[0];
            !IsUnit(b) ==> Splits(b, begin, from, end)[0] == Combined(IsUnit(b.lhs), IsUnit(b.rhs), x, y)
    decreases m - from
  {
    hide Results, Splits, Joined;
    NextSplit(b, begin, from, end);
    if from < m {
      JoinedOfNone(b, Results(b.lhs, begin, from), Results(b.rhs, from, end));
      SplitsBegin(b, begin, from + 1, m, end);
    } else {
      JoinedBegins(b, Results(b.lhs, begin, m), Results(b.rhs, m, end));
    }
  }

  /** The first result of a sequence is that of the leftmost split at which both sides match, and of
      the first results of both sides there. */
  lemma LeftmostSplitFirst(b: Block, begin: nat, m: nat, end: nat)
    requires b.Seq? && begin <= m <= end
    requires Results(b.lhs, begin, m) != [] && Results(b.rhs, m, end) != []
    requires forall k :: begin <= k < m ==> Results(b.lhs, begin, k) == [] || Results(b.rhs, k, end) == []
    ensures Results(b, begin, end) != []
    ensures Results(b, begin, end)[0]
         == Combined(IsUnit(b.lhs), IsUnit(b.rhs), Results(b.lhs, begin, m)[0], Results(b.rhs, m, end)[0])
  {
    SplitsBegin(b, begin, begin, m, end);
  }
}
