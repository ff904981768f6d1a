/**
 The evaluator of nlp/nlp.h hands to its continuation exactly the results of the block, in order,
 and stops as soon as the continuation throws. No signal is ever caught by the wrong handler.
 */
module NlpEval {
  import opened StreamLog
  import opened Nlp

  /** Nothing is thrown that a block whose type has size `n` or less could catch. */
  predicate Above<S>(o: Outcome<S>, n: nat) {
    o.Thrown? && o.signal.UnitEmitted? ==> Size(o.signal.thrower) > n
  }

  ghost predicate Quiet<S(!new)>(k: (S, Value) -> Outcome<S>, n: nat) {
    forall s, v :: Above(k(s, v), n)
  }

  lemma {:induction false} EmitAppend<S>(vs: seq<Value>, ws: seq<Value>, k: (S, Value) -> Outcome<S>, s: S)
    ensures EmitAll(vs + ws, k, s)
         == var o := EmitAll(vs, k, s); if o.Normal? then EmitAll(ws, k, o.s) else o
  {
    if vs == [] {
      assert vs + ws == ws;
    } else {
      assert (vs + ws)[1..] == vs[1..] + ws;
      var o := k(s, vs[0]);
      if o.Normal? { EmitAppend(vs[1..], ws, k, o.s); }
    }
  }

  lemma {:induction false} EmitAbove<S(!new)>(vs: seq<Value>, k: (S, Value) -> Outcome<S>, s: S, n: nat)
    requires Quiet(k, n)
    ensures Above(EmitAll(vs, k, s), n)
  {
    if vs != [] {
      var o := k(s, vs[0]);
      assert Above(o, n);
      if o.Normal? { EmitAbove(vs[1..], k, o.s, n); }
    }
  }

  // Each way to combine results, seen through the continuation it gives to the inner block.

  lemma {:induction false} EmitMapped<S(!new)>(
    vs: seq<Value>, f: Value -> Value, k: (S, Value) -> Outcome<S>, inner: (S, Value) -> Outcome<S>, s: S)
    requires forall t, v :: inner(t, v) == k(t, f(v))
    ensures EmitAll(vs, inner, s) == EmitAll(Mapped(f, vs), k, s)
  {
    if vs != [] {
      var o := k(s, f(vs[0]));
      assert inner(s, vs[0]) == o;
      assert Mapped(f, vs)[1..] == Mapped(f, vs[1..]);
      if o.Normal? { EmitMapped(vs[1..], f, k, inner, o.s); }
    }
  }

  lemma {:induction false} EmitKept<S(!new)>(
    vs: seq<Value>, keep: Value -> bool, k: (S, Value) -> Outcome<S>, inner: (S, Value) -> Outcome<S>, s: S)
    requires forall t, v :: inner(t, v) == if keep(v) then k(t, v) else Normal(t)
    ensures EmitAll(vs, inner, s) == EmitAll(Kept(keep, vs), k, s)
  {
    if vs != [] {
      var o := inner(s, vs[0]);
      EmitAppend(if keep(vs[0]) then [vs[0]] else [], Kept(keep, vs[1..]), k, s);
      if o.Normal? { EmitKept(vs[1..], keep, k, inner, o.s); }
    }
  }

  lemma {:induction false} EmitAfter<S(!new)>(
    x: Value, ys: seq<Value>, k: (S, Value) -> Outcome<S>, inner: (S, Value) -> Outcome<S>, s: S)
    requires forall t, y :: inner(t, y) == k(t, Cat(x, y))
    ensures EmitAll(ys, inner, s) == EmitAll(After(x, ys), k, s)
  {
    if ys != [] {
      var o := inner(s, ys[0]);
      assert After(x, ys)[1..] == After(x, ys[1..]);
      if o.Normal? { EmitAfter(x, ys[1..], k, inner, o.s); }
    }
  }

  lemma {:induction false} EmitBefore<S(!new)>(
    xs: seq<Value>, y: Value, k: (S, Value) -> Outcome<S>, inner: (S, Value) -> Outcome<S>, s: S)
    requires forall t, x :: inner(t, x) == k(t, Cat(x, y))
    ensures EmitAll(xs, inner, s) == EmitAll(Before(xs, y), k, s)
  {
    if xs != [] {
      var o := inner(s, xs[0]);
      assert Before(xs, y)[1..] == Before(xs[1..], y);
      if o.Normal? { EmitBefore(xs[1..], y, k, inner, o.s); }
    }
  }

  lemma {:induction false} EmitCross<S(!new)>(
    xs: seq<Value>, ys: seq<Value>, k: (S, Value) -> Outcome<S>, inner: (S, Value) -> Outcome<S>, s: S)
    requires forall t, x :: inner(t, x) == EmitAll(After(x, ys), k, t)
    ensures EmitAll(xs, inner, s) == EmitAll(Cross(xs, ys), k, s)
  {
    if xs != [] {
      var o := inner(s, xs[0]);
      EmitAppend(After(xs[0], ys), Cross(xs[1..], ys), k, s);
      if o.Normal? { EmitCross(xs[1..], ys, k, inner, o.s); }
    }
  }

  lemma {:induction false} EmitCrossBack<S(!new)>(
    xs: seq<Value>, ys: seq<Value>, k: (S, Value) -> Outcome<S>, inner: (S, Value) -> Outcome<S>, s: S)
    requires forall t, y :: inner(t, y) == EmitAll(Before(xs, y), k, t)
    ensures EmitAll(ys, inner, s) == EmitAll(CrossBack(xs, ys), k, s)
  {
    if ys != [] {
      var o := inner(s, ys[0]);
      EmitAppend(Before(xs, ys[0]), CrossBack(xs, ys[1..]), k, s);
      if o.Normal? { EmitCrossBack(xs, ys[1..], k, inner, o.s); }
    }
  }

  lemma {:induction false} EmitTimes<S(!new)>(
    xs: seq<Value>, ys: seq<Value>, k: (S, Value) -> Outcome<S>, inner: (S, Value) -> Outcome<S>, s: S)
    requires forall t, x :: inner(t, x) == EmitAll(ys, k, t)
    ensures EmitAll(xs, inner, s) == EmitAll(Times(|xs|, ys), k, s)
  {
    if xs != [] {
      var o := inner(s, xs[0]);
      EmitAppend(ys, Times(|xs| - 1, ys), k, s);
      if o.Normal? { EmitTimes(xs[1..], ys, k, inner, o.s); }
    }
  }

  /** What the signals are for: one `Unit`, however many results there are. */
  lemma EmitOnceEmitsOnce<S(!new)>(vs: seq<Value>, k: (S, Value) -> Outcome<S>, shape: Shape, s: S)
    requires Quiet(k, Size(shape))
    ensures Catch(EmitAll(vs, EmitOnce(k, shape), s), shape) == EmitAll(Once(vs != []), k, s)
  {
    assert Above(k(s, UnitValue), Size(shape));
  }

  lemma EmitOnceQuiet<S(!new)>(k: (S, Value) -> Outcome<S>, shape: Shape, n: nat)
    requires n < Size(shape) && Quiet(k, Size(shape))
    ensures Quiet(EmitOnce(k, shape), n)
  {
    forall s, v ensures Above(EmitOnce(k, shape)(s, v), n) {
      assert Above(k(s, UnitValue), Size(shape));
    }
  }

  /** The main result, by cases on the block. */
  lemma {:induction false} EvalIsResults<S(!new)>(b: Block, begin: nat, end: nat, k: (S, Value) -> Outcome<S>, s: S)
    requires Quiet(k, Size(ShapeOf(b)))
    ensures Eval(b, begin, end, k, s) == EmitAll(Results(b, begin, end), k, s)
    decreases Size(ShapeOf(b)), 1, 0
  {
    match b
    case Leaf(_, _, _) =>
    case Void(of) =>
      EmitOnceQuiet(k, ShapeOf(b), Size(ShapeOf(of)));
      EvalIsResults(of, begin, end, EmitOnce(k, ShapeOf(b)), s);
      EmitOnceEmitsOnce(Results(of, begin, end), k, ShapeOf(b), s);
    case Or(l, r, asLeft, asRight) =>
      if IsUnit(b) { OrOfUnits(b, begin, end, k, s); } else { OrOfOthers(b, begin, end, k, s); }
    case And(l, r) =>
      AndCase(b, begin, end, k, s);
    case Seq(_, l, r) =>
      if IsUnit(b) {
        EmitOnceQuiet(k, ShapeOf(b), Size(ShapeOf(l)) + Size(ShapeOf(r)));
        SplitsAreResults(b, begin, begin, end, EmitOnce(k, ShapeOf(b)), s);
        EmitOnceEmitsOnce(Splits(b, begin, begin, end), k, ShapeOf(b), s);
      } else {
        Lower(k, Size(ShapeOf(b)), Size(ShapeOf(l)) + Size(ShapeOf(r)));
        SplitsAreResults(b, begin, begin, end, k, s);
      }
    case Map(of, _, _, f) =>
      var inner := (t: S, v: Value) => k(t, f(v));
      forall t, v ensures Above(inner(t, v), Size(ShapeOf(of))) {
        assert Above(k(t, f(v)), Size(ShapeOf(b)));
      }
      EvalIsResults(of, begin, end, inner, s);
      EmitMapped(Results(of, begin, end), f, k, inner, s);
    case Filter(of, keep) =>
      var inner := (t: S, v: Value) => if keep(v) then k(t, v) else Normal(t);
      forall t, v ensures Above(inner(t, v), Size(ShapeOf(of))) {
        assert Above(k(t, v), Size(ShapeOf(b)));
      }
      EvalIsResults(of, begin, end, inner, s);
      EmitKept(Results(of, begin, end), keep, k, inner, s);
  }

  lemma Lower<S(!new)>(k: (S, Value) -> Outcome<S>, n: nat, m: nat)
    requires m <= n && Quiet(k, n)
    ensures Quiet(k, m)
  {
    forall s, v ensures Above(k(s, v), m) { assert Above(k(s, v), n); }
  }

  lemma {:induction false} OrOfUnits<S(!new)>(b: Block, begin: nat, end: nat, k: (S, Value) -> Outcome<S>, s: S)
    requires b.Or? && IsUnit(b)
    requires Quiet(k, Size(ShapeOf(b)))
    ensures Eval(b, begin, end, k, s) == EmitAll(Results(b, begin, end), k, s)
    decreases Size(ShapeOf(b)), 0, 0
  {
    var signal: (S, Value) -> Outcome<S> := Signalling(ShapeOf(b));
    assert Quiet(signal, Size(ShapeOf(b)) - 1);
    Lower(signal, Size(ShapeOf(b)) - 1, Size(ShapeOf(b.lhs)));
    Lower(signal, Size(ShapeOf(b)) - 1, Size(ShapeOf(b.rhs)));
    EvalIsResults(b.lhs, begin, end, signal, s);
    EvalIsResults(b.rhs, begin, end, signal, s);
  }

  lemma {:induction false} OrOfOthers<S(!new)>(b: Block, begin: nat, end: nat, k: (S, Value) -> Outcome<S>, s: S)
    requires b.Or? && !IsUnit(b)
    requires Quiet(k, Size(ShapeOf(b)))
    ensures Eval(b, begin, end, k, s) == EmitAll(Results(b, begin, end), k, s)
    decreases Size(ShapeOf(b)), 0, 0
  {
    var xs, ys := Results(b.lhs, begin, end), Results(b.rhs, begin, end);
    var left := (t: S, v: Value) => k(t, b.asLeft(v));
    var right := (t: S, v: Value) => k(t, b.asRight(v));
    forall t, v ensures Above(left(t, v), Size(ShapeOf(b.lhs))) && Above(right(t, v), Size(ShapeOf(b.rhs))) {
      assert Above(k(t, b.asLeft(v)), Size(ShapeOf(b))) && Above(k(t, b.asRight(v)), Size(ShapeOf(b)));
    }
    EvalIsResults(b.lhs, begin, end, left, s);
    EmitMapped(xs, b.asLeft, k, left, s);
    var o := EmitAll(xs, left, s);
    if o.Normal? {
      EvalIsResults(b.rhs, begin, end, right, o.s);
      EmitMapped(ys, b.asRight, k, right, o.s);
    }
    EmitAppend(Mapped(b.asLeft, xs), Mapped(b.asRight, ys), k, s);
  }

  /** The inner continuation of `And` and of a left-to-right sequence. */
  lemma {:induction false} Inner<S(!new)>(
    r: Block, begin: nat, end: nat, x: Value, k: (S, Value) -> Outcome<S>, n: nat, t: S)
    requires Size(ShapeOf(r)) <= n && Quiet(k, n)
    ensures Eval(r, begin, end, (u: S, y: Value) => k(u, Cat(x, y)), t)
         == EmitAll(After(x, Results(r, begin, end)), k, t)
    ensures Above(EmitAll(After(x, Results(r, begin, end)), k, t), n)
    decreases Size(ShapeOf(r)), 2, 0
  {
    var inner := (u: S, y: Value) => k(u, Cat(x, y));
    forall u, y ensures Above(inner(u, y), Size(ShapeOf(r))) { assert Above(k(u, Cat(x, y)), n); }
    EvalIsResults(r, begin, end, inner, t);
    EmitAfter(x, Results(r, begin, end), k, inner, t);
    EmitAbove(After(x, Results(r, begin, end)), k, t, n);
  }

  /** The inner continuation of a right-to-left sequence. */
  lemma {:induction false} InnerBack<S(!new)>(
    l: Block, begin: nat, end: nat, y: Value, k: (S, Value) -> Outcome<S>, n: nat, t: S)
    requires Size(ShapeOf(l)) <= n && Quiet(k, n)
    ensures Eval(l, begin, end, (u: S, x: Value) => k(u, Cat(x, y)), t)
         == EmitAll(Before(Results(l, begin, end), y), k, t)
    ensures Above(EmitAll(Before(Results(l, begin, end), y), k, t), n)
    decreases Size(ShapeOf(l)), 2, 0
  {
    var inner := (u: S, x: Value) => k(u, Cat(x, y));
    forall u, x ensures Above(inner(u, x), Size(ShapeOf(l))) { assert Above(k(u, Cat(x, y)), n); }
    EvalIsResults(l, begin, end, inner, t);
    EmitBefore(Results(l, begin, end), y, k, inner, t);
    EmitAbove(Before(Results(l, begin, end), y), k, t, n);
  }

  lemma {:induction false} AndCase<S(!new)>(b: Block, begin: nat, end: nat, k: (S, Value) -> Outcome<S>, s: S)
    requires b.And?
    requires Quiet(k, Size(ShapeOf(b)))
    ensures Eval(b, begin, end, k, s) == EmitAll(Results(b, begin, end), k, s)
    decreases Size(ShapeOf(b)), 0, 0
  {
    var n := Size(ShapeOf(b));
    var ys := Results(b.rhs, begin, end);
    var outer := (t: S, x: Value) => Eval(b.rhs, begin, end, (u: S, y: Value) => k(u, Cat(x, y)), t);
    forall t, x ensures outer(t, x) == EmitAll(After(x, ys), k, t) && Above(outer(t, x), Size(ShapeOf(b.lhs))) {
      Inner(b.rhs, begin, end, x, k, n, t);
    }
    EvalIsResults(b.lhs, begin, end, outer, s);
    EmitCross(Results(b.lhs, begin, end), ys, k, outer, s);
  }

  lemma {:induction false} SplitIsJoined<S(!new)>(
    b: Block, begin: nat, m: nat, end: nat, k: (S, Value) -> Outcome<S>, s: S)
    requires b.Seq?
    requires Quiet(k, Size(ShapeOf(b.lhs)) + Size(ShapeOf(b.rhs)))
    ensures EvalSplit(b, begin, m, end, k, s)
         == EmitAll(Joined(b, Results(b.lhs, begin, m), Results(b.rhs, m, end)), k, s)
    decreases Size(ShapeOf(b)), 0, 1
  {
    if IsUnit(b.lhs) {
      UnitFirst(b.lhs, begin, m, b.rhs, m, end, k, s);
    } else if IsUnit(b.rhs) {
      UnitFirst(b.rhs, m, end, b.lhs, begin, m, k, s);
    } else {
      GeneralSplit(b, begin, m, end, k, s);
    }
  }

  /** Evaluate `first`, and `second` once for each result of `first`. */
  lemma {:induction false} UnitFirst<S(!new)>(
    first: Block, i: nat, j: nat, second: Block, p: nat, q: nat, k: (S, Value) -> Outcome<S>, s: S)
    requires Quiet(k, Size(ShapeOf(first)) + Size(ShapeOf(second)))
    ensures Eval(first, i, j, (t: S, x: Value) => Eval(second, p, q, k, t), s)
         == EmitAll(Times(|Results(first, i, j)|, Results(second, p, q)), k, s)
    decreases Size(ShapeOf(first)) + Size(ShapeOf(second)), 3, 0
  {
    var n := Size(ShapeOf(first)) + Size(ShapeOf(second));
    var outer := (t: S, x: Value) => Eval(second, p, q, k, t);
    Lower(k, n, Size(ShapeOf(second)));
    forall t, x: Value
      ensures outer(t, x) == EmitAll(Results(second, p, q), k, t) && Above(outer(t, x), Size(ShapeOf(first)))
    {
      EvalIsResults(second, p, q, k, t);
      EmitAbove(Results(second, p, q), k, t, n);
    }
    EvalIsResults(first, i, j, outer, s);
    EmitTimes(Results(first, i, j), Results(second, p, q), k, outer, s);
  }

  lemma {:induction false} GeneralSplit<S(!new)>(
    b: Block, begin: nat, m: nat, end: nat, k: (S, Value) -> Outcome<S>, s: S)
    requires b.Seq? && !IsUnit(b.lhs) && !IsUnit(b.rhs)
    requires Quiet(k, Size(ShapeOf(b.lhs)) + Size(ShapeOf(b.rhs)))
    ensures EvalSplit(b, begin, m, end, k, s)
         == EmitAll(Joined(b, Results(b.lhs, begin, m), Results(b.rhs, m, end)), k, s)
    decreases Size(ShapeOf(b)), 0, 0
  {
    var n := Size(ShapeOf(b.lhs)) + Size(ShapeOf(b.rhs));
    var xs, ys := Results(b.lhs, begin, m), Results(b.rhs, m, end);
    if b.direction.L2R? {
      var outer := (t: S, x: Value) => Eval(b.rhs, m, end, (u: S, y: Value) => k(u, Cat(x, y)), t);
      forall t, x ensures outer(t, x) == EmitAll(After(x, ys), k, t) && Above(outer(t, x), Size(ShapeOf(b.lhs))) {
        Inner(b.rhs, m, end, x, k, n, t);
      }
      EvalIsResults(b.lhs, begin, m, outer, s);
      EmitCross(xs, ys, k, outer, s);
    } else {
      var outer := (t: S, y: Value) => Eval(b.lhs, begin, m, (u: S, x: Value) => k(u, Cat(x, y)), t);
      forall t, y ensures outer(t, y) == EmitAll(Before(xs, y), k, t) && Above(outer(t, y), Size(ShapeOf(b.rhs))) {
        InnerBack(b.lhs, begin, m, y, k, n, t);
      }
      EvalIsResults(b.rhs, m, end, outer, s);
      EmitCrossBack(xs, ys, k, outer, s);
    }
  }

  lemma {:induction false} SplitsAreResults<S(!new)>(
    b: Block, begin: nat, m: nat, end: nat, k: (S, Value) -> Outcome<S>, s: S)
    requires b.Seq?
    requires Quiet(k, Size(ShapeOf(b.lhs)) + Size(ShapeOf(b.rhs)))
    ensures EvalSplits(b, begin, m, end, k, s) == EmitAll(Splits(b, begin, m, end), k, s)
    decreases Size(ShapeOf(b)), 0, 1 + end + 1 - m
  {
    if m <= end {
      var here := Joined(b, Results(b.lhs, begin, m), Results(b.rhs, m, end));
      SplitIsJoined(b, begin, m, end, k, s);
      EmitAppend(here, Splits(b, begin, m + 1, end), k, s);
      var o := EmitAll(here, k, s);
      if o.Normal? { SplitsAreResults(b, begin, m + 1, end, k, o.s); }
    }
  }

  // The two ways to run a schema on a query of `n` terms.

  lemma {:induction false} Collects(vs: seq<Value>, k: (seq<Value>, Value) -> Outcome<seq<Value>>, s: seq<Value>)
    requires forall t, v :: k(t, v) == Normal(t + [v])
    ensures EmitAll(vs, k, s) == Normal(s + vs)
  {
    if vs == [] {
      assert s + vs == s;
    } else {
      assert (s + [vs[0]]) + vs[1..] == s + vs;
      Collects(vs[1..], k, s + [vs[0]]);
    }
  }

  method MatchQueryIntoVector(b: Block, n: nat) returns (results: seq<Value>)
    ensures results == Results(b, 0, n)
  {
    var collect := (s: seq<Value>, v: Value) => Normal(s + [v]);
    var o := Eval(b, 0, n, collect, []);
    EvalIsResults(b, 0, n, collect, []);
    Collects(Results(b, 0, n), collect, []);
    results := o.s;
  }

  method JustMatchQuery(b: Block, n: nat) returns (result: Option<Value>)
    ensures Results(b, 0, n) == [] ==> result == None
    ensures Results(b, 0, n) != [] ==> result == Some(Results(b, 0, n)[0])
  {
    var succeed := (s: Option<Value>, v: Value) => Thrown(EvalSucceeded, Some(v));
    var o := Eval(b, 0, n, succeed, None);
    EvalIsResults(b, 0, n, succeed, None);
    result := if o.Thrown? && o.signal == EvalSucceeded then o.s else None;
  }
}
