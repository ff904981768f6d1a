/**
 Every way to bracket a sequence of blocks, with `>>` and `<<` in any mixture, yields the same
 results. A block in a sequence may be replaced by one with the same results.
 */
module NlpBrackets {
  import opened Nlp
  import opened NlpLaws

  datatype Brackets = Single(block: Block) | Pair(direction: Direction, lhs: Brackets, rhs: Brackets)

  function BlockOf(t: Brackets): Block {
    match t
    case Single(b) => b
    case Pair(d, l, r) => Seq(d, BlockOf(l), BlockOf(r))
  }

  function Blocks(t: Brackets): (bs: seq<Block>)
    ensures bs != []
  {
    match t
    case Single(b) => [b]
    case Pair(_, l, r) => Blocks(l) + Blocks(r)
  }

  /** The blocks bracketed to the right. */
  function Nest(bs: seq<Block>): Block
    requires bs != []
  {
    if |bs| == 1 then bs[0] else Seq(L2R, bs[0], Nest(bs[1..]))
  }

  // The set of results.

  ghost predicate SameSet(x: Block, y: Block) {
    && (IsUnit(x) <==> IsUnit(y))
    && forall i, j, v :: v in Results(x, i, j) <==> v in Results(y, i, j)
  }

  lemma SetTransitive(x: Block, y: Block, z: Block)
    requires SameSet(x, y) && SameSet(y, z)
    ensures SameSet(x, z)
  {
    hide Results, IsUnit;
    forall i, j, v ensures v in Results(x, i, j) <==> v in Results(z, i, j) {
      assert v in Results(x, i, j) <==> v in Results(y, i, j);
    }
  }

  lemma ReplacedHas(x: Block, x': Block, y: Block, y': Block, i: nat, j: nat, v: Value)
    requires SameSet(x, x') && SameSet(y, y') && v in Results(Seq(L2R, x, y), i, j)
    ensures v in Results(Seq(L2R, x', y'), i, j)
  {
    hide Results;
    var m, a, b := Find(Seq(L2R, x, y), i, j, v);
    assert a in Results(x', i, m) && b in Results(y', m, j);
    Has(Seq(L2R, x', y'), i, j, v, m, a, b);
  }

  lemma ReplaceKeepsTheSet(x: Block, x': Block, y: Block, y': Block)
    requires SameSet(x, x') && SameSet(y, y')
    ensures SameSet(Seq(L2R, x, y), Seq(L2R, x', y'))
  {
    hide Results;
    var p, q := Seq(L2R, x, y), Seq(L2R, x', y');
    forall i, j, v ensures v in Results(p, i, j) <==> v in Results(q, i, j) {
      if v in Results(p, i, j) { ReplacedHas(x, x', y, y', i, j, v); }
      if v in Results(q, i, j) { ReplacedHas(x', x, y', y, i, j, v); }
    }
  }

  lemma DirectionKeepsTheSet(d: Direction, x: Block, y: Block)
    ensures SameSet(Seq(d, x, y), Seq(L2R, x, y))
  {
    hide Results;
    if d.R2L? {
      forall i, j, v ensures v in Results(Seq(d, x, y), i, j) <==> v in Results(Seq(L2R, x, y), i, j) {
        DirectionKeepsResults(x, y, i, j);
        assert v in multiset(Results(Seq(d, x, y), i, j)) <==> v in multiset(Results(Seq(L2R, x, y), i, j));
      }
    }
  }

  lemma AssociateKeepsTheSet(a: Block, b: Block, c: Block)
    ensures SameSet(Leftwards(a, b, c), Rightwards(a, b, c))
  {
    hide Results;
    var p, q := Leftwards(a, b, c), Rightwards(a, b, c);
    assert IsUnit(Seq(L2R, a, b)) <==> IsUnit(a) && IsUnit(b);
    assert IsUnit(Seq(L2R, b, c)) <==> IsUnit(b) && IsUnit(c);
    forall i, j, v ensures v in Results(p, i, j) <==> v in Results(q, i, j) {
      BracketingKeepsTheSet(a, b, c, i, j, v);
    }
  }

  lemma {:induction false} NestedSet(bs: seq<Block>, cs: seq<Block>)
    requires bs != [] && cs != []
    ensures SameSet(Seq(L2R, Nest(bs), Nest(cs)), Nest(bs + cs))
    decreases |bs|
  {
    hide SameSet;
    SetReflexive(Nest(bs + cs));
    if |bs| == 1 {
      assert (bs + cs)[1..] == cs;
    } else {
      var b, rest := bs[0], bs[1..];
      assert (bs + cs)[1..] == rest + cs;
      AssociateKeepsTheSet(b, Nest(rest), Nest(cs));
      NestedSet(rest, cs);
      SetReflexive(b);
      ReplaceKeepsTheSet(b, b, Seq(L2R, Nest(rest), Nest(cs)), Nest(rest + cs));
      SetTransitive(Leftwards(b, Nest(rest), Nest(cs)), Rightwards(b, Nest(rest), Nest(cs)), Nest(bs + cs));
    }
  }

  lemma SetReflexive(x: Block)
    ensures SameSet(x, x)
  {
  }

  lemma {:induction false} BracketsNest(t: Brackets)
    ensures SameSet(BlockOf(t), Nest(Blocks(t)))
  {
    hide SameSet;
    match t
    case Single(b) => SetReflexive(b);
    case Pair(d, l, r) =>
      BracketsNest(l);
      BracketsNest(r);
      var x, y := Nest(Blocks(l)), Nest(Blocks(r));
      DirectionKeepsTheSet(d, BlockOf(l), BlockOf(r));
      ReplaceKeepsTheSet(BlockOf(l), x, BlockOf(r), y);
      SetTransitive(BlockOf(t), Seq(L2R, BlockOf(l), BlockOf(r)), Seq(L2R, x, y));
      NestedSet(Blocks(l), Blocks(r));
      SetTransitive(BlockOf(t), Seq(L2R, x, y), Nest(Blocks(t)));
  }

  /** However the same blocks are bracketed, the set of results is the same in every window. */
  lemma AnyBracketsKeepTheSet(s: Brackets, t: Brackets)
    requires Blocks(s) == Blocks(t)
    ensures SameSet(BlockOf(s), BlockOf(t))
  {
    BracketsNest(s);
    BracketsNest(t);
    SetSymmetric(BlockOf(t), Nest(Blocks(t)));
    SetTransitive(BlockOf(s), Nest(Blocks(s)), BlockOf(t));
  }

  lemma SetSymmetric(x: Block, y: Block)
    requires SameSet(x, y)
    ensures SameSet(y, x)
  {
  }

  // How often each result is yielded, where there are no `Unit`s.

  ghost predicate SameCounts(x: Block, y: Block) {
    && !IsUnit(x) && !IsUnit(y)
    && forall i, j :: multiset(Results(x, i, j)) == multiset(Results(y, i, j))
  }

  lemma CountsTransitive(x: Block, y: Block, z: Block)
    requires SameCounts(x, y) && SameCounts(y, z)
    ensures SameCounts(x, z)
  {
    hide Results;
    forall i, j ensures multiset(Results(x, i, j)) == multiset(Results(z, i, j)) {
      assert multiset(Results(x, i, j)) == multiset(Results(y, i, j));
    }
  }

  lemma CountsReflexive(x: Block)
    requires !IsUnit(x)
    ensures SameCounts(x, x)
  {
  }

  lemma CancelOne(x: Value, a: Bag, b: Bag)
    requires multiset{x} + a == multiset{x} + b
    ensures a == b
  {
    assert a == (multiset{x} + a) - multiset{x};
    assert b == (multiset{x} + b) - multiset{x};
  }

  lemma Without(x: Value, p: seq<Value>, q: seq<Value>)
    ensures multiset(p + [x] + q) == multiset{x} + multiset(p + q)
  {
  }

  lemma RestOfBoth(x: Value, xs: seq<Value>, p: seq<Value>, q: seq<Value>)
    requires multiset([x] + xs) == multiset(p + [x] + q)
    ensures multiset(xs) == multiset(p + q)
  {
    Without(x, p, q);
    FirstOfBag(x, xs);
    CancelOne(x, multiset(xs), multiset(p + q));
  }

  lemma FirstOfBag(x: Value, xs: seq<Value>)
    ensures multiset([x] + xs) == multiset{x} + multiset(xs)
  {
  }

  lemma PositionOf(x: Value, ys: seq<Value>) returns (k: nat)
    requires multiset(ys)[x] > 0
    ensures k < |ys| && ys[k] == x
  {
    assert x in ys;
    k :| 0 <= k < |ys| && ys[k] == x;
  }

  /** A permutation, cut where the first value of the other one is. */
  lemma CutAt(x: Value, xs: seq<Value>, ys: seq<Value>) returns (p: seq<Value>, q: seq<Value>)
    requires multiset([x] + xs) == multiset(ys)
    ensures ys == p + [x] + q && multiset(xs) == multiset(p + q)
  {
    FirstOfBag(x, xs);
    var k := PositionOf(x, ys);
    p, q := ys[..k], ys[k + 1..];
    assert ys == p + [x] + q;
    RestOfBoth(x, xs, p, q);
  }

  lemma {:induction false} PermuteLeft(xs: seq<Value>, ys: seq<Value>, zs: seq<Value>)
    requires multiset(xs) == multiset(ys)
    ensures multiset(Cross(xs, zs)) == multiset(Cross(ys, zs))
    decreases |xs|
  {
    hide Cross, After;
    if xs == [] {
      assert |multiset(ys)| == 0;
    } else {
      assert xs == [xs[0]] + xs[1..];
      var p, q := CutAt(xs[0], xs[1..], ys);
      PermuteLeft(xs[1..], p + q, zs);
      CrossAppendLeft(p + [xs[0]], q, zs);
      CrossAppendLeft(p, [xs[0]], zs);
      CrossAppendLeft(p, q, zs);
      CrossAppendLeft([xs[0]], xs[1..], zs);
    }
  }

  lemma {:induction false} PermuteAfter(x: Value, ys: seq<Value>, zs: seq<Value>)
    requires multiset(ys) == multiset(zs)
    ensures multiset(After(x, ys)) == multiset(After(x, zs))
    decreases |ys|
  {
    hide After;
    if ys == [] {
      assert |multiset(zs)| == 0;
    } else {
      assert ys == [ys[0]] + ys[1..];
      var p, q := CutAt(ys[0], ys[1..], zs);
      PermuteAfter(x, ys[1..], p + q);
      AfterAppend(x, p + [ys[0]], q);
      AfterAppend(x, p, [ys[0]]);
      AfterAppend(x, p, q);
      AfterAppend(x, [ys[0]], ys[1..]);
    }
  }

  lemma {:induction false} PermuteRight(xs: seq<Value>, ys: seq<Value>, zs: seq<Value>)
    requires multiset(ys) == multiset(zs)
    ensures multiset(Cross(xs, ys)) == multiset(Cross(xs, zs))
  {
    if xs != [] {
      PermuteAfter(xs[0], ys, zs);
      PermuteRight(xs[1..], ys, zs);
    }
  }

  lemma {:induction false} ReplacedSplits(x: Block, x': Block, y: Block, y': Block, i: nat, m: nat, j: nat)
    requires SameCounts(x, x') && SameCounts(y, y')
    ensures multiset(Splits(Seq(L2R, x, y), i, m, j)) == multiset(Splits(Seq(L2R, x', y'), i, m, j))
    decreases j + 1 - m
  {
    hide Results, Splits, Cross;
    NextSplit(Seq(L2R, x, y), i, m, j);
    NextSplit(Seq(L2R, x', y'), i, m, j);
    if m <= j {
      ReplacedSplits(x, x', y, y', i, m + 1, j);
      PermuteLeft(Results(x, i, m), Results(x', i, m), Results(y, m, j));
      PermuteRight(Results(x', i, m), Results(y, m, j), Results(y', m, j));
    }
  }

  lemma ReplaceKeepsTheCounts(x: Block, x': Block, y: Block, y': Block)
    requires SameCounts(x, x') && SameCounts(y, y')
    ensures SameCounts(Seq(L2R, x, y), Seq(L2R, x', y'))
  {
    hide Results, Splits;
    var p, q := Seq(L2R, x, y), Seq(L2R, x', y');
    forall i, j ensures multiset(Results(p, i, j)) == multiset(Results(q, i, j)) {
      SeqResults(p, i, j);
      SeqResults(q, i, j);
      ReplacedSplits(x, x', y, y', i, i, j);
    }
  }

  lemma DirectionKeepsTheCounts(d: Direction, x: Block, y: Block)
    requires !IsUnit(x) && !IsUnit(y)
    ensures SameCounts(Seq(d, x, y), Seq(L2R, x, y))
  {
    hide Results;
    forall i, j ensures multiset(Results(Seq(d, x, y), i, j)) == multiset(Results(Seq(L2R, x, y), i, j)) {
      DirectionKeepsResults(x, y, i, j);
    }
  }

  lemma AssociateKeepsTheCounts(a: Block, b: Block, c: Block)
    requires !IsUnit(a) && !IsUnit(b) && !IsUnit(c)
    ensures SameCounts(Leftwards(a, b, c), Rightwards(a, b, c))
  {
    hide Results;
    var p, q := Leftwards(a, b, c), Rightwards(a, b, c);
    forall i, j ensures multiset(Results(p, i, j)) == multiset(Results(q, i, j)) {
      BracketingKeepsTheCounts(a, b, c, i, j);
    }
  }

  predicate UnitFree(bs: seq<Block>) {
    forall i :: 0 <= i < |bs| ==> !IsUnit(bs[i])
  }

  lemma {:induction false} NestIsNoUnit(bs: seq<Block>)
    requires bs != [] && UnitFree(bs)
    ensures !IsUnit(Nest(bs))
  {
    if |bs| > 1 { NestIsNoUnit(bs[1..]); }
  }

  lemma {:induction false} NestedCounts(bs: seq<Block>, cs: seq<Block>)
    requires bs != [] && cs != [] && UnitFree(bs) && UnitFree(cs)
    ensures SameCounts(Seq(L2R, Nest(bs), Nest(cs)), Nest(bs + cs))
    decreases |bs|
  {
    hide SameCounts;
    NestIsNoUnit(bs + cs);
    CountsReflexive(Nest(bs + cs));
    if |bs| == 1 {
      assert (bs + cs)[1..] == cs;
    } else {
      var b, rest := bs[0], bs[1..];
      assert (bs + cs)[1..] == rest + cs;
      NestIsNoUnit(rest);
      NestIsNoUnit(cs);
      AssociateKeepsTheCounts(b, Nest(rest), Nest(cs));
      NestedCounts(rest, cs);
      CountsReflexive(b);
      ReplaceKeepsTheCounts(b, b, Seq(L2R, Nest(rest), Nest(cs)), Nest(rest + cs));
      CountsTransitive(Leftwards(b, Nest(rest), Nest(cs)), Rightwards(b, Nest(rest), Nest(cs)), Nest(bs + cs));
    }
  }

  lemma {:induction false} BracketsNestCounts(t: Brackets)
    requires UnitFree(Blocks(t))
    ensures !IsUnit(BlockOf(t)) && SameCounts(BlockOf(t), Nest(Blocks(t)))
  {
    hide SameCounts;
    match t
    case Single(b) =>
      assert b == Blocks(t)[0];
      CountsReflexive(b);
    case Pair(d, l, r) =>
      assert UnitFree(Blocks(l)) by { assert forall i :: 0 <= i < |Blocks(l)| ==> Blocks(l)[i] == Blocks(t)[i]; }
      assert UnitFree(Blocks(r)) by {
        assert forall i :: 0 <= i < |Blocks(r)| ==> Blocks(r)[i] == Blocks(t)[|Blocks(l)| + i];
      }
      BracketsNestCounts(l);
      BracketsNestCounts(r);
      var x, y := Nest(Blocks(l)), Nest(Blocks(r));
      DirectionKeepsTheCounts(d, BlockOf(l), BlockOf(r));
      ReplaceKeepsTheCounts(BlockOf(l), x, BlockOf(r), y);
      CountsTransitive(BlockOf(t), Seq(L2R, BlockOf(l), BlockOf(r)), Seq(L2R, x, y));
      NestedCounts(Blocks(l), Blocks(r));
      CountsTransitive(BlockOf(t), Seq(L2R, x, y), Nest(Blocks(t)));
  }

  /** However the same blocks are bracketed, if none is a `Unit`, each result is yielded equally often
      in every window. */
  lemma AnyBracketsKeepTheCounts(s: Brackets, t: Brackets)
    requires Blocks(s) == Blocks(t) && UnitFree(Blocks(s))
    ensures SameCounts(BlockOf(s), BlockOf(t))
  {
    hide Results;
    BracketsNestCounts(s);
    BracketsNestCounts(t);
    forall i, j ensures multiset(Results(BlockOf(s), i, j)) == multiset(Results(BlockOf(t), i, j)) {
      assert multiset(Results(BlockOf(s), i, j)) == multiset(Results(Nest(Blocks(s)), i, j));
    }
  }
}
