/**
 Laws of the schema combinators: how the direction and the bracketing of a sequence, and the order
 in which `Unit` blocks are tried, matter to the results.
 */
module NlpLaws {
  import opened Nlp

  lemma NextSplit(b: Block, begin: nat, m: nat, end: nat)
    requires b.Seq?
    ensures Splits(b, begin, m, end)
         == if m > end then []
            else Joined(b, Results(b.lhs, begin, m), Results(b.rhs, m, end)) + Splits(b, begin, m + 1, end)
  {
    hide Results, Joined;
  }

  lemma SeqResults(b: Block, begin: nat, end: nat)
    requires b.Seq? && !IsUnit(b)
    ensures Results(b, begin, end) == Splits(b, begin, begin, end)
  {
    hide Splits;
  }

  // Units.

  /** The blocks that keep to one `Unit` whatever is inside. The others are the user's own. */
  ghost predicate EmitsOnce(b: Block) {
    match b
    case Leaf(_, unit, emits) => unit ==> forall i, j :: |emits(i, j)| <= 1
    case Map(_, _, unit, _) => !unit
    case Filter(of, _) => EmitsOnce(of)
    case _ => true
  }

  lemma {:induction false} KeptIsShorter(keep: Value -> bool, vs: seq<Value>)
    ensures |Kept(keep, vs)| <= |vs|
  {
    if vs != [] { KeptIsShorter(keep, vs[1..]); }
  }

  lemma {:induction false} UnitsAreEmittedOnce(b: Block, begin: nat, end: nat)
    requires IsUnit(b) && EmitsOnce(b)
    ensures |Results(b, begin, end)| <= 1
  {
    if b.Filter? {
      UnitsAreEmittedOnce(b.of, begin, end);
      KeptIsShorter(b.keep, Results(b.of, begin, end));
    }
  }

  /** Each of `xs`, `n` times in a row: what trying the left hand side first would emit. */
  function Each(xs: seq<Value>, n: nat): seq<Value> {
    if xs == [] then [] else Times(n, [xs[0]]) + Each(xs[1..], n)
  }

  lemma {:induction false} TimesOne(xs: seq<Value>, n: nat)
    requires n <= 1
    ensures Times(n, xs) == Each(xs, n)
  {
    if n == 1 { assert Times(1, xs) == xs + Times(0, xs) == xs; }
    if xs != [] {
      TimesOne(xs[1..], n);
      if n == 1 {
        assert Times(1, xs[1..]) == xs[1..] + Times(0, xs[1..]) == xs[1..];
        assert Times(1, [xs[0]]) == [xs[0]] + Times(0, [xs[0]]) == [xs[0]];
      }
    }
  }

  predicate AllSame(xs: seq<Value>) {
    forall i :: 0 <= i < |xs| ==> xs[i] == xs[0]
  }

  lemma {:induction false} TimesSize(n: nat, xs: seq<Value>)
    ensures |Times(n, xs)| == n * |xs|
  {
    if n > 0 {
      TimesSize(n - 1, xs);
      assert n * |xs| == |xs| + (n - 1) * |xs|;
    }
  }

  lemma {:induction false} EachSize(xs: seq<Value>, n: nat)
    ensures |Each(xs, n)| == n * |xs|
  {
    if xs != [] {
      EachSize(xs[1..], n);
      TimesSize(n, [xs[0]]);
      assert n * |xs| == n * 1 + n * |xs[1..]|;
    }
  }

  lemma {:induction false} TimesOfSame(n: nat, xs: seq<Value>, v: Value)
    requires forall i :: 0 <= i < |xs| ==> xs[i] == v
    ensures forall i :: 0 <= i < |Times(n, xs)| ==> Times(n, xs)[i] == v
  {
    if n > 0 { TimesOfSame(n - 1, xs, v); }
  }

  lemma {:induction false} EachOfSame(xs: seq<Value>, n: nat, v: Value)
    requires forall i :: 0 <= i < |xs| ==> xs[i] == v
    ensures forall i :: 0 <= i < |Each(xs, n)| ==> Each(xs, n)[i] == v
  {
    if xs != [] {
      EachOfSame(xs[1..], n, v);
      TimesOfSame(n, [xs[0]], v);
    }
  }

  /** Of `k` equal values to begin with, each twice or more, there are more than `k`. */
  lemma {:induction false} EachBegins(xs: seq<Value>, n: nat, v: Value, k: nat)
    requires n >= 2 && 0 < k <= |xs| && forall i :: 0 <= i < k ==> xs[i] == v
    ensures |Each(xs, n)| > k && forall i :: 0 <= i <= k ==> Each(xs, n)[i] == v
    decreases k
  {
    TimesSize(n, [v]);
    TimesOfSame(n, [v], v);
    if k > 1 { EachBegins(xs[1..], n, v, k - 1); }
  }

  lemma {:induction false} FirstOther(xs: seq<Value>, i: nat) returns (k: nat)
    requires 0 < i < |xs| && xs[i] != xs[0]
    ensures 0 < k < |xs| && xs[k] != xs[0] && forall j :: 0 <= j < k ==> xs[j] == xs[0]
    decreases i
  {
    if j :| 0 < j < i && xs[j] != xs[0] {
      k := FirstOther(xs, j);
    } else {
      k := i;
    }
  }

  /** All results `n` times over, and each of them `n` times, are the same exactly if `n` is at most
      one or the results are all the same. */
  lemma OrderShows(xs: seq<Value>, n: nat)
    ensures Times(n, xs) == Each(xs, n) <==> n <= 1 || AllSame(xs)
  {
    if n <= 1 {
      TimesOne(xs, n);
    } else if AllSame(xs) {
      TimesSize(n, xs);
      EachSize(xs, n);
      if xs != [] {
        TimesOfSame(n, xs, xs[0]);
        EachOfSame(xs, n, xs[0]);
      }
    } else {
      var i :| 0 <= i < |xs| && xs[i] != xs[0];
      var k := FirstOther(xs, i);
      EachBegins(xs, n, xs[0], k);
      assert Times(n, xs)[k] == xs[k];
    }
  }

  function SplitsLeftFirst(b: Block, begin: nat, m: nat, end: nat): seq<Value>
    requires b.Seq?
    decreases end + 1 - m
  {
    if m > end then []
    else Each(Results(b.lhs, begin, m), |Results(b.rhs, m, end)|) + SplitsLeftFirst(b, begin, m + 1, end)
  }

  /** At this split, the order of evaluation makes no difference. */
  predicate OrderIsHarmlessAt(b: Block, begin: nat, k: nat, end: nat)
    requires b.Seq?
  {
    |Results(b.rhs, k, end)| <= 1 || AllSame(Results(b.lhs, begin, k))
  }

  lemma SameSegments(a: seq<Value>, b: seq<Value>, c: seq<Value>, d: seq<Value>)
    requires |a| == |b|
    ensures a + c == b + d <==> a == b && c == d
  {
    if a + c == b + d {
      assert a == (a + c)[..|a|] && b == (b + d)[..|a|];
      assert c == (a + c)[|a|..] && d == (b + d)[|a|..];
    }
  }

  ghost predicate HarmlessFrom(b: Block, begin: nat, m: nat, end: nat)
    requires b.Seq?
  {
    forall k :: m <= k <= end ==> OrderIsHarmlessAt(b, begin, k, end)
  }

  lemma HarmlessNext(b: Block, begin: nat, m: nat, end: nat)
    requires b.Seq? && m <= end
    ensures HarmlessFrom(b, begin, m, end) <==> OrderIsHarmlessAt(b, begin, m, end) && HarmlessFrom(b, begin, m + 1, end)
  {
    hide OrderIsHarmlessAt;
  }

  lemma NextLeftFirst(b: Block, begin: nat, m: nat, end: nat)
    requires b.Seq?
    ensures SplitsLeftFirst(b, begin, m, end)
         == if m > end then []
            else Each(Results(b.lhs, begin, m), |Results(b.rhs, m, end)|) + SplitsLeftFirst(b, begin, m + 1, end)
  {
    hide Results, Each;
  }

  lemma {:induction false} SplitsAgreeExactly(b: Block, begin: nat, m: nat, end: nat)
    requires b.Seq? && !IsUnit(b.lhs) && IsUnit(b.rhs)
    ensures Splits(b, begin, m, end) == SplitsLeftFirst(b, begin, m, end) <==> HarmlessFrom(b, begin, m, end)
    decreases end + 1 - m
  {
    hide Results, Splits, Times, Each, SplitsLeftFirst, HarmlessFrom, AllSame;
    NextSplit(b, begin, m, end);
    NextLeftFirst(b, begin, m, end);
    if m <= end {
      var xs, n := Results(b.lhs, begin, m), |Results(b.rhs, m, end)|;
      OrderShows(xs, n);
      TimesSize(n, xs);
      EachSize(xs, n);
      SameSegments(Times(n, xs), Each(xs, n), Splits(b, begin, m + 1, end), SplitsLeftFirst(b, begin, m + 1, end));
      SplitsAgreeExactly(b, begin, m + 1, end);
      HarmlessNext(b, begin, m, end);
    } else {
      HarmlessPastTheEnd(b, begin, m, end);
    }
  }

  lemma HarmlessPastTheEnd(b: Block, begin: nat, m: nat, end: nat)
    requires b.Seq? && m > end
    ensures HarmlessFrom(b, begin, m, end)
  {
  }

  /** With a `Unit` on the right, trying the right hand side first gives the same sequence as trying
      the left hand side first exactly if at every split the right hand side yields at most one `Unit`,
      or what the left hand side yields is all the same. */
  lemma OrderIsHarmlessExactly(b: Block, begin: nat, end: nat)
    requires b.Seq? && !IsUnit(b.lhs) && IsUnit(b.rhs)
    ensures Results(b, begin, end) == SplitsLeftFirst(b, begin, begin, end) <==>
              forall k :: begin <= k <= end ==> OrderIsHarmlessAt(b, begin, k, end)
  {
    hide Results, Splits;
    SeqResults(b, begin, end);
    SplitsAgreeExactly(b, begin, begin, end);
  }

  lemma RightFirstIsLeftFirst(b: Block, begin: nat, end: nat)
    requires b.Seq? && !IsUnit(b.lhs) && IsUnit(b.rhs) && EmitsOnce(b.rhs)
    ensures Results(b, begin, end) == SplitsLeftFirst(b, begin, begin, end)
  {
    hide Results;
    forall k | begin <= k <= end ensures OrderIsHarmlessAt(b, begin, k, end) {
      UnitsAreEmittedOnce(b.rhs, k, end);
    }
    OrderIsHarmlessExactly(b, begin, end);
  }

  /** A `Map` into `Unit` can emit twice, and then the order shows. */
  lemma MapIntoUnitIsNotOnce()
    ensures exists b: Block :: b.Seq? && !IsUnit(b.lhs) && IsUnit(b.rhs) && b.rhs.Map?
                            && Results(b, 0, 0) != SplitsLeftFirst(b, 0, 0, 0)
  {
    var v, w := Tuple([Datum(1)]), Tuple([Datum(2)]);
    var two := Leaf(0, false, (i: nat, j: nat) => [v, w]);
    var units := Map(two, 0, true, (x: Value) => UnitValue);
    var b := Seq(L2R, two, units);
    assert Results(two, 0, 0) == [v, w];
    var f := units.f;
    assert Mapped(f, [v, w]) == [f(v)] + Mapped(f, [v, w][1..]);
    assert [v, w][1..] == [w];
    assert Mapped(f, [w]) == [f(w)] + Mapped(f, [w][1..]);
    assert |Results(units, 0, 0)| == 2;
    assert [v, w][1] != [v, w][0];
    assert !OrderIsHarmlessAt(b, 0, 0, 0);
    OrderIsHarmlessExactly(b, 0, 0);
  }

  // The direction.

  lemma {:induction false} CrossBackCons(x: Value, xs: seq<Value>, ys: seq<Value>)
    ensures multiset(CrossBack([x] + xs, ys)) == multiset(After(x, ys)) + multiset(CrossBack(xs, ys))
  {
    if ys != [] {
      CrossBackCons(x, xs, ys[1..]);
      assert ([x] + xs)[1..] == xs;
      assert Before([x] + xs, ys[0]) == [Cat(x, ys[0])] + Before(xs, ys[0]);
    }
  }

  lemma {:induction false} CrossBackEmpty(ys: seq<Value>)
    ensures CrossBack([], ys) == []
  {
    if ys != [] { CrossBackEmpty(ys[1..]); }
  }

  lemma {:induction false} CrossEitherWay(xs: seq<Value>, ys: seq<Value>)
    ensures multiset(Cross(xs, ys)) == multiset(CrossBack(xs, ys))
  {
    if xs == [] {
      CrossBackEmpty(ys);
    } else {
      CrossEitherWay(xs[1..], ys);
      CrossBackCons(xs[0], xs[1..], ys);
      assert [xs[0]] + xs[1..] == xs;
    }
  }

  lemma {:induction false} SplitsEitherWay(l: Block, r: Block, begin: nat, m: nat, end: nat)
    ensures multiset(Splits(Seq(L2R, l, r), begin, m, end)) == multiset(Splits(Seq(R2L, l, r), begin, m, end))
    ensures IsUnit(l) || IsUnit(r) ==>
      Splits(Seq(L2R, l, r), begin, m, end) == Splits(Seq(R2L, l, r), begin, m, end)
    decreases end + 1 - m
  {
    hide Splits, Results, Cross, CrossBack;
    NextSplit(Seq(L2R, l, r), begin, m, end);
    NextSplit(Seq(R2L, l, r), begin, m, end);
    if m <= end {
      SplitsEitherWay(l, r, begin, m + 1, end);
      CrossEitherWay(Results(l, begin, m), Results(r, m, end));
    }
  }

  /** `<<` and `>>` yield the same results, each as many times; and in the same order if one side is
      a `Unit`. */
  lemma DirectionKeepsResults(l: Block, r: Block, begin: nat, end: nat)
    ensures multiset(Results(Seq(L2R, l, r), begin, end)) == multiset(Results(Seq(R2L, l, r), begin, end))
    ensures IsUnit(l) || IsUnit(r) ==> Results(Seq(L2R, l, r), begin, end) == Results(Seq(R2L, l, r), begin, end)
  {
    SplitsEitherWay(l, r, begin, begin, end);
  }

  // The bracketing, as sets of results.

  function Join(b: Block, x: Value, y: Value): Value
    requires b.Seq?
  {
    if IsUnit(b) then UnitValue else if IsUnit(b.lhs) then y else if IsUnit(b.rhs) then x else Cat(x, y)
  }

  predicate Way(b: Block, begin: nat, end: nat, v: Value, m: nat, x: Value, y: Value)
    requires b.Seq?
  {
    begin <= m <= end && x in Results(b.lhs, begin, m) && y in Results(b.rhs, m, end) && v == Join(b, x, y)
  }

  lemma {:induction false} InTimes(n: nat, vs: seq<Value>, v: Value)
    ensures v in Times(n, vs) <==> n > 0 && v in vs
  {
    if n > 0 { InTimes(n - 1, vs, v); }
  }

  lemma {:induction false} InAfter(x: Value, ys: seq<Value>, v: Value)
    ensures v in After(x, ys) <==> exists y :: y in ys && v == Cat(x, y)
  {
    if ys != [] {
      InAfter(x, ys[1..], v);
      assert forall y :: y in ys <==> y == ys[0] || y in ys[1..];
    }
  }

  lemma {:induction false} InCross(xs: seq<Value>, ys: seq<Value>, v: Value)
    ensures v in Cross(xs, ys) <==> exists x, y :: x in xs && y in ys && v == Cat(x, y)
  {
    if xs != [] {
      InCross(xs[1..], ys, v);
      InAfter(xs[0], ys, v);
      assert forall x :: x in xs <==> x == xs[0] || x in xs[1..];
    }
  }

  lemma {:induction false} InJoined(b: Block, xs: seq<Value>, ys: seq<Value>, v: Value)
    requires b.Seq? && b.direction.L2R? && !IsUnit(b)
    ensures v in Joined(b, xs, ys) <==> exists x, y :: x in xs && y in ys && v == Join(b, x, y)
  {
    hide Times, Cross;
    if IsUnit(b.lhs) {
      InTimes(|xs|, ys, v);
      if |xs| > 0 && v in ys { assert xs[0] in xs && Join(b, xs[0], v) == v; }
    } else if IsUnit(b.rhs) {
      InTimes(|ys|, xs, v);
      if |ys| > 0 && v in xs { assert ys[0] in ys && Join(b, v, ys[0]) == v; }
    } else {
      InCross(xs, ys, v);
    }
  }

  lemma JoinedOfUnits(b: Block, xs: seq<Value>, ys: seq<Value>)
    requires b.Seq? && IsUnit(b)
    ensures Joined(b, xs, ys) != [] <==> xs != [] && ys != []
  {
    if xs != [] {
      assert Times(|xs|, ys) == ys + Times(|xs| - 1, ys);
      if ys == [] { TimesEmpty(|xs|); }
    }
  }

  lemma {:induction false} TimesEmpty(n: nat)
    ensures Times(n, []) == []
  {
    if n > 0 { TimesEmpty(n - 1); }
  }

  lemma {:induction false} SplitsFind(b: Block, begin: nat, from: nat, end: nat, v: Value)
    returns (m: nat, x: Value, y: Value)
    requires b.Seq? && b.direction.L2R? && begin <= from
    requires if IsUnit(b) then Splits(b, begin, from, end) != [] && v == UnitValue else v in Splits(b, begin, from, end)
    ensures Way(b, begin, end, v, m, x, y)
    decreases end + 1 - from
  {
    hide Splits, Results, Joined;
    NextSplit(b, begin, from, end);
    var xs, ys := Results(b.lhs, begin, from), Results(b.rhs, from, end);
    var here := Joined(b, xs, ys);
    if IsUnit(b) {
      JoinedOfUnits(b, xs, ys);
      if here != [] {
        m, x, y := from, xs[0], ys[0];
        return;
      }
    } else if v in here {
      InJoined(b, xs, ys, v);
      m := from;
      x, y :| x in xs && y in ys && v == Join(b, x, y);
      return;
    }
    m, x, y := SplitsFind(b, begin, from + 1, end, v);
  }

  lemma {:induction false} SplitsHave(b: Block, begin: nat, from: nat, end: nat, v: Value, m: nat, x: Value, y: Value)
    requires b.Seq? && b.direction.L2R? && from <= m
    requires Way(b, begin, end, v, m, x, y)
    ensures if IsUnit(b) then Splits(b, begin, from, end) != [] else v in Splits(b, begin, from, end)
    decreases m - from
  {
    hide Splits, Results, Joined;
    NextSplit(b, begin, from, end);
    if from < m {
      SplitsHave(b, begin, from + 1, end, v, m, x, y);
    } else if IsUnit(b) {
      JoinedOfUnits(b, Results(b.lhs, begin, m), Results(b.rhs, m, end));
    } else {
      InJoined(b, Results(b.lhs, begin, m), Results(b.rhs, m, end), v);
    }
  }

  /** What `a >> b` matches: the ways to split the window in two. */
  lemma Find(b: Block, begin: nat, end: nat, v: Value) returns (m: nat, x: Value, y: Value)
    requires b.Seq? && b.direction.L2R? && v in Results(b, begin, end)
    ensures Way(b, begin, end, v, m, x, y)
  {
    m, x, y := SplitsFind(b, begin, begin, end, v);
  }

  lemma Has(b: Block, begin: nat, end: nat, v: Value, m: nat, x: Value, y: Value)
    requires b.Seq? && b.direction.L2R? && Way(b, begin, end, v, m, x, y)
    ensures v in Results(b, begin, end)
  {
    SplitsHave(b, begin, begin, end, v, m, x, y);
  }

  function Leftwards(a: Block, b: Block, c: Block): Block {
    Seq(L2R, Seq(L2R, a, b), c)
  }

  function Rightwards(a: Block, b: Block, c: Block): Block {
    Seq(L2R, a, Seq(L2R, b, c))
  }

  lemma JoinsAgree(a: Block, b: Block, c: Block, x: Value, y: Value, z: Value)
    ensures Join(Leftwards(a, b, c), Join(Seq(L2R, a, b), x, y), z)
         == Join(Rightwards(a, b, c), x, Join(Seq(L2R, b, c), y, z))
  {
    CatAssociates(x, y, z);
  }

  /** Either bracketing of `a >> b >> c` yields the same set of flattened results, `Unit`s or not. */
  lemma BracketingKeepsTheSet(a: Block, b: Block, c: Block, begin: nat, end: nat, v: Value)
    ensures v in Results(Leftwards(a, b, c), begin, end) <==> v in Results(Rightwards(a, b, c), begin, end)
  {
    hide Results, Join;
    var ab, bc := Seq(L2R, a, b), Seq(L2R, b, c);
    if v in Results(Leftwards(a, b, c), begin, end) {
      var m2, xy, z := Find(Leftwards(a, b, c), begin, end, v);
      var m1, x, y := Find(ab, begin, m2, xy);
      JoinsAgree(a, b, c, x, y, z);
      Has(bc, m1, end, Join(bc, y, z), m2, y, z);
      Has(Rightwards(a, b, c), begin, end, v, m1, x, Join(bc, y, z));
    }
    if v in Results(Rightwards(a, b, c), begin, end) {
      var m1, x, yz := Find(Rightwards(a, b, c), begin, end, v);
      var m2, y, z := Find(bc, m1, end, yz);
      JoinsAgree(a, b, c, x, y, z);
      Has(ab, begin, m2, Join(ab, x, y), m1, x, y);
      Has(Leftwards(a, b, c), begin, end, v, m2, Join(ab, x, y), z);
    }
  }

  // The bracketing, counting results. `t(m1, m2)` is what one pair of splits yields.

  type Bag = multiset<Value>

  function Row(t: (nat, nat) -> Bag, m1: nat, m: nat, end: nat): Bag
    decreases end + 1 - m
  {
    if m > end then multiset{} else t(m1, m) + Row(t, m1, m + 1, end)
  }

  function Column(t: (nat, nat) -> Bag, m: nat, m2: nat): Bag
    decreases m2 + 1 - m
  {
    if m > m2 then multiset{} else t(m, m2) + Column(t, m + 1, m2)
  }

  function ByColumn(t: (nat, nat) -> Bag, begin: nat, m: nat, end: nat): Bag
    decreases end + 1 - m
  {
    if m > end then multiset{} else Column(t, begin, m) + ByColumn(t, begin, m + 1, end)
  }

  function ByRow(t: (nat, nat) -> Bag, m: nat, end: nat): Bag
    decreases end + 1 - m
  {
    if m > end then multiset{} else Row(t, m, m, end) + ByRow(t, m + 1, end)
  }

  lemma Regroup(p: Bag, q: Bag, r: Bag, s: Bag)
    ensures (p + q) + (r + s) == (p + r) + (q + s)
  {
  }

  lemma {:induction false} PeelRow(t: (nat, nat) -> Bag, begin: nat, m: nat, end: nat)
    requires begin <= m
    ensures ByColumn(t, begin, m, end) == Row(t, begin, m, end) + ByColumn(t, begin + 1, m, end)
    decreases end + 1 - m
  {
    if m <= end {
      PeelRow(t, begin, m + 1, end);
      Regroup(t(begin, m), Column(t, begin + 1, m), Row(t, begin, m + 1, end), ByColumn(t, begin + 1, m + 1, end));
    }
  }

  /** Summing a triangle by columns or by rows. */
  lemma {:induction false} Triangle(t: (nat, nat) -> Bag, m: nat, end: nat)
    ensures ByColumn(t, m, m, end) == ByRow(t, m, end)
    decreases end + 1 - m
  {
    hide Row;
    if m <= end {
      PeelRow(t, m, m, end);
      Triangle(t, m + 1, end);
    }
  }

  lemma {:induction false} AfterAppend(x: Value, ys: seq<Value>, zs: seq<Value>)
    ensures After(x, ys + zs) == After(x, ys) + After(x, zs)
  {
    if ys == [] {
      assert ys + zs == zs;
    } else {
      assert (ys + zs)[1..] == ys[1..] + zs;
      AfterAppend(x, ys[1..], zs);
    }
  }

  lemma {:induction false} CrossAppendLeft(xs: seq<Value>, ys: seq<Value>, zs: seq<Value>)
    ensures Cross(xs + ys, zs) == Cross(xs, zs) + Cross(ys, zs)
  {
    if xs == [] {
      assert xs + ys == ys;
    } else {
      assert (xs + ys)[1..] == xs[1..] + ys;
      CrossAppendLeft(xs[1..], ys, zs);
    }
  }

  lemma {:induction false} CrossAppendRight(xs: seq<Value>, ys: seq<Value>, zs: seq<Value>)
    ensures multiset(Cross(xs, ys + zs)) == multiset(Cross(xs, ys)) + multiset(Cross(xs, zs))
  {
    if xs != [] {
      AfterAppend(xs[0], ys, zs);
      CrossAppendRight(xs[1..], ys, zs);
    }
  }

  lemma CrossNone(ys: seq<Value>)
    ensures Cross([], ys) == []
  {
  }

  lemma {:induction false} CrossEmpty(xs: seq<Value>)
    ensures Cross(xs, []) == []
  {
    if xs != [] { CrossEmpty(xs[1..]); }
  }

  lemma CatAssociates(x: Value, y: Value, z: Value)
    ensures Cat(Cat(x, y), z) == Cat(x, Cat(y, z))
  {
    assert Items(x) + Items(y) + Items(z) == Items(x) + (Items(y) + Items(z));
  }

  lemma {:induction false} AfterAfter(x: Value, y: Value, zs: seq<Value>)
    ensures After(Cat(x, y), zs) == After(x, After(y, zs))
  {
    if zs != [] {
      hide Items;
      AfterAfter(x, y, zs[1..]);
      CatAssociates(x, y, zs[0]);
      assert After(y, zs)[1..] == After(y, zs[1..]);
    }
  }

  lemma {:induction false} CrossAfter(x: Value, ys: seq<Value>, zs: seq<Value>)
    ensures Cross(After(x, ys), zs) == After(x, Cross(ys, zs))
  {
    if ys != [] {
      CrossAfter(x, ys[1..], zs);
      AfterAfter(x, ys[0], zs);
      AfterAppend(x, After(ys[0], zs), Cross(ys[1..], zs));
      assert After(x, ys)[1..] == After(x, ys[1..]);
    }
  }

  lemma {:induction false} CrossAssociates(xs: seq<Value>, ys: seq<Value>, zs: seq<Value>)
    ensures Cross(Cross(xs, ys), zs) == Cross(xs, Cross(ys, zs))
  {
    if xs != [] {
      CrossAssociates(xs[1..], ys, zs);
      CrossAfter(xs[0], ys, zs);
      CrossAppendLeft(After(xs[0], ys), Cross(xs[1..], ys), zs);
    }
  }

  function Cell(a: Block, b: Block, c: Block, begin: nat, end: nat): (nat, nat) -> Bag {
    (m1: nat, m2: nat) =>
      multiset(Cross(Cross(Results(a, begin, m1), Results(b, m1, m2)), Results(c, m2, end)))
  }

  lemma {:induction false} LeftCell(a: Block, b: Block, c: Block, begin: nat, end: nat, m: nat, m2: nat)
    requires !IsUnit(a) && !IsUnit(b)
    ensures multiset(Cross(Splits(Seq(L2R, a, b), begin, m, m2), Results(c, m2, end)))
         == Column(Cell(a, b, c, begin, end), m, m2)
    decreases m2 + 1 - m
  {
    hide Splits, Results, Cross;
    NextSplit(Seq(L2R, a, b), begin, m, m2);
    if m <= m2 {
      var here := Cross(Results(a, begin, m), Results(b, m, m2));
      var there := Splits(Seq(L2R, a, b), begin, m + 1, m2);
      assert Splits(Seq(L2R, a, b), begin, m, m2) == here + there;
      CrossAppendLeft(here, there, Results(c, m2, end));
      LeftCell(a, b, c, begin, end, m + 1, m2);
    } else {
      CrossNone(Results(c, m2, end));
    }
  }

  lemma {:induction false} LeftSum(a: Block, b: Block, c: Block, begin: nat, m: nat, end: nat)
    requires !IsUnit(a) && !IsUnit(b) && !IsUnit(c)
    ensures multiset(Splits(Leftwards(a, b, c), begin, m, end)) == ByColumn(Cell(a, b, c, begin, end), begin, m, end)
    decreases end + 1 - m
  {
    hide Splits, Results, Cross, Cell, Column;
    NextSplit(Leftwards(a, b, c), begin, m, end);
    if m <= end {
      LeftCell(a, b, c, begin, end, begin, m);
      LeftSum(a, b, c, begin, m + 1, end);
      SeqResults(Seq(L2R, a, b), begin, m);
    }
  }

  lemma {:induction false} RightCell(a: Block, b: Block, c: Block, begin: nat, end: nat, m1: nat, m: nat)
    requires !IsUnit(b) && !IsUnit(c)
    ensures multiset(Cross(Results(a, begin, m1), Splits(Seq(L2R, b, c), m1, m, end)))
         == Row(Cell(a, b, c, begin, end), m1, m, end)
    decreases end + 1 - m
  {
    hide Splits, Results, Cross;
    NextSplit(Seq(L2R, b, c), m1, m, end);
    var xs := Results(a, begin, m1);
    if m <= end {
      var here := Cross(Results(b, m1, m), Results(c, m, end));
      var there := Splits(Seq(L2R, b, c), m1, m + 1, end);
      assert Splits(Seq(L2R, b, c), m1, m, end) == here + there;
      CrossAppendRight(xs, here, there);
      CrossAssociates(xs, Results(b, m1, m), Results(c, m, end));
      RightCell(a, b, c, begin, end, m1, m + 1);
    } else {
      CrossEmpty(xs);
    }
  }

  lemma {:induction false} RightSum(a: Block, b: Block, c: Block, begin: nat, m: nat, end: nat)
    requires !IsUnit(a) && !IsUnit(b) && !IsUnit(c)
    ensures multiset(Splits(Rightwards(a, b, c), begin, m, end)) == ByRow(Cell(a, b, c, begin, end), m, end)
    decreases end + 1 - m
  {
    hide Splits, Results, Cross, Cell, Row;
    NextSplit(Rightwards(a, b, c), begin, m, end);
    if m <= end {
      RightCell(a, b, c, begin, end, m, m);
      RightSum(a, b, c, begin, m + 1, end);
      SeqResults(Seq(L2R, b, c), m, end);
    }
  }

  /** Without `Unit`s, either bracketing yields each flattened result equally many times. */
  lemma BracketingKeepsTheCounts(a: Block, b: Block, c: Block, begin: nat, end: nat)
    requires !IsUnit(a) && !IsUnit(b) && !IsUnit(c)
    ensures multiset(Results(Leftwards(a, b, c), begin, end)) == multiset(Results(Rightwards(a, b, c), begin, end))
  {
    LeftSum(a, b, c, begin, begin, end);
    RightSum(a, b, c, begin, begin, end);
    Triangle(Cell(a, b, c, begin, end), begin, end);
  }
}
