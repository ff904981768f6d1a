/**
 The schema combinators of nlp/nlp.h. `Results` is what a block means: the list of values it yields
 on a window of the query. `Eval` is how the source computes it: in continuation-passing style, with
 exceptions to leave early. Both are over one annotated query, which the leaves stand for.
 */
module Nlp {
  datatype Item = UnitItem | Datum(code: int)

  /** What blocks emit: `Unit`, or one or more items. */
  datatype Value = UnitValue | Tuple(items: seq<Item>)

  datatype Direction = L2R | R2L

  /** `name` and `output` stand for C++ types; `asLeft` and `asRight` for the conversions into the
      common type of an `Or`. */
  datatype Block =
    | Leaf(name: int, unit: bool, emits: (nat, nat) -> seq<Value>)
    | Void(of: Block)
    | Or(lhs: Block, rhs: Block, asLeft: Value -> Value, asRight: Value -> Value)
    | And(lhs: Block, rhs: Block)
    | Seq(direction: Direction, lhs: Block, rhs: Block)
    | Map(of: Block, output: int, unit: bool, f: Value -> Value)
    | Filter(of: Block, keep: Value -> bool)

  /** Whether the emitted type is `Unit`. */
  predicate IsUnit(b: Block) {
    match b
    case Leaf(_, unit, _) => unit
    case Void(_) => true
    case Or(l, r, _, _) => IsUnit(l) && IsUnit(r)
    case And(_, _) => false
    case Seq(_, l, r) => IsUnit(l) && IsUnit(r)
    case Map(_, _, unit, _) => unit
    case Filter(of, _) => IsUnit(of)
  }

  function Items(v: Value): seq<Item> {
    if v.UnitValue? then [UnitItem] else v.items
  }

  function Cat(a: Value, b: Value): Value {
    Tuple(Items(a) + Items(b))
  }

  // The meaning of a block.

  function Mapped(f: Value -> Value, vs: seq<Value>): seq<Value> {
    if vs == [] then [] else [f(vs[0])] + Mapped(f, vs[1..])
  }

  function Kept(keep: Value -> bool, vs: seq<Value>): seq<Value> {
    if vs == [] then [] else (if keep(vs[0]) then [vs[0]] else []) + Kept(keep, vs[1..])
  }

  function Once(any: bool): seq<Value> {
    if any then [UnitValue] else []
  }

  /** `x` with each of `ys`, and each of `xs` with `y`. */
  function After(x: Value, ys: seq<Value>): seq<Value> {
    if ys == [] then [] else [Cat(x, ys[0])] + After(x, ys[1..])
  }

  function Before(xs: seq<Value>, y: Value): seq<Value> {
    if xs == [] then [] else [Cat(xs[0], y)] + Before(xs[1..], y)
  }

  function Cross(xs: seq<Value>, ys: seq<Value>): seq<Value> {
    if xs == [] then [] else After(xs[0], ys) + Cross(xs[1..], ys)
  }

  function CrossBack(xs: seq<Value>, ys: seq<Value>): seq<Value> {
    if ys == [] then [] else Before(xs, ys[0]) + CrossBack(xs, ys[1..])
  }

  function Times(n: nat, vs: seq<Value>): seq<Value> {
    if n == 0 then [] else vs + Times(n - 1, vs)
  }

  /** What a sequence yields for one way to split the window. */
  function Joined(b: Block, xs: seq<Value>, ys: seq<Value>): seq<Value>
    requires b.Seq?
  {
    if IsUnit(b.lhs) then Times(|xs|, ys)
    else if IsUnit(b.rhs) then Times(|ys|, xs)
    else if b.direction.L2R? then Cross(xs, ys)
    else CrossBack(xs, ys)
  }

  function Results(b: Block, begin: nat, end: nat): seq<Value>
    decreases b, 1, 0
  {
    match b
    case Leaf(_, _, emits) => emits(begin, end)
    case Void(of) => Once(Results(of, begin, end) != [])
    case Or(l, r, asLeft, asRight) =>
      if IsUnit(b) then Once(Results(l, begin, end) != [] || Results(r, begin, end) != [])
      else Mapped(asLeft, Results(l, begin, end)) + Mapped(asRight, Results(r, begin, end))
    case And(l, r) => Cross(Results(l, begin, end), Results(r, begin, end))
    case Seq(_, _, _) =>
      if IsUnit(b) then Once(Splits(b, begin, begin, end) != []) else Splits(b, begin, begin, end)
    case Map(of, _, _, f) => Mapped(f, Results(of, begin, end))
    case Filter(of, keep) => Kept(keep, Results(of, begin, end))
  }

  /** The results of a sequence, for the split at `m` and later. */
  function Splits(b: Block, begin: nat, m: nat, end: nat): seq<Value>
    requires b.Seq?
    decreases b, 0, end + 1 - m
  {
    if m > end then []
    else Joined(b, Results(b.lhs, begin, m), Results(b.rhs, m, end)) + Splits(b, begin, m + 1, end)
  }

  // The evaluator.

  /** The C++ type of a block, which tells apart the signals thrown by blocks. */
  datatype Shape =
    | LeafShape(name: int)
    | VoidShape(of: Shape)
    | OrShape(lhs: Shape, rhs: Shape)
    | AndShape(lhs: Shape, rhs: Shape)
    | SeqShape(lhs: Shape, rhs: Shape)
    | MapShape(of: Shape, output: int)
    | FilterShape(of: Shape)

  function ShapeOf(b: Block): Shape {
    match b
    case Leaf(name, _, _) => LeafShape(name)
    case Void(of) => VoidShape(ShapeOf(of))
    case Or(l, r, _, _) => OrShape(ShapeOf(l), ShapeOf(r))
    case And(l, r) => AndShape(ShapeOf(l), ShapeOf(r))
    case Seq(_, l, r) => SeqShape(ShapeOf(l), ShapeOf(r))
    case Map(of, output, _, _) => MapShape(ShapeOf(of), output)
    case Filter(of, _) => FilterShape(ShapeOf(of))
  }

  function Size(s: Shape): nat {
    match s
    case LeafShape(_) => 1
    case VoidShape(of) => 1 + Size(of)
    case OrShape(l, r) => 1 + Size(l) + Size(r)
    case AndShape(l, r) => 1 + Size(l) + Size(r)
    case SeqShape(l, r) => 1 + Size(l) + Size(r)
    case MapShape(of, _) => 1 + Size(of)
    case FilterShape(of) => 1 + Size(of)
  }

  /** What can be thrown: by the caller that wants one result only, or by a block of some type. */
  datatype Signal = EvalSucceeded | UnitEmitted(thrower: Shape)

  /** A computation changes the state of whoever waits for results, and may throw. */
  datatype Outcome<S> = Normal(s: S) | Thrown(signal: Signal, s: S)

  /** `catch`: a handler is chosen by the type of what was thrown. */
  function Catch<S>(o: Outcome<S>, shape: Shape): Outcome<S> {
    if o.Thrown? && o.signal == UnitEmitted(shape) then Normal(o.s) else o
  }

  /** The callback that emits a single `Unit`, then throws. */
  function EmitOnce<S>(k: (S, Value) -> Outcome<S>, shape: Shape): (S, Value) -> Outcome<S> {
    (s: S, v: Value) => var o := k(s, UnitValue); if o.Normal? then Thrown(UnitEmitted(shape), o.s) else o
  }

  /** The callback that only throws. */
  function Signalling<S>(shape: Shape): (S, Value) -> Outcome<S> {
    (s: S, v: Value) => Thrown(UnitEmitted(shape), s)
  }

  function EmitAll<S>(vs: seq<Value>, k: (S, Value) -> Outcome<S>, s: S): Outcome<S> {
    if vs == [] then Normal(s)
    else
      var o := k(s, vs[0]);
      if o.Normal? then EmitAll(vs[1..], k, o.s) else o
  }

  function Eval<S>(b: Block, begin: nat, end: nat, k: (S, Value) -> Outcome<S>, s: S): Outcome<S>
    decreases b, 1, 0
  {
    match b
    case Leaf(_, _, emits) => EmitAll(emits(begin, end), k, s)
    case Void(of) => Catch(Eval(of, begin, end, EmitOnce(k, ShapeOf(b)), s), ShapeOf(b))
    case Or(l, r, asLeft, asRight) =>
      if IsUnit(b) then
        var o := Eval(l, begin, end, Signalling(ShapeOf(b)), s);
        var tried := if o.Normal? then Eval(r, begin, end, Signalling(ShapeOf(b)), o.s) else o;
        if tried.Thrown? && tried.signal == UnitEmitted(ShapeOf(b)) then k(tried.s, UnitValue) else tried
      else
        var o := Eval(l, begin, end, (t: S, v: Value) => k(t, asLeft(v)), s);
        if o.Normal? then Eval(r, begin, end, (t: S, v: Value) => k(t, asRight(v)), o.s) else o
    case And(l, r) =>
      Eval(l, begin, end, (t: S, x: Value) => Eval(r, begin, end, (u: S, y: Value) => k(u, Cat(x, y)), t), s)
    case Seq(_, _, _) =>
      if IsUnit(b) then Catch(EvalSplits(b, begin, begin, end, EmitOnce(k, ShapeOf(b)), s), ShapeOf(b))
      else EvalSplits(b, begin, begin, end, k, s)
    case Map(of, _, _, f) => Eval(of, begin, end, (t: S, v: Value) => k(t, f(v)), s)
    case Filter(of, keep) => Eval(of, begin, end, (t: S, v: Value) => if keep(v) then k(t, v) else Normal(t), s)
  }

  /** One round of the loop over the splits of a sequence. */
  function EvalSplit<S>(b: Block, begin: nat, m: nat, end: nat, k: (S, Value) -> Outcome<S>, s: S): Outcome<S>
    requires b.Seq?
    decreases b, 0, 0
  {
    if IsUnit(b.lhs) then
      Eval(b.lhs, begin, m, (t: S, x: Value) => Eval(b.rhs, m, end, k, t), s)
    else if IsUnit(b.rhs) then
      Eval(b.rhs, m, end, (t: S, y: Value) => Eval(b.lhs, begin, m, k, t), s)
    else if b.direction.L2R? then
      Eval(b.lhs, begin, m, (t: S, x: Value) => Eval(b.rhs, m, end, (u: S, y: Value) => k(u, Cat(x, y)), t), s)
    else
      Eval(b.rhs, m, end, (t: S, y: Value) => Eval(b.lhs, begin, m, (u: S, x: Value) => k(u, Cat(x, y)), t), s)
  }

  function EvalSplits<S>(b: Block, begin: nat, m: nat, end: nat, k: (S, Value) -> Outcome<S>, s: S): Outcome<S>
    requires b.Seq?
    decreases b, 0, 1 + end + 1 - m
  {
    if m > end then Normal(s)
    else
      var o := EvalSplit(b, begin, m, end, k, s);
      if o.Normal? then EvalSplits(b, begin, m + 1, end, k, o.s) else o
  }
}
