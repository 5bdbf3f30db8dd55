/**
 * The primitives table: `+ - * /` as `reduce` left folds with no initial
 * value, and `cons`/`car`/`cdr` over the two-slot array.
 */
module Primitives {
  import opened Types

  /** The table's entries in declaration order, with the names they are seeded under. */
  const Table: seq<(string, PrimOp)> :=
    [("+", Add), ("-", Sub), ("*", Mul), ("/", Div), ("cons", Cons), ("car", Car), ("cdr", Cdr)]

  /** One step of an arithmetic reducer: `(a, b) => a op b`. */
  function Combine(op: PrimOp, a: real, b: real): real
    requires op.IsArithmetic()
    requires op == Div ==> b != 0.0
  {
    match op
    case Add => a + b
    case Sub => a - b
    case Mul => a * b
    case Div => a / b
  }

  /** No element after the first is zero, which `/` needs to stay finite. */
  predicate DivisorsNonZero(op: PrimOp, xs: seq<real>)
  {
    op == Div ==> forall i :: 1 <= i < |xs| ==> xs[i] != 0.0
  }

  function FoldLeft(op: PrimOp, acc: real, xs: seq<real>): real
    requires op.IsArithmetic()
    requires op == Div ==> forall i :: 0 <= i < |xs| ==> xs[i] != 0.0
    decreases xs
  {
    if xs == [] then acc else FoldLeft(op, Combine(op, acc, xs[0]), xs[1..])
  }

  /**
   * `args.reduce((a, b) => a op b)`: starts from the first element; an empty
   * array makes `reduce` throw a TypeError.
   */
  function Reduce(op: PrimOp, xs: seq<real>): (r: Result<real>)
    requires op.IsArithmetic() && DivisorsNonZero(op, xs)
    ensures r.Ok? <==> xs != []
    ensures |xs| == 1 ==> r == Ok(xs[0])
  {
    if xs == [] then Err(HostTypeError("Reduce of empty array with no initial value"))
    else Ok(FoldLeft(op, xs[0], xs[1..]))
  }

  lemma {:induction false} FoldLeftSnoc(op: PrimOp, acc: real, xs: seq<real>, y: real)
    requires op.IsArithmetic()
    requires op == Div ==> (forall i :: 0 <= i < |xs| ==> xs[i] != 0.0) && y != 0.0
    ensures FoldLeft(op, acc, xs + [y]) == Combine(op, FoldLeft(op, acc, xs), y)
    decreases xs
  {
    if xs != [] {
      assert (xs + [y])[1..] == xs[1..] + [y];
      FoldLeftSnoc(op, Combine(op, acc, xs[0]), xs[1..], y);
    }
  }

  /**
   * `reduce` is a left fold: appending an argument combines it with the
   * result for the arguments before it.
   */
  lemma {:induction false} ReduceIsLeftFold(op: PrimOp, xs: seq<real>, y: real)
    requires op.IsArithmetic() && xs != [] && DivisorsNonZero(op, xs)
    requires op == Div ==> y != 0.0
    ensures DivisorsNonZero(op, xs + [y])
    ensures Reduce(op, xs + [y]) == Ok(Combine(op, Reduce(op, xs).value, y))
  {
    assert (xs + [y])[0] == xs[0];
    assert (xs + [y])[1..] == xs[1..] + [y];
    if op == Div {
      forall i | 1 <= i < |xs + [y]| ensures (xs + [y])[i] != 0.0 {
        if i < |xs| {
          assert (xs + [y])[i] == xs[i];
        }
      }
    }
    FoldLeftSnoc(op, xs[0], xs[1..], y);
  }

  function Sum(xs: seq<real>): real
  {
    if xs == [] then 0.0 else xs[0] + Sum(xs[1..])
  }

  function Product(xs: seq<real>): real
  {
    if xs == [] then 1.0 else xs[0] * Product(xs[1..])
  }

  lemma {:induction false} FoldAdd(acc: real, xs: seq<real>)
    ensures FoldLeft(Add, acc, xs) == acc + Sum(xs)
    decreases xs
  {
    if xs != [] {
      FoldAdd(acc + xs[0], xs[1..]);
    }
  }

  lemma {:induction false} FoldSub(acc: real, xs: seq<real>)
    ensures FoldLeft(Sub, acc, xs) == acc - Sum(xs)
    decreases xs
  {
    if xs != [] {
      FoldSub(acc - xs[0], xs[1..]);
    }
  }

  lemma {:induction false} FoldMul(acc: real, xs: seq<real>)
    ensures FoldLeft(Mul, acc, xs) == acc * Product(xs)
    decreases xs
  {
    if xs != [] {
      var a, p := acc * xs[0], Product(xs[1..]);
      assert FoldLeft(Mul, acc, xs) == FoldLeft(Mul, a, xs[1..]);
      FoldMul(a, xs[1..]);
      MulAssoc(acc, xs[0], p);
      assert Product(xs) == xs[0] * p;
    }
  }

  /** Helper: real multiplication is associative. */
  lemma MulAssoc(a: real, b: real, c: real)
    ensures a * b * c == a * (b * c)
  {
  }

  /** Helper: dividing twice is dividing by the product. */
  lemma DivDiv(a: real, b: real, c: real)
    requires b != 0.0 && c != 0.0
    ensures b * c != 0.0
    ensures a / b / c == a / (b * c)
  {
    var q := a / b / c;
    assert q * c == a / b;
    assert q * c * b == a;
    MulAssoc(q, c, b);
    assert q * (b * c) == a;
  }

  lemma {:induction false} ProductNonZero(xs: seq<real>)
    requires forall i :: 0 <= i < |xs| ==> xs[i] != 0.0
    ensures Product(xs) != 0.0
  {
    if xs != [] {
      ProductNonZero(xs[1..]);
    }
  }

  lemma {:induction false} FoldDiv(acc: real, xs: seq<real>)
    requires forall i :: 0 <= i < |xs| ==> xs[i] != 0.0
    ensures Product(xs) != 0.0
    ensures FoldLeft(Div, acc, xs) == acc / Product(xs)
    decreases xs
  {
    ProductNonZero(xs);
    if xs != [] {
      FoldDiv(acc / xs[0], xs[1..]);
      DivDiv(acc, xs[0], Product(xs[1..]));
    }
  }

  /** `(+ a b ...)` is the first argument plus the sum of the rest. */
  lemma ReduceAdd(x: real, ys: seq<real>)
    ensures Reduce(Add, [x] + ys) == Ok(x + Sum(ys))
  {
    assert ([x] + ys)[1..] == ys;
    FoldAdd(x, ys);
  }

  /** `(- a b ...)` is the first argument minus the sum of the rest. */
  lemma ReduceSub(x: real, ys: seq<real>)
    ensures Reduce(Sub, [x] + ys) == Ok(x - Sum(ys))
  {
    assert ([x] + ys)[1..] == ys;
    FoldSub(x, ys);
  }

  /** `(* a b ...)` is the product of all arguments. */
  lemma ReduceMul(x: real, ys: seq<real>)
    ensures Reduce(Mul, [x] + ys) == Ok(x * Product(ys))
  {
    assert ([x] + ys)[1..] == ys;
    FoldMul(x, ys);
  }

  /** `(/ a b ...)` with non-zero divisors is the first argument over the product of the rest. */
  lemma ReduceDiv(x: real, ys: seq<real>)
    requires forall i :: 0 <= i < |ys| ==> ys[i] != 0.0
    ensures DivisorsNonZero(Div, [x] + ys) && Product(ys) != 0.0
    ensures Reduce(Div, [x] + ys) == Ok(x / Product(ys))
  {
    assert ([x] + ys)[1..] == ys;
    assert forall i :: 1 <= i < |[x] + ys| ==> ([x] + ys)[i] == ys[i - 1];
    FoldDiv(x, ys);
  }

  // ---------------------------------------------------------------------------
  // The table entries applied to runtime values
  // ---------------------------------------------------------------------------

  predicate AllNumbers(args: seq<Value>) { forall i :: 0 <= i < |args| ==> args[i].Num? }

  function Numbers(args: seq<Value>): (xs: seq<real>)
    requires AllNumbers(args)
    ensures |xs| == |args| && forall i :: 0 <= i < |args| ==> xs[i] == args[i].n
  {
    if args == [] then [] else [args[0].n] + Numbers(args[1..])
  }

  /**
   * An arithmetic entry called with its array of arguments, as it is
   * declared: `(args: number[]) => args.reduce(...)`. `reduce` returns a
   * lone element without calling the reducer, whatever its type.
   */
  function Arithmetic(op: PrimOp, args: seq<Value>): (r: Result<Value>)
    requires op.IsArithmetic()
    ensures args == [] ==> r == Err(HostTypeError("Reduce of empty array with no initial value"))
    ensures |args| == 1 ==> r == Ok(args[0])
    ensures |args| >= 2 && r.Ok? ==> AllNumbers(args) && DivisorsNonZero(op, Numbers(args))
    ensures |args| >= 2 && r.Ok? ==> r.value.Num? && Reduce(op, Numbers(args)) == Ok(r.value.n)
    ensures |args| >= 2 && AllNumbers(args) && DivisorsNonZero(op, Numbers(args)) ==>
      r.Ok? && r.value.Num? && Reduce(op, Numbers(args)) == Ok(r.value.n)
  {
    if |args| == 1 then Ok(args[0])
    else if !AllNumbers(args) then Err(Unmodelled("JavaScript coercion of a non-number operand"))
    else
      var xs := Numbers(args);
      if !DivisorsNonZero(op, xs) then Err(Unmodelled("division by zero gives Infinity or NaN"))
      else match Reduce(op, xs)
        case Ok(x) => Ok(Num(x))
        case Err(e) => Err(e)
  }

  /**
   * With no initial value, an empty argument array makes every arithmetic
   * entry fail, and a single argument comes back unchanged, so `-` does not
   * negate and `/` does not invert it.
   */
  lemma ArithmeticEmptyAndSingle(op: PrimOp, x: real)
    requires op.IsArithmetic()
    ensures Arithmetic(op, []) == Err(HostTypeError("Reduce of empty array with no initial value"))
    ensures Arithmetic(op, [Num(x)]) == Ok(Num(x))
  {
  }

  /** `cons`: `(car, cdr) => [car, cdr]`; `car` and `cdr` take the pair apart again. */
  function MakePair(car: Value, cdr: Value): (p: Value)
    ensures First(p) == Ok(car) && Second(p) == Ok(cdr)
  {
    Pair(car, cdr)
  }

  /**
   * `car`: `pair => pair[0]`. Indexing a non-empty string gives its first
   * character; indexing `null` throws; any other value gives `undefined`.
   */
  function First(v: Value): (r: Result<Value>)
    ensures r.Ok? <==> v.Pair? || (v.Str? && |v.s| >= 1)
    ensures v.Pair? ==> r == Ok(v.car)
    ensures v.Str? && |v.s| >= 1 ==> r == Ok(Str([v.s[0]]))
    ensures v.Null? ==> r.Err? && r.error.HostTypeError?
  {
    match v
    case Pair(a, _) => Ok(a)
    case Str(t) => if |t| >= 1 then Ok(Str([t[0]])) else Err(Unmodelled("indexing gives undefined"))
    case Null => Err(HostTypeError("Cannot read properties of null (reading '0')"))
    case _ => Err(Unmodelled("indexing gives undefined"))
  }

  /**
   * `cdr`: `pair => pair[1]`. Indexing a string of two or more characters
   * gives its second character; indexing `null` throws; any other value
   * gives `undefined`.
   */
  function Second(v: Value): (r: Result<Value>)
    ensures r.Ok? <==> v.Pair? || (v.Str? && |v.s| >= 2)
    ensures v.Pair? ==> r == Ok(v.cdr)
    ensures v.Str? && |v.s| >= 2 ==> r == Ok(Str([v.s[1]]))
    ensures v.Null? ==> r.Err? && r.error.HostTypeError?
  {
    match v
    case Pair(_, b) => Ok(b)
    case Str(t) => if |t| >= 2 then Ok(Str([t[1]])) else Err(Unmodelled("indexing gives undefined"))
    case Null => Err(HostTypeError("Cannot read properties of null (reading '1')"))
    case _ => Err(Unmodelled("indexing gives undefined"))
  }

  /** Every pair is rebuilt by `cons` from its `car` and `cdr`. */
  lemma PairEta(p: Value)
    requires p.Pair?
    ensures MakePair(First(p).value, Second(p).value) == p
  {
  }
}
