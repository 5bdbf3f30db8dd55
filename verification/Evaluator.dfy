/**
 * The tree-walking evaluator. Literals evaluate to themselves, a symbol is
 * looked up in the environment, an empty list is `null`, a list headed by
 * `define`, `set!` or `if` is a special form, and every other list is an
 * application whose head must evaluate to a `{type: 'primitive'}` object.
 *
 * `Eval` and its companions give evaluation as functions from a node and the
 * bindings the environment denotes (a `Store`) to a result and the bindings
 * afterwards; the `Evaluator` class evaluates against its `Environment` object
 * and is proved to agree with them. The lemmas then state what evaluation
 * promises about the bindings.
 */
module Evaluator {
  import opened Types
  import opened Primitives
  import Env = Environment

  /** The bindings an environment chain denotes. */
  type Store = map<string, Value>

  /** A result, or the error thrown, together with the bindings left behind. */
  datatype Step<T> = Step(result: Result<T>, store: Store)

  // ---------------------------------------------------------------------------
  // Host behaviour the evaluator relies on
  // ---------------------------------------------------------------------------

  /** `k` copies of "[object Object]" joined by commas: how an array of nodes is printed. */
  function ObjectsJoined(k: nat): string
  {
    if k == 0 then "" else if k == 1 then "[object Object]" else ObjectsJoined(k - 1) + ",[object Object]"
  }

  /** `${first.value}`: how the head of an application is printed in the "not a procedure" message. */
  function HeadText(n: Node): string
  {
    match n
    case NumberNode(l) => l
    case StringNode(t) => t
    case BooleanNode(b) => if b then "true" else "false"
    case SymbolNode(x) => x
    case ListNode(es) => ObjectsJoined(|es|)
    case QuoteNode(_) => "[object Object]"
  }

  /**
   * `proc.func(...args)`: the arguments are spread into separate
   * parameters, so an arithmetic entry receives the first argument as the
   * array it reduces, and `cons`, `car` and `cdr` receive theirs one by one.
   */
  function CallSpread(op: PrimOp, args: seq<Value>): (r: Result<Value>)
    ensures op.IsArithmetic() && r.Ok? ==> |args| > 0 && args[0].Pair?
    ensures op == Cons && |args| >= 2 ==> r == Ok(MakePair(args[0], args[1]))
  {
    match op
    case Cons =>
      if |args| < 2 then Err(Unmodelled("cons with a missing argument builds a pair holding undefined"))
      else Ok(MakePair(args[0], args[1]))
    case Car =>
      if args == [] then Err(HostTypeError("Cannot read properties of undefined (reading '0')"))
      else First(args[0])
    case Cdr =>
      if args == [] then Err(HostTypeError("Cannot read properties of undefined (reading '1')"))
      else Second(args[0])
    case _ =>
      if args == [] then Err(HostTypeError("Cannot read properties of undefined (reading 'reduce')"))
      else if args[0].Pair? then Arithmetic(op, [args[0].car, args[0].cdr])
      else if args[0].Null? then Err(HostTypeError("Cannot read properties of null (reading 'reduce')"))
      else Err(HostTypeError("args.reduce is not a function"))
  }

  // ---------------------------------------------------------------------------
  // Evaluation as functions of the bindings
  // ---------------------------------------------------------------------------

  function PrependOk(vs: seq<Value>, st: Step<seq<Value>>): Step<seq<Value>>
  {
    if st.result.Ok? then Step(Ok(vs + st.result.value), st.store) else st
  }

  /** Helper: prepending nothing leaves a step as it is. */
  lemma PrependOkNil(st: Step<seq<Value>>)
    ensures PrependOk([], st) == st
  {
    if st.result.Ok? {
      assert [] + st.result.value == st.result.value;
    }
  }

  /** Helper: prepending one value and then more is prepending them together. */
  lemma PrependOkAssoc(vs: seq<Value>, v: Value, st: Step<seq<Value>>)
    ensures PrependOk(vs, PrependOk([v], st)) == PrependOk(vs + [v], st)
  {
    if st.result.Ok? {
      assert vs + ([v] + st.result.value) == (vs + [v]) + st.result.value;
    }
  }

  /** `evaluate(ast)` against bindings `s`. */
  function Eval(n: Node, s: Store): Step<Value>
    decreases n
  {
    match n
    case NumberNode(l) => Step(Ok(Num(NumberValue(l))), s)
    case StringNode(t) => Step(Ok(Str(t)), s)
    case BooleanNode(b) => Step(Ok(Bool(b)), s)
    case SymbolNode(x) => Step(Env.Lookup(s, x), s)
    case ListNode(es) =>
      if es == [] then Step(Ok(Null), s)
      else if es[0].SymbolNode? && SpecialFormOf(es[0].name).Some? then
        match SpecialFormOf(es[0].name).value
        case Define => EvalDefine(es[1..], s)
        case SetBang => EvalSet(es[1..], s)
        case If => EvalIf(es[1..], s)
      else
        var head := Eval(es[0], s);
        if head.result.Err? then head
        else if !head.result.value.Procedure? then
          Step(Err(SchemeError(HeadText(es[0]) + " is not a procedure")), head.store)
        else
          var args := EvalArgs(es[1..], head.store);
          if args.result.Err? then Step(Err(args.result.error), args.store)
          else Step(CallSpread(head.result.value.op, args.result.value), args.store)
    case QuoteNode(_) => Step(Err(SchemeError("Unknown expression type: quote")), s)
  }

  /** `rest.map(expr => this.evaluate(expr))`: left to right, stopping at the first error. */
  function EvalArgs(args: seq<Node>, s: Store): Step<seq<Value>>
    decreases args
  {
    if args == [] then Step(Ok([]), s)
    else
      var h := Eval(args[0], s);
      if h.result.Err? then Step(Err(h.result.error), h.store)
      else PrependOk([h.result.value], EvalArgs(args[1..], h.store))
  }

  function EvalDefine(args: seq<Node>, s: Store): Step<Value>
    decreases args
  {
    if |args| != 2 then Step(Err(InvalidArgumentError("define requires exactly 2 arguments")), s)
    else if !args[0].SymbolNode? then Step(Err(InvalidArgumentError("define requires a symbol as its first argument")), s)
    else
      var v := Eval(args[1], s);
      if v.result.Err? then v
      else Step(Ok(Null), v.store[args[0].name := v.result.value])
  }

  function EvalSet(args: seq<Node>, s: Store): Step<Value>
    decreases args
  {
    if |args| != 2 then Step(Err(InvalidArgumentError("set! requires exactly 2 arguments")), s)
    else if !args[0].SymbolNode? then Step(Err(InvalidArgumentError("set! requires a symbol as its first argument")), s)
    else if args[0].name !in s then Step(Err(UndefinedVariableError(args[0].name)), s)
    else
      var v := Eval(args[1], s);
      if v.result.Err? then v
      else if args[0].name in v.store then Step(Ok(Null), v.store[args[0].name := v.result.value])
      else Step(Err(UndefinedVariableError(args[0].name)), v.store)
  }

  function EvalIf(args: seq<Node>, s: Store): Step<Value>
    decreases args
  {
    if |args| != 2 && |args| != 3 then Step(Err(ConditionalError("if requires 2 or 3 arguments")), s)
    else
      var test := Eval(args[0], s);
      if test.result.Err? then test
      else if test.result.value != Bool(false) then Eval(args[1], test.store)
      else if |args| == 3 then Eval(args[2], test.store)
      else Step(Ok(Null), test.store)
  }

  // ---------------------------------------------------------------------------
  // The root bindings
  // ---------------------------------------------------------------------------

  /** The bindings made by defining each entry of `entries` in turn, as a bare function. */
  function SeedMap(entries: seq<(string, PrimOp)>): Store
  {
    if entries == [] then map[]
    else
      var last := entries[|entries| - 1];
      SeedMap(entries[..|entries| - 1])[last.0 := RawPrimitive(last.1)]
  }

  /** The bindings of a root evaluator: every table entry, as the bare function. */
  function Seeded(): Store
  {
    SeedMap(Table)
  }

  // ---------------------------------------------------------------------------
  // The evaluator object
  // ---------------------------------------------------------------------------

  class Evaluator {
    const env: Env.Environment

    ghost predicate Valid()
    {
      env.Valid()
    }

    /**
     * A fresh frame under `parentEnv`; with no parent, the primitives table
     * is defined into it entry by entry.
     */
    constructor(parentEnv: Env.Environment?)
      requires parentEnv != null ==> parentEnv.Valid()
      ensures Valid() && fresh(env) && env.parent == parentEnv
      ensures parentEnv == null ==> env.Bindings() == Seeded()
      ensures parentEnv != null ==> env.values == map[] && env.Bindings() == parentEnv.Bindings()
    {
      var e := new Env.Environment(parentEnv);
      if parentEnv == null {
        var i := 0;
        while i < |Table|
          invariant 0 <= i <= |Table| && e.Valid() && e.parent == null
          invariant e.Bindings() == SeedMap(Table[..i])
        {
          assert Table[..i + 1][..i] == Table[..i];
          e.Define(Table[i].0, RawPrimitive(Table[i].1));
          i := i + 1;
        }
        assert Table[..|Table|] == Table;
      }
      env := e;
    }

    /** `evaluate(ast)`: agrees with `Eval` on the result and on the bindings left behind. */
    method Evaluate(ast: Node) returns (r: Result<Value>)
      requires Valid()
      modifies env.Frames()
      ensures Step(r, env.Bindings()) == Eval(ast, old(env.Bindings()))
      decreases ast
    {
      match ast
      case NumberNode(l) => r := Ok(Num(NumberValue(l)));
      case StringNode(t) => r := Ok(Str(t));
      case BooleanNode(b) => r := Ok(Bool(b));
      case SymbolNode(x) => r := env.Get(x);
      case ListNode(es) =>
        if |es| == 0 {
          r := Ok(Null);
          return;
        }
        var first, rest := es[0], es[1..];
        if first.SymbolNode? {
          if first.name == "define" {
            r := EvaluateDefine(rest);
            return;
          } else if first.name == "set!" {
            r := EvaluateSet(rest);
            return;
          } else if first.name == "if" {
            r := EvaluateIf(rest);
            return;
          }
        }
        var proc := Evaluate(first);
        if proc.Err? {
          r := proc;
          return;
        }
        if !proc.value.Procedure? {
          r := Err(SchemeError(HeadText(first) + " is not a procedure"));
          return;
        }
        var args := EvaluateArgs(rest);
        if args.Err? {
          r := Err(args.error);
          return;
        }
        r := CallSpread(proc.value.op, args.value);
      case QuoteNode(_) => r := Err(SchemeError("Unknown expression type: quote"));
    }

    /** `rest.map(expr => this.evaluate(expr))`: agrees with `EvalArgs`, stopping at the first error. */
    method EvaluateArgs(rest: seq<Node>) returns (r: Result<seq<Value>>)
      requires Valid()
      modifies env.Frames()
      ensures Step(r, env.Bindings()) == EvalArgs(rest, old(env.Bindings()))
      decreases rest
    {
      var args: seq<Value> := [];
      var i := 0;
      assert rest[0..] == rest;
      PrependOkNil(EvalArgs(rest, old(env.Bindings())));
      while i < |rest|
        invariant 0 <= i <= |rest|
        invariant EvalArgs(rest, old(env.Bindings())) == PrependOk(args, EvalArgs(rest[i..], env.Bindings()))
      {
        var a := Evaluate(rest[i]);
        assert rest[i..][1..] == rest[i + 1..];
        if a.Err? {
          r := Err(a.error);
          return;
        }
        PrependOkAssoc(args, a.value, EvalArgs(rest[i + 1..], env.Bindings()));
        args := args + [a.value];
        i := i + 1;
      }
      assert args + [] == args;
      r := Ok(args);
    }

    /** `evaluateDefine(args)`: agrees with `EvalDefine`. */
    method EvaluateDefine(args: seq<Node>) returns (r: Result<Value>)
      requires Valid()
      modifies env.Frames()
      ensures Step(r, env.Bindings()) == EvalDefine(args, old(env.Bindings()))
      decreases args
    {
      if |args| != 2 {
        r := Err(InvalidArgumentError("define requires exactly 2 arguments"));
        return;
      }
      var nameNode, valueNode := args[0], args[1];
      if !nameNode.SymbolNode? {
        r := Err(InvalidArgumentError("define requires a symbol as its first argument"));
        return;
      }
      var value := Evaluate(valueNode);
      if value.Err? {
        r := value;
        return;
      }
      env.Define(nameNode.name, value.value);
      r := Ok(Null);
    }

    /** `evaluateSet(args)`: agrees with `EvalSet`. */
    method EvaluateSet(args: seq<Node>) returns (r: Result<Value>)
      requires Valid()
      modifies env.Frames()
      ensures Step(r, env.Bindings()) == EvalSet(args, old(env.Bindings()))
      decreases args
    {
      if |args| != 2 {
        r := Err(InvalidArgumentError("set! requires exactly 2 arguments"));
        return;
      }
      var nameNode, valueNode := args[0], args[1];
      if !nameNode.SymbolNode? {
        r := Err(InvalidArgumentError("set! requires a symbol as its first argument"));
        return;
      }
      if !env.Has(nameNode.name) {
        r := Err(UndefinedVariableError(nameNode.name));
        return;
      }
      var value := Evaluate(valueNode);
      if value.Err? {
        r := value;
        return;
      }
      var updated := env.Set(nameNode.name, value.value);
      if updated.Err? {
        r := Err(updated.error);
        return;
      }
      r := Ok(Null);
    }

    /** `evaluateIf(args)`: agrees with `EvalIf`. */
    method EvaluateIf(args: seq<Node>) returns (r: Result<Value>)
      requires Valid()
      modifies env.Frames()
      ensures Step(r, env.Bindings()) == EvalIf(args, old(env.Bindings()))
      decreases args
    {
      if |args| != 2 && |args| != 3 {
        r := Err(ConditionalError("if requires 2 or 3 arguments"));
        return;
      }
      var testResult := Evaluate(args[0]);
      if testResult.Err? {
        r := testResult;
        return;
      }
      if testResult.value != Bool(false) {
        r := Evaluate(args[1]);
      } else if |args| == 3 {
        r := Evaluate(args[2]);
      } else {
        r := Ok(Null);
      }
    }
  }

  // ---------------------------------------------------------------------------
  // What evaluation does to the bindings
  // ---------------------------------------------------------------------------

  /** Evaluation never removes a binding: a name bound before stays bound. */
  lemma {:induction false} EvalKeysGrow(n: Node, s: Store)
    ensures s.Keys <= Eval(n, s).store.Keys
    decreases n
  {
    match n
    case ListNode(es) =>
      if es != [] {
        var args := es[1..];
        if es[0].SymbolNode? && SpecialFormOf(es[0].name).Some? {
          if |args| == 2 || |args| == 3 {
            assert args[0] == es[1] && args[1] == es[2];
            EvalKeysGrow(args[0], s);
            EvalKeysGrow(args[1], s);
            var t := Eval(args[0], s).store;
            EvalKeysGrow(args[1], t);
            if |args| == 3 {
              assert args[2] == es[3];
              EvalKeysGrow(args[2], t);
            }
          }
          AssignKeysGrow(args, s);
          IfKeysGrow(args, s);
          FormsKeysGrow(es, s);
        } else {
          EvalKeysGrow(es[0], s);
          ArgsKeysGrow(args, Eval(es[0], s).store);
          ApplicationKeysGrow(es, s);
        }
      }
    case _ =>
  }

  /** Helper: a special form keeps every binding when the form it dispatches to does. */
  lemma FormsKeysGrow(es: seq<Node>, s: Store)
    requires es != [] && es[0].SymbolNode? && SpecialFormOf(es[0].name).Some?
    requires s.Keys <= EvalDefine(es[1..], s).store.Keys
    requires s.Keys <= EvalSet(es[1..], s).store.Keys
    requires s.Keys <= EvalIf(es[1..], s).store.Keys
    ensures s.Keys <= Eval(ListNode(es), s).store.Keys
  {
  }

  /** Helper: an application keeps every binding when its head and its arguments do. */
  lemma ApplicationKeysGrow(es: seq<Node>, s: Store)
    requires es != [] && !(es[0].SymbolNode? && SpecialFormOf(es[0].name).Some?)
    requires s.Keys <= Eval(es[0], s).store.Keys
    requires Eval(es[0], s).store.Keys <= EvalArgs(es[1..], Eval(es[0], s).store).store.Keys
    ensures s.Keys <= Eval(ListNode(es), s).store.Keys
  {
  }

  /** Helper: `define` and `set!` keep every binding when their value operand does. */
  lemma AssignKeysGrow(args: seq<Node>, s: Store)
    requires |args| == 2 ==> s.Keys <= Eval(args[1], s).store.Keys
    ensures s.Keys <= EvalDefine(args, s).store.Keys
    ensures s.Keys <= EvalSet(args, s).store.Keys
  {
  }

  /** Helper: `if` keeps every binding when its operands do. */
  lemma IfKeysGrow(args: seq<Node>, s: Store)
    requires |args| == 2 || |args| == 3 ==>
      && s.Keys <= Eval(args[0], s).store.Keys
      && Eval(args[0], s).store.Keys <= Eval(args[1], Eval(args[0], s).store).store.Keys
      && (|args| == 3 ==> Eval(args[0], s).store.Keys <= Eval(args[2], Eval(args[0], s).store).store.Keys)
    ensures s.Keys <= EvalIf(args, s).store.Keys
  {
  }

  lemma {:induction false} ArgsKeysGrow(args: seq<Node>, s: Store)
    ensures s.Keys <= EvalArgs(args, s).store.Keys
    decreases args
  {
    if args != [] {
      EvalKeysGrow(args[0], s);
      ArgsKeysGrow(args[1..], Eval(args[0], s).store);
    }
  }

  /** The names a node could bind or rebind: the symbol of every `define` or `set!` form inside it. */
  function Targets(n: Node): set<string>
  {
    match n
    case ListNode(es) =>
      (if |es| == 3 && es[0].SymbolNode? && (es[0].name == "define" || es[0].name == "set!") && es[1].SymbolNode?
       then {es[1].name} else {}) + TargetsAll(es)
    case _ => {}
  }

  function TargetsAll(es: seq<Node>): set<string>
  {
    if es == [] then {} else Targets(es[0]) + TargetsAll(es[1..])
  }

  lemma {:induction false} TargetsAllElement(es: seq<Node>, i: nat)
    requires i < |es|
    ensures Targets(es[i]) <= TargetsAll(es)
    ensures TargetsAll(es[1..]) <= TargetsAll(es)
  {
    if i > 0 {
      TargetsAllElement(es[1..], i - 1);
    }
  }

  /**
   * Evaluation leaves every name that no `define` or `set!` inside the node
   * names exactly as it was: bound to the same value, or unbound.
   */
  lemma {:induction false} EvalFrame(n: Node, s: Store, y: string)
    requires y !in Targets(n)
    ensures Env.Lookup(Eval(n, s).store, y) == Env.Lookup(s, y)
    decreases n
  {
    match n
    case ListNode(es) =>
      if es != [] {
        var args := es[1..];
        if es[0].SymbolNode? && SpecialFormOf(es[0].name).Some? {
          if |args| == 2 || |args| == 3 {
            assert args[0] == es[1] && args[1] == es[2];
            TargetsAllElement(es, 1);
            TargetsAllElement(es, 2);
            EvalFrame(args[0], s, y);
            var t := Eval(args[0], s).store;
            EvalFrame(args[1], t, y);
            EvalFrame(args[1], s, y);
            if |args| == 3 {
              assert args[2] == es[3];
              TargetsAllElement(es, 3);
              EvalFrame(args[2], t, y);
            }
          }
          if es[0].name == "if" {
            IfFrame(args, s, y);
          } else {
            AssignFrame(args, s, y);
          }
          FormsFrame(es, s, y);
        } else {
          TargetsAllElement(es, 0);
          EvalFrame(es[0], s, y);
          ArgsFrame(args, Eval(es[0], s).store, y);
          ApplicationFrame(es, s, y);
        }
      }
    case _ =>
  }

  /** Helper: a special form leaves `y` alone when the form it dispatches to does. */
  lemma FormsFrame(es: seq<Node>, s: Store, y: string)
    requires es != [] && es[0].SymbolNode? && SpecialFormOf(es[0].name).Some?
    requires es[0].name == "if" ==> Env.Lookup(EvalIf(es[1..], s).store, y) == Env.Lookup(s, y)
    requires es[0].name != "if" ==>
      && Env.Lookup(EvalDefine(es[1..], s).store, y) == Env.Lookup(s, y)
      && Env.Lookup(EvalSet(es[1..], s).store, y) == Env.Lookup(s, y)
    ensures Env.Lookup(Eval(ListNode(es), s).store, y) == Env.Lookup(s, y)
  {
  }

  /** Helper: an application leaves `y` alone when its head and its arguments do. */
  lemma ApplicationFrame(es: seq<Node>, s: Store, y: string)
    requires es != [] && !(es[0].SymbolNode? && SpecialFormOf(es[0].name).Some?)
    requires Env.Lookup(Eval(es[0], s).store, y) == Env.Lookup(s, y)
    requires Env.Lookup(EvalArgs(es[1..], Eval(es[0], s).store).store, y) == Env.Lookup(s, y)
    ensures Env.Lookup(Eval(ListNode(es), s).store, y) == Env.Lookup(s, y)
  {
  }

  /** Helper: `define` and `set!` change only the name they assign. */
  lemma AssignFrame(args: seq<Node>, s: Store, y: string)
    requires |args| == 2 && args[0].SymbolNode? ==> y != args[0].name
    requires |args| == 2 ==> Env.Lookup(Eval(args[1], s).store, y) == Env.Lookup(s, y)
    ensures Env.Lookup(EvalDefine(args, s).store, y) == Env.Lookup(s, y)
    ensures Env.Lookup(EvalSet(args, s).store, y) == Env.Lookup(s, y)
  {
  }

  /** Helper: `if` changes only what its operands change. */
  lemma IfFrame(args: seq<Node>, s: Store, y: string)
    requires |args| == 2 || |args| == 3 ==>
      && Env.Lookup(Eval(args[0], s).store, y) == Env.Lookup(s, y)
      && Env.Lookup(Eval(args[1], Eval(args[0], s).store).store, y) == Env.Lookup(s, y)
      && (|args| == 3 ==> Env.Lookup(Eval(args[2], Eval(args[0], s).store).store, y) == Env.Lookup(s, y))
    ensures Env.Lookup(EvalIf(args, s).store, y) == Env.Lookup(s, y)
  {
  }

  lemma {:induction false} ArgsFrame(args: seq<Node>, s: Store, y: string)
    requires y !in TargetsAll(args)
    ensures Env.Lookup(EvalArgs(args, s).store, y) == Env.Lookup(s, y)
    decreases args
  {
    if args != [] {
      EvalFrame(args[0], s, y);
      ArgsFrame(args[1..], Eval(args[0], s).store, y);
    }
  }

  // ---------------------------------------------------------------------------
  // Special forms
  // ---------------------------------------------------------------------------

  /**
   * A list headed by `define`, `set!` or `if` goes to its special form,
   * whatever the bindings hold for that name.
   */
  lemma SpecialFormsDispatch(f: SpecialForm, args: seq<Node>, s: Store)
    ensures var e := Eval(ListNode([SymbolNode(Keyword(f))] + args), s);
      match f
      case Define => e == EvalDefine(args, s)
      case SetBang => e == EvalSet(args, s)
      case If => e == EvalIf(args, s)
  {
    assert ([SymbolNode(Keyword(f))] + args)[1..] == args;
  }

  /**
   * `define` binds the name to the value of its second argument and returns
   * `null`; looking the name up then gives that value, and every other name
   * is as the value's evaluation left it.
   */
  lemma DefineBinds(x: string, e: Node, s: Store, other: string)
    requires Eval(e, s).result.Ok?
    ensures var v := Eval(e, s);
      var d := EvalDefine([SymbolNode(x), e], s);
      && d == Step(Ok(Null), v.store[x := v.result.value])
      && Eval(SymbolNode(x), d.store).result == Ok(v.result.value)
      && (other != x ==> Env.Lookup(d.store, other) == Env.Lookup(v.store, other))
  {
  }

  /** The list `(define x e)`. */
  function DefineForm(x: string, e: Node): Node
  {
    ListNode([SymbolNode(Keyword(Define))] + [SymbolNode(x), e])
  }

  /** Helper: `(define x e)` is evaluated by `EvalDefine` on its two arguments. */
  lemma DefineFormDispatch(x: string, e: Node, s: Store)
    ensures Eval(DefineForm(x, e), s) == EvalDefine([SymbolNode(x), e], s)
  {
    SpecialFormsDispatch(Define, [SymbolNode(x), e], s);
  }

  /**
   * `(define x e)` followed by `x`: the definition returns `null` and the
   * lookup gives the value of `e`; every other name is as the evaluation of
   * `e` left it.
   */
  lemma DefineThenGet(x: string, e: Node, s: Store, other: string)
    requires Eval(e, s).result.Ok?
    ensures var d := Eval(DefineForm(x, e), s);
      && d.result == Ok(Null)
      && Eval(SymbolNode(x), d.store).result == Eval(e, s).result
      && (other != x ==> Env.Lookup(d.store, other) == Env.Lookup(Eval(e, s).store, other))
  {
    DefineFormDispatch(x, e, s);
    DefineBinds(x, e, s, other);
  }

  /**
   * `(define x e1)`, `x`, `(define x e2)`, `x` in turn: both definitions
   * return `null`, the first lookup gives the value of `e1` and the second
   * the value of `e2`, so a redefinition replaces the earlier value.
   */
  lemma Redefine(x: string, e1: Node, e2: Node, s: Store)
    requires Eval(e1, s).result.Ok?
    requires Eval(e2, Eval(DefineForm(x, e1), s).store).result.Ok?
    ensures var d1 := Eval(DefineForm(x, e1), s);
      var d2 := Eval(DefineForm(x, e2), d1.store);
      && d1.result == Ok(Null) && Eval(SymbolNode(x), d1.store).result == Eval(e1, s).result
      && d2.result == Ok(Null) && Eval(SymbolNode(x), d2.store).result == Eval(e2, d1.store).result
  {
    DefineThenGet(x, e1, s, x);
    DefineThenGet(x, e2, Eval(DefineForm(x, e1), s).store, x);
  }

  /** `define` and `set!` with other than two arguments, or a non-symbol name, are rejected and change nothing. */
  lemma AssignmentShapeErrors(args: seq<Node>, s: Store)
    requires |args| != 2 || !args[0].SymbolNode?
    ensures EvalDefine(args, s).store == s && EvalDefine(args, s).result.Err?
    ensures EvalDefine(args, s).result.error.InvalidArgumentError?
    ensures EvalSet(args, s).store == s && EvalSet(args, s).result.Err?
    ensures EvalSet(args, s).result.error.InvalidArgumentError?
  {
  }

  /** `set!` of an unbound name fails before its value is evaluated, so the bindings are unchanged. */
  lemma SetUnboundFails(x: string, e: Node, s: Store)
    requires x !in s
    ensures EvalSet([SymbolNode(x), e], s) == Step(Err(UndefinedVariableError(x)), s)
  {
  }

  /**
   * `set!` of a bound name rebinds it to the value and returns `null`: the
   * name is still bound after the value is evaluated, so the update cannot
   * fail.
   */
  lemma {:induction false} SetBoundUpdates(x: string, e: Node, s: Store, other: string)
    requires x in s && Eval(e, s).result.Ok?
    ensures var v := Eval(e, s);
      var d := EvalSet([SymbolNode(x), e], s);
      && d == Step(Ok(Null), v.store[x := v.result.value])
      && Eval(SymbolNode(x), d.store).result == Ok(v.result.value)
      && (other != x ==> Env.Lookup(d.store, other) == Env.Lookup(v.store, other))
  {
    EvalKeysGrow(e, s);
  }

  /** `if` with other than two or three arguments is a ConditionalError and changes nothing. */
  lemma IfArity(args: seq<Node>, s: Store)
    requires |args| != 2 && |args| != 3
    ensures EvalIf(args, s) == Step(Err(ConditionalError("if requires 2 or 3 arguments")), s)
  {
  }

  /**
   * Only `#f` is false: a test with any other value evaluates just the
   * consequent; `#f` evaluates just the alternative, or gives `null` when
   * there is none.
   */
  lemma IfSelectsOneBranch(args: seq<Node>, s: Store)
    requires |args| == 2 || |args| == 3
    requires Eval(args[0], s).result.Ok?
    ensures var t := Eval(args[0], s);
      if t.result.value != Bool(false) then EvalIf(args, s) == Eval(args[1], t.store)
      else if |args| == 3 then EvalIf(args, s) == Eval(args[2], t.store)
      else EvalIf(args, s) == Step(Ok(Null), t.store)
  {
  }

  /** Zero, the empty string and the empty list are all true. */
  lemma OnlyFalseIsFalse(c: Node, a: Node, s: Store)
    ensures EvalIf([NumberNode("0"), c, a], s) == Eval(c, s)
    ensures EvalIf([StringNode(""), c, a], s) == Eval(c, s)
    ensures EvalIf([ListNode([]), c, a], s) == Eval(c, s)
    ensures EvalIf([BooleanNode(false), c, a], s) == Eval(a, s)
  {
  }

  // ---------------------------------------------------------------------------
  // Atoms, the empty list and quote
  // ---------------------------------------------------------------------------

  /**
   * Literals evaluate to their value, a symbol to its binding, the empty
   * list to `null`, and a quote node fails; none of them changes the bindings.
   */
  lemma AtomsLeaveBindings(n: Node, s: Store)
    requires !n.ListNode? || n.elements == []
    ensures Eval(n, s).store == s
    ensures n.NumberNode? ==> Eval(n, s).result == Ok(Num(NumberValue(n.lexeme)))
    ensures n.StringNode? ==> Eval(n, s).result == Ok(Str(n.text))
    ensures n.BooleanNode? ==> Eval(n, s).result == Ok(Bool(n.b))
    ensures n.SymbolNode? ==> Eval(n, s).result == Env.Lookup(s, n.name)
    ensures n.ListNode? ==> Eval(n, s).result == Ok(Null)
    ensures n.QuoteNode? ==> Eval(n, s).result == Err(SchemeError("Unknown expression type: quote"))
  {
  }

  // ---------------------------------------------------------------------------
  // Applications under the seeded bindings
  // ---------------------------------------------------------------------------

  /** No binding holds a `{type: 'primitive'}` object. */
  predicate NoProcedures(s: Store)
  {
    forall x :: x in s ==> !s[x].Procedure?
  }

  /** Helper: neither the bindings nor the result hold a `{type: 'primitive'}` object. */
  predicate Clean(st: Step<Value>)
  {
    NoProcedures(st.store) && (st.result.Ok? ==> !st.result.value.Procedure?)
  }

  /** Helper: binding a value that is not a `{type: 'primitive'}` object keeps the bindings clean. */
  lemma NoProceduresUpdate(s: Store, x: string, v: Value)
    requires NoProcedures(s) && !v.Procedure?
    ensures NoProcedures(s[x := v])
  {
  }

  /** Helper: `define` and `set!` keep the bindings clean when their value operand does. */
  lemma AssignNoProcedures(args: seq<Node>, s: Store)
    requires NoProcedures(s)
    requires |args| == 2 ==> Clean(Eval(args[1], s))
    ensures Clean(EvalDefine(args, s)) && Clean(EvalSet(args, s))
  {
    if |args| == 2 && args[0].SymbolNode? {
      var v := Eval(args[1], s);
      if v.result.Ok? {
        NoProceduresUpdate(v.store, args[0].name, v.result.value);
      }
    }
  }

  /** Helper: `if` keeps the bindings clean when its operands do. */
  lemma IfNoProcedures(args: seq<Node>, s: Store)
    requires |args| == 2 || |args| == 3 ==>
      && Clean(Eval(args[0], s))
      && Clean(Eval(args[1], Eval(args[0], s).store))
      && (|args| == 3 ==> Clean(Eval(args[2], Eval(args[0], s).store)))
    requires NoProcedures(s)
    ensures Clean(EvalIf(args, s))
  {
  }

  /** Helper: a special form is clean when each of the three forms is. */
  lemma FormsClean(es: seq<Node>, s: Store)
    requires es != [] && es[0].SymbolNode? && SpecialFormOf(es[0].name).Some?
    requires Clean(EvalDefine(es[1..], s)) && Clean(EvalSet(es[1..], s)) && Clean(EvalIf(es[1..], s))
    ensures Clean(Eval(ListNode(es), s))
  {
  }

  /** Helper: an application is clean when its head is, since a clean head is never called. */
  lemma ApplicationClean(es: seq<Node>, s: Store)
    requires es != [] && !(es[0].SymbolNode? && SpecialFormOf(es[0].name).Some?)
    requires Clean(Eval(es[0], s))
    ensures Clean(Eval(ListNode(es), s))
  {
  }

  /**
   * From bindings without `{type: 'primitive'}` objects, evaluation never
   * produces or binds one.
   */
  lemma {:induction false} EvalNoProcedures(n: Node, s: Store)
    requires NoProcedures(s)
    ensures NoProcedures(Eval(n, s).store)
    ensures Eval(n, s).result.Ok? ==> !Eval(n, s).result.value.Procedure?
    decreases n
  {
    match n
    case ListNode(es) =>
      if es != [] {
        var args := es[1..];
        if es[0].SymbolNode? && SpecialFormOf(es[0].name).Some? {
          if |args| == 2 || |args| == 3 {
            assert args[0] == es[1] && args[1] == es[2];
            EvalNoProcedures(args[0], s);
            EvalNoProcedures(args[1], s);
            var t := Eval(args[0], s).store;
            EvalNoProcedures(args[1], t);
            if |args| == 3 {
              assert args[2] == es[3];
              EvalNoProcedures(args[2], t);
            }
          }
          AssignNoProcedures(args, s);
          IfNoProcedures(args, s);
          FormsClean(es, s);
        } else {
          EvalNoProcedures(es[0], s);
          ApplicationClean(es, s);
        }
      }
    case _ =>
  }

  /**
   * An application whose head evaluates to anything but a
   * `{type: 'primitive'}` object fails with "<head> is not a procedure",
   * and its arguments are not evaluated.
   */
  lemma NotAProcedure(es: seq<Node>, s: Store, v: Value)
    requires es != [] && !(es[0].SymbolNode? && SpecialFormOf(es[0].name).Some?)
    requires Eval(es[0], s).result == Ok(v) && !v.Procedure?
    ensures Eval(ListNode(es), s)
      == Step(Err(SchemeError(HeadText(es[0]) + " is not a procedure")), Eval(es[0], s).store)
  {
  }

  /**
   * Every application fails when no binding holds a `{type: 'primitive'}`
   * object: with the head's own error, or else because the head is not a
   * procedure; the arguments are never evaluated.
   */
  lemma ApplicationsFail(es: seq<Node>, s: Store)
    requires NoProcedures(s)
    requires es != [] && !(es[0].SymbolNode? && SpecialFormOf(es[0].name).Some?)
    ensures Eval(ListNode(es), s).result.Err?
    ensures Eval(ListNode(es), s).store == Eval(es[0], s).store
    ensures Eval(es[0], s).result.Err? ==> Eval(ListNode(es), s).result == Eval(es[0], s).result
    ensures Eval(es[0], s).result.Ok? ==>
      Eval(ListNode(es), s).result == Err(SchemeError(HeadText(es[0]) + " is not a procedure"))
  {
    EvalNoProcedures(es[0], s);
    var head := Eval(es[0], s);
    if head.result.Ok? {
      NotAProcedure(es, s, head.result.value);
    }
  }

  lemma {:induction false} SeedMapBindsBareFunctions(entries: seq<(string, PrimOp)>)
    ensures NoProcedures(SeedMap(entries))
    ensures forall x :: x in SeedMap(entries) ==> SeedMap(entries)[x].RawPrimitive?
    ensures SeedMap(entries).Keys == set i | 0 <= i < |entries| :: entries[i].0
  {
    if entries != [] {
      var init := entries[..|entries| - 1];
      SeedMapBindsBareFunctions(init);
      assert forall i :: 0 <= i < |init| ==> init[i] == entries[i];
    }
  }

  /**
   * The root bindings are exactly the table's names, each bound to the bare
   * function, never to a `{type: 'primitive'}` object.
   */
  lemma SeededBindings()
    ensures NoProcedures(Seeded())
    ensures Seeded().Keys == {"+", "-", "*", "/", "cons", "car", "cdr"}
    ensures forall x :: x in Seeded() ==> Seeded()[x].RawPrimitive?
  {
    SeedMapBindsBareFunctions(Table);
    var names := set i | 0 <= i < |Table| :: Table[i].0;
    assert Table[0].0 == "+" && Table[1].0 == "-" && Table[2].0 == "*" && Table[3].0 == "/";
    assert Table[4].0 == "cons" && Table[5].0 == "car" && Table[6].0 == "cdr";
    assert names == {"+", "-", "*", "/", "cons", "car", "cdr"};
  }

  /** In a root evaluator, `(+ 1 2)` fails: `+` is bound to a bare function, which is not callable. */
  lemma RootAdditionFails()
    ensures Eval(ListNode([SymbolNode("+"), NumberNode("1"), NumberNode("2")]), Seeded())
      == Step(Err(SchemeError("+ is not a procedure")), Seeded())
  {
    SeededBindings();
    var head := Eval(SymbolNode("+"), Seeded());
    assert head.result == Ok(Seeded()["+"]) && head.store == Seeded();
    assert SpecialFormOf("+") == None;
    assert "+" + " is not a procedure" == "+ is not a procedure";
  }

  /**
   * Spreading the arguments gives an arithmetic entry its first argument as
   * the array to reduce: two numbers fail, while the entry called with the
   * array of both would add them, and only a pair as first argument is summed.
   */
  lemma SpreadCallMismatch(a: real, b: real)
    ensures CallSpread(Add, [Num(a), Num(b)]).Err?
    ensures Arithmetic(Add, [Num(a), Num(b)]) == Ok(Num(a + b))
    ensures CallSpread(Add, [Pair(Num(a), Num(b))]) == Ok(Num(a + b))
  {
    ReduceAdd(a, [b]);
    assert Numbers([Num(a), Num(b)]) == [a] + [b];
    assert Sum([b]) == b;
  }
}
