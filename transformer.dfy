/** The tree reductions of `TreeTransformer`: each grammar alternative becomes an AST node.
    The two copies differ: the current one reads integer text as `int`, builds binary operators
    as `["apply", op, [a, b]]` and leaves unit names bare; the older one reads every number as
    `float`, builds the flat `["apply", op, a, b]` and tags unit leaves `["unit", name]`.
    A reduction that raises in Python (negating a name, a call or definition with empty
    parentheses) is a `TransformError`; a form the older grammar does not have is a
    `SyntaxError`. */
module Transformer {
  import opened Values
  import opened Syntax
  import opened Numerals
  import opened Grammar

  /** The operator name a binary reduction puts in its `apply` node. */
  function OpName(op: BinOp): (name: string)
    ensures name in {"+", "-", "*", "/", "pow"}
    ensures op == Add <==> name == "+"
    ensures op == Sub <==> name == "-"
    ensures op == Mul <==> name == "*"
    ensures op == Div <==> name == "/"
    ensures op == Pow <==> name == "pow"
  {
    match op
    case Add => "+"
    case Sub => "-"
    case Mul => "*"
    case Div => "/"
    case Pow => "pow"
  }

  /** A number as an exact real. */
  function AsReal(n: Number): real {
    match n
    case Int(i) => i as real
    case Float(x) => x
    case Complex(re, _) => re
  }

  /** `num`: `int(text)` when that succeeds, else `float(text)`; the older copy always
      `float(text)`. `int()` accepts exactly the digit strings among NUMBER tokens. Either way
      the number is real and worth what `float(text)` is worth. */
  function NumValue(d: Dialect, text: string): (n: Number)
    ensures n.Int? <==> d == Current && IsIntText(text)
    ensures !n.Complex? && AsReal(n) == RealValue(text)
  {
    if d == Current && IsIntText(text) then
      RealValueOfInt(text);
      Int(DecimalValue(text))
    else Float(RealValue(text))
  }

  /** A one-digit NUMBER token: the integer in the current copy, the float in the older one. */
  lemma DigitNumber(d: Dialect, c: char)
    requires IsDigit(c)
    ensures NumValue(d, [c]) == if d == Current then Int(DigitValue(c)) else Float(DigitValue(c) as real)
  {
    OneDigit(c);
    RealValueOfInt([c]);
  }

  /** Both copies read the same number: the current one only changes its type. */
  lemma NumValueAgrees(text: string)
    ensures AsReal(NumValue(Current, text)) == AsReal(NumValue(Legacy, text)) == RealValue(text)
  {
    if IsIntText(text) {
      RealValueOfInt(text);
    }
  }

  /** The unit reductions: `unit`, `unit_mul`, `unit_div`. */
  function TransformUnits(d: Dialect, u: UnitTree): UnitExpr {
    match u
    case UnitT(name) => if d == Current then Unit(name) else TaggedUnit(name)
    case UnitMulT(lhs, name) => UnitMul(TransformUnits(d, lhs), name)
    case UnitDivT(lhs, name) => UnitDiv(TransformUnits(d, lhs), name)
  }

  /** The expression reductions, bottom-up as Lark's transformer applies them. */
  function Transform(d: Dialect, t: Tree): (r: Result<Expr>)
    ensures r.Err? ==> r.error.TransformError? || (r.error == SyntaxError && d == Legacy)
    ensures t.NegT? && r.Ok? ==> r.value.Lit?
    ensures t.BaseT? ==> (r.Ok? <==> d == Current)
    ensures t.CallT? && t.args == [] ==> r.Err?
    decreases t, 1
  {
    match t
    case NumT(text) => Ok(Lit(NumValue(d, text)))
    case ComplexT(text) => Ok(Lit(Complex(0.0, RealValue(text))))
    case VarT(name) => Ok(Var(name))
    case NegT(a) =>
      var x :- Transform(d, a);
      if x.Lit? then Ok(Lit(Negate(x.n))) else Err(TransformError("bad operand type for unary -"))
    case BinT(op, l, r) =>
      var a :- Transform(d, l);
      var b :- Transform(d, r);
      Ok(if d == Current then Apply(OpName(op), [a, b]) else FlatApply(OpName(op), a, b))
    case CallT(f, args) =>
      if args == [] then Err(TransformError("list index out of range"))
      else if d == Current then
        var xs :- TransformAll(d, args);
        Ok(Apply(f, xs))
      else if |args| == 1 then
        var x :- Transform(d, args[0]);
        Ok(LegacyCallNode(f, x))
      else
        var xs :- TransformAll(d, args);
        Ok(UnsizedApply(f, xs))
    case MatrixT(elems) =>
      if |elems| == 1 then Transform(d, elems[0])
      else
        var xs :- TransformAll(d, elems);
        Ok(Matrix(xs))
    case UnitsT(a, u) =>
      var x :- Transform(d, a);
      Ok(WithUnits(x, TransformUnits(d, u)))
    case BaseT(digits, base) =>
      if d == Current then Ok(Lit(Int(Positional(digits, DecimalValue(base)))))
      else assert d == Legacy; Err(SyntaxError)
  }

  /** The older copy's `["apply", f, x]` for a call with the one argument `x` (its `?args` rule
      inlines a lone argument), as `apply` reads it: `len(x)` raises on a number; a name is a
      string, whose letters are the arguments, each read as a variable; an operator node is the
      list `["apply", op, a, b]`, whose four items are the arguments. */
  function LegacyCallNode(f: string, x: Expr): (call: Expr)
    ensures call.Apply? ==> call.fn == f && |call.args| == NodeLength(x)
  {
    match x
    case Lit(_) => UnsizedApply(f, [x])
    case Var(name) => Apply(f, seq(|name|, i requires 0 <= i < |name| => Var([name[i]])))
    case FlatApply(op, a, b) => Apply(f, [Var("apply"), Var(op), a, b])
    case _ => BareApply(f, x)
  }

  /** The children of a node, left to right; the first failure is the result. */
  function TransformAll(d: Dialect, ts: seq<Tree>): (r: Result<seq<Expr>>)
    ensures r.Ok? ==> |r.value| == |ts|
    ensures r.Err? ==> r.error.TransformError? || (r.error == SyntaxError && d == Legacy)
    ensures r.Ok? <==> forall i | 0 <= i < |ts| :: Transform(d, ts[i]).Ok?
    ensures r.Ok? ==> forall i | 0 <= i < |ts| :: r.value[i] == Transform(d, ts[i]).value
    decreases ts, 0
  {
    if ts == [] then Ok([])
    else
      var x :- Transform(d, ts[0]);
      var xs :- TransformAll(d, ts[1..]);
      Ok([x] + xs)
  }

  /** The statement reductions. `def` with a single parameter receives that parameter's token
      (the `?var_args` rule inlines it), a string the evaluator reads character by character,
      so its parameters are the name's letters. */
  function TransformTop(d: Dialect, top: TopTree): (r: Result<Stmt>)
    ensures r.Err? ==> r.error.TransformError? || (r.error == SyntaxError && d == Legacy)
    ensures top.ConvertTop? && d == Legacy ==> r == Err(SyntaxError)
    ensures top.UnsetTop? ==> r.Ok? && (d == Current <==> r.value.Unset?)
    ensures top.DefTop? && top.params == [] ==> r.Err?
  {
    match top
    case ExprTop(e) =>
      var x :- Transform(d, e);
      Ok(Expression(x))
    case ConvertTop(e, u) =>
      if d == Legacy then Err(SyntaxError)
      else
        var x :- Transform(d, e);
        Ok(Convert(x, TransformUnits(d, u)))
    case AssignTop(name, e) =>
      var x :- Transform(d, e);
      Ok(Set(name, x))
    case UnsetTop(name) =>
      // The older grammar's `?unset` rule inlines its lone name, so `unset x` is the name `x`.
      Ok(if d == Current then Unset(name) else Expression(Var(name)))
    case DefTop(name, params, body) =>
      var x :- Transform(d, body);
      if params == [] then Err(TransformError("list index out of range"))
      else Ok(Def(name, if |params| == 1 then Letters(params[0]) else params, x))
    case UndefTop(name) => Ok(Undef(name))
  }

  /** A string iterated in Python: its one-character strings. */
  function Letters(s: string): seq<string> {
    seq(|s|, i requires 0 <= i < |s| => [s[i]])
  }
}
