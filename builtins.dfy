/** The builtin table the root environment is pre-loaded with (`Environment.__make`),
    and what applying a builtin does. Only integer `+`, `-`, `*` and unary `neg` are
    interpreted; every other builtin (and those four on non-integers) is a call into
    math/numpy, passed in as the `foreign` parameter. */
module Builtins {
  import opened Values
  import opened Syntax

  /** The Python callable stored in a builtin entry. `Native` names the foreign callable. */
  datatype Op = Add | Sub | Neg | Mul | Native(impl: string)

  /** A function-table entry: the source's `(True, (arity, fn))` for a builtin and
      `(False, (arity, (params, body)))` for a user definition. */
  datatype Entry =
    | Builtin(arity: nat, op: Op)
    | User(arity: nat, params: seq<string>, body: Expr)

  /** Calls into math/numpy: the callable's name and the evaluated arguments. */
  type Foreign = (string, seq<Value>) -> Result<Value>

  /** `math.e` and `math.pi` as the decimal literals Python prints for them. */
  const E: real := 2.718281828459045
  const Pi: real := 3.141592653589793

  /** The variables a root environment starts with. */
  const RootVariables: map<string, Value> := map["e" := Num(Float(E)), "pi" := Num(Float(Pi))]

  /** A builtin table as function entries, every one flagged builtin. */
  function BuiltinEntries(table: map<string, (nat, Op)>): (fs: map<string, Entry>)
    ensures fs.Keys == table.Keys
    ensures forall name :: name in fs ==> fs[name] == Builtin(table[name].0, table[name].1)
  {
    map name | name in table :: Builtin(table[name].0, table[name].1)
  }

  /** The builtin table of the current copy: 20 entries, with the linear-algebra functions. */
  const CurrentTable: map<string, (nat, Op)> := map[
    "+" := (2, Add),
    "-" := (2, Sub),
    "neg" := (1, Neg),
    "*" := (2, Mul),
    "/" := (2, Native("operator.truediv")),
    "pow" := (2, Native("np.power")),
    "sin" := (1, Native("np.sin")),
    "cos" := (1, Native("np.cos")),
    "tan" := (1, Native("np.tan")),
    "ctg" := (1, Native("1 / np.tan")),
    "ln" := (1, Native("np.log")),
    "lg" := (1, Native("np.log10")),
    "log2" := (1, Native("np.log2")),
    "fact" := (1, Native("math.gamma(x + 1)")),
    "sqrt" := (1, Native("np.lib.emath.sqrt")),
    "T" := (1, Native("np.transpose")),
    "tr" := (1, Native("np.trace")),
    "D" := (1, Native("np.linalg.det")),
    "rk" := (1, Native("np.linalg.matrix_rank")),
    "inv" := (1, Native("np.linalg.inv"))
  ]

  /** The builtin table of the legacy copy: 15 entries, `math` instead of numpy and its own `sqrt`. */
  const LegacyTable: map<string, (nat, Op)> := map[
    "+" := (2, Add),
    "-" := (2, Sub),
    "neg" := (1, Neg),
    "*" := (2, Mul),
    "/" := (2, Native("operator.truediv")),
    "pow" := (2, Native("operator.pow")),
    "sin" := (1, Native("math.sin")),
    "cos" := (1, Native("math.cos")),
    "tan" := (1, Native("math.tan")),
    "ctg" := (1, Native("1 / math.tan")),
    "ln" := (1, Native("math.log")),
    "lg" := (1, Native("math.log10")),
    "log2" := (1, Native("math.log2")),
    "fact" := (1, Native("math.gamma(x + 1)")),
    "sqrt" := (1, Native("sqrt"))
  ]

  function Table(d: Dialect): map<string, (nat, Op)> {
    match d
    case Current => CurrentTable
    case Legacy => LegacyTable
  }

  /** The names the legacy root environment starts with. */
  const LegacyNames: set<string> :=
    {"+", "-", "neg", "*", "/", "pow", "sin", "cos", "tan", "ctg", "ln", "lg", "log2", "fact", "sqrt"}

  /** The names only the current copy adds: transpose, trace, determinant, rank and inverse. */
  const MatrixNames: set<string> := {"T", "tr", "D", "rk", "inv"}

  /** The legacy table has exactly the 15 arithmetic and trigonometric names. */
  lemma LegacyTableNames()
    ensures Table(Legacy).Keys == LegacyNames
  {
  }

  /** The current table adds the five matrix functions to those names. */
  lemma CurrentTableNames()
    ensures Table(Current).Keys == LegacyNames + MatrixNames
  {
  }

  /** Both copies have the 15 common names, and only the matrix functions besides. */
  lemma TableNames(d: Dialect)
    ensures LegacyNames <= Table(d).Keys <= LegacyNames + MatrixNames
  {
    if d == Current {
      CurrentTableNames();
    } else {
      LegacyTableNames();
    }
  }

  /** `f`, the name the tests define, is no builtin of either copy, and `sqrt` is one of both. */
  lemma TestNames(d: Dialect)
    ensures "f" !in Table(d) && "sqrt" in Table(d)
  {
    if d == Current {
      assert "f" !in CurrentTable;
    } else {
      assert "f" !in LegacyTable;
    }
  }

  /** In both copies the interpreted operators are binary and `neg` is unary. */
  lemma ArithmeticEntries(d: Dialect)
    ensures Table(d)["+"] == (2, Add) && Table(d)["-"] == (2, Sub)
    ensures Table(d)["*"] == (2, Mul) && Table(d)["neg"] == (1, Neg)
  {
  }

  /** Calls a builtin on already evaluated arguments. Integer arithmetic is exact, as
      Python's unbounded `int` is; anything else goes to the foreign callable. */
  function ApplyBuiltin(foreign: Foreign, op: Op, args: seq<Value>): (r: Result<Value>)
    ensures op.Native? ==> r == foreign(op.impl, args)
    ensures |args| == 2 && args[0].Num? && args[0].num.Int? && args[1].Num? && args[1].num.Int? ==>
      (op == Add ==> r == Ok(Num(Int(args[0].num.n + args[1].num.n)))) &&
      (op == Sub ==> r == Ok(Num(Int(args[0].num.n - args[1].num.n)))) &&
      (op == Mul ==> r == Ok(Num(Int(args[0].num.n * args[1].num.n))))
    ensures |args| == 1 && args[0].Num? && args[0].num.Int? && op == Neg ==>
      r == Ok(Num(Int(-args[0].num.n)))
  {
    match op
    case Add =>
      if IntPair(args) then Ok(Num(Int(args[0].num.n + args[1].num.n))) else foreign("operator.add", args)
    case Sub =>
      if IntPair(args) then Ok(Num(Int(args[0].num.n - args[1].num.n))) else foreign("operator.sub", args)
    case Mul =>
      if IntPair(args) then Ok(Num(Int(args[0].num.n * args[1].num.n))) else foreign("operator.mul", args)
    case Neg =>
      if |args| == 1 && args[0].Num? then Ok(Num(Negate(args[0].num))) else foreign("-x", args)
    case Native(impl) => foreign(impl, args)
  }

  predicate IntPair(args: seq<Value>) {
    |args| == 2 && args[0].Num? && args[0].num.Int? && args[1].Num? && args[1].num.Int?
  }
}
