/** The abstract syntax the tree reductions build and the evaluator consumes.
    In the source an AST is a nested Python list keyed by a string tag
    (`["apply", name, args]`, `["set", name, e]`, ...); here each tag is a constructor.
    Statements (`set`, `unset`, `def`, `undef`, `convert`) occur only at the top of a line:
    the grammar puts them in `toplevel` alone, and function bodies and arguments are `expr`s. */
module Syntax {
  import opened Values

  /** A unit expression inside `{ }`: a unit name, or a unit multiplied or divided by a name,
      nesting to the left. */
  datatype UnitExpr =
    | Unit(name: string)                         // "kg": a bare name
    | TaggedUnit(name: string)                   // ["unit", "kg"]: the older copy's leaf
    | UnitMul(lhs: UnitExpr, rhs: string)        // ["unit_mul", lhs, name]
    | UnitDiv(lhs: UnitExpr, rhs: string)        // ["unit_div", lhs, name]

  datatype Expr =
    | Lit(n: Number)                             // a number
    | Var(name: string)                          // a bare name
    | Apply(fn: string, args: seq<Expr>)         // ["apply", name, [args]]
    | FlatApply(op: string, lhs: Expr, rhs: Expr) // ["apply", op, a, b]: legacy binary operators
    | Matrix(elems: seq<Expr>)                   // ["matrix", [elems]]
    | WithUnits(e: Expr, units: UnitExpr)        // ["with_units", e, u]
    | UnsizedApply(fn: string, payload: seq<Expr>) // ["apply", name, x] where `len(x)` raises: the older
                                                 // copy's one number, or its unreduced `args` tree
    | BareApply(fn: string, arg: Expr)           // ["apply", name, node]: the older copy's call on one
                                                 // compound node, whose list `apply` takes for the arguments

  datatype Stmt =
    | Expression(e: Expr)                        // a bare expression
    | Set(name: string, e: Expr)                 // ["set", name, e]
    | Unset(name: string)                        // ["unset", name]
    | Def(name: string, params: seq<string>, body: Expr) // ["def", name, params, body]
    | Undef(name: string)                        // ["undef", name]
    | Convert(e: Expr, units: UnitExpr)          // ["convert", e, u]

  /** `len()` of the Python object a node is: for a compound node, its list of tag and fields;
      for a name, its string. A number has no length (0 here: the reductions wrap a number
      argument in `UnsizedApply`, never in `BareApply`). */
  function NodeLength(e: Expr): nat {
    match e
    case FlatApply(_, _, _) => 4
    case Matrix(_) => 2
    case Var(name) => |name|
    case Lit(_) => 0
    case _ => 3
  }
}
