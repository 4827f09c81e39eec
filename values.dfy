/** Runtime values, errors and the result wrappers shared by every part of the calculator. */
module Values {

  /** The two copies of the calculator in the repository: the package under `src/`
      (integers, matrices, units, number bases) and the older top-level copy. */
  datatype Dialect = Current | Legacy

  /** Numbers. Python's `int` is unbounded, like Dafny's `int`; floats and complex numbers
      are kept as exact reals (rounding to binary64 is not modelled). */
  datatype Number =
    | Int(n: int)
    | Float(x: real)
    | Complex(re: real, im: real)

  /** What `evl` can return: a number, the nested lists that `make_matrix` builds,
      or Python's `None` (the result of a statement or of a node `evl` has no branch for). */
  datatype Value =
    | Num(num: Number)
    | MatrixValue(rows: seq<Value>)
    | NoneValue

  /** The exceptions the core raises, one constructor per distinct cause. */
  datatype Error =
    | VariableNotFound(name: string)                      // "Variable {} not found"
    | FunctionNotFound(name: string)                      // "Function {} not found"
    | BuiltinOverwrite(name: string)                      // "Trying overwrite a built-in function"
    | DuplicateArgs                                       // "All args. must be uniq."
    | ArityMismatch(name: string, arity: nat, given: nat) // "Function {} has arity {}, but called with {} args."
    | MissingArgument                                     // IndexError while binding parameters
    | MalformedNode                                       // ValueError when unpacking an apply node
    | RecursionLimit                                      // Python's RecursionError
    | ForeignError(message: string)                       // raised inside a math/numpy builtin
    | SyntaxError                                         // the grammar rejects the input
    | TransformError(message: string)                     // a tree reduction raises
    | NoLength                                            // TypeError: `len()` of a number or of an unreduced tree

  datatype Option<+T> = None | Some(value: T)

  datatype Result<+T> = Ok(value: T) | Err(error: Error) {
    predicate IsFailure() { Err? }

    function PropagateFailure<U>(): Result<U>
      requires Err?
    {
      Err(error)
    }

    function Extract(): T
      requires Ok?
    {
      value
    }
  }

  /** Python's unary minus on a number (`lambda x: -x`, and `neg` in the tree reductions). */
  function Negate(n: Number): (r: Number)
    ensures r.Int? == n.Int? && r.Float? == n.Float? && r.Complex? == n.Complex?
    ensures n.Int? ==> r.n + n.n == 0
    ensures n.Float? ==> r.x + n.x == 0.0
    ensures n.Complex? ==> r.re + n.re == 0.0 && r.im + n.im == 0.0
  {
    match n
    case Int(i) => Int(-i)
    case Float(x) => Float(-x)
    case Complex(re, im) => Complex(-re, -im)
  }

  lemma {:induction false} NegateInvolutive(n: Number)
    ensures Negate(Negate(n)) == n
  {
    match n
    case Int(i) =>
    case Float(x) =>
    case Complex(re, im) =>
  }
}
