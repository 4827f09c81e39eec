/** The grammar of an input line (the Lark grammar text of both copies) as parse trees, a
    recursive-descent parser for its arithmetic and statement fragment, and a printer that
    writes a tree back as tokens with as few parentheses as the precedence rules allow.

    Precedence and associativity (the `expr`/`term`/`exp`/`atom` rules): `+ -` bind loosest,
    then `* /`, then `^`/`**`; all three levels are left-recursive, so chains group to the
    left; a prefix `-` takes a single atom. Lexing is left out: the parser reads tokens. */
module Grammar {
  import opened Values

  /** What the lexer hands the parser. `Sym` holds punctuation, operators and the keywords
      `unset`, `def` and `undef`. */
  datatype Token =
    | Number(text: string)      // NUMBER
    | Imaginary(text: string)   // NUMBER followed by `i` or `j`
    | Name(id: string)          // NAME
    | Sym(s: string)

  datatype BinOp = Add | Sub | Mul | Div | Pow

  /** The `units_inner` rule (`units` in the older copy): a name, then `*` or `/` by a name. */
  datatype UnitTree =
    | UnitT(name: string)
    | UnitMulT(lhs: UnitTree, rhs: string)
    | UnitDivT(lhs: UnitTree, rhs: string)

  /** The parse tree of an expression, one constructor per aliased `atom`/`expr` alternative. */
  datatype Tree =
    | NumT(text: string)                   // NUMBER -> num
    | ComplexT(text: string)               // NUMBER ("i" | "j") -> complex_num
    | VarT(name: string)                   // NAME -> var
    | NegT(arg: Tree)                      // "-" atom -> neg
    | BinT(op: BinOp, lhs: Tree, rhs: Tree) // add, sub, mul, div, pow
    | CallT(fn: string, args: seq<Tree>)   // NAME "(" args? ")" -> func_call; no args: []
    | MatrixT(elems: seq<Tree>)            // "[" expr+ "]"
    | UnitsT(arg: Tree, units: UnitTree)   // atom units -> atom_units
    | BaseT(digits: seq<char>, base: string) // "<" (DIGIT | LETTER)+ ">" INT

  /** The `toplevel` alternatives. */
  datatype TopTree =
    | ExprTop(e: Tree)
    | ConvertTop(e: Tree, units: UnitTree)  // expr "->" units -> convert
    | AssignTop(name: string, e: Tree)      // NAME "=" expr
    | UnsetTop(name: string)                // "unset" NAME
    | DefTop(name: string, params: seq<string>, body: Tree) // "def" NAME "(" var_args? ")" "=" expr
    | UndefTop(name: string)                // "undef" NAME

  predicate StartsWith(toks: seq<Token>, s: string) {
    |toks| > 0 && toks[0] == Sym(s)
  }

  /** `expr : term | expr "+" term | expr "-" term`. */
  function ParseExpr(toks: seq<Token>): (r: Option<(Tree, seq<Token>)>)
    ensures r.Some? ==> |r.value.1| < |toks|
    decreases |toks|, 4
  {
    match ParseTerm(toks)
    case None => None
    case Some((t, rest)) => ExprTail(t, rest)
  }

  /** The left-recursive part of `expr`: each `+ term` or `- term` extends the tree so far. */
  function ExprTail(acc: Tree, toks: seq<Token>): (r: Option<(Tree, seq<Token>)>)
    ensures r.Some? ==> |r.value.1| <= |toks|
    decreases |toks|, 0
  {
    if StartsWith(toks, "+") || StartsWith(toks, "-") then
      match ParseTerm(toks[1..])
      case None => None
      case Some((t, rest)) => ExprTail(BinT(if toks[0] == Sym("+") then Add else Sub, acc, t), rest)
    else Some((acc, toks))
  }

  /** `term : exp | term "*" exp | term "/" exp`. */
  function ParseTerm(toks: seq<Token>): (r: Option<(Tree, seq<Token>)>)
    ensures r.Some? ==> |r.value.1| < |toks|
    decreases |toks|, 3
  {
    match ParseExp(toks)
    case None => None
    case Some((t, rest)) => TermTail(t, rest)
  }

  function TermTail(acc: Tree, toks: seq<Token>): (r: Option<(Tree, seq<Token>)>)
    ensures r.Some? ==> |r.value.1| <= |toks|
    decreases |toks|, 0
  {
    if StartsWith(toks, "*") || StartsWith(toks, "/") then
      match ParseExp(toks[1..])
      case None => None
      case Some((t, rest)) => TermTail(BinT(if toks[0] == Sym("*") then Mul else Div, acc, t), rest)
    else Some((acc, toks))
  }

  /** `exp : atom | exp ("**" | "^") atom`. */
  function ParseExp(toks: seq<Token>): (r: Option<(Tree, seq<Token>)>)
    ensures r.Some? ==> |r.value.1| < |toks|
    decreases |toks|, 2
  {
    match ParseAtom(toks)
    case None => None
    case Some((t, rest)) => ExpTail(t, rest)
  }

  function ExpTail(acc: Tree, toks: seq<Token>): (r: Option<(Tree, seq<Token>)>)
    ensures r.Some? ==> |r.value.1| <= |toks|
    decreases |toks|, 0
  {
    if StartsWith(toks, "^") || StartsWith(toks, "**") then
      match ParseAtom(toks[1..])
      case None => None
      case Some((t, rest)) => ExpTail(BinT(Pow, acc, t), rest)
    else Some((acc, toks))
  }

  /** The `atom` alternatives of the arithmetic fragment: a number, an imaginary number, a
      call, a name, a negated atom, or a parenthesised `expr`. */
  function ParseAtom(toks: seq<Token>): (r: Option<(Tree, seq<Token>)>)
    ensures r.Some? ==> |r.value.1| < |toks|
    decreases |toks|, 1
  {
    if toks == [] then None
    else match toks[0]
      case Number(s) => Some((NumT(s), toks[1..]))
      case Imaginary(s) => Some((ComplexT(s), toks[1..]))
      case Name(n) =>
        if !StartsWith(toks[1..], "(") then Some((VarT(n), toks[1..]))
        else if StartsWith(toks[2..], ")") then Some((CallT(n, []), toks[3..]))
        else (match ParseArgs(toks[2..])
          case None => None
          case Some((args, rest)) =>
            if StartsWith(rest, ")") then Some((CallT(n, args), rest[1..])) else None)
      case Sym(s) =>
        if s == "-" then
          (match ParseAtom(toks[1..])
           case None => None
           case Some((a, rest)) => Some((NegT(a), rest)))
        else if s == "(" then
          (match ParseExpr(toks[1..])
           case None => None
           case Some((e, rest)) => if StartsWith(rest, ")") then Some((e, rest[1..])) else None)
        else None
  }

  /** `args : expr ("," expr)*`. */
  function ParseArgs(toks: seq<Token>): (r: Option<(seq<Tree>, seq<Token>)>)
    ensures r.Some? ==> |r.value.0| > 0 && |r.value.1| < |toks|
    decreases |toks|, 5
  {
    match ParseExpr(toks)
    case None => None
    case Some((e, rest)) =>
      if !StartsWith(rest, ",") then Some(([e], rest))
      else match ParseArgs(rest[1..])
        case None => None
        case Some((es, rest2)) => Some(([e] + es, rest2))
  }

  /** `var_args : NAME ("," NAME)*`. */
  function ParseParams(toks: seq<Token>): (r: Option<(seq<string>, seq<Token>)>)
    ensures r.Some? ==> |r.value.0| > 0 && |r.value.1| < |toks|
    decreases |toks|
  {
    if toks == [] || !toks[0].Name? then None
    else if !StartsWith(toks[1..], ",") then Some(([toks[0].id], toks[1..]))
    else match ParseParams(toks[2..])
      case None => None
      case Some((ps, rest)) => Some(([toks[0].id] + ps, rest))
  }

  /** `toplevel`, which must consume the whole line: `unset NAME`, `undef NAME`,
      `def NAME ( var_args? ) = expr`, `NAME = expr`, or an `expr`. */
  function ParseTop(toks: seq<Token>): (r: Option<TopTree>)
    ensures r.Some? && r.value.ExprTop? ==> ParseExpr(toks) == Some((r.value.e, []))
    ensures r.Some? && r.value.AssignTop? ==>
              |toks| > 2 && toks[..2] == [Name(r.value.name), Sym("=")] && ParseExpr(toks[2..]) == Some((r.value.e, []))
  {
    if |toks| == 2 && toks[0] == Sym("unset") && toks[1].Name? then Some(UnsetTop(toks[1].id))
    else if |toks| == 2 && toks[0] == Sym("undef") && toks[1].Name? then Some(UndefTop(toks[1].id))
    else if |toks| >= 3 && toks[0] == Sym("def") && toks[1].Name? && toks[2] == Sym("(") then
      ParseDef(toks[1].id, toks[3..])
    else if |toks| >= 2 && toks[0].Name? && toks[1] == Sym("=") then
      match Whole(ParseExpr(toks[2..]))
      case Some(e) => Some(AssignTop(toks[0].id, e))
      case None => None
    else
      match Whole(ParseExpr(toks))
      case Some(e) => Some(ExprTop(e))
      case None => None
  }

  /** The rest of `def_func` after `def NAME (`: `var_args? ) = expr`. */
  function ParseDef(name: string, tail: seq<Token>): Option<TopTree> {
    var (params, rest) :=
      if StartsWith(tail, ")") then ([], tail)
      else match ParseParams(tail) case None => ([], []) case Some(pr) => pr;
    if |rest| >= 2 && rest[..2] == [Sym(")"), Sym("=")] then
      match Whole(ParseExpr(rest[2..]))
      case Some(body) => Some(DefTop(name, params, body))
      case None => None
    else None
  }

  /** A parse that left no token behind. */
  function Whole(r: Option<(Tree, seq<Token>)>): Option<Tree> {
    if r.Some? && r.value.1 == [] then Some(r.value.0) else None
  }

  /** The trees the parser above can produce: the arithmetic fragment. */
  predicate Printable(t: Tree)
    decreases t
  {
    match t
    case NumT(_) => true
    case ComplexT(_) => true
    case VarT(_) => true
    case NegT(a) => Printable(a)
    case BinT(_, l, r) => Printable(l) && Printable(r)
    case CallT(_, args) => forall i | 0 <= i < |args| :: Printable(args[i])
    case _ => false
  }

  /** How tightly a tree binds: 0 for `+ -`, 1 for `* /`, 2 for a power, 3 for an atom. */
  function Prec(t: Tree): (p: nat)
    ensures p <= 3
  {
    match t
    case BinT(op, _, _) => if op == Add || op == Sub then 0 else if op == Mul || op == Div then 1 else 2
    case _ => 3
  }

  function OpToken(op: BinOp): Token {
    match op
    case Add => Sym("+")
    case Sub => Sym("-")
    case Mul => Sym("*")
    case Div => Sym("/")
    case Pow => Sym("^")
  }

  /** The tokens of a tree. A binary node prints its left operand at its own level and its
      right operand one level tighter, which is what left associativity requires. */
  function Print(t: Tree): seq<Token>
    requires Printable(t)
    decreases t, 1
  {
    match t
    case NumT(s) => [Number(s)]
    case ComplexT(s) => [Imaginary(s)]
    case VarT(n) => [Name(n)]
    case NegT(a) => [Sym("-")] + PrintAt(a, 3)
    case BinT(op, l, r) => PrintAt(l, Prec(t)) + [OpToken(op)] + PrintAt(r, Prec(t) + 1)
    case CallT(f, args) => [Name(f), Sym("(")] + PrintArgs(args) + [Sym(")")]
  }

  /** A tree printed where the grammar expects binding strength at least `level`,
      parenthesised when it binds more loosely. */
  function PrintAt(t: Tree, level: nat): seq<Token>
    requires Printable(t)
    decreases t, 2
  {
    if Prec(t) < level then [Sym("(")] + Print(t) + [Sym(")")] else Print(t)
  }

  function PrintArgs(args: seq<Tree>): seq<Token>
    requires forall i | 0 <= i < |args| :: Printable(args[i])
    decreases args
  {
    if args == [] then []
    else if |args| == 1 then PrintAt(args[0], 0)
    else PrintAt(args[0], 0) + [Sym(",")] + PrintArgs(args[1..])
  }

  function PrintParams(params: seq<string>): seq<Token> {
    if params == [] then []
    else if |params| == 1 then [Name(params[0])]
    else [Name(params[0]), Sym(",")] + PrintParams(params[1..])
  }

  /** Top-level forms the parser reads; `->` conversions are not among them. */
  predicate PrintableTop(top: TopTree) {
    match top
    case ExprTop(e) => Printable(e)
    case AssignTop(_, e) => Printable(e)
    case DefTop(_, _, body) => Printable(body)
    case UnsetTop(_) => true
    case UndefTop(_) => true
    case ConvertTop(_, _) => false
  }

  function PrintTop(top: TopTree): seq<Token>
    requires PrintableTop(top)
  {
    match top
    case ExprTop(e) => Print(e)
    case AssignTop(n, e) => [Name(n), Sym("=")] + Print(e)
    case UnsetTop(n) => [Sym("unset"), Name(n)]
    case DefTop(f, ps, body) => [Sym("def"), Name(f), Sym("(")] + PrintParams(ps) + [Sym(")"), Sym("=")] + Print(body)
    case UndefTop(n) => [Sym("undef"), Name(n)]
  }
}
