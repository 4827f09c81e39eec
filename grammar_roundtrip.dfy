/** The parser reads back what the printer writes: every tree of the arithmetic fragment, and
    every top-level form, survives printing and parsing unchanged. Since the printer adds only
    the parentheses that precedence and left associativity make necessary, this is the
    statement that the parser groups `+ -`, `* /` and powers the way the grammar says. */
module GrammarRoundTrip {
  import opened Values
  import opened Grammar

  /** No token the printer emits is `=`, `->` or a keyword. */
  predicate Clean(toks: seq<Token>) {
    forall k | 0 <= k < |toks| :: !toks[k].Sym? || toks[k].s in {"(", ")", ",", "+", "-", "*", "/", "^"}
  }

  /** `rest` cannot continue an expression printed at `level`: it does not open a call's
      argument list, and it holds no operator that binds more tightly than `level` allows. */
  predicate Closes(rest: seq<Token>, level: nat) {
    && !StartsWith(rest, "(")
    && (level <= 1 ==> !StartsWith(rest, "^") && !StartsWith(rest, "**"))
    && (level == 0 ==> !StartsWith(rest, "*") && !StartsWith(rest, "/"))
  }

  /** The order of the mutual induction below: on the same tree, the lemma for `level` comes
      after the one for the tree's own level, and the parenthesised cases after `expr`. */
  function Rank(level: nat, p: nat): nat {
    if level <= p then p - level else p + 1
  }

  lemma {:induction false} ExprRoundTrip(t: Tree, rest: seq<Token>)
    requires Printable(t) && Closes(rest, 0)
    ensures ParseExpr(PrintAt(t, 0) + rest) == ExprTail(t, rest)
    decreases t, Rank(0, Prec(t))
  {
    if Prec(t) == 0 {
      var op, l, r := t.op, t.lhs, t.rhs;
      var more := [OpToken(op)] + PrintAt(r, 1) + rest;
      assert PrintAt(t, 0) + rest == PrintAt(l, 0) + more;
      ExprRoundTrip(l, more);
      TermRoundTrip(r, rest);
      assert more[1..] == PrintAt(r, 1) + rest;
    } else {
      TermRoundTrip(t, rest);
    }
  }

  lemma {:induction false} TermRoundTrip(t: Tree, rest: seq<Token>)
    requires Printable(t) && Closes(rest, 1)
    ensures ParseTerm(PrintAt(t, 1) + rest) == TermTail(t, rest)
    decreases t, Rank(1, Prec(t))
  {
    if Prec(t) == 0 {
      ExprRoundTrip(t, [Sym(")")] + rest);
      Parenthesised(t, rest);
      assert PrintAt(t, 1) + rest == [Sym("(")] + Print(t) + [Sym(")")] + rest;
      assert ParseExp(PrintAt(t, 1) + rest) == ExpTail(t, rest) == Some((t, rest));
    } else if Prec(t) == 1 {
      var op, l, r := t.op, t.lhs, t.rhs;
      var more := [OpToken(op)] + PrintAt(r, 2) + rest;
      assert PrintAt(t, 1) + rest == PrintAt(l, 1) + more;
      TermRoundTrip(l, more);
      ExpRoundTrip(r, rest);
      assert more[1..] == PrintAt(r, 2) + rest;
    } else {
      ExpRoundTrip(t, rest);
    }
  }

  lemma {:induction false} ExpRoundTrip(t: Tree, rest: seq<Token>)
    requires Printable(t) && Closes(rest, 2)
    ensures ParseExp(PrintAt(t, 2) + rest) == ExpTail(t, rest)
    decreases t, Rank(2, Prec(t))
  {
    if Prec(t) < 2 {
      ExprRoundTrip(t, [Sym(")")] + rest);
      Parenthesised(t, rest);
    } else if Prec(t) == 2 {
      var l, r := t.lhs, t.rhs;
      var more := [Sym("^")] + PrintAt(r, 3) + rest;
      assert PrintAt(t, 2) + rest == PrintAt(l, 2) + more;
      ExpRoundTrip(l, more);
      AtomRoundTrip(r, rest);
      assert more[1..] == PrintAt(r, 3) + rest;
    } else {
      AtomRoundTrip(t, rest);
    }
  }

  lemma {:induction false} AtomRoundTrip(t: Tree, rest: seq<Token>)
    requires Printable(t) && Closes(rest, 3)
    ensures ParseAtom(PrintAt(t, 3) + rest) == Some((t, rest))
    decreases t, Rank(3, Prec(t))
  {
    if Prec(t) < 3 {
      ExprRoundTrip(t, [Sym(")")] + rest);
      Parenthesised(t, rest);
    } else {
      match t
      case NumT(_) =>
      case ComplexT(_) =>
      case VarT(_) =>
      case NegT(a) =>
        AtomRoundTrip(a, rest);
        NegAtom(a, rest);
      case CallT(f, args) =>
        if args != [] {
          ArgsRoundTrip(args, [Sym(")")] + rest);
        }
        CallAtom(f, args, rest);
    }
  }

  /** `- atom` read back, given that the operand is. */
  lemma NegAtom(a: Tree, rest: seq<Token>)
    requires Printable(a) && ParseAtom(PrintAt(a, 3) + rest) == Some((a, rest))
    ensures ParseAtom(PrintAt(NegT(a), 3) + rest) == Some((NegT(a), rest))
  {
    assert PrintAt(NegT(a), 3) == [Sym("-")] + PrintAt(a, 3);
    assert ([Sym("-")] + PrintAt(a, 3) + rest)[1..] == PrintAt(a, 3) + rest;
  }

  /** `NAME ( args? )` read back, given that the arguments are. */
  lemma CallAtom(f: string, args: seq<Tree>, rest: seq<Token>)
    requires forall i | 0 <= i < |args| :: Printable(args[i])
    requires args != [] ==> ParseArgs(PrintArgs(args) + ([Sym(")")] + rest)) == Some((args, [Sym(")")] + rest))
    ensures ParseAtom(PrintAt(CallT(f, args), 3) + rest) == Some((CallT(f, args), rest))
  {
    if args == [] {
      EmptyCallAtom(f, rest);
    } else {
      var t := CallT(f, args);
      var close := [Sym(")")] + rest;
      assert PrintAt(t, 3) + rest == [Name(f), Sym("(")] + (PrintArgs(args) + close);
      PrintArgsClean(args);
      ArgumentsAtom(f, PrintArgs(args) + close, args, rest);
    }
  }

  lemma ArgumentsAtom(f: string, inside: seq<Token>, args: seq<Tree>, rest: seq<Token>)
    requires !StartsWith(inside, ")") && ParseArgs(inside) == Some((args, [Sym(")")] + rest))
    ensures ParseAtom([Name(f), Sym("(")] + inside) == Some((CallT(f, args), rest))
  {
    OpenCall([Name(f), Sym("(")] + inside, f, inside);
    assert ([Sym(")")] + rest)[1..] == rest;
  }

  lemma EmptyCallAtom(f: string, rest: seq<Token>)
    ensures ParseAtom(PrintAt(CallT(f, []), 3) + rest) == Some((CallT(f, []), rest))
  {
    var toks := PrintAt(CallT(f, []), 3) + rest;
    assert PrintArgs([]) == [];
    assert PrintAt(CallT(f, []), 3) == [Name(f), Sym("("), Sym(")")];
    assert toks == [Name(f), Sym("("), Sym(")")] + rest;
    assert toks[1..][0] == Sym("(") && toks[2..][0] == Sym(")");
    assert toks[3..] == rest;
  }

  /** `( e )` read as an atom, given what `expr` makes of `e )`. */
  lemma Parenthesised(t: Tree, rest: seq<Token>)
    requires Printable(t) && Prec(t) < 3 && !StartsWith(rest, "(")
    requires ParseExpr(PrintAt(t, 0) + ([Sym(")")] + rest)) == ExprTail(t, [Sym(")")] + rest)
    ensures ParseAtom([Sym("(")] + Print(t) + [Sym(")")] + rest) == Some((t, rest))
  {
    var inner := [Sym(")")] + rest;
    assert ExprTail(t, inner) == Some((t, inner));
    assert inner[1..] == rest;
    OpenParen([Sym("(")] + Print(t) + [Sym(")")] + rest, PrintAt(t, 0) + inner);
  }

  lemma OpenParen(toks: seq<Token>, inside: seq<Token>)
    requires toks == [Sym("(")] + inside
    ensures ParseAtom(toks) == match ParseExpr(inside)
                               case None => None
                               case Some((e, rest)) => if StartsWith(rest, ")") then Some((e, rest[1..])) else None
  {
    assert toks[1..] == inside;
  }

  lemma OpenCall(toks: seq<Token>, f: string, inside: seq<Token>)
    requires toks == [Name(f), Sym("(")] + inside && !StartsWith(inside, ")")
    ensures ParseAtom(toks) == match ParseArgs(inside)
                               case None => None
                               case Some((args, rest)) => if StartsWith(rest, ")") then Some((CallT(f, args), rest[1..])) else None
  {
    assert toks[1..] == [Sym("(")] + inside;
    assert toks[2..] == inside;
  }

  /** `args` read back from its comma-separated printing, up to the closing parenthesis. */
  lemma {:induction false} ArgsRoundTrip(args: seq<Tree>, rest: seq<Token>)
    requires |args| > 0 && (forall i | 0 <= i < |args| :: Printable(args[i]))
    requires StartsWith(rest, ")")
    ensures ParseArgs(PrintArgs(args) + rest) == Some((args, rest))
    decreases args, 0
  {
    if |args| == 1 {
      ExprRoundTrip(args[0], rest);
      assert PrintArgs(args) == PrintAt(args[0], 0);
      assert [args[0]] == args;
    } else {
      var more := [Sym(",")] + PrintArgs(args[1..]) + rest;
      assert PrintArgs(args) + rest == PrintAt(args[0], 0) + more;
      ExprRoundTrip(args[0], more);
      ArgsRoundTrip(args[1..], rest);
      assert more[1..] == PrintArgs(args[1..]) + rest;
      assert [args[0]] + args[1..] == args;
    }
  }

  /** A whole printed expression parses back to itself with nothing left over. */
  lemma ParsePrint(t: Tree)
    requires Printable(t)
    ensures ParseExpr(Print(t)) == Some((t, []))
  {
    ExprRoundTrip(t, []);
    assert PrintAt(t, 0) + [] == Print(t);
  }

  lemma {:induction false} ParamsRoundTrip(params: seq<string>, rest: seq<Token>)
    requires |params| > 0 && !StartsWith(rest, ",")
    ensures ParseParams(PrintParams(params) + rest) == Some((params, rest))
    decreases params
  {
    var toks := PrintParams(params) + rest;
    if |params| == 1 {
      assert toks == [Name(params[0])] + rest;
      assert toks[1..] == rest;
      assert [params[0]] == params;
    } else {
      assert toks == [Name(params[0]), Sym(",")] + (PrintParams(params[1..]) + rest);
      ParamsRoundTrip(params[1..], rest);
      assert toks[2..] == PrintParams(params[1..]) + rest;
      assert [params[0]] + params[1..] == params;
    }
  }

  lemma {:induction false} PrintClean(t: Tree)
    requires Printable(t)
    ensures Clean(Print(t)) && |Print(t)| > 0 && Print(t)[0] != Sym(")")
    decreases t, 1
  {
    match t
    case NumT(_) =>
    case ComplexT(_) =>
    case VarT(_) =>
    case NegT(a) =>
      PrintAtClean(a, 3);
    case BinT(op, l, r) =>
      PrintAtClean(l, Prec(t));
      PrintAtClean(r, Prec(t) + 1);
    case CallT(f, args) =>
      PrintArgsClean(args);
  }

  lemma {:induction false} PrintAtClean(t: Tree, level: nat)
    requires Printable(t)
    ensures Clean(PrintAt(t, level)) && |PrintAt(t, level)| > 0 && PrintAt(t, level)[0] != Sym(")")
    decreases t, 2
  {
    PrintClean(t);
  }

  lemma {:induction false} PrintArgsClean(args: seq<Tree>)
    requires forall i | 0 <= i < |args| :: Printable(args[i])
    ensures Clean(PrintArgs(args))
    ensures args != [] ==> |PrintArgs(args)| > 0 && PrintArgs(args)[0] != Sym(")")
    decreases args
  {
    if args != [] {
      PrintAtClean(args[0], 0);
      PrintArgsClean(args[1..]);
    }
  }

  /** Every line the printer writes parses back to the same top-level form. */
  lemma ParsePrintTop(top: TopTree)
    requires PrintableTop(top)
    ensures ParseTop(PrintTop(top)) == Some(top)
  {
    match top
    case ExprTop(e) => ExprLineRoundTrip(e);
    case AssignTop(n, e) => AssignLineRoundTrip(n, e);
    case UnsetTop(_) =>
    case UndefTop(_) =>
    case DefTop(f, ps, body) => DefLineRoundTrip(f, ps, body);
  }

  lemma ExprLineRoundTrip(e: Tree)
    requires Printable(e)
    ensures ParseTop(PrintTop(ExprTop(e))) == Some(ExprTop(e))
  {
    PrintClean(e);
    ParsePrint(e);
  }

  lemma AssignLineRoundTrip(n: string, e: Tree)
    requires Printable(e)
    ensures ParseTop(PrintTop(AssignTop(n, e))) == Some(AssignTop(n, e))
  {
    var toks := PrintTop(AssignTop(n, e));
    ParsePrint(e);
    assert toks[2..] == Print(e);
  }

  lemma DefLineRoundTrip(f: string, ps: seq<string>, body: Tree)
    requires Printable(body)
    ensures ParseTop(PrintTop(DefTop(f, ps, body))) == Some(DefTop(f, ps, body))
  {
    var head, params, tail := [Sym("def"), Name(f), Sym("(")], PrintParams(ps), [Sym(")"), Sym("=")] + Print(body);
    var toks := PrintTop(DefTop(f, ps, body));
    assert toks == head + params + [Sym(")"), Sym("=")] + Print(body);
    Reassociate(head, params, [Sym(")"), Sym("=")], Print(body));
    DefDispatch(f, params + tail);
    DefTailRoundTrip(f, ps, body);
  }

  lemma Reassociate(a: seq<Token>, b: seq<Token>, c: seq<Token>, d: seq<Token>)
    ensures a + b + c + d == a + (b + (c + d))
  {
  }

  /** A line starting `def NAME (` is read by the `def_func` rule. */
  lemma DefDispatch(f: string, tail: seq<Token>)
    ensures ParseTop([Sym("def"), Name(f), Sym("(")] + tail) == ParseDef(f, tail)
  {
    var toks := [Sym("def"), Name(f), Sym("(")] + tail;
    assert toks[3..] == tail;
  }

  lemma DefTailRoundTrip(f: string, ps: seq<string>, body: Tree)
    requires Printable(body)
    ensures ParseDef(f, PrintParams(ps) + ([Sym(")"), Sym("=")] + Print(body))) == Some(DefTop(f, ps, body))
  {
    var rest := [Sym(")"), Sym("=")] + Print(body);
    var tail := PrintParams(ps) + rest;
    if ps == [] {
      assert tail == rest;
    } else {
      assert tail[0] == Name(ps[0]);
      ParamsRoundTrip(ps, rest);
    }
    assert rest[..2] == [Sym(")"), Sym("=")];
    assert rest[2..] == Print(body);
    ParsePrint(body);
    assert Whole(ParseExpr(rest[2..])) == Some(body);
  }

  /** `a - b - c` groups to the left: it is read as `(a - b) - c` with no parentheses. */
  lemma LeftAssociative(a: Tree, b: Tree, c: Tree)
    requires Printable(a) && Printable(b) && Printable(c)
    requires Prec(a) > 0 && Prec(b) > 0 && Prec(c) > 0
    ensures ParseExpr(Print(a) + [Sym("-")] + Print(b) + [Sym("-")] + Print(c))
            == Some((BinT(Sub, BinT(Sub, a, b), c), []))
  {
    var ab := BinT(Sub, a, b);
    assert Print(ab) == Print(a) + [Sym("-")] + Print(b);
    assert Print(BinT(Sub, ab, c)) == Print(ab) + [Sym("-")] + Print(c);
    ParsePrint(BinT(Sub, ab, c));
  }

  /** Grouping to the right has to be written out: `a - (b - c)`. */
  lemma RightGroupingParenthesised(a: Tree, b: Tree, c: Tree)
    requires Printable(a) && Printable(b) && Printable(c)
    requires Prec(a) > 0 && Prec(b) > 0 && Prec(c) > 0
    ensures Print(BinT(Sub, a, BinT(Sub, b, c)))
            == Print(a) + [Sym("-"), Sym("(")] + Print(b) + [Sym("-")] + Print(c) + [Sym(")")]
  {
    var bc := BinT(Sub, b, c);
    assert PrintAt(b, 0) == Print(b) && PrintAt(c, 1) == Print(c);
    assert Print(bc) == Print(b) + [Sym("-")] + Print(c);
    assert PrintAt(bc, 1) == [Sym("(")] + Print(bc) + [Sym(")")];
    assert Print(BinT(Sub, a, bc)) == Print(a) + [Sym("-")] + PrintAt(bc, 1);
    Regroup(Print(a), Print(b), Print(c));
  }

  lemma Regroup(pa: seq<Token>, pb: seq<Token>, pc: seq<Token>)
    ensures pa + [Sym("-")] + ([Sym("(")] + (pb + [Sym("-")] + pc) + [Sym(")")])
         == pa + [Sym("-"), Sym("(")] + pb + [Sym("-")] + pc + [Sym(")")]
  {
  }

  /** `z = x + y^3`: the power binds tighter than the sum. */
  lemma AssignAddPow()
    ensures ParseTop([Name("z"), Sym("="), Name("x"), Sym("+"), Name("y"), Sym("^"), Number("3")])
            == Some(AssignTop("z", BinT(Add, VarT("x"), BinT(Pow, VarT("y"), NumT("3")))))
  {
    var power := BinT(Pow, VarT("y"), NumT("3"));
    var sum := BinT(Add, VarT("x"), power);
    assert Print(power) == [Name("y"), Sym("^"), Number("3")];
    assert PrintAt(power, 1) == Print(power);
    assert Print(sum) == [Name("x"), Sym("+"), Name("y"), Sym("^"), Number("3")];
    assert PrintTop(AssignTop("z", sum)) == [Name("z"), Sym("=")] + Print(sum);
    ParsePrintTop(AssignTop("z", sum));
  }

  /** `(1 + 2) / 3`: parentheses override precedence. */
  lemma ParenthesisedSum()
    ensures ParseTop([Sym("("), Number("1"), Sym("+"), Number("2"), Sym(")"), Sym("/"), Number("3")])
            == Some(ExprTop(BinT(Div, BinT(Add, NumT("1"), NumT("2")), NumT("3"))))
  {
    var sum := BinT(Add, NumT("1"), NumT("2"));
    var top := ExprTop(BinT(Div, sum, NumT("3")));
    assert Print(sum) == [Number("1"), Sym("+"), Number("2")];
    assert PrintTop(top) == [Sym("("), Number("1"), Sym("+"), Number("2"), Sym(")"), Sym("/"), Number("3")];
    ParsePrintTop(top);
  }

  /** `def f(x, y) = (2 + x) * y`. */
  lemma DefinitionExample()
    ensures ParseTop([Sym("def"), Name("f"), Sym("("), Name("x"), Sym(","), Name("y"), Sym(")"), Sym("="),
                      Sym("("), Number("2"), Sym("+"), Name("x"), Sym(")"), Sym("*"), Name("y")])
            == Some(DefTop("f", ["x", "y"], BinT(Mul, BinT(Add, NumT("2"), VarT("x")), VarT("y"))))
  {
    var sum := BinT(Add, NumT("2"), VarT("x"));
    var top := DefTop("f", ["x", "y"], BinT(Mul, sum, VarT("y")));
    assert Print(sum) == [Number("2"), Sym("+"), Name("x")];
    assert PrintParams(["x", "y"]) == [Name("x"), Sym(","), Name("y")];
    assert PrintTop(top) == [Sym("def"), Name("f"), Sym("("), Name("x"), Sym(","), Name("y"), Sym(")"), Sym("="),
                             Sym("("), Number("2"), Sym("+"), Name("x"), Sym(")"), Sym("*"), Name("y")];
    ParsePrintTop(top);
  }
}
