/** What the tree reductions promise: literal folding of `-`, the shape of operator and call
    nodes in each copy, the dialects' agreement on units, and the reductions applied to the
    repository's own example lines. */
module TransformerProperties {
  import opened Values
  import opened Syntax
  import opened Numerals
  import opened Grammar
  import opened Transformer
  import opened Calc
  import Builtins

  /** `neg` succeeds exactly on a numeric literal, which it folds into its negation. */
  lemma NegFolds(d: Dialect, a: Tree)
    ensures Transform(d, NegT(a)).Ok? <==> Transform(d, a).Ok? && Transform(d, a).value.Lit?
    ensures Transform(d, NegT(a)).Ok? ==> Transform(d, NegT(a)).value == Lit(Negate(Transform(d, a).value.n))
  {
    NegStep(d, a);
  }

  lemma NegStep(d: Dialect, a: Tree)
    ensures Transform(d, NegT(a))
         == if Transform(d, a).Err? then Err(Transform(d, a).error)
            else if Transform(d, a).value.Lit? then Ok(Lit(Negate(Transform(d, a).value.n)))
            else Err(TransformError("bad operand type for unary -"))
  {
  }

  /** Two minus signs on a literal cancel. */
  lemma DoubleNegation(d: Dialect, a: Tree)
    requires Transform(d, a).Ok? && Transform(d, a).value.Lit?
    ensures Transform(d, NegT(NegT(a))) == Transform(d, a)
  {
    NegStep(d, a);
    NegStep(d, NegT(a));
    NegateInvolutive(Transform(d, a).value.n);
  }

  /** A binary operator builds `["apply", op, [a, b]]` in the current copy and the flat
      `["apply", op, a, b]` in the older one, after reducing both operands left to right. */
  lemma BinaryShape(d: Dialect, op: BinOp, l: Tree, r: Tree)
    ensures Transform(d, BinT(op, l, r)).Ok? <==> Transform(d, l).Ok? && Transform(d, r).Ok?
    ensures Transform(d, l).Err? ==> Transform(d, BinT(op, l, r)) == Transform(d, l).PropagateFailure()
    ensures Transform(d, BinT(op, l, r)).Ok? ==>
              var a, b := Transform(d, l).value, Transform(d, r).value;
              Transform(d, BinT(op, l, r)).value == if d == Current then Apply(OpName(op), [a, b]) else FlatApply(OpName(op), a, b)
  {
  }

  /** `func_call` in the current copy builds `["apply", name, args]` from the arguments reduced
      left to right (its `args` rule always yields a list); empty parentheses leave no
      argument list to index, which raises in both copies. */
  lemma CallShape(d: Dialect, f: string, args: seq<Tree>)
    ensures args == [] ==> Transform(d, CallT(f, args)) == Err(TransformError("list index out of range"))
    ensures args != [] ==> (Transform(Current, CallT(f, args)).Ok? <==> TransformAll(Current, args).Ok?)
    ensures args != [] && TransformAll(Current, args).Ok? ==>
              Transform(Current, CallT(f, args)) == Ok(Apply(f, TransformAll(Current, args).value))
  {
  }

  /** The older copy's `?args` rule inlines a lone argument and leaves two or more in an
      unreduced `args` tree: one argument becomes `LegacyCallNode`, several an `UnsizedApply`,
      after reducing the arguments left to right. */
  lemma LegacyCallShape(f: string, args: seq<Tree>)
    requires args != []
    ensures Transform(Legacy, CallT(f, args)).Ok? <==> TransformAll(Legacy, args).Ok?
    ensures |args| == 1 && TransformAll(Legacy, args).Ok? ==>
              Transform(Legacy, CallT(f, args)) == Ok(LegacyCallNode(f, Transform(Legacy, args[0]).value))
    ensures |args| > 1 && TransformAll(Legacy, args).Ok? ==>
              Transform(Legacy, CallT(f, args)) == Ok(UnsizedApply(f, TransformAll(Legacy, args).value))
  {
    if |args| == 1 {
      assert TransformAll(Legacy, args).Ok? <==> Transform(Legacy, args[0]).Ok?;
    }
  }

  /** The older copy cannot call a function with several arguments, nor with one number: once
      the name is found, `len()` of the argument object raises. */
  lemma LegacyCallFails(foreign: Builtins.Foreign, f: string, args: seq<Tree>, sc: Scope, fuel: nat)
    requires Transform(Legacy, CallT(f, args)).Ok?
    requires |args| > 1 || (|args| == 1 && Transform(Legacy, args[0]).value.Lit?)
    ensures Eval(Legacy, foreign, Transform(Legacy, CallT(f, args)).value, sc, fuel)
         == if FunctionResult(sc.funs, f).Err? then Err(FunctionResult(sc.funs, f).error) else Err(NoLength)
  {
    LegacyCallShape(f, args);
  }

  /** An expression node built without the nodes only the older copy builds. */
  predicate Nested(e: Expr) {
    match e
    case Lit(_) => true
    case Var(_) => true
    case Apply(_, args) => forall i | 0 <= i < |args| :: Nested(args[i])
    case FlatApply(_, _, _) => false
    case Matrix(elems) => forall i | 0 <= i < |elems| :: Nested(elems[i])
    case WithUnits(a, _) => Nested(a)
    case UnsizedApply(_, _) => false
    case BareApply(_, _) => false
  }

  /** The current copy never builds a flat `apply` node, nor an apply node without an
      argument list. */
  lemma {:induction false} CurrentNested(t: Tree)
    ensures Transform(Current, t).Ok? ==> Nested(Transform(Current, t).value)
    decreases t, 1
  {
    match t
    case NumT(_) =>
    case ComplexT(_) =>
    case VarT(_) =>
    case NegT(a) =>
    case BinT(op, l, r) =>
      CurrentNested(l);
      CurrentNested(r);
    case CallT(f, args) =>
      CurrentNestedAll(args);
    case MatrixT(elems) =>
      if |elems| == 1 {
        CurrentNested(elems[0]);
      } else {
        CurrentNestedAll(elems);
      }
    case UnitsT(a, u) =>
      CurrentNested(a);
    case BaseT(_, _) =>
  }

  lemma {:induction false} CurrentNestedAll(ts: seq<Tree>)
    ensures TransformAll(Current, ts).Ok? ==> forall i | 0 <= i < |ts| :: Nested(TransformAll(Current, ts).value[i])
    decreases ts, 0
  {
    forall i | 0 <= i < |ts|
      ensures TransformAll(Current, ts).Ok? ==> Nested(TransformAll(Current, ts).value[i])
    {
      CurrentNested(ts[i]);
    }
  }

  /** In the older copy every binary operator reduces to the flat node, which `evl` cannot
      unpack into a name and an argument list: evaluating it fails. */
  lemma LegacyOperatorFails(foreign: Builtins.Foreign, op: BinOp, l: Tree, r: Tree, sc: Scope, fuel: nat)
    requires Transform(Legacy, BinT(op, l, r)).Ok?
    ensures Eval(Legacy, foreign, Transform(Legacy, BinT(op, l, r)).value, sc, fuel) == Err(MalformedNode)
  {
  }

  /** The older copy's unit leaves, with the tag dropped. */
  function Untagged(u: UnitExpr): UnitExpr {
    match u
    case Unit(name) => Unit(name)
    case TaggedUnit(name) => Unit(name)
    case UnitMul(lhs, name) => UnitMul(Untagged(lhs), name)
    case UnitDiv(lhs, name) => UnitDiv(Untagged(lhs), name)
  }

  /** The copies read a unit expression alike except for the leaf's tag. */
  lemma {:induction false} UnitsAgree(u: UnitTree)
    ensures Untagged(TransformUnits(Legacy, u)) == TransformUnits(Current, u)
    ensures Untagged(TransformUnits(Current, u)) == TransformUnits(Current, u)
  {
    match u
    case UnitT(_) =>
    case UnitMulT(lhs, _) => UnitsAgree(lhs);
    case UnitDivT(lhs, _) => UnitsAgree(lhs);
  }

  /** `1.1` is a float in both copies; `2` is an integer only in the current one. */
  lemma NumberExamples()
    ensures TransformTop(Current, ExprTop(NumT("1.1"))) == Ok(Expression(Lit(Float(1.1))))
    ensures TransformTop(Current, ExprTop(NumT("2"))) == Ok(Expression(Lit(Int(2))))
    ensures TransformTop(Legacy, ExprTop(NumT("2"))) == Ok(Expression(Lit(Float(2.0))))
  {
    FloatText();
    DigitNumber(Current, '2');
    DigitNumber(Legacy, '2');
  }

  lemma FloatText()
    ensures NumValue(Current, "1.1") == Float(1.1)
  {
    RealValueExamples();
    assert !IsIntText("1.1") by { assert !IsDigit("1.1"[1]); }
  }

  /** `-2` folds to the integer -2, and `2 - 1j` subtracts a pure imaginary number. */
  lemma NegationExamples()
    ensures TransformTop(Current, ExprTop(NegT(NumT("2")))) == Ok(Expression(Lit(Int(-2))))
    ensures TransformTop(Current, ExprTop(BinT(Sub, NumT("2"), ComplexT("1"))))
            == Ok(Expression(Apply("-", [Lit(Int(2)), Lit(Complex(0.0, 1.0))])))
  {
    DigitNumber(Current, '2');
    DigitNumber(Current, '1');
    RealValueOfInt("1");
  }

  /** `sin(2)` calls with a one-element argument list; `f()` raises in the reduction. In the
      older copy `sin(2)` hands `apply` the bare number, and `sin(xy)` the name, whose letters
      become the arguments. */
  lemma CallExamples(d: Dialect)
    ensures TransformTop(Current, ExprTop(CallT("sin", [NumT("2")]))) == Ok(Expression(Apply("sin", [Lit(Int(2))])))
    ensures TransformTop(d, ExprTop(CallT("f", []))).Err?
    ensures TransformTop(Legacy, ExprTop(CallT("sin", [NumT("2")]))) == Ok(Expression(UnsizedApply("sin", [Lit(Float(2.0))])))
    ensures TransformTop(Legacy, ExprTop(CallT("sin", [VarT("xy")]))) == Ok(Expression(Apply("sin", [Var("x"), Var("y")])))
  {
    DigitNumber(Current, '2');
    DigitNumber(Legacy, '2');
    assert TransformAll(Current, [NumT("2")]).value == [Lit(Int(2))];
    assert LegacyCallNode("sin", Var("xy")) == Apply("sin", [Var("x"), Var("y")]);
  }

  /** `[[1 2] [3 4]]` nests a matrix node per row; a one-element `[x]` is just `x`. */
  lemma MatrixExample(d: Dialect)
    ensures Transform(Current, MatrixT([MatrixT([NumT("1"), NumT("2")]), MatrixT([NumT("3"), NumT("4")])]))
            == Ok(Matrix([Matrix([Lit(Int(1)), Lit(Int(2))]), Matrix([Lit(Int(3)), Lit(Int(4))])]))
    ensures Transform(d, MatrixT([VarT("x")])) == Ok(Var("x"))
  {
    var row1, row2 := MatrixT([NumT("1"), NumT("2")]), MatrixT([NumT("3"), NumT("4")]);
    var m1, m2 := Matrix([Lit(Int(1)), Lit(Int(2))]), Matrix([Lit(Int(3)), Lit(Int(4))]);
    DigitRow('1', '2');
    DigitRow('3', '4');
    assert row1 == MatrixT([NumT(['1']), NumT(['2'])]) && row2 == MatrixT([NumT(['3']), NumT(['4'])]);
    assert DigitValue('1') == 1 && DigitValue('2') == 2 && DigitValue('3') == 3 && DigitValue('4') == 4;
    assert Transform(Current, row1) == Ok(m1) && Transform(Current, row2) == Ok(m2);
    assert TransformAll(Current, [row1, row2]).value == [m1, m2];
    MatrixOfRows(Current, [row1, row2]);
    var single := [VarT("x")];
    assert |single| == 1 && single[0] == VarT("x");
    assert Transform(d, single[0]) == Ok(Var("x"));
  }

  /** A matrix of other than one row is a matrix node over the reduced rows. */
  lemma MatrixOfRows(d: Dialect, rows: seq<Tree>)
    requires |rows| != 1 && TransformAll(d, rows).Ok?
    ensures Transform(d, MatrixT(rows)) == Ok(Matrix(TransformAll(d, rows).value))
  {
  }

  /** A row of two one-digit numbers. */
  lemma DigitRow(a: char, b: char)
    requires IsDigit(a) && IsDigit(b)
    ensures Transform(Current, MatrixT([NumT([a]), NumT([b])]))
            == Ok(Matrix([Lit(Int(DigitValue(a))), Lit(Int(DigitValue(b)))]))
  {
    DigitNumber(Current, a);
    DigitNumber(Current, b);
    assert TransformAll(Current, [NumT([a]), NumT([b])]).value == [Lit(Int(DigitValue(a))), Lit(Int(DigitValue(b)))];
  }

  /** `<ff>16 + <101>2` is the sum of 255 and 5; the older grammar has no `<digits>base`. */
  lemma NumberBaseExample()
    ensures Transform(Current, BinT(Add, BaseT("ff", "16"), BaseT("101", "2")))
            == Ok(Apply("+", [Lit(Int(255)), Lit(Int(5))]))
    ensures Transform(Legacy, BaseT("ff", "16")) == Err(SyntaxError)
  {
    NumberBaseExamples();
    DigitNumber(Current, '1');
    DigitNumber(Current, '2');
    assert "16"[..1] == "1";
    assert DecimalValue("16") == 16;
  }

  /** `x {(kg * m) / s}` and `x {kg} -> {mg}`; the older copy tags the leaf and has no `->`. */
  lemma UnitExamples()
    ensures TransformTop(Current, ExprTop(UnitsT(VarT("x"), UnitDivT(UnitMulT(UnitT("kg"), "m"), "s"))))
            == Ok(Expression(WithUnits(Var("x"), UnitDiv(UnitMul(Unit("kg"), "m"), "s"))))
    ensures TransformTop(Current, ConvertTop(UnitsT(VarT("x"), UnitT("kg")), UnitT("mg")))
            == Ok(Convert(WithUnits(Var("x"), Unit("kg")), Unit("mg")))
    ensures TransformTop(Legacy, ExprTop(UnitsT(VarT("x"), UnitT("kg"))))
            == Ok(Expression(WithUnits(Var("x"), TaggedUnit("kg"))))
    ensures TransformTop(Legacy, ConvertTop(VarT("x"), UnitT("mg"))) == Err(SyntaxError)
  {
  }

  /** A definition with one parameter takes the parameter's letters as its parameters:
      `def f(ab) = ab` defines a function of two arguments `a` and `b`. */
  lemma SingleParameterLetters(d: Dialect)
    ensures TransformTop(d, DefTop("f", ["ab"], VarT("ab"))) == Ok(Def("f", ["a", "b"], Var("ab")))
    ensures TransformTop(d, DefTop("f", ["x"], VarT("x"))) == Ok(Def("f", ["x"], Var("x")))
    ensures TransformTop(d, DefTop("f", [], NumT("1"))).Err?
  {
    assert Letters("ab") == ["a", "b"];
    assert Letters("x") == ["x"];
  }
}
