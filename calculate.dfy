/** `calculate(s, env)`: parse a line, reduce its tree to a node, and evaluate the node in the
    environment. The line arrives as tokens; lexing is not modelled. */
module Calculator {
  import opened Values
  import opened Syntax
  import opened Grammar
  import opened Transformer
  import opened Calc
  import opened Environments
  import opened CalcProperties
  import Builtins
  import GrammarRoundTrip
  import TransformerProperties
  import opened Scopes

  /** The result of a line and the scope afterwards. A line the grammar rejects or a reduction
      that raises leaves the scope as it was. */
  function Calculation(d: Dialect, foreign: Builtins.Foreign, toks: seq<Token>, sc: Scope, fuel: nat)
    : (out: (Result<Value>, Scope))
    requires sc.Valid()
    ensures out.1.Valid() && |out.1.vars| == |sc.vars|
  {
    match ParseTop(toks)
    case None => (Err(SyntaxError), sc)
    case Some(top) =>
      match TransformTop(d, top)
      case Err(err) => (Err(err), sc)
      case Ok(s) => Exec(d, foreign, s, sc, fuel)
  }

  /** `calculate` over an `Environment` object. */
  method Calculate(d: Dialect, foreign: Builtins.Foreign, toks: seq<Token>, env: Environment, fuel: nat)
    returns (r: Result<Value>)
    requires env.Valid()
    modifies env.Repr()
    ensures (r, ScopeOf(env)) == Calculation(d, foreign, toks, old(ScopeOf(env)), fuel)
  {
    var top := ParseTop(toks);
    if top.None? {
      return Err(SyntaxError);
    }
    var s := TransformTop(d, top.value);
    if s.Err? {
      return Err(s.error);
    }
    r := Execute(d, foreign, s.value, env, fuel);
  }

  /** A line that fails, at any stage, changes no binding. */
  lemma FailedLineKeepsScope(d: Dialect, foreign: Builtins.Foreign, toks: seq<Token>, sc: Scope, fuel: nat)
    requires sc.Valid()
    ensures Calculation(d, foreign, toks, sc, fuel).0.Err? ==> Calculation(d, foreign, toks, sc, fuel).1 == sc
  {
    match ParseTop(toks)
    case None =>
    case Some(top) =>
      match TransformTop(d, top)
      case Err(_) =>
      case Ok(s) => FailedStatementKeepsScope(d, foreign, s, sc, fuel);
  }

  /** The tokens of `def f(x, y) = x + y` and of `f(2, 3)`. */
  const DefineLine: seq<Token> :=
    [Sym("def"), Name("f"), Sym("("), Name("x"), Sym(","), Name("y"), Sym(")"), Sym("="),
     Name("x"), Sym("+"), Name("y")]
  const CallLine: seq<Token> := [Name("f"), Sym("("), Number("2"), Sym(","), Number("3"), Sym(")")]

  const DefineTop: TopTree := DefTop("f", ["x", "y"], BinT(BinOp.Add, VarT("x"), VarT("y")))
  const CallTop: TopTree := ExprTop(CallT("f", [NumT("2"), NumT("3")]))

  /** The definition line reads as `def`, with the copy's own operator node in the body. */
  lemma DefineLineParses(d: Dialect)
    ensures ParseTop(DefineLine) == Some(DefineTop)
    ensures TransformTop(d, DefineTop)
         == Ok(Def("f", ["x", "y"], if d == Current then Apply("+", [Var("x"), Var("y")])
                                    else FlatApply("+", Var("x"), Var("y"))))
  {
    assert PrintParams(["x", "y"]) == [Name("x"), Sym(","), Name("y")];
    assert PrintTop(DefineTop) == DefineLine;
    GrammarRoundTrip.ParsePrintTop(DefineTop);
  }

  /** The call line reads as a call with two number arguments. */
  lemma CallLineParses()
    ensures ParseTop(CallLine) == Some(CallTop)
  {
    assert PrintArgs([NumT("3")]) == [Number("3")];
    assert PrintArgs([NumT("2"), NumT("3")]) == [Number("2"), Sym(","), Number("3")];
    assert PrintTop(CallTop) == CallLine;
    GrammarRoundTrip.ParsePrintTop(CallTop);
  }

  /** The call reduces to an `apply` node over the two numbers in the current copy; the older
      copy's `args` rule leaves them in an unreduced tree, which has no length. */
  lemma CallLineReduces(d: Dialect)
    ensures var numbers := [Lit(NumValue(d, "2")), Lit(NumValue(d, "3"))];
      TransformTop(d, CallTop) == Ok(Expression(if d == Current then Apply("f", numbers) else UnsizedApply("f", numbers)))
  {
    var args := [NumT("2"), NumT("3")];
    var two, three := Lit(NumValue(d, "2")), Lit(NumValue(d, "3"));
    assert Transform(d, args[0]) == Ok(two) && Transform(d, args[1]) == Ok(three);
    var all := TransformAll(d, args);
    assert all.Ok? && |all.value| == 2 && all.value[0] == two && all.value[1] == three;
    assert all.value == [two, three];
    assert CallTop.e == CallT("f", args);
    if d == Current {
      TransformerProperties.CallShape(d, "f", args);
    } else {
      TransformerProperties.LegacyCallShape("f", args);
    }
  }

  /** In the current copy the session `def f(x, y) = x + y`, `f(2, 3)` answers 5, and the call
      leaves no `x` behind in the caller's scope. */
  lemma AdderSession(foreign: Builtins.Foreign)
    ensures var (r1, sc1) := Calculation(Current, foreign, DefineLine, RootScope(Current), 0);
      var (r2, sc2) := Calculation(Current, foreign, CallLine, sc1, 1);
      && r1 == Ok(NoneValue) && r2 == Ok(Num(Int(5))) && sc2 == sc1
      && VarResult(sc2.vars, "x") == Err(VariableNotFound("x"))
  {
    RootTableEntries(Current);
    AdderSessionOver(foreign, Builtins.BuiltinEntries(Builtins.Table(Current)));
  }

  lemma AdderSessionOver(foreign: Builtins.Foreign, funs: map<string, Builtins.Entry>)
    requires "f" !in funs && "+" in funs && funs["+"] == Builtins.Builtin(2, Builtins.Add)
    ensures var (r1, sc1) := Calculation(Current, foreign, DefineLine, Scope([Builtins.RootVariables], [funs]), 0);
      var (r2, sc2) := Calculation(Current, foreign, CallLine, sc1, 1);
      && r1 == Ok(NoneValue) && r2 == Ok(Num(Int(5))) && sc2 == sc1
      && VarResult(sc2.vars, "x") == Err(VariableNotFound("x"))
  {
    var body := Apply("+", [Var("x"), Var("y")]);
    var call := Apply("f", [Lit(Int(2)), Lit(Int(3))]);
    DefineLineParses(Current);
    CallLineParses();
    CallLineReduces(Current);
    DigitNumber(Current, '2');
    DigitNumber(Current, '3');
    assert TransformTop(Current, CallTop) == Ok(Expression(call));
    var sc0 := Scope([Builtins.RootVariables], [funs]);
    var funs1 := funs["f" := Builtins.User(2, ["x", "y"], body)];
    var sc1 := Scope([Builtins.RootVariables], [funs1]);
    DefineAdder(Current, foreign, funs, body);
    assert Calculation(Current, foreign, DefineLine, sc0, 0) == (Ok(NoneValue), sc1);
    CallAdder(Current, foreign, funs1);
    assert Calculation(Current, foreign, CallLine, sc1, 1) == (Ok(Num(Int(5))), sc1);
  }

  /** In the older copy the definition is accepted, but `f(2, 3)` hands `apply` the unreduced
      argument tree, whose `len()` raises. */
  lemma LegacyAdderSession(foreign: Builtins.Foreign)
    ensures var (r1, sc1) := Calculation(Legacy, foreign, DefineLine, RootScope(Legacy), 0);
      var (r2, sc2) := Calculation(Legacy, foreign, CallLine, sc1, 1);
      r1 == Ok(NoneValue) && r2 == Err(NoLength) && sc2 == sc1
  {
    RootTableEntries(Legacy);
    LegacyAdderSessionOver(foreign, Builtins.BuiltinEntries(Builtins.Table(Legacy)));
  }

  lemma LegacyAdderSessionOver(foreign: Builtins.Foreign, funs: map<string, Builtins.Entry>)
    requires "f" !in funs
    ensures var (r1, sc1) := Calculation(Legacy, foreign, DefineLine, Scope([Builtins.RootVariables], [funs]), 0);
      var (r2, sc2) := Calculation(Legacy, foreign, CallLine, sc1, 1);
      r1 == Ok(NoneValue) && r2 == Err(NoLength) && sc2 == sc1
  {
    var body := FlatApply("+", Var("x"), Var("y"));
    var numbers := [Lit(NumValue(Legacy, "2")), Lit(NumValue(Legacy, "3"))];
    DefineLineParses(Legacy);
    CallLineParses();
    CallLineReduces(Legacy);
    var sc0 := Scope([Builtins.RootVariables], [funs]);
    var entry := Builtins.User(2, ["x", "y"], body);
    var sc1 := Scope([Builtins.RootVariables], [funs["f" := entry]]);
    DefineAdder(Legacy, foreign, funs, body);
    assert Calculation(Legacy, foreign, DefineLine, sc0, 0) == (Ok(NoneValue), sc1);
    assert TransformTop(Legacy, CallTop) == Ok(Expression(UnsizedApply("f", numbers)));
    assert FunctionResult(sc1.funs, "f") == Ok(entry);
    TransformerProperties.LegacyCallFails(foreign, "f", CallTop.e.args, sc1, 1);
    assert Calculation(Legacy, foreign, CallLine, sc1, 1) == (Err(NoLength), sc1);
  }

  /** In the older copy a one-argument call on a name passes the name's letters: with `f`
      defined as above, `f(xy)` binds `x` and `y` to the caller's `x` and `y`, and then fails
      on the flat operator node of the body. */
  lemma LegacyCall(foreign: Builtins.Foreign, sc: Scope)
    requires Lookup(sc.funs, "f") == Some(Builtins.User(2, ["x", "y"], FlatApply("+", Var("x"), Var("y"))))
    requires Lookup(sc.vars, "x").Some? && Lookup(sc.vars, "y").Some?
    ensures Transform(Legacy, CallT("f", [VarT("xy")])) == Ok(Apply("f", [Var("x"), Var("y")]))
    ensures Eval(Legacy, foreign, Apply("f", [Var("x"), Var("y")]), sc, 1) == Err(MalformedNode)
  {
    assert LegacyCallNode("f", Var("xy")) == Apply("f", [Var("x"), Var("y")]);
    var args := [Var("x"), Var("y")];
    var v0, v1 := Lookup(sc.vars, "x").value, Lookup(sc.vars, "y").value;
    assert Eval(Legacy, foreign, args[0], sc, 1) == Ok(v0);
    assert Eval(Legacy, foreign, args[1], sc, 1) == Ok(v1);
    var ps := ["x", "y"];
    var frame := map["x" := v0, "y" := v1];
    assert Bind(Legacy, foreign, ps, args, 2, frame, sc, 1) == Ok(frame);
    assert Bind(Legacy, foreign, ps, args, 1, map["x" := v0], sc, 1) == Ok(frame);
    assert Bind(Legacy, foreign, ps, args, 0, map[], sc, 1) == Ok(frame);
    assert FunctionResult(sc.funs, "f") == Ok(Builtins.User(2, ps, FlatApply("+", Var("x"), Var("y"))));
    assert UserCall(Legacy, foreign, ps, FlatApply("+", Var("x"), Var("y")), args, sc, 1) == Err(MalformedNode);
  }

  /** `unset x` removes the nearest binding of `x` in the current copy. The older grammar
      inlines the `unset` rule to its lone name, so there the line only reads `x`. */
  lemma UnsetLine(foreign: Builtins.Foreign, x: string, sc: Scope, fuel: nat)
    requires sc.Valid()
    ensures Calculation(Current, foreign, [Sym("unset"), Name(x)], sc, fuel)
         == (Ok(NoneValue), sc.(vars := DeleteNearest(sc.vars, x)))
    ensures Calculation(Legacy, foreign, [Sym("unset"), Name(x)], sc, fuel)
         == (Eval(Legacy, foreign, Var(x), sc, fuel), sc)
  {
    assert PrintTop(UnsetTop(x)) == [Sym("unset"), Name(x)];
    GrammarRoundTrip.ParsePrintTop(UnsetTop(x));
  }
}
