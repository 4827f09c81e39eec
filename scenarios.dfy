/** The behaviours the repository's environment tests check, stated on `Environment` objects. */
module EnvironmentScenarios {
  import opened Values
  import opened Syntax
  import opened Builtins
  import opened Scopes
  import opened Environments

  /** A child shadows its root's variable; each `del_var` on the child removes the nearest
      binding, so the first uncovers the root's value and the second removes that one too. */
  method DeleteVariableThroughChain() returns (before: Result<Value>, middle: Result<Value>, after: Result<Value>)
    ensures before == Ok(Num(Int(2)))
    ensures middle == Ok(Num(Int(1)))
    ensures after == Err(VariableNotFound("x"))
  {
    var env := new Environment.Root(Current);
    var env1 := new Environment.Child(env);
    env.SetVar("x", Num(Int(1)));
    env1.SetVar("x", Num(Int(2)));
    assert env1.Vars() == [map["x" := Num(Int(2))], RootVariables["x" := Num(Int(1))]];
    before := env1.GetVar("x");
    env1.DelVar("x");
    assert env1.Vars() == [map[], RootVariables["x" := Num(Int(1))]];
    middle := env1.GetVar("x");
    env1.DelVar("x");
    assert |env1.Vars()| == 2 && "x" !in env1.Vars()[0] && "x" !in env1.Vars()[1];
    after := env1.GetVar("x");
  }

  /** The same for functions: the child's user definition hides the root's, and two
      `del_function` calls on the child remove both. */
  method DeleteFunctionThroughChain() returns (before: Result<Entry>, middle: Result<Entry>, after: Result<Entry>)
    ensures before == Ok(User(2, ["x", "y"], Apply("-", [Var("x"), Var("y")])))
    ensures middle == Ok(User(2, ["x", "y"], Apply("+", [Var("x"), Var("y")])))
    ensures after == Err(FunctionNotFound("f"))
  {
    var plus := User(2, ["x", "y"], Apply("+", [Var("x"), Var("y")]));
    var builtins := BuiltinEntries(Table(Current));
    var env1 := ShadowedFunction();
    before := env1.GetFunction("f");
    env1.DelFunction("f");
    assert env1.Funs() == [map[], builtins["f" := plus]];
    middle := env1.GetFunction("f");
    env1.DelFunction("f");
    assert |env1.Funs()| == 2 && "f" !in env1.Funs()[0] && "f" !in env1.Funs()[1];
    after := env1.GetFunction("f");
  }

  /** A root holding the builtins and `f(x, y) = x + y`, and a child of it defining
      `f(x, y) = x - y`. */
  method ShadowedFunction() returns (env1: Environment)
    ensures env1.Valid() && fresh(env1.Repr())
    ensures env1.Funs() == [map["f" := User(2, ["x", "y"], Apply("-", [Var("x"), Var("y")]))],
                            BuiltinEntries(Table(Current))["f" := User(2, ["x", "y"], Apply("+", [Var("x"), Var("y")]))]]
  {
    var plus := User(2, ["x", "y"], Apply("+", [Var("x"), Var("y")]));
    var minus := User(2, ["x", "y"], Apply("-", [Var("x"), Var("y")]));
    var env := new Environment.Root(Current);
    env1 := new Environment.Child(env);
    var builtins := env.functions;
    NotBuiltin(Current);
    var ok1 := env.SetFunction("f", 2, ["x", "y"], Apply("+", [Var("x"), Var("y")]));
    assert env.functions == builtins["f" := plus];
    var ok2 := env1.SetFunction("f", 2, ["x", "y"], Apply("-", [Var("x"), Var("y")]));
    assert env1.functions == map["f" := minus];
    assert env1.Funs() == [map["f" := minus], builtins["f" := plus]];
    assert env1.Repr() == {env1, env};
  }

  /** `f` is not a builtin name and `sqrt` is one. */
  lemma NotBuiltin(d: Dialect)
    ensures "f" !in BuiltinEntries(Table(d)) && "sqrt" in BuiltinEntries(Table(d))
  {
    TestNames(d);
  }

  /** A builtin cannot be redefined through `set_function` on the root. */
  method RedefineBuiltin() returns (r: Result<()>)
    ensures r == Err(BuiltinOverwrite("sqrt"))
  {
    var env := new Environment.Root(Current);
    NotBuiltin(Current);
    r := env.SetFunction("sqrt", 2, ["x", "y"], Apply("+", [Var("x"), Var("y")]));
  }
}
