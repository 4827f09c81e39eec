/** The evaluator of `calculate`: `evl` dispatches on the node, `apply` calls a builtin or a
    user function. `Eval`/`Exec` state the meaning on the value-level chain of frames;
    `Evl`, `ApplyFunction` and `Execute` are the source's procedures over `Environment`
    objects, each proved to compute exactly that meaning.

    User functions are dynamically scoped: the body runs in a fresh environment whose root is
    the caller's environment. Unbounded recursion in the source ends in Python's
    RecursionError; here every user call spends one unit of `fuel`, and running out is the
    `RecursionLimit` error. */
module Calc {
  import opened Values
  import opened Syntax
  import opened Builtins
  import opened Scopes
  import opened Environments

  /** An environment chain as values: variable and function maps, nearest first. */
  datatype Scope = Scope(vars: Frames<Value>, funs: Frames<Entry>) {
    predicate Valid() { |vars| == |funs| > 0 }
  }

  ghost function ScopeOf(env: Environment): (sc: Scope)
    requires env.Valid()
    reads env.Repr()
    ensures sc.Valid()
  {
    Scope(env.Vars(), env.Funs())
  }

  function VarResult(vars: Frames<Value>, name: string): Result<Value> {
    match Lookup(vars, name)
    case Some(v) => Ok(v)
    case None => Err(VariableNotFound(name))
  }

  function FunctionResult(funs: Frames<Entry>, name: string): Result<Entry> {
    match Lookup(funs, name)
    case Some(entry) => Ok(entry)
    case None => Err(FunctionNotFound(name))
  }

  /** `make_matrix`: numbers stay, `matrix` nodes become lists of their converted elements,
      and any other node becomes `None`. Elements are not evaluated. */
  function MakeMatrix(e: Expr): (r: Value)
    ensures e.Lit? ==> r == Num(e.n)
    ensures e.Matrix? ==> r.MatrixValue? && |r.rows| == |e.elems|
                          && forall i | 0 <= i < |e.elems| :: r.rows[i] == MakeMatrix(e.elems[i])
    ensures !e.Lit? && !e.Matrix? ==> r == NoneValue
  {
    match e
    case Lit(n) => Num(n)
    case Matrix(elems) => MatrixValue(seq(|elems|, i requires 0 <= i < |elems| => MakeMatrix(elems[i])))
    case _ => NoneValue
  }

  /** The node tags `evl` tests a bare string against: a name equal to one of them is not
      looked up, but unpacked as a node with no matching branch, so it evaluates to `None`. */
  predicate IsTag(name: string) {
    name in {"set", "apply", "unset", "def", "undef", "matrix", "with_units"}
  }

  /** `evl` on an expression. */
  function Eval(d: Dialect, foreign: Foreign, e: Expr, sc: Scope, fuel: nat): Result<Value>
    decreases fuel, e
  {
    match e
    case Lit(n) => Ok(Num(n))
    case Var(name) => if IsTag(name) then Ok(NoneValue) else VarResult(sc.vars, name)
    case Apply(f, args) => Call(d, foreign, f, args, sc, fuel)
    case UnsizedApply(f, _) =>
      (match FunctionResult(sc.funs, f)
       case Err(err) => Err(err)
       case Ok(_) => Err(NoLength))
    case BareApply(f, arg) =>
      (match FunctionResult(sc.funs, f)
       case Err(err) => Err(err)
       case Ok(entry) =>
         if entry.arity != NodeLength(arg) then Err(ArityMismatch(f, entry.arity, NodeLength(arg)))
         else Err(MalformedNode))
    case FlatApply(_, _, _) => Err(MalformedNode)
    case Matrix(_) => Ok(if d == Current then MakeMatrix(e) else NoneValue)
    case WithUnits(_, _) => Ok(NoneValue)
  }

  /** `apply`: the arity is checked before any argument is evaluated; builtins get their
      arguments evaluated left to right; a user function binds each parameter to its argument,
      evaluated in the caller's scope, in a fresh frame in front of the caller's chain. */
  function Call(d: Dialect, foreign: Foreign, f: string, args: seq<Expr>, sc: Scope, fuel: nat): Result<Value>
    decreases fuel, args, 1
  {
    match FunctionResult(sc.funs, f)
    case Err(err) => Err(err)
    case Ok(Builtin(arity, op)) =>
      if arity != |args| then Err(ArityMismatch(f, arity, |args|))
      else
        (match EvalArgs(d, foreign, args, 0, [], sc, fuel)
         case Err(err) => Err(err)
         case Ok(vals) => ApplyBuiltin(foreign, op, vals))
    case Ok(User(arity, params, body)) =>
      if arity != |args| then Err(ArityMismatch(f, arity, |args|))
      else UserCall(d, foreign, params, body, args, sc, fuel)
  }

  /** A call of a user function: the parameters bound in a fresh frame, then the body
      evaluated in front of the caller's chain, with one level of recursion used up. */
  function UserCall(d: Dialect, foreign: Foreign, params: seq<string>, body: Expr, args: seq<Expr>,
                    sc: Scope, fuel: nat): Result<Value>
    decreases fuel, args, 0, |params| + 1
  {
    match Bind(d, foreign, params, args, 0, map[], sc, fuel)
    case Err(err) => Err(err)
    case Ok(frame) =>
      if fuel == 0 then Err(RecursionLimit)
      else Eval(d, foreign, body, Scope([frame] + sc.vars, [map[]] + sc.funs), fuel - 1)
  }

  /** Evaluates `args[i..]` left to right after the values `acc` of `args[..i]`. */
  function EvalArgs(d: Dialect, foreign: Foreign, args: seq<Expr>, i: nat, acc: seq<Value>, sc: Scope, fuel: nat)
    : Result<seq<Value>>
    requires i <= |args|
    decreases fuel, args, 0, |args| - i
  {
    if i == |args| then Ok(acc)
    else
      match Eval(d, foreign, args[i], sc, fuel)
      case Err(err) => Err(err)
      case Ok(v) => EvalArgs(d, foreign, args, i + 1, acc + [v], sc, fuel)
  }

  /** The parameter loop of `apply`: binds `params[i..]`, each to its argument evaluated in the
      caller's scope, into the frame `acc`; a parameter without an argument is an IndexError. */
  function Bind(d: Dialect, foreign: Foreign, params: seq<string>, args: seq<Expr>, i: nat,
                acc: map<string, Value>, sc: Scope, fuel: nat): Result<map<string, Value>>
    requires i <= |params|
    decreases fuel, args, 0, |params| - i
  {
    if i == |params| then Ok(acc)
    else if i >= |args| then Err(MissingArgument)
    else
      match Eval(d, foreign, args[i], sc, fuel)
      case Err(err) => Err(err)
      case Ok(v) => Bind(d, foreign, params, args, i + 1, acc[params[i] := v], sc, fuel)
  }

  /** `set(f_args)` of the duplicate-parameter check. */
  function SetOf(params: seq<string>): set<string> {
    set p | p in params
  }

  /** `evl` on a top-level node: the result and the scope afterwards. */
  function Exec(d: Dialect, foreign: Foreign, s: Stmt, sc: Scope, fuel: nat): (out: (Result<Value>, Scope))
    requires sc.Valid()
    ensures out.1.Valid() && |out.1.vars| == |sc.vars|
  {
    match s
    case Expression(e) => (Eval(d, foreign, e, sc, fuel), sc)
    case Set(name, e) =>
      (match Eval(d, foreign, e, sc, fuel)
       case Err(err) => (Err(err), sc)
       case Ok(v) => (Ok(NoneValue), sc.(vars := sc.vars[0 := sc.vars[0][name := v]])))
    case Unset(name) => (Ok(NoneValue), sc.(vars := DeleteNearest(sc.vars, name)))
    case Def(name, params, body) =>
      if |params| != |SetOf(params)| then (Err(DuplicateArgs), sc)
      else if name in sc.funs[0] && sc.funs[0][name].Builtin? then (Err(BuiltinOverwrite(name)), sc)
      else (Ok(NoneValue), sc.(funs := sc.funs[0 := sc.funs[0][name := User(|params|, params, body)]]))
    case Undef(name) => (Ok(NoneValue), sc.(funs := DeleteNearest(sc.funs, name)))
    case Convert(_, _) => (Ok(NoneValue), sc)
  }

  /** `evl` on an expression, over environment objects. It allocates the environments of user
      calls and changes no environment that existed before. */
  method Evl(d: Dialect, foreign: Foreign, e: Expr, env: Environment, fuel: nat) returns (r: Result<Value>)
    requires env.Valid()
    ensures r == Eval(d, foreign, e, ScopeOf(env), fuel)
    decreases fuel, e
  {
    match e
    case Lit(n) =>
      r := Ok(Num(n));
    case Var(name) =>
      if IsTag(name) {
        r := Ok(NoneValue);
      } else {
        r := env.GetVar(name);
      }
    case Apply(f, args) =>
      r := ApplyFunction(d, foreign, f, args, env, fuel);
    case UnsizedApply(f, _) =>
      var found := env.GetFunction(f);
      r := if found.Err? then Err(found.error) else Err(NoLength);
    case BareApply(f, arg) =>
      var found := env.GetFunction(f);
      if found.Err? {
        r := Err(found.error);
      } else if found.value.arity != NodeLength(arg) {
        r := Err(ArityMismatch(f, found.value.arity, NodeLength(arg)));
      } else {
        r := Err(MalformedNode);
      }
    case FlatApply(_, _, _) =>
      r := Err(MalformedNode);
    case Matrix(_) =>
      if d == Current {
        r := Ok(MakeMatrix(e));
      } else {
        r := Ok(NoneValue);
      }
    case WithUnits(_, _) =>
      r := Ok(NoneValue);
  }

  /** `apply(f, f_args, env)`. */
  method ApplyFunction(d: Dialect, foreign: Foreign, f: string, args: seq<Expr>, env: Environment, fuel: nat)
    returns (r: Result<Value>)
    requires env.Valid()
    ensures r == Call(d, foreign, f, args, ScopeOf(env), fuel)
    decreases fuel, args, 1
  {
    ghost var sc := ScopeOf(env);
    var found := env.GetFunction(f);
    assert found == FunctionResult(sc.funs, f);
    if found.Err? {
      return Err(found.error);
    }
    var entry := found.value;
    if entry.arity != |args| {
      return Err(ArityMismatch(f, entry.arity, |args|));
    }
    ghost var reach := env.Repr();
    if entry.Builtin? {
      var vals := EvalArguments(d, foreign, args, env, fuel);
      assert ScopeOf(env) == sc;
      r := if vals.Err? then Err(vals.error) else ApplyBuiltin(foreign, entry.op, vals.value);
    } else {
      r := CallUser(d, foreign, entry.params, entry.body, args, env, fuel);
      assert ScopeOf(env) == sc;
    }
  }

  /** The user-function branch of `apply`: a fresh environment below the caller's, the
      parameters bound in it, then the body evaluated there. */
  method CallUser(d: Dialect, foreign: Foreign, params: seq<string>, body: Expr, args: seq<Expr>,
                  env: Environment, fuel: nat)
    returns (r: Result<Value>)
    requires env.Valid()
    ensures r == UserCall(d, foreign, params, body, args, ScopeOf(env), fuel)
    decreases fuel, args, 0, |params| + 1
  {
    ghost var sc := ScopeOf(env);
    var functionEnv := new Environment.Child(env);
    assert functionEnv !in env.Repr();
    assert ScopeOf(env) == sc;
    var bound := BindArguments(d, foreign, params, args, env, functionEnv, fuel);
    assert ScopeOf(env) == sc;
    if bound.Err? {
      return Err(bound.error);
    }
    if fuel == 0 {
      return Err(RecursionLimit);
    }
    assert functionEnv.Vars() == [functionEnv.variables] + sc.vars;
    assert functionEnv.Funs() == [map[]] + sc.funs;
    ghost var inner := Scope([functionEnv.variables] + sc.vars, [map[]] + sc.funs);
    assert ScopeOf(functionEnv) == inner;
    assert UserCall(d, foreign, params, body, args, sc, fuel) == Eval(d, foreign, body, inner, fuel - 1);
    r := Evl(d, foreign, body, functionEnv, fuel - 1);
  }

  /** The argument loop of `apply` for a builtin: evaluates every argument, left to right. */
  method EvalArguments(d: Dialect, foreign: Foreign, args: seq<Expr>, env: Environment, fuel: nat)
    returns (r: Result<seq<Value>>)
    requires env.Valid()
    ensures r == EvalArgs(d, foreign, args, 0, [], ScopeOf(env), fuel)
    decreases fuel, args, 0, |args|
  {
    ghost var sc := ScopeOf(env);
    var vals: seq<Value> := [];
    var i := 0;
    while i < |args|
      invariant 0 <= i <= |args|
      invariant ScopeOf(env) == sc
      invariant EvalArgs(d, foreign, args, 0, [], sc, fuel) == EvalArgs(d, foreign, args, i, vals, sc, fuel)
    {
      ghost var reach := env.Repr();
      var v := Evl(d, foreign, args[i], env, fuel);
      if v.Err? {
        return Err(v.error);
      }
      vals := vals + [v.value];
      i := i + 1;
    }
    r := Ok(vals);
  }

  /** The parameter loop of `apply` for a user function: sets each parameter, in the function's
      fresh environment, to its argument evaluated in the caller's environment. */
  method BindArguments(d: Dialect, foreign: Foreign, params: seq<string>, args: seq<Expr>,
                       env: Environment, functionEnv: Environment, fuel: nat)
    returns (r: Result<()>)
    requires env.Valid() && functionEnv.Valid() && functionEnv.root == env
    requires functionEnv.variables == map[] && functionEnv.functions == map[]
    modifies functionEnv`variables
    ensures functionEnv.functions == map[]
    ensures match Bind(d, foreign, params, args, 0, map[], ScopeOf(env), fuel)
            case Err(err) => r == Err(err)
            case Ok(frame) => r == Ok(()) && functionEnv.variables == frame
    decreases fuel, args, 0, |params|
  {
    functionEnv.NotOwnAncestor();
    ghost var sc := ScopeOf(env);
    var i := 0;
    while i < |params|
      invariant 0 <= i <= |params|
      invariant ScopeOf(env) == sc
      invariant Bind(d, foreign, params, args, 0, map[], sc, fuel)
             == Bind(d, foreign, params, args, i, functionEnv.variables, sc, fuel)
    {
      if i >= |args| {
        return Err(MissingArgument);
      }
      ghost var reach := env.Repr();
      var v := Evl(d, foreign, args[i], env, fuel);
      if v.Err? {
        return Err(v.error);
      }
      functionEnv.variables := functionEnv.variables[params[i] := v.value];
      i := i + 1;
    }
    r := Ok(());
  }

  /** `evl` on a top-level node: changes the environment chain as `Exec` says. */
  method Execute(d: Dialect, foreign: Foreign, s: Stmt, env: Environment, fuel: nat) returns (r: Result<Value>)
    requires env.Valid()
    modifies env.Repr()
    ensures (r, ScopeOf(env)) == Exec(d, foreign, s, old(ScopeOf(env)), fuel)
  {
    match s
    case Expression(e) =>
      r := Evl(d, foreign, e, env, fuel);
    case Set(name, e) =>
      var v := Evl(d, foreign, e, env, fuel);
      if v.Err? {
        return Err(v.error);
      }
      env.SetVar(name, v.value);
      r := Ok(NoneValue);
    case Unset(name) =>
      env.DelVar(name);
      r := Ok(NoneValue);
    case Def(name, params, body) =>
      if |params| != |SetOf(params)| {
        return Err(DuplicateArgs);
      }
      var stored := env.SetFunction(name, |params|, params, body);
      r := if stored.Err? then Err(stored.error) else Ok(NoneValue);
    case Undef(name) =>
      env.DelFunction(name);
      r := Ok(NoneValue);
    case Convert(_, _) =>
      r := Ok(NoneValue);
  }
}
