/** What `calculate` promises about evaluation and about the statements, proved on the
    value-level meaning `Eval`/`Exec` of module `Calc`. */
module CalcProperties {
  import opened Values
  import opened Syntax
  import opened Builtins
  import opened Scopes
  import opened Calc

  /** No name occurs twice in the list. */
  predicate NoDuplicates(names: seq<string>) {
    forall i, j :: 0 <= i < j < |names| ==> names[i] != names[j]
  }

  /** The duplicate check of `def` (`len(f_args) != len(set(f_args))`) rejects exactly the
      parameter lists in which some name occurs twice. */
  lemma {:induction false} DistinctIff(names: seq<string>)
    ensures |SetOf(names)| == |names| <==> NoDuplicates(names)
    ensures |SetOf(names)| <= |names|
  {
    if names != [] {
      var rest := names[1..];
      DistinctIff(rest);
      NoDuplicatesCons(names);
      assert names == [names[0]] + rest;
      assert SetOf(names) == {names[0]} + SetOf(rest);
      if names[0] in rest {
        assert SetOf(names) == SetOf(rest);
      } else {
        assert |SetOf(names)| == |SetOf(rest)| + 1;
      }
    }
  }

  /** A list has no repeated name exactly when its head is not in its tail and its tail has none. */
  lemma NoDuplicatesCons(names: seq<string>)
    requires names != []
    ensures NoDuplicates(names) <==> names[0] !in names[1..] && NoDuplicates(names[1..])
  {
    var rest := names[1..];
    if names[0] in rest {
      var j :| 0 <= j < |rest| && rest[j] == names[0];
      assert names[0] == names[j + 1];
    }
    if NoDuplicates(names) {
      forall i, j | 0 <= i < j < |rest| ensures rest[i] != rest[j] {
        assert rest[i] == names[i + 1] && rest[j] == names[j + 1];
      }
    }
    if names[0] !in rest && NoDuplicates(rest) {
      forall i, j | 0 <= i < j < |names| ensures names[i] != names[j] {
        assert names[j] == rest[j - 1];
        if i > 0 {
          assert names[i] == rest[i - 1];
        }
      }
    }
  }

  /** The arguments of a builtin: the evaluation succeeds exactly when every argument
      evaluates, and then yields their values in order after `acc`; otherwise it fails with
      the error of the first argument that fails, and no later argument matters. */
  lemma {:induction false} EvalArgsValues(d: Dialect, foreign: Foreign, args: seq<Expr>, i: nat,
                                          acc: seq<Value>, sc: Scope, fuel: nat)
    requires i <= |args|
    ensures var r := EvalArgs(d, foreign, args, i, acc, sc, fuel);
      && (r.Ok? <==> forall j :: i <= j < |args| ==> Eval(d, foreign, args[j], sc, fuel).Ok?)
      && (r.Ok? ==> |r.value| == |acc| + |args| - i && r.value[..|acc|] == acc
                    && forall j :: i <= j < |args| ==> r.value[|acc| + j - i] == Eval(d, foreign, args[j], sc, fuel).value)
      && (r.Err? ==> exists j :: i <= j < |args| && Eval(d, foreign, args[j], sc, fuel) == Err(r.error)
                                && forall k :: i <= k < j ==> Eval(d, foreign, args[k], sc, fuel).Ok?)
    decreases |args| - i
  {
    if i < |args| {
      var v := Eval(d, foreign, args[i], sc, fuel);
      if v.Ok? {
        EvalArgsValues(d, foreign, args, i + 1, acc + [v.value], sc, fuel);
        var r := EvalArgs(d, foreign, args, i + 1, acc + [v.value], sc, fuel);
        assert EvalArgs(d, foreign, args, i, acc, sc, fuel) == r;
        if r.Ok? {
          assert r.value[..|acc| + 1][..|acc|] == acc;
          assert r.value[..|acc|] == acc;
          assert r.value[|acc|] == v.value;
        } else {
          var j :| i + 1 <= j < |args| && Eval(d, foreign, args[j], sc, fuel) == Err(r.error)
                   && forall k :: i + 1 <= k < j ==> Eval(d, foreign, args[k], sc, fuel).Ok?;
          assert forall k :: i <= k < j ==> Eval(d, foreign, args[k], sc, fuel).Ok?;
        }
      } else {
        assert EvalArgs(d, foreign, args, i, acc, sc, fuel) == Err(v.error);
      }
    }
  }

  /** Binding the parameters of a user call, with at least as many arguments as parameters,
      succeeds exactly when every bound argument evaluates; otherwise the error is that of an
      argument. */
  lemma {:induction false} BindSucceeds(d: Dialect, foreign: Foreign, params: seq<string>, args: seq<Expr>, i: nat,
                                        acc: map<string, Value>, sc: Scope, fuel: nat)
    requires i <= |params| <= |args|
    ensures var r := Bind(d, foreign, params, args, i, acc, sc, fuel);
      && (r.Ok? <==> forall j :: i <= j < |params| ==> Eval(d, foreign, args[j], sc, fuel).Ok?)
      && (r.Err? ==> exists j :: i <= j < |params| && Eval(d, foreign, args[j], sc, fuel) == Err(r.error))
    decreases |params| - i
  {
    if i < |params| {
      var v := Eval(d, foreign, args[i], sc, fuel);
      if v.Ok? {
        BindSucceeds(d, foreign, params, args, i + 1, acc[params[i] := v.value], sc, fuel);
      }
    }
  }

  /** A successful binding binds `acc`'s names and the parameters, and nothing else. */
  lemma {:induction false} BindKeys(d: Dialect, foreign: Foreign, params: seq<string>, args: seq<Expr>, i: nat,
                                    acc: map<string, Value>, sc: Scope, fuel: nat)
    requires i <= |params| <= |args|
    requires Bind(d, foreign, params, args, i, acc, sc, fuel).Ok?
    ensures Bind(d, foreign, params, args, i, acc, sc, fuel).value.Keys == acc.Keys + SetOf(params[i..])
    decreases |params| - i
  {
    if i < |params| {
      var v := Eval(d, foreign, args[i], sc, fuel);
      BindKeys(d, foreign, params, args, i + 1, acc[params[i] := v.value], sc, fuel);
      assert params[i..] == [params[i]] + params[i + 1..];
      assert SetOf(params[i..]) == {params[i]} + SetOf(params[i + 1..]);
    }
  }

  /** A name that no remaining parameter has keeps the value it had in `acc`. */
  lemma {:induction false} BindKeeps(d: Dialect, foreign: Foreign, params: seq<string>, args: seq<Expr>, i: nat,
                                     acc: map<string, Value>, sc: Scope, fuel: nat, x: string)
    requires i <= |params| <= |args|
    requires Bind(d, foreign, params, args, i, acc, sc, fuel).Ok?
    requires x in acc && forall k :: i <= k < |params| ==> params[k] != x
    ensures x in Bind(d, foreign, params, args, i, acc, sc, fuel).value
    ensures Bind(d, foreign, params, args, i, acc, sc, fuel).value[x] == acc[x]
    decreases |params| - i
  {
    if i < |params| {
      var v := Eval(d, foreign, args[i], sc, fuel);
      BindKeeps(d, foreign, params, args, i + 1, acc[params[i] := v.value], sc, fuel, x);
    }
  }

  /** A parameter that does not occur again later is bound to its own argument's value. */
  lemma {:induction false} BindParameter(d: Dialect, foreign: Foreign, params: seq<string>, args: seq<Expr>, i: nat,
                                         acc: map<string, Value>, sc: Scope, fuel: nat, j: nat)
    requires i <= j < |params| <= |args|
    requires Bind(d, foreign, params, args, i, acc, sc, fuel).Ok?
    requires forall k :: j < k < |params| ==> params[k] != params[j]
    ensures params[j] in Bind(d, foreign, params, args, i, acc, sc, fuel).value
    ensures Eval(d, foreign, args[j], sc, fuel) == Ok(Bind(d, foreign, params, args, i, acc, sc, fuel).value[params[j]])
    decreases |params| - i
  {
    var v := Eval(d, foreign, args[i], sc, fuel);
    var acc' := acc[params[i] := v.value];
    if i < j {
      BindParameter(d, foreign, params, args, i + 1, acc', sc, fuel, j);
    } else {
      BindKeeps(d, foreign, params, args, i + 1, acc', sc, fuel, params[j]);
    }
  }

  /** Without enough arguments, binding fails with `MissingArgument` once every argument
      there is has evaluated. */
  lemma {:induction false} BindMissing(d: Dialect, foreign: Foreign, params: seq<string>, args: seq<Expr>, i: nat,
                                       acc: map<string, Value>, sc: Scope, fuel: nat)
    requires i <= |args| < |params|
    requires forall j :: i <= j < |args| ==> Eval(d, foreign, args[j], sc, fuel).Ok?
    ensures Bind(d, foreign, params, args, i, acc, sc, fuel) == Err(MissingArgument)
    decreases |params| - i
  {
    if i < |args| {
      var v := Eval(d, foreign, args[i], sc, fuel);
      BindMissing(d, foreign, params, args, i + 1, acc[params[i] := v.value], sc, fuel);
    }
  }

  /** `apply` checks the arity before it evaluates any argument: a call with the wrong number
      of arguments fails with the arity error whatever the arguments are. */
  lemma ArityCheckedFirst(d: Dialect, foreign: Foreign, f: string, args: seq<Expr>, sc: Scope, fuel: nat)
    requires Lookup(sc.funs, f).Some? && Lookup(sc.funs, f).value.arity != |args|
    ensures Call(d, foreign, f, args, sc, fuel) == Err(ArityMismatch(f, Lookup(sc.funs, f).value.arity, |args|))
  {
  }

  /** Dynamic scoping: a user function whose body names something other than a parameter
      reads it from the environment of the CALLER, not of the definition: the call evaluates
      that name exactly as the caller would. */
  lemma {:induction false} DynamicScoping(d: Dialect, foreign: Foreign, f: string, args: seq<Expr>, sc: Scope,
                                          fuel: nat, params: seq<string>, y: string)
    requires Lookup(sc.funs, f) == Some(User(|args|, params, Var(y)))
    requires |params| == |args| && y !in params && fuel > 0
    requires forall j :: 0 <= j < |args| ==> Eval(d, foreign, args[j], sc, fuel).Ok?
    ensures Call(d, foreign, f, args, sc, fuel) == Eval(d, foreign, Var(y), sc, fuel)
  {
    assert Call(d, foreign, f, args, sc, fuel) == UserCall(d, foreign, params, Var(y), args, sc, fuel);
    BindSucceeds(d, foreign, params, args, 0, map[], sc, fuel);
    BindKeys(d, foreign, params, args, 0, map[], sc, fuel);
    var frame := Bind(d, foreign, params, args, 0, map[], sc, fuel).value;
    assert params[0..] == params;
    assert y !in frame;
    assert ([frame] + sc.vars)[1..] == sc.vars;
    var inner := Scope([frame] + sc.vars, [map[]] + sc.funs);
    assert UserCall(d, foreign, params, Var(y), args, sc, fuel) == Eval(d, foreign, Var(y), inner, fuel - 1);
    if !IsTag(y) {
      assert Eval(d, foreign, Var(y), inner, fuel - 1) == VarResult([frame] + sc.vars, y);
    }
  }

  /** Each parameter of a user function with distinct parameters is bound to the value of its
      own argument, evaluated in the caller's scope; a parameter named like a node tag is bound
      too, but the body reads it as `None`. */
  lemma {:induction false} ParameterBinding(d: Dialect, foreign: Foreign, f: string, args: seq<Expr>, sc: Scope,
                                            fuel: nat, params: seq<string>, j: nat)
    requires |params| == |args| && j < |params| && NoDuplicates(params) && fuel > 0
    requires Lookup(sc.funs, f) == Some(User(|args|, params, Var(params[j])))
    requires forall k :: 0 <= k < |args| ==> Eval(d, foreign, args[k], sc, fuel).Ok?
    ensures Call(d, foreign, f, args, sc, fuel)
         == if IsTag(params[j]) then Ok(NoneValue) else Eval(d, foreign, args[j], sc, fuel)
  {
    assert Call(d, foreign, f, args, sc, fuel) == UserCall(d, foreign, params, Var(params[j]), args, sc, fuel);
    BindSucceeds(d, foreign, params, args, 0, map[], sc, fuel);
    BindParameter(d, foreign, params, args, 0, map[], sc, fuel, j);
    var frame := Bind(d, foreign, params, args, 0, map[], sc, fuel).value;
    var inner := Scope([frame] + sc.vars, [map[]] + sc.funs);
    assert UserCall(d, foreign, params, Var(params[j]), args, sc, fuel) == Eval(d, foreign, Var(params[j]), inner, fuel - 1);
    if !IsTag(params[j]) {
      assert Eval(d, foreign, Var(params[j]), inner, fuel - 1) == VarResult([frame] + sc.vars, params[j]);
    }
  }

  /** Fuel only matters when it runs out: a result other than the recursion error stays the
      same with one more unit of fuel. */
  lemma {:induction false} EvalFuel(d: Dialect, foreign: Foreign, e: Expr, sc: Scope, fuel: nat)
    ensures Eval(d, foreign, e, sc, fuel) != Err(RecursionLimit) ==>
            Eval(d, foreign, e, sc, fuel + 1) == Eval(d, foreign, e, sc, fuel)
    decreases fuel, e
  {
    match e
    case Apply(f, args) => CallFuel(d, foreign, f, args, sc, fuel);
    case _ =>
  }

  lemma {:induction false} CallFuel(d: Dialect, foreign: Foreign, f: string, args: seq<Expr>, sc: Scope, fuel: nat)
    ensures Call(d, foreign, f, args, sc, fuel) != Err(RecursionLimit) ==>
            Call(d, foreign, f, args, sc, fuel + 1) == Call(d, foreign, f, args, sc, fuel)
    decreases fuel, args, 1
  {
    match FunctionResult(sc.funs, f)
    case Err(_) =>
    case Ok(entry) =>
      if entry.arity == |args| {
        if entry.Builtin? {
          EvalArgsFuel(d, foreign, args, 0, [], sc, fuel);
        } else {
          BindFuel(d, foreign, entry.params, args, 0, map[], sc, fuel);
          var b := Bind(d, foreign, entry.params, args, 0, map[], sc, fuel);
          if b.Ok? && fuel > 0 {
            EvalFuel(d, foreign, entry.body, Scope([b.value] + sc.vars, [map[]] + sc.funs), fuel - 1);
          }
        }
      }
  }

  lemma {:induction false} EvalArgsFuel(d: Dialect, foreign: Foreign, args: seq<Expr>, i: nat, acc: seq<Value>,
                                        sc: Scope, fuel: nat)
    requires i <= |args|
    ensures EvalArgs(d, foreign, args, i, acc, sc, fuel) != Err(RecursionLimit) ==>
            EvalArgs(d, foreign, args, i, acc, sc, fuel + 1) == EvalArgs(d, foreign, args, i, acc, sc, fuel)
    decreases fuel, args, 0, |args| - i
  {
    if i < |args| {
      EvalFuel(d, foreign, args[i], sc, fuel);
      var v := Eval(d, foreign, args[i], sc, fuel);
      if v.Ok? {
        EvalArgsFuel(d, foreign, args, i + 1, acc + [v.value], sc, fuel);
      }
    }
  }

  lemma {:induction false} BindFuel(d: Dialect, foreign: Foreign, params: seq<string>, args: seq<Expr>, i: nat,
                                    acc: map<string, Value>, sc: Scope, fuel: nat)
    requires i <= |params|
    ensures Bind(d, foreign, params, args, i, acc, sc, fuel) != Err(RecursionLimit) ==>
            Bind(d, foreign, params, args, i, acc, sc, fuel + 1) == Bind(d, foreign, params, args, i, acc, sc, fuel)
    decreases fuel, args, 0, |params| - i
  {
    if i < |params| && i < |args| {
      EvalFuel(d, foreign, args[i], sc, fuel);
      var v := Eval(d, foreign, args[i], sc, fuel);
      if v.Ok? {
        BindFuel(d, foreign, params, args, i + 1, acc[params[i] := v.value], sc, fuel);
      }
    }
  }

  /** Any larger amount of fuel gives the same result, once the result is not the recursion error. */
  lemma {:induction false} EvalFuelMonotone(d: Dialect, foreign: Foreign, e: Expr, sc: Scope, fuel: nat, more: nat)
    requires fuel <= more && Eval(d, foreign, e, sc, fuel) != Err(RecursionLimit)
    ensures Eval(d, foreign, e, sc, more) == Eval(d, foreign, e, sc, fuel)
    decreases more - fuel
  {
    if fuel < more {
      EvalFuel(d, foreign, e, sc, fuel);
      EvalFuelMonotone(d, foreign, e, sc, fuel + 1, more);
    }
  }

  /** A statement that raises leaves the environment chain as it was. */
  lemma FailedStatementKeepsScope(d: Dialect, foreign: Foreign, s: Stmt, sc: Scope, fuel: nat)
    requires sc.Valid()
    ensures Exec(d, foreign, s, sc, fuel).0.Err? ==> Exec(d, foreign, s, sc, fuel).1 == sc
  {
  }

  /** `x = e` then `x`: the variable is bound to the value of `e` and reads it back, unless
      its name is a node tag, which reads as `None`; only the innermost variable map changes
      and the functions do not. */
  lemma AssignThenRead(d: Dialect, foreign: Foreign, x: string, e: Expr, sc: Scope, fuel: nat)
    requires sc.Valid() && Eval(d, foreign, e, sc, fuel).Ok?
    ensures var (r, sc') := Exec(d, foreign, Set(x, e), sc, fuel);
      && r == Ok(NoneValue)
      && Lookup(sc'.vars, x) == Some(Eval(d, foreign, e, sc, fuel).value)
      && Eval(d, foreign, Var(x), sc', fuel) == (if IsTag(x) then Ok(NoneValue) else Eval(d, foreign, e, sc, fuel))
      && sc'.funs == sc.funs && sc'.vars[1..] == sc.vars[1..]
      && forall y :: y != x ==> Lookup(sc'.vars, y) == Lookup(sc.vars, y)
  {
    var v := Eval(d, foreign, e, sc, fuel).value;
    LookupAfterSetLocal(sc.vars, x, v, x);
    forall y | y != x ensures Lookup(sc.vars[0 := sc.vars[0][x := v]], y) == Lookup(sc.vars, y) {
      LookupAfterSetLocal(sc.vars, x, v, y);
    }
  }

  /** `unset x` never fails; with no binding anywhere it changes nothing. */
  lemma UnsetNeverFails(d: Dialect, foreign: Foreign, x: string, sc: Scope, fuel: nat)
    requires sc.Valid()
    ensures Exec(d, foreign, Unset(x), sc, fuel).0 == Ok(NoneValue)
    ensures Lookup(sc.vars, x).None? ==> Exec(d, foreign, Unset(x), sc, fuel).1 == sc
  {
    if Lookup(sc.vars, x).None? {
      DeleteAbsent(sc.vars, x);
    }
  }

  /** `unset x` removes only the nearest binding: `x` then reads the binding further out,
      or fails when there is none. Every other variable, and every function, is unchanged. */
  lemma {:induction false} UnsetRevealsOuter(d: Dialect, foreign: Foreign, x: string, sc: Scope, fuel: nat, i: nat)
    requires sc.Valid() && IsNearest(sc.vars, x, i)
    ensures var sc' := Exec(d, foreign, Unset(x), sc, fuel).1;
      && Lookup(sc'.vars, x) == Lookup(sc.vars[i + 1..], x)
      && sc'.funs == sc.funs
      && forall y :: y != x ==> Lookup(sc'.vars, y) == Lookup(sc.vars, y)
  {
    LookupAfterDelete(sc.vars, x, i);
    forall y | y != x ensures Lookup(DeleteNearest(sc.vars, x), y) == Lookup(sc.vars, y) {
      LookupAfterDeleteOther(sc.vars, x, y);
    }
  }

  /** `def`: succeeds exactly when the parameters are distinct and the innermost function
      table holds no builtin of that name; on success the name resolves to a user entry whose
      arity is the number of parameters, and the variables are untouched. */
  lemma {:induction false} DefRegisters(d: Dialect, foreign: Foreign, name: string, params: seq<string>, body: Expr,
                                        sc: Scope, fuel: nat)
    requires sc.Valid()
    ensures var (r, sc') := Exec(d, foreign, Def(name, params, body), sc, fuel);
      && (r == Err(DuplicateArgs) <==> !NoDuplicates(params))
      && (r == Err(BuiltinOverwrite(name)) <==>
            NoDuplicates(params) && name in sc.funs[0] && sc.funs[0][name].Builtin?)
      && (r.Ok? <==> NoDuplicates(params) && !(name in sc.funs[0] && sc.funs[0][name].Builtin?))
      && (r.Ok? ==> r == Ok(NoneValue) && FunctionResult(sc'.funs, name) == Ok(User(|params|, params, body))
                    && sc'.vars == sc.vars && sc'.funs[1..] == sc.funs[1..])
      && (r.Err? ==> sc' == sc)
  {
    DistinctIff(params);
    var entry := User(|params|, params, body);
    LookupAfterSetLocal(sc.funs, name, entry, name);
  }

  /** `def` then `undef` of a name: the name then resolves as it did beyond the innermost
      table, so at the root a defined-then-undefined function is unknown again. */
  lemma {:induction false} DefThenUndef(d: Dialect, foreign: Foreign, name: string, params: seq<string>, body: Expr,
                                        sc: Scope, fuel: nat)
    requires sc.Valid() && NoDuplicates(params) && !(name in sc.funs[0] && sc.funs[0][name].Builtin?)
    ensures var sc1 := Exec(d, foreign, Def(name, params, body), sc, fuel).1;
      var (r, sc2) := Exec(d, foreign, Undef(name), sc1, fuel);
      && r == Ok(NoneValue)
      && Lookup(sc2.funs, name) == Lookup(sc.funs[1..], name)
      && sc2.vars == sc.vars
  {
    DistinctIff(params);
    var fs := sc.funs[0 := sc.funs[0][name := User(|params|, params, body)]];
    var sc1 := sc.(funs := fs);
    assert Exec(d, foreign, Def(name, params, body), sc, fuel) == (Ok(NoneValue), sc1);
    assert Exec(d, foreign, Undef(name), sc1, fuel) == (Ok(NoneValue), sc1.(funs := DeleteNearest(fs, name)));
    assert IsNearest(fs, name, 0);
    LookupAfterDelete(fs, name, 0);
    assert fs[1..] == sc.funs[1..];
  }

  /** A root scope: the variables `e` and `pi` and the builtin table. */
  function RootScope(d: Dialect): (sc: Scope)
    ensures sc.Valid() && sc.vars == [RootVariables]
    ensures |sc.funs| == 1 && sc.funs[0].Keys == Table(d).Keys
  {
    Scope([RootVariables], [BuiltinEntries(Table(d))])
  }

  /** Redefining a builtin at the root is refused, and the root stays as it was. */
  lemma RootBuiltinProtected(d: Dialect, foreign: Foreign, name: string, params: seq<string>, body: Expr, fuel: nat)
    requires name in Table(d) && NoDuplicates(params)
    ensures Exec(d, foreign, Def(name, params, body), RootScope(d), fuel) == (Err(BuiltinOverwrite(name)), RootScope(d))
  {
    DistinctIff(params);
  }

  /** `undef` ignores the builtin flag: after `undef sqrt` at the root, `def sqrt(...)` succeeds
      and the new definition is what `sqrt` names. */
  lemma UndefBuiltinThenDef(d: Dialect, foreign: Foreign, params: seq<string>, body: Expr, fuel: nat)
    requires NoDuplicates(params)
    ensures var sc1 := Exec(d, foreign, Undef("sqrt"), RootScope(d), fuel).1;
      var (r, sc2) := Exec(d, foreign, Def("sqrt", params, body), sc1, fuel);
      r == Ok(NoneValue) && FunctionResult(sc2.funs, "sqrt") == Ok(User(|params|, params, body))
  {
    DistinctIff(params);
    var sc0 := RootScope(d);
    assert "sqrt" in sc0.funs[0];
    assert IsNearest(sc0.funs, "sqrt", 0);
    var sc1 := Exec(d, foreign, Undef("sqrt"), sc0, fuel).1;
    assert sc1.funs[0] == sc0.funs[0] - {"sqrt"};
    LookupAfterSetLocal(sc1.funs, "sqrt", User(|params|, params, body), "sqrt");
  }

  /** `cos(c, 2)` at the root fails on the arity before the unbound `c` is looked at. */
  lemma ArityBeforeUnboundArgument(d: Dialect, foreign: Foreign, fuel: nat)
    ensures Eval(d, foreign, Apply("cos", [Var("c"), Lit(Int(2))]), RootScope(d), fuel)
         == Err(ArityMismatch("cos", 1, 2))
  {
    assert Lookup(RootScope(d).funs, "cos") == Some(Builtin(1, Table(d)["cos"].1));
  }

  /** `def f(x,y) = body` in a single-frame scope without `f` adds `f` to that frame. */
  lemma DefineAdder(d: Dialect, foreign: Foreign, funs: map<string, Entry>, body: Expr)
    requires "f" !in funs
    ensures Exec(d, foreign, Def("f", ["x", "y"], body), Scope([RootVariables], [funs]), 0)
         == (Ok(NoneValue), Scope([RootVariables], [funs["f" := User(2, ["x", "y"], body)]]))
  {
    DistinctIff(["x", "y"]);
    var entry := User(2, ["x", "y"], body);
    assert [funs][0 := funs["f" := entry]] == [funs["f" := entry]];
  }

  /** `f(2,3)` is `5` with that definition of `f` and the builtin `+`, whatever the foreign
      callables do and with a single level of user call. */
  lemma {:induction false} CallAdder(d: Dialect, foreign: Foreign, funs: map<string, Entry>)
    requires "f" in funs && funs["f"] == User(2, ["x", "y"], Apply("+", [Var("x"), Var("y")]))
    requires "+" in funs && funs["+"] == Builtin(2, Add)
    ensures Eval(d, foreign, Apply("f", [Lit(Int(2)), Lit(Int(3))]), Scope([RootVariables], [funs]), 1) == Ok(Num(Int(5)))
  {
    var sc := Scope([RootVariables], [funs]);
    var args := [Lit(Int(2)), Lit(Int(3))];
    var frame := map["x" := Num(Int(2)), "y" := Num(Int(3))];
    assert Bind(d, foreign, ["x", "y"], args, 0, map[], sc, 1) == Ok(frame);
    var inner := Scope([frame] + sc.vars, [map[]] + sc.funs);
    assert Lookup(inner.funs, "+") == Some(Builtin(2, Add)) by {
      assert inner.funs[1..] == sc.funs;
    }
    assert Eval(d, foreign, Var("x"), inner, 0) == Ok(Num(Int(2)));
    assert Eval(d, foreign, Var("y"), inner, 0) == Ok(Num(Int(3)));
    var xy := [Var("x"), Var("y")];
    assert xy[0] == Var("x") && xy[1] == Var("y");
    assert [] + [Num(Int(2))] == [Num(Int(2))];
    assert [Num(Int(2))] + [Num(Int(3))] == [Num(Int(2)), Num(Int(3))];
    assert EvalArgs(d, foreign, xy, 2, [Num(Int(2)), Num(Int(3))], inner, 0) == Ok([Num(Int(2)), Num(Int(3))]);
    assert EvalArgs(d, foreign, xy, 1, [Num(Int(2))], inner, 0) == Ok([Num(Int(2)), Num(Int(3))]);
    assert EvalArgs(d, foreign, xy, 0, [], inner, 0) == Ok([Num(Int(2)), Num(Int(3))]);
  }

  /** The root's function table binds `+` to the interpreted builtin and has no `f`. */
  lemma RootTableEntries(d: Dialect)
    ensures "f" !in BuiltinEntries(Table(d))
    ensures "+" in BuiltinEntries(Table(d)) && BuiltinEntries(Table(d))["+"] == Builtin(2, Add)
  {
    var table := Table(d);
    TestNames(d);
    ArithmeticEntries(d);
    assert "+" in table;
    assert BuiltinEntries(table)["+"] == Builtin(table["+"].0, table["+"].1);
  }

  /** `def f(x,y) = x + y` then `f(2,3)` is `5`, in either copy. */
  lemma DefineThenCall(d: Dialect, foreign: Foreign)
    ensures var body := Apply("+", [Var("x"), Var("y")]);
      var (r, sc) := Exec(d, foreign, Def("f", ["x", "y"], body), RootScope(d), 0);
      && r == Ok(NoneValue)
      && Eval(d, foreign, Apply("f", [Lit(Int(2)), Lit(Int(3))]), sc, 1) == Ok(Num(Int(5)))
  {
    var funs := BuiltinEntries(Table(d));
    RootTableEntries(d);
    DefineAdder(d, foreign, funs, Apply("+", [Var("x"), Var("y")]));
    CallAdder(d, foreign, funs["f" := User(2, ["x", "y"], Apply("+", [Var("x"), Var("y")]))]);
  }
}
