/** The binding store (`class Environment`): two maps updated in place, variables and
    functions, and an optional `root` an environment delegates to when a name is not bound
    locally. The ghost `chain` lists the environment and its ancestors; `Valid` makes the
    `root` references follow it, so the chain is finite and acyclic and every walk up it ends. */
module Environments {
  import opened Values
  import opened Syntax
  import opened Builtins
  import opened Scopes

  class Environment {
    var variables: map<string, Value>
    var functions: map<string, Entry>
    const root: Environment?
    /** This environment followed by its ancestors, nearest first. */
    ghost const chain: seq<Environment>

    ghost predicate Valid()
      decreases |chain|
    {
      && |chain| >= 1
      && chain[0] == this
      && (root == null ==> chain == [this])
      && (root != null ==> chain == [this] + root.chain && root.Valid())
    }

    /** The environments a walk up from here can touch. */
    ghost function Repr(): set<Environment> {
      set e | e in chain
    }

    /** The variable maps along the chain, nearest first. */
    ghost function Vars(): (fs: Frames<Value>)
      requires Valid()
      reads Repr()
      ensures |fs| == |chain| && fs[0] == variables
      decreases |chain|
    {
      [variables] + if root == null then [] else root.Vars()
    }

    /** The function maps along the chain, nearest first. */
    ghost function Funs(): (fs: Frames<Entry>)
      requires Valid()
      reads Repr()
      ensures |fs| == |chain| && fs[0] == functions
      decreases |chain|
    {
      [functions] + if root == null then [] else root.Funs()
    }

    /** `Environment()`: the root of a session, pre-loaded by `Make`. */
    constructor Root(d: Dialect)
      ensures Valid() && root == null && chain == [this]
      ensures variables == RootVariables
      ensures functions == BuiltinEntries(Table(d))
    {
      root := null;
      chain := [this];
      new;
      Make(Table(d));
    }

    /** `__make`: installs `e`, `pi` and the builtin table, then rewrites each table entry
        in place so that it carries the builtin flag. */
    method Make(table: map<string, (nat, Op)>)
      modifies this`variables, this`functions
      ensures variables == RootVariables
      ensures functions == BuiltinEntries(table)
    {
      variables := RootVariables;
      functions := map[];
      var pending := table.Keys;
      while pending != {}
        invariant pending <= table.Keys
        invariant variables == RootVariables
        invariant functions.Keys == table.Keys - pending
        invariant forall name :: name in functions ==> functions[name] == Builtin(table[name].0, table[name].1)
        decreases |pending|
      {
        var name :| name in pending;
        functions := functions[name := Builtin(table[name].0, table[name].1)];
        pending := pending - {name};
      }
    }

    /** `Environment(root=parent)`: a scope with both maps empty that delegates to `parent`. */
    constructor Child(parent: Environment)
      requires parent.Valid()
      ensures Valid() && root == parent && chain == [this] + parent.chain
      ensures variables == map[] && functions == map[]
    {
      root := parent;
      chain := [this] + parent.chain;
      variables := map[];
      functions := map[];
    }

    /** Every environment on the chain is valid and its own chain is the rest of this one. */
    lemma {:induction false} ChainSuffix(k: int)
      requires Valid() && 0 <= k < |chain|
      ensures chain[k].Valid() && chain[k].chain == chain[k..]
      decreases |chain|
    {
      if k > 0 {
        assert chain[k] == root.chain[k - 1];
        root.ChainSuffix(k - 1);
        assert root.chain[k - 1..] == chain[k..];
      }
    }

    /** The chain never comes back to an environment: no ancestor is this environment. */
    lemma NotOwnAncestor()
      requires Valid() && root != null
      ensures this !in root.Repr() && root.Repr() < Repr()
    {
      forall k | 0 <= k < |root.chain| ensures root.chain[k] != this {
        root.ChainSuffix(k);
      }
      assert this in Repr();
    }

    /** `set_var`: writes the local map only. */
    method SetVar(name: string, value: Value)
      requires Valid()
      modifies this`variables
      ensures variables == old(variables)[name := value]
      ensures Vars() == old(Vars())[0 := old(variables)[name := value]]
      ensures Funs() == old(Funs())
    {
      if root != null { NotOwnAncestor(); }
      variables := variables[name := value];
    }

    /** `get_var`: the local binding, else the root's answer; at the top an unbound name fails. */
    function GetVar(name: string): (r: Result<Value>)
      requires Valid()
      reads Repr()
      ensures r == match Lookup(Vars(), name)
                   case Some(v) => Ok(v)
                   case None => Err(VariableNotFound(name))
      decreases |chain|
    {
      if name in variables then Ok(variables[name])
      else if root == null then Err(VariableNotFound(name))
      else (NotOwnAncestor(); root.GetVar(name))
    }

    /** `del_var`: removes the local binding and stops; otherwise forwards to the root;
        at the top with no binding it does nothing. */
    method DelVar(name: string)
      requires Valid()
      modifies Repr()
      ensures Vars() == DeleteNearest(old(Vars()), name)
      ensures Funs() == old(Funs())
      decreases |chain|
    {
      if root != null { NotOwnAncestor(); }
      if name in variables {
        variables := variables - {name};
        return;
      }
      if root == null {
        return;
      }
      root.DelVar(name);
    }

    /** `set_function`: refuses only when this environment's own table holds a builtin of
        that name; otherwise stores a user entry, replacing any user entry there. */
    method SetFunction(name: string, arity: nat, params: seq<string>, body: Expr) returns (r: Result<()>)
      requires Valid()
      modifies this`functions
      ensures r.Err? <==> name in old(functions) && old(functions)[name].Builtin?
      ensures r.Err? ==> r.error == BuiltinOverwrite(name) && functions == old(functions)
      ensures r.Ok? ==> functions == old(functions)[name := User(arity, params, body)]
      ensures Funs() == old(Funs())[0 := functions]
      ensures Vars() == old(Vars())
    {
      if root != null { NotOwnAncestor(); }
      if name in functions && functions[name].Builtin? {
        return Err(BuiltinOverwrite(name));
      }
      functions := functions[name := User(arity, params, body)];
      r := Ok(());
    }

    /** `get_function`: the local entry, else the root's answer; at the top an unknown name fails. */
    function GetFunction(name: string): (r: Result<Entry>)
      requires Valid()
      reads Repr()
      ensures r == match Lookup(Funs(), name)
                   case Some(entry) => Ok(entry)
                   case None => Err(FunctionNotFound(name))
      decreases |chain|
    {
      if name in functions then Ok(functions[name])
      else if root == null then Err(FunctionNotFound(name))
      else (NotOwnAncestor(); root.GetFunction(name))
    }

    /** `del_function`: like `del_var`, and without looking at the builtin flag. */
    method DelFunction(name: string)
      requires Valid()
      modifies Repr()
      ensures Funs() == DeleteNearest(old(Funs()), name)
      ensures Vars() == old(Vars())
      decreases |chain|
    {
      if root != null { NotOwnAncestor(); }
      if name in functions {
        functions := functions - {name};
        return;
      }
      if root == null {
        return;
      }
      root.DelFunction(name);
    }
  }
}
