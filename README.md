# A calculator language: environments, evaluator and tree reductions

This project models the core of a small calculator language. The language is served by a chat bot, which is not modelled. One line such as `def f(x, y) = x + y` or `f(2, 3)` goes through four steps:

1. a Lark grammar parses the line;
2. a `TreeTransformer` reduces the parse tree to a nested-list AST;
3. `calculate` evaluates that AST with `evl`/`apply`;
4. the evaluation runs in a chain of `Environment` objects.

The repository holds two copies of this core, and the model covers both. The `Dialect` type tells them apart.

- **Current** is the package under `src/`. It has the numpy builtins (20 entries), reads integer text as `int`, and builds binary operators as `["apply", op, [a, b]]`. It also has matrices, `<digits>base` numerals, units and `->` conversions.
- **Legacy** is the copy at the top level. It has `math` builtins (15 entries) and reads every number as `float`. It builds the flat `["apply", op, a, b]`. The legacy `evl` cannot unpack that flat node, so in this copy every binary operator fails when evaluated (`TransformerProperties.LegacyOperatorFails`). Its `?args` rule leaves two or more call arguments in an unreduced tree, which has no `len()`, so a call with several arguments fails too (`Calculator.LegacyAdderSession`). Its `?unset` rule inlines the name, so `unset x` only reads `x` (`Calculator.UnsetLine`).

The model has these parts:

- **Environments** (`environment.dfy`) is a `class Environment` with the two maps the source updates in place and the `root` reference. A ghost `chain` keeps the ancestry finite and acyclic. Each method is stated against the value-level view `Vars()`/`Funs()`, a sequence of frames nearest first. `Scopes` (`scopes.dfy`) defines lookup and "delete the nearest binding" on those frames.
- **Evaluator** (`calc.dfy`):
  - `Eval`, `Call`, `EvalArgs`, `Bind` and `Exec` are the meaning of `evl`/`apply`, stated on frames.
  - `Evl`, `ApplyFunction`, `CallUser`, `EvalArguments`, `BindArguments` and `Execute` are the source's procedures over `Environment` objects. Each is proved equal to that meaning.
  - User calls are dynamically scoped. The body runs in a fresh environment whose root is the caller's.
  - A name spelled like a node tag (`set`, `apply`, `unset`, `def`, `undef`, `matrix`, `with_units`) is not looked up: `evl` lets it fall through to the list unpacking, which matches no tag, so it reads as `None`.
  - Python's `RecursionError` is modelled by a `fuel` count.
  - `calc_properties.dfy` proves what `calculate` promises about binding, arity, scoping, `set`/`unset`/`def`/`undef` and fuel.
- **Grammar** (`grammar.dfy`) is a recursive-descent parser of the grammar's arithmetic fragment and top-level forms. It reads tokens. A printer with minimal parentheses goes with it. `grammar_roundtrip.dfy` proves that every printed tree and every printed line parses back to itself. It also proves the precedence and associativity of `+ - * / ^`.
- **Tree reductions** (`transformer.dfy`) are the `TreeTransformer` methods of both copies, `number_base` included (`numerals.dfy`). `number_base` is an imperative method over an array. It is proved to compute Horner's rule, which is in turn proved to invert the radix expansion of every natural number.
- **`calculate`** (`calculate.dfy`) runs parse, reduce and evaluate on an `Environment`. It ends with the session from the repository's tests, `def f(x,y) = x + y` then `f(2,3)`, which answers 5 in the current copy and raises in the legacy one.

Where a test text and the code differ in form, the model follows the code. For example, the tests compare `sin(2)` with `[2.0]`, while the current `num` returns `int(2)`; Python counts those as equal.

## Model

| member | source | states |
|---|---|---|
| Values.Negate | src/parser.py:24-25 | Python's unary minus: keeps the number's kind, an integer and its negation sum to zero, and float and complex parts are negated |
| Values.NegateInvolutive | src/parser.py:24-25 | negating twice gives the number back |
| Builtins.BuiltinEntries | src/calc.py:36-37 | the rewrite loop of `__make` flags every table entry as builtin, keeping its arity and callable, and adds no name |
| Builtins.LegacyTableNames | calc.py:18-33 | the legacy table holds exactly the 15 arithmetic, trigonometric and logarithmic names |
| Builtins.CurrentTableNames | src/calc.py:15-34 | the current table holds those 15 names plus `T`, `tr`, `D`, `rk` and `inv` |
| Builtins.TableNames | src/calc.py:15-34 | in either copy the table lies between the 15 common names and those plus the matrix functions |
| Builtins.ArithmeticEntries | src/calc.py:15-19 | `+`, `-` and `*` are binary and `neg` is unary in both copies |
| Builtins.ApplyBuiltin | src/calc.py:15-34 | integer `+ - *` and `neg` are exact integer arithmetic, and every other callable is handed to the foreign library unchanged |
| Scopes.Lookup | src/calc.py:63-71 | a name is found exactly when some frame binds it, and then its value is the one in the nearest such frame |
| Scopes.DeleteNearest | src/calc.py:52-61 | deletion removes the name from the nearest frame that binds it and leaves every other frame unchanged |
| Scopes.DeleteAbsent | src/calc.py:58-59 | deleting a name bound nowhere changes nothing |
| Scopes.LookupAfterDelete | src/calc.py:52-61 | after deletion the name resolves as it did in the frames beyond the nearest binding |
| Scopes.LookupAfterDeleteOther | src/calc.py:52-61 | deleting one name does not change how any other name resolves |
| Scopes.LookupAfterSetLocal | src/calc.py:48-50 | writing the innermost frame makes the name read back the new value, other names resolve as before, and outer frames are untouched |
| Environments.Environment.Root | src/calc.py:39-42 | a root environment has no parent, the variables `e` and `pi`, and the builtin table of its copy |
| Environments.Environment.Make | src/calc.py:12-37 | `__make` installs `e` and `pi` and every table entry, flagged builtin |
| Environments.Environment.Child | src/calc.py:43-46 | a child starts with both maps empty and delegates to its parent |
| Environments.Environment.ChainSuffix | src/calc.py:39-46 | every ancestor is itself a valid environment whose chain is the rest of this one |
| Environments.Environment.NotOwnAncestor | src/calc.py:39-46 | no environment is its own ancestor, so every walk up the `root` references ends |
| Environments.Environment.SetVar | src/calc.py:48-50 | `set_var` writes the local variable map only and leaves the functions and outer frames unchanged |
| Environments.Environment.GetVar | src/calc.py:63-71 | `get_var` returns the nearest binding along the chain, or raises "variable not found" when there is none |
| Environments.Environment.DelVar | src/calc.py:52-61 | `del_var` removes exactly the nearest binding along the chain and does not touch the functions |
| Environments.Environment.SetFunction | src/calc.py:73-78 | `set_function` fails exactly when this environment's own table holds a builtin of that name, changing nothing; otherwise it stores a user entry there |
| Environments.Environment.GetFunction | src/calc.py:91-99 | `get_function` returns the nearest entry along the chain, or raises "function not found" |
| Environments.Environment.DelFunction | src/calc.py:80-89 | `del_function` removes the nearest entry along the chain, builtin or not, and does not touch the variables |
| Calc.MakeMatrix | src/calc.py:119-124 | numbers stay numbers, a matrix node becomes a list whose i-th entry is the conversion of its i-th element, and anything else becomes `None` |
| Calc.Evl | src/calc.py:126-168 | `evl` on an expression over environment objects computes the value-level meaning `Eval` on the chain's frames |
| Calc.ApplyFunction | src/calc.py:170-197 | `apply` computes the meaning `Call`: lookup, then arity check, then builtin or user call |
| Calc.CallUser | src/calc.py:185-197 | the user branch binds the parameters in a fresh child of the caller and evaluates the body there, as `UserCall` (`Bind`, then `Eval` with one less unit of fuel) says |
| Calc.EvalArguments | src/calc.py:176-179 | the builtin branch evaluates the arguments left to right, and the first failure is the result |
| Calc.BindArguments | src/calc.py:194-195 | the parameter loop leaves the fresh environment's variables equal to the frame `Bind` computes, or fails as `Bind` fails |
| Calc.Execute | src/calc.py:141-163 | `evl` on a top-level node gives the result and the new environment chain that `Exec` gives |
| CalcProperties.DistinctIff | src/calc.py:152-155 | the check `len(f_args) != len(set(f_args))` rejects exactly the parameter lists with a repeated name |
| CalcProperties.EvalArgsValues | src/calc.py:176-179 | evaluating builtin arguments succeeds exactly when every argument does, and then yields their values in order; otherwise it fails with the error of the first failing argument |
| CalcProperties.BindSucceeds | src/calc.py:194-195 | with at least as many arguments as parameters, binding succeeds exactly when every argument it reaches evaluates |
| CalcProperties.BindKeys | src/calc.py:194-195 | a successful binding binds the parameters and nothing else |
| CalcProperties.BindKeeps | src/calc.py:194-195 | a name that no later parameter has keeps its earlier value |
| CalcProperties.BindParameter | src/calc.py:194-195 | the last occurrence of a parameter is bound to the value of its own argument |
| CalcProperties.BindMissing | src/calc.py:194-195 | with fewer arguments than parameters, binding fails with the index error once the arguments run out |
| CalcProperties.ArityCheckedFirst | src/calc.py:170-191 | a call with the wrong number of arguments fails on the arity before any argument is evaluated, for builtins and user functions alike |
| CalcProperties.DynamicScoping | src/calc.py:185-197 | a user function body naming a non-parameter evaluates to what that name gives in the caller's scope |
| CalcProperties.ParameterBinding | src/calc.py:194-197 | with distinct parameters, a body that is the j-th parameter returns the value of the j-th argument, or `None` when that parameter is spelled like a node tag |
| CalcProperties.EvalFuel | src/calc.py:126-168 | any evaluation result other than the recursion error is kept with one more unit of fuel |
| CalcProperties.CallFuel | src/calc.py:170-197 | the same for a call |
| CalcProperties.EvalArgsFuel | src/calc.py:176-179 | the same for the argument loop |
| CalcProperties.BindFuel | src/calc.py:194-195 | the same for the parameter loop |
| CalcProperties.EvalFuelMonotone | src/calc.py:126-197 | once the recursion limit is not reached, any larger fuel gives the same result |
| CalcProperties.FailedStatementKeepsScope | src/calc.py:141-163 | a statement that raises leaves every binding as it was |
| CalcProperties.AssignThenRead | src/calc.py:131-144 | after `x = e` the variable is bound to the value of `e` and reads it back, unless `x` is spelled like a node tag, which reads as `None`; other variables and all functions are unchanged, and only the innermost map changes |
| CalcProperties.UnsetNeverFails | src/calc.py:146-148 | `unset` always succeeds, and on an unbound name it changes nothing |
| CalcProperties.UnsetRevealsOuter | src/calc.py:146-148 | `unset x` removes the nearest binding, so `x` then resolves as in the frames beyond it, and nothing else changes |
| CalcProperties.DefRegisters | src/calc.py:150-159 | `def` succeeds exactly when the parameters are distinct and no local builtin has the name, and then it stores a user entry of that arity in the innermost table |
| CalcProperties.DefThenUndef | src/calc.py:150-163 | after `def` then `undef`, the name resolves as it did beyond the innermost table |
| CalcProperties.RootScope | src/calc.py:39-42 | a root scope is one variable frame holding exactly `e` and `pi`, and one function table holding exactly the copy's builtin names |
| CalcProperties.RootBuiltinProtected | src/calc.py:73-76 | redefining a builtin at the root fails with the overwrite error and leaves the root unchanged |
| CalcProperties.UndefBuiltinThenDef | src/calc.py:80-89 | `undef sqrt` at the root removes the builtin, since the flag is not checked, and a later `def sqrt` then succeeds |
| CalcProperties.ArityBeforeUnboundArgument | tests/test_calc.py:103-106 | `cos(c, 2)` fails with the arity error, not on the unbound `c` |
| CalcProperties.DefineAdder | tests/test_calc.py:24-27 | `def f(x,y) = ...` stores the user entry of arity 2 with parameters `x` and `y` |
| CalcProperties.CallAdder | tests/test_calc.py:108-111 | with that `f` and the builtin `+`, `f(2,3)` is 5 |
| CalcProperties.RootTableEntries | src/calc.py:15-37 | the root table has no `f`, and its `+` is the builtin binary addition |
| CalcProperties.DefineThenCall | tests/test_calc.py:108-111 | with the body as the nested `apply` node, `def f(x,y) = x + y` at the root succeeds and `f(2,3)` then gives 5, in either evaluator |
| EnvironmentScenarios.DeleteVariableThroughChain | tests/test_calc.py:49-59 | a child's `x` hides the root's; the first `del_var` reveals the root's, and the second removes it |
| EnvironmentScenarios.DeleteFunctionThroughChain | tests/test_calc.py:61-71 | the same for user functions with `del_function` |
| EnvironmentScenarios.NotBuiltin | tests/test_calc.py:29-32 | a fresh root has no `f` and has the builtin `sqrt` |
| EnvironmentScenarios.RedefineBuiltin | tests/test_calc.py:39-42 | `set_function('sqrt', ...)` on a root fails with the overwrite error |
| Numerals.DigitValue | src/parser.py:115-119 | a decimal digit is worth 0-9, and a lower-case letter is worth 10-35 |
| Numerals.LowFirstShift | src/parser.py:112-120 | putting one more low digit in front multiplies the rest by the base |
| Numerals.LowFirstOfReverse | src/parser.py:112-120 | summing the reversed digits with rising powers equals Horner's rule on the digits |
| Numerals.SumDigits | src/parser.py:109-122 | the accumulation loop over the reversed digits returns the sum of each digit times the base raised to its position |
| Numerals.NumberBase | src/parser.py:105-122 | `number_base` (copy, reverse in place, accumulate with a running power) returns the positional value of the digits in the given base |
| Numerals.ReverseInPlace | src/parser.py:112 | `list.reverse()` leaves the array holding the reverse of its old contents |
| Numerals.PositionalToDigits | src/parser.py:105-122 | every natural number is the value of its own digit string in any base from 2 to 36 |
| Numerals.ToDigitsInRange | src/parser.py:105-122 | every digit of that string is below the base |
| Numerals.NumberBaseExamples | tests/test_pars.py:48-49 | `<ff>16` is 255 and `<101>2` is 5 |
| Numerals.UncheckedDigit | src/parser.py:115-120 | a digit is not checked against the base: `<19>2` is 11 |
| Numerals.RealValueOfInt | src/parser.py:15-19 | on digit-only text, `float(text)` and `int(text)` have the same value |
| Numerals.RealValueExamples | tests/test_pars.py:11-12 | `1.1` reads as eleven tenths and `13e3` as 13000 |
| Grammar.ParseTop | src/parser.py:126-141 | a line read as an expression or an assignment is the whole of `expr`, or `NAME =` followed by the whole of `expr` |
| GrammarRoundTrip.ExprRoundTrip | src/parser.py:143-145 | `expr` reads back a tree printed at the sum level, then continues with what follows |
| GrammarRoundTrip.TermRoundTrip | src/parser.py:147-149 | `term` reads back a tree printed at the product level |
| GrammarRoundTrip.ExpRoundTrip | src/parser.py:151-152 | `exp` reads back a tree printed at the power level |
| GrammarRoundTrip.AtomRoundTrip | src/parser.py:167-175 | `atom` reads back a number, imaginary number, name, negation, call or parenthesised expression |
| GrammarRoundTrip.ArgsRoundTrip | src/parser.py:154 | `args` reads back a comma-separated argument list up to the closing parenthesis |
| GrammarRoundTrip.ParsePrint | src/parser.py:143-175 | every printed expression parses back to the same tree with no token left |
| GrammarRoundTrip.ParamsRoundTrip | src/parser.py:137 | `var_args` reads back a comma-separated name list |
| GrammarRoundTrip.ParsePrintTop | src/parser.py:126-141 | every printed line parses back to the same top-level form |
| GrammarRoundTrip.LeftAssociative | src/parser.py:143-145 | `a - b - c` parses as `(a - b) - c` |
| GrammarRoundTrip.RightGroupingParenthesised | src/parser.py:143-175 | `a - (b - c)` needs its parentheses, and with them it parses back to the right grouping |
| GrammarRoundTrip.AssignAddPow | tests/test_pars.py:23-24 | `z = x + y^3` assigns a sum whose right operand is the power |
| GrammarRoundTrip.ParenthesisedSum | tests/test_pars.py:39-40 | `(1 + 2) / 3` divides the parenthesised sum |
| GrammarRoundTrip.DefinitionExample | tests/test_pars.py:29-31 | `def f(x, y) = (2 + x) * y` defines `f` over `x, y` with the product of the sum and `y` |
| Transformer.OpName | src/parser.py:27-50 | the operator name is `+` exactly for `add`, `-` exactly for `sub`, `*` exactly for `mul`, `/` exactly for `div` and `pow` exactly for `pow` |
| Transformer.NumValue | src/parser.py:15-19 | `num` gives an `int` exactly in the current copy on digit-only text, and in either copy a real (never complex) number equal to the text's value |
| Transformer.DigitNumber | src/parser.py:15-19 | a one-digit token reads as that digit's integer in the current copy and as its float in the older one |
| Transformer.Transform | src/parser.py:15-122 | a reduction raises only its own errors, and a `<digits>base` numeral only in the older copy, whose grammar lacks it; a negation that succeeds is a literal; a call with empty parentheses raises |
| Transformer.TransformTop | src/parser.py:126-141 | `->` is a syntax error in the older copy; `unset x` always reduces, to the `unset` node exactly in the current copy; `def f() = ...` raises |
| Transformer.LegacyCallNode | parser.py:120-133 | in the older copy, a one-argument call that yields an `apply` node with an argument list gives it exactly as many arguments as `len()` counts in the inlined argument |
| Transformer.NumValueAgrees | parser.py:13-14 | both copies read a number to the same value; only its type differs |
| Transformer.TransformAll | src/parser.py:98-99 | a child list reduces exactly when every child does, element by element |
| TransformerProperties.NegFolds | src/parser.py:24-25 | `neg` succeeds exactly on a numeric literal and folds it to its negation |
| TransformerProperties.DoubleNegation | src/parser.py:24-25 | two minus signs on a literal cancel |
| TransformerProperties.BinaryShape | src/parser.py:27-50 | a binary reduction succeeds exactly when both operands reduce; it builds the nested `apply` in the current copy and the flat one in the legacy copy |
| TransformerProperties.CallShape | src/parser.py:60-63 | in the current copy `func_call` builds `["apply", name, args]` from the arguments reduced left to right and fails exactly when an argument fails; empty parentheses raise in both copies |
| TransformerProperties.LegacyCallShape | parser.py:120-133 | in the older copy a call reduces exactly when its arguments do; one argument is inlined into `LegacyCallNode`, and two or more stay in an unreduced tree |
| TransformerProperties.LegacyCallFails | calc.py:152-169 | in the older copy a call with several arguments, or with one number, fails with the function-not-found error or with the `len()` type error |
| TransformerProperties.CurrentNested | src/parser.py:27-50 | the current copy never builds a flat `apply` node |
| TransformerProperties.LegacyOperatorFails | calc.py:147-150 | every binary operator of the legacy copy evaluates to the unpacking error |
| TransformerProperties.UnitsAgree | parser.py:74-85 | the copies reduce a unit expression alike, except for the legacy tag on the leaf |
| TransformerProperties.NumberExamples | tests/test_pars.py:11-12 | `1.1` is a float in both copies, and `2` is an integer only in the current one |
| TransformerProperties.NegationExamples | tests/test_pars.py:14-18 | `-2` folds to -2, and `2 - 1j` subtracts a pure imaginary number |
| TransformerProperties.CallExamples | tests/test_pars.py:20-21 | `sin(2)` calls with one argument, and `f()` raises in the reduction; in the older copy `sin(2)` passes the bare number and `sin(xy)` the letters `x` and `y` |
| TransformerProperties.MatrixExample | tests/test_pars.py:36-37 | `[[1 2] [3 4]]` nests one matrix node per row, and `[x]` is just `x` |
| TransformerProperties.NumberBaseExample | tests/test_pars.py:48-49 | `<ff>16 + <101>2` adds 255 and 5, and the legacy grammar has no such numeral |
| TransformerProperties.UnitExamples | tests/test_pars.py:42-46 | `x {(kg * m) / s}` and `x {kg} -> {mg}` reduce to the unit nodes, and the legacy copy tags its leaf and has no `->` |
| TransformerProperties.SingleParameterLetters | src/parser.py:137-139 | `def f(ab) = ...` has parameters `a` and `b`, `def f(x)` has `x`, and `def f()` raises |
| Calculator.Calculate | src/calc.py:199-201 | `calculate` on an environment gives the result and the new chain of parsing, reducing and then evaluating the line |
| Calculator.FailedLineKeepsScope | src/calc.py:199-201 | a line that fails at any stage changes no binding |
| Calculator.DefineLineParses | tests/test_calc.py:24-27 | `def f(x, y) = x + y` parses and reduces to the definition, with each copy's operator node in the body |
| Calculator.CallLineParses | tests/test_calc.py:108-111 | `f(2, 3)` parses to a call with two number arguments |
| Calculator.CallLineReduces | parser.py:120-133 | `f(2, 3)` reduces to an `apply` node over the two numbers in the current copy and over the unreduced argument tree in the older one |
| Calculator.AdderSession | tests/test_calc.py:108-111 | in the current copy that session answers 5 and leaves no `x` in the caller's scope |
| Calculator.AdderSessionOver | tests/test_calc.py:108-111 | the same over any root table with the builtin `+` and no `f` |
| Calculator.LegacyAdderSession | calc.py:147-169 | in the legacy copy the definition succeeds, and `f(2, 3)` raises the `len()` type error and changes no binding |
| Calculator.LegacyAdderSessionOver | calc.py:147-169 | the same over any root table without `f` |
| Calculator.LegacyCall | calc.py:164-174 | in the legacy copy `f(xy)` passes the letters `x` and `y`, binds both, and then fails on the flat operator node of the body |
| Calculator.UnsetLine | parser.py:91-101 | `unset x` deletes the nearest binding in the current copy, and in the older one reads `x` and changes nothing |

## Left out

- Lexing and the Lark engine: the parser reads a token sequence (`Token`), and how characters become tokens is not modelled.
- The parser does not read matrices, units, `<digits>base` numerals or `->` conversions. The tree reductions take those trees as given (`MatrixT`, `UnitsT`, `BaseT`, `ConvertTop`).
- Calc.Eval: in the older copy, a one-argument call whose inlined argument is a compound node other than a flat operator (a call, a matrix, a unit node) and whose length equals the function's arity goes on to evaluate the node's tag and fields as arguments. The model stops there with `MalformedNode` (`BareApply`).
- Floating point: floats are exact reals, and Python's rounding of `float(text)`, division and the `math`/numpy functions are not modelled. Every non-integer builtin is a call to a `Foreign` parameter.
- numpy matrices: `np.matrix` shaping and matrix arithmetic are left out. `MakeMatrix` builds the nested lists that are handed to it.
- Units and conversion through pint: `with_units` and `convert` evaluate to `None`, as in the evaluator, which has no branch for them.
- Python's `RecursionError`: a `fuel` bound stands for the interpreter's recursion limit. Running out of fuel is the `RecursionLimit` error.
- Object identity and allocation of environments: the evaluator's methods state their effect on the frames of the chain, and nothing about aliasing between unrelated environments.
- Builtins.ApplyBuiltin: numpy integers are 64-bit, and `np.power`, `tr` and `rk` return `np.int64` values that wrap around at 2^63. The model hands these to the foreign library and does not model the wrap-around.
- `__repr__`, `get_data`/`set_data`, the chat bot (`bot.py`, `src/bot.py`) and the demonstration blocks under `__main__`.
- Code over description: a second `del_var` or `del_function` on a child reaches the root and removes the root's binding. `del_function` removes builtins, since it does not check the flag. `number_base` does not check that each digit is below the base. The model follows the code in all three (`EnvironmentScenarios.DeleteVariableThroughChain`, `CalcProperties.UndefBuiltinThenDef`, `Numerals.UncheckedDigit`).
