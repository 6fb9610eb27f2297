# Lox tree-walking interpreter, modelled in Dafny

This project models the core of a small Lox interpreter written in Python:

- the chain of scopes (`lox/ctx.py`);
- the runtime operator library (`lox/runtime.py`);
- the `eval` methods of the syntax tree (`lox/ast.py`);
- the transformer that builds that tree and desugars `for` loops (`lox/transformer.py`).

Modules, one file each:

- `Basics` (basics.dfy): option and result types, the exception kinds of the
  host, and the decimal rendering and reading of numbers.
- `Syntax` (syntax.dfy): the expression and statement nodes, and their sizes.
- `Objects` (objects.dfy): `LoxClass` and `LoxInstance`.
- `Environment` (environment.dfy): the `Ctx` class. Its `scope` is a mutable
  `map` field and its `parent` a `Ctx?`. Lookup, assignment, declaration,
  `push`, `pop`, `to_dict`, `is_global` and `iter_scopes` live here. So do
  pure functions over a *heap*, which is a snapshot `map<Ctx, Scope>` of many
  scopes at once.
- `Runtime` (runtime.dfy): `truthy`, `not_`, arithmetic, comparisons, `eq`,
  `ne`, `show` and `show_repr`.
- `Semantics` (semantics.dfy): the meaning of every `eval`, as ghost functions
  `Eval`, `Exec`, `CallValue` and `Run` over a `Machine`. A machine holds:
  - a heap;
  - the values printed so far;
  - the contexts the run will allocate.

  A `Signal` says how a statement ended: `Normal`, `Returning(v)` (the
  `LoxReturn` exception) or `Raised(error)`. `fuel` is the host recursion depth
  left. A `while` iteration and a Lox call each go one level deeper, and depth
  zero is the host's RecursionError.
- `Evaluator` (evaluator.dfy): the `eval` methods as imperative methods over
  live `Ctx` objects. They create contexts with `new`, and `Assign`, `var` and
  `fun` update scopes in place through `Ctx.Set` and `Ctx.VarDef`. Each method
  is proved against the `Semantics` function for its node. Started on the
  scopes the reachable contexts hold, that function ends in the method's
  result, the method's output and the scopes those contexts hold afterwards.
- `Transformer` (transformer.dfy): the rule methods of `LoxTransformer` as
  pure node builders. The `for` desugaring is among them.
- `Properties` (properties.dfy): what the `eval` methods promise, proved about
  `Semantics`, and how trees built by the transformer behave when run.
- `Scoping` (scoping.dfy): which scopes a run can give new names to. An
  expression gives none to any existing scope, a statement only to the scope
  it runs in, and a block to none that existed before it.

The model keeps these quirks of the code:

- Booleans pass the numeric check, so `true + 1` is `2`.
- An `if` without `else` whose condition is falsey ends in the host's
  AttributeError. The transformer leaves `orelse` empty, and `If.eval` calls
  `eval` on it.
- `eq` compares host types first, so `nil == false` and `1 == "1"` are false.
- An unbound callee name is a KeyError, while an unbound `Var` is a NameError.
- Redeclaring a name is a NameError, except in the global scope, which is the
  one right below the builtins root.

## Model

| member | source | states |
|---|---|---|
| Basics.ParseDecimal | lox/transformer.py:193-195 | text without a dot is a number exactly when it is a non-empty digit string, and then it reads as that natural number; text with a dot is a number exactly when the parts before and after the first dot are both non-empty digit strings |
| Basics.ParseNatAppend | lox/transformer.py:193-195 | the digits of `a` followed by those of `b` denote `a` times ten to the length of `b`, plus `b` |
| Basics.DecimalPointValue | lox/transformer.py:193-195 | `w.f` reads as the number `wf` divided by ten for each digit of `f` |
| Basics.IntToStringRoundTrip | lox/runtime.py:128-129 | reading back the decimal rendering of an integer gives that integer |
| Basics.NatToStringIsDecimal | lox/runtime.py:128-129 | the decimal numeral of a natural number reads back as that number |
| Environment.Lookup | lox/ctx.py:52-59 | lookup over a list of scopes fails exactly when no scope holds the key, and then the error is the KeyError |
| Environment.LookupInnermost | lox/ctx.py:52-59 | the value found is the binding of the innermost scope that holds the key |
| Environment.Ctx.constructor | lox/ctx.py:35-43 | a context over the given scope and parent |
| Environment.Ctx.FromDict | lox/ctx.py:45-50 | a new global context over `env`, below a new root that holds the builtins |
| Environment.Ctx.Scopes | lox/ctx.py:97-108 | `iter_scopes()` gives one scope per context of the chain, innermost first |
| Environment.Ctx.ScopesReversed | lox/ctx.py:101-104 | `iter_scopes(reverse=True)` is the reverse of `iter_scopes()` |
| Environment.Ctx.Get | lox/ctx.py:52-59 | `ctx[key]` is the lookup over the chain's scopes: the innermost binding, or KeyError |
| Environment.Ctx.Contains | lox/ctx.py:73-77 | `name in ctx` holds exactly when `ctx[name]` succeeds |
| Environment.Ctx.ToDict | lox/ctx.py:89-95 | `to_dict()` has exactly the names `ctx` contains, each mapped to what `ctx[key]` gives |
| Environment.Ctx.IsGlobal | lox/ctx.py:130-136 | global exactly when the chain has two contexts: this one and the root |
| Environment.Ctx.Set | lox/ctx.py:61-71 | succeeds exactly when the name was bound, with KeyError otherwise; rebinds the innermost holder and leaves every other scope of the chain as it was |
| Environment.Ctx.VarDef | lox/ctx.py:79-87 | fails exactly when the name is already in this scope and the scope is not global, with NameError and no change; otherwise binds the name in this scope only |
| Environment.Ctx.Push | lox/ctx.py:126-128 | a fresh context whose parent is this one, over the given scope or an empty one; its scopes are the new scope followed by this chain's |
| Environment.Ctx.Pop | lox/ctx.py:120-124 | RuntimeError exactly when there is no parent; otherwise this scope and the parent, which together make up the chain |
| Environment.AssignInDefined | lox/ctx.py:61-71 | assignment in a heap succeeds exactly when lookup would, and otherwise fails with the KeyError of `__setitem__` |
| Environment.AssignInLookup | lox/ctx.py:61-71 | after an assignment the name reads as the new value, and every other name reads as before |
| Environment.AssignInFrame | lox/ctx.py:61-71 | assignment neither creates nor removes a binding, and changes no scope but the innermost holder's |
| Objects.LoxClass.constructor | lox/runtime.py:39-40 | a class with the given name |
| Objects.LoxClass.Str | lox/runtime.py:42-43 | `str(cls)` is the class name |
| Objects.LoxClass.Call | lox/runtime.py:45-48 | calling a class ignores the arguments and gives a fresh instance of that class |
| Objects.LoxInstance.constructor | lox/runtime.py:55-56 | an instance of the given class |
| Objects.LoxInstance.Str | lox/runtime.py:58-59 | the class name followed by " instance" |
| Runtime.Not | lox/runtime.py:252-254 | a boolean that is true exactly for nil and false |
| Runtime.TruthyOnlyNilAndFalseAreFalse | lox/runtime.py:152-158 | only nil and false are falsey, so 0 and "" are truthy; `not_` is the negation of `truthy` |
| Runtime.Add | lox/runtime.py:162-169 | succeeds exactly for two numeric operands (numeric sum) or two strings (concatenation: left then right); LoxError otherwise |
| Runtime.Sub | lox/runtime.py:172-177 | succeeds exactly when both operands are numeric, LoxError otherwise; the difference plus the right operand is the left operand |
| Runtime.Mul | lox/runtime.py:180-185 | succeeds exactly when both operands are numeric, LoxError otherwise; the product divided by a non-zero right operand is the left operand, and the product by zero is zero |
| Runtime.MulCommutes | lox/runtime.py:180-185 | multiplication is commutative and `true` is its identity |
| Runtime.Truediv | lox/runtime.py:188-195 | succeeds exactly for numeric operands with a non-zero right one, and the quotient times the divisor is the dividend; a zero right operand is "Divisão por zero." whatever the left one |
| Runtime.Neg | lox/runtime.py:198-203 | succeeds exactly for a numeric operand, giving its additive inverse; LoxError otherwise |
| Runtime.Compare | lox/runtime.py:207-236 | `gt`, `ge`, `lt`, `le` succeed with a boolean exactly when both operands are numeric, LoxError otherwise; the boolean says whether `left - right` is positive, non-negative, negative or non-positive respectively |
| Runtime.Eq | lox/runtime.py:239-244 | values of different host types are never equal |
| Runtime.Ne | lox/runtime.py:247-249 | `ne` is the negation of `eq` |
| Runtime.EqIsValueEquality | lox/runtime.py:239-244 | `eq` never raises, is symmetric and is value identity, so nil is not false, 1 is not "1" and true is not 1 |
| Runtime.ArithmeticInverses | lox/runtime.py:162-195 | subtraction undoes addition, and division undoes multiplication by a non-zero number |
| Runtime.BooleansAreNumbers | lox/runtime.py:164 | `true + 1` is 2, dividing by `false` is a division by zero, and `nil + 1` is an error |
| Runtime.ComparisonsAgree | lox/runtime.py:207-236 | `a > b` is `b < a`, `a >= b` is `b <= a` and the negation of `a < b`, and `a <= b` is `a < b` or equal |
| Runtime.ApplyBinary | lox/transformer.py:36-47 | an operator node's function fails only with LoxError, and `eq`/`ne` never fail |
| Runtime.ApplyUnary | lox/transformer.py:107-111 | `-` fails only with the operand error, and `!` never fails |
| Runtime.Show | lox/runtime.py:114-140 | a whole number renders without ".0" and reads back as that integer; a string renders as itself, a builtin as "<native fn>", a class as its name and an instance as "<name> instance" |
| Runtime.ShowRepr | lox/runtime.py:143-149 | a string in double quotes; anything else as `show` renders it |
| Runtime.ShowKeywords | lox/runtime.py:120-125 | nil, true and false render as "nil", "true" and "false" |
| Semantics.TruthTestsAgree | lox/ast.py:412-455 | `is_lox_true` is the negation of `is_falsey`, and both agree with `truthy` |
| Semantics.BindParams | lox/ast.py:435-436 | the call scope binds exactly the parameter names, each to one of the arguments |
| Semantics.BindParamsAt | lox/ast.py:435-436 | `dict(zip(names, values))` binds each name to the argument in its position, the last position when a name repeats |
| Semantics.Eval | lox/ast.py:61-228 | the meaning of `expr.eval(ctx)`: its value or exception and the machine after it; its properties are the lemmas of `Properties` and `Scoping` and the frame lemmas |
| Semantics.EvalCallee | lox/ast.py:177-193 | `Call._eval_callee`: direct lookup of a name, evaluation of a call, RuntimeError for any other node |
| Semantics.EvalArgs | lox/ast.py:173 | the arguments left to right, stopping at the first error |
| Semantics.CallValue | lox/ast.py:426-444 | `LoxFunction.__call__`: arity check, a new scope of the parameters below the captured context, the body, and the first returned value or nil |
| Semantics.Exec | lox/ast.py:285-466 | the meaning of `stmt.eval(ctx)`: how it ends (normally, by `return`, or by an exception) and the machine after it |
| Semantics.ExecStmts | lox/ast.py:440-444 | statements in order in one context, up to the first that returns or raises |
| Semantics.Run | lox/ast.py:53-55 | `Program.eval`: the program's statements in the given context |
| Semantics.Allocate | lox/ast.py:439 | a new context takes the next object of the supply, which has the required parent and no scope yet, and gets the given scope |
| Semantics.EvalFrame | lox/ast.py:73-156 | evaluation only appends to earlier output and only consumes the supply from its front |
| Semantics.ExecFrame | lox/ast.py:295-383 | statements only append to earlier output and only consume the supply from its front |
| Evaluator.EvalExpr | lox/ast.py:61-228 | the value, output and new scopes of `expr.eval(ctx)` are those `Semantics.Eval` gives |
| Evaluator.EvalVar | lox/ast.py:89-93 | the innermost binding, or NameError naming the variable |
| Evaluator.EvalBinOp | lox/ast.py:73-76 | agrees with `Eval`: left operand, then right, then the operator |
| Evaluator.EvalAnd | lox/ast.py:121-125 | agrees with `Eval`: the left value when it is falsey, else the right one |
| Evaluator.EvalOr | lox/ast.py:137-141 | agrees with `Eval`: the left value when it is truthy, else the right one |
| Evaluator.EvalUnaryOp | lox/ast.py:154-156 | agrees with `Eval` on a unary node |
| Evaluator.EvalAssign | lox/ast.py:224-228 | agrees with `Eval`: the value is stored into the innermost holder through `Ctx.Set` and returned |
| Evaluator.ResolveCallee | lox/ast.py:177-193 | agrees with `EvalCallee`: direct lookup of a name, evaluation of a call, RuntimeError for any other node |
| Evaluator.EvalParams | lox/ast.py:173 | agrees with `EvalArgs`: the arguments left to right, stopping at the first error |
| Evaluator.EvalCall | lox/ast.py:170-175 | agrees with `Eval` on a call: callee, then arguments, then the call |
| Evaluator.Invoke | lox/ast.py:426-444 | agrees with `CallValue`: arity check, a new context below the captured one, the body, and the first returned value or nil |
| Evaluator.ExecStmt | lox/ast.py:285-466 | the signal, output and new scopes of `stmt.eval(ctx)` are those `Semantics.Exec` gives |
| Evaluator.ExecPrint | lox/ast.py:295-297 | agrees with `Exec`: the value is appended to the output |
| Evaluator.ExecReturn | lox/ast.py:310-312 | agrees with `Exec`: the value leaves as a return signal |
| Evaluator.DefineIn | lox/ast.py:326-328 | declares through `Ctx.VarDef`, as `Declare` on the machine does |
| Evaluator.ExecVarDef | lox/ast.py:326-328 | agrees with `Exec`: the initialiser or nil is declared in the current context |
| Evaluator.ExecIf | lox/ast.py:343-348 | agrees with `Exec`: one branch by the truth of the condition, and an AttributeError when the else branch is missing |
| Evaluator.ExecWhile | lox/ast.py:364-368 | agrees with `Exec`: the condition is tested before each pass and the loop recurses one level per pass |
| Evaluator.ExecBlock | lox/ast.py:379-383 | agrees with `Exec`: the statements run in a fresh child context |
| Evaluator.ExecFunction | lox/ast.py:397-400 | agrees with `Exec`: declares a function that captures the current context |
| Evaluator.ExecExpression | lox/ast.py:465-466 | agrees with `Exec`: the expression is evaluated and its value dropped |
| Evaluator.ExecBody | lox/ast.py:440-444 | agrees with `ExecStmts`: statements in order up to the first that returns or raises |
| Evaluator.RunProgram | lox/ast.py:53-55 | agrees with `Run`: the program's statements in the given context |
| Transformer.OpHandler | lox/transformer.py:17-27 | the built method makes a BinOp of its two children with the given operator |
| Transformer.RuleOperator | lox/transformer.py:36-47 | exactly the ten operator rules have an operator |
| Transformer.RuleOperatorIsArithmetic | lox/transformer.py:37-40 | `add`, `sub`, `mul` and `div` apply the runtime function of their name (`div` is `truediv`) |
| Transformer.RuleOperatorIsComparison | lox/transformer.py:43-46 | `gt`, `lt`, `ge` and `le` apply the runtime comparison of their name |
| Transformer.RuleOperatorIsEquality | lox/transformer.py:47-48 | `eq` and `ne` apply the runtime equality tests |
| Transformer.RuleOperatorInjective | lox/transformer.py:36-47 | no two rules build the same operator |
| Transformer.CallNode | lox/transformer.py:51-56 | a single list child is the argument list; otherwise the children are, in order |
| Transformer.AssignNode | lox/transformer.py:69-71 | the target's name, whether the child is a Var node or a bare token, is assigned the value |
| Transformer.VarDefNode | lox/transformer.py:117-118 | a declaration of the Var's name with the optional initialiser |
| Transformer.BlockNode | lox/transformer.py:66-67 | a block of the children, in order |
| Transformer.IfCmd | lox/transformer.py:120-129 | succeeds exactly for 3 or 5 children, with ValueError naming the count otherwise; 3 gives no else branch and 5 keeps it |
| Transformer.IfArityErrorNamesCount | lox/transformer.py:129 | the error messages for different counts differ |
| Transformer.ForInit | lox/transformer.py:134-137 | the initialiser, or `Literal(None)` when absent |
| Transformer.ForCond | lox/transformer.py:139-142 | the condition, or `Literal(True)` when absent |
| Transformer.ForIncr | lox/transformer.py:144-147 | the increment, or `Literal(None)` when absent |
| Transformer.ForCmd | lox/transformer.py:149-176 | a block of one or two statements ending in the `while` over the condition |
| Transformer.ForCmdShape | lox/transformer.py:160-176 | the while loop is last, and the initialiser comes first exactly when it is not `Literal(None)` |
| Transformer.ForCmdBody | lox/transformer.py:165-171 | with an increment, the loop body is the body's statements, flattened when it is a block, followed by `Expression(incr)`; without one, the body unchanged |
| Transformer.ForWithNothing | lox/transformer.py:134-176 | `for (;;) body` becomes `{ while (true) body }` |
| Transformer.FunDef | lox/transformer.py:178-179 | the function takes the name, the parameter names and the block's statements |
| Transformer.FunArgs | lox/transformer.py:181-182 | exactly the names present among the children |
| Transformer.FunArgsKeepsOrder | lox/transformer.py:181-182 | with no child missing, every name is kept in its place |
| Transformer.ReturnCmd | lox/transformer.py:184-187 | a return of the expression, or of `Literal(None)` without one |
| Transformer.VarToken | lox/transformer.py:189-191 | a Var of the token's text |
| Transformer.Unquote | lox/transformer.py:198 | Python's `s[1:-1]`: the characters between the first and the last, empty for fewer than two |
| Transformer.StringToken | lox/transformer.py:197-199 | a string literal two characters shorter than the token, holding the token's characters between the first and the last |
| Transformer.BoolToken | lox/transformer.py:204-205 | a boolean literal that is true exactly for the text "true" |
| Transformer.NilToken | lox/transformer.py:201-202 | `Literal(None)` |
| Transformer.NumberToken | lox/transformer.py:193-195 | a number literal exactly when the text reads as a decimal, ValueError otherwise |
| Transformer.StringTokenRoundTrip | lox/transformer.py:197-199 | a string as `show_repr` writes it reads back as the same string |
| Transformer.BoolTokenRoundTrip | lox/transformer.py:204-205 | `true` and `false` as `show` writes them read back as the same boolean; any other word, such as "True", is false |
| Transformer.NumberTokenRoundTrip | lox/transformer.py:193-195 | a non-negative whole number as `show` writes it reads back as the same number |
| Transformer.NumberTokenFraction | lox/transformer.py:193-195 | a token `a.b` of two digit strings reads as the number `ab` divided by ten for each digit of `b` |
| Transformer.NumberTokenRefuses | lox/transformer.py:193-195 | text with a sign, letters, or nothing at all is a ValueError |
| Properties.VarReadsInnermost | lox/ast.py:89-93 | NameError exactly when no scope holds the name; otherwise the innermost holder's binding; nothing changes |
| Properties.AssignThenRead | lox/ast.py:224-228 | assignment succeeds exactly when the name is bound, with KeyError otherwise; its value is the assigned value, and the name then reads as that value |
| Properties.DeclareThenLookup | lox/ctx.py:79-87 | after a declaration the name reads as the declared value |
| Properties.VarDefThenRead | lox/ast.py:326-328 | after `var x = e;` the name reads as the value of `e`, or nil without an initialiser |
| Properties.FunctionCapturesContext | lox/ast.py:397-400 | after `fun f(...) {...}` the name reads as a function that captures the current context |
| Properties.ReadOnlyEval | lox/ast.py:73-156 | an expression without assignment or call changes nothing, and its value does not depend on the recursion depth left |
| Properties.AndShortCircuits | lox/ast.py:121-125 | a falsey left value is the result and the right operand is not evaluated; otherwise the right operand decides; the result is truthy exactly when both operands are |
| Properties.OrShortCircuits | lox/ast.py:137-141 | a truthy left value is the result and the right operand is not evaluated; otherwise the right operand decides; the result is truthy exactly when one operand is |
| Properties.BinOpLeftFirst | lox/ast.py:73-76 | the left operand is evaluated first, and its error wins over the right one's |
| Properties.IfRunsOneBranch | lox/ast.py:343-348 | in an `if` built by the transformer, the then branch runs iff the condition is truthy; otherwise the else branch runs, or the missing else branch raises AttributeError |
| Properties.BareReturnGivesNil | lox/transformer.py:184-187 | `return;` returns nil |
| Properties.WhileEndsOnFalsey | lox/ast.py:364-368 | a loop whose condition has no side effects and which ends normally ends on a falsey condition |
| Properties.EndlessLoopHitsLimit | lox/ast.py:364-368 | `while (true) e;` with a literal `e` ends with the host's RecursionError and changes nothing |
| Properties.TrueLoopNeverEndsNormally | lox/ast.py:364-368 | `while (true) body` never ends normally, whatever the body |
| Properties.EmptyForNeverEndsNormally | lox/transformer.py:149-176 | `for (;;) body` after desugaring never ends normally, whatever the body |
| Properties.DeclarationsStayLocal | lox/ast.py:379-383 | a list of declarations only (`var` with no or a literal initialiser, `fun`) changes only the scope it runs in, prints nothing and never returns |
| Properties.BlockDeclarationsDoNotLeak | lox/ast.py:379-383 | a block of declarations only leaves every existing scope, values included, and so every name visible outside, as it was |
| Properties.ArityCheckedFirst | lox/ast.py:430-433 | a call with the wrong number of arguments raises TypeError before any scope exists, and changes nothing |
| Properties.CallScopes | lox/ast.py:435-439 | the body's context sees the parameter scope first, then the captured context's scopes unchanged |
| Properties.CallBindsParameters | lox/ast.py:435-444 | for any parameter list, `return p;` in the body gives the argument in `p`'s position (the last one when names repeat), and a body without `return` gives nil |
| Properties.CallSeesClosure | lox/ast.py:435-444 | a name that is no parameter reads in the body as it reads from the captured context |
| Properties.FirstReturnWins | lox/ast.py:440-444 | the first `return` ends the statement list, and what follows it never runs |
| Scoping.EvalNames | lox/ast.py:61-228 | an expression gives no new name to any existing scope: assignment only rebinds, and a call declares only in the scope it pushes |
| Scoping.AssignNames | lox/ctx.py:61-71 | assignment keeps the set of names of every scope |
| Scoping.CallNames | lox/ast.py:426-444 | a call gives new names only to its own fresh scope |
| Scoping.ExecNames | lox/ast.py:285-466 | a statement gives new names only to the scope of the context it runs in |
| Scoping.BlockNames | lox/ast.py:379-383 | a block gives no new name to any existing scope |
| Scoping.BlockKeepsNames | lox/ast.py:379-383 | whatever its statements, a block leaves every existing scope with exactly its names, so a name is bound from the enclosing context after the block exactly when it was before |

## Left out

- Classes beyond `LoxClass.__call__` and `LoxInstance.__str__` are not modelled. This covers `This`, `Super`, `Getattr`, `Setattr`, `Class` statements, and the transformer rules `class_def`, `class_body`, `method_def`, `getattr`, `setattr`, `super_getattr` and `this_expr`. The code has no class semantics to follow, and `Getattr`/`Setattr` rely on host reflection.
- The builtins `sqrt`, `clock` and `max` are host functions. Calling one, or calling a class object, ends in the model's HostCall error instead of a result.
- Numbers are reals. NaN, infinities, the rendering of non-integral floats, and the int or bool result types of Python arithmetic are not modelled.
- Runtime.Show: gives no text (None) for a non-integral number and for a Lox function, whose host `str` the model does not reproduce.
- Runtime.Eq: compares function values by the identity of their captured context. The host compares the two dataclasses field by field, which includes the contexts' scopes.
- `Print` records the printed value in the machine's output. The text the host `print` writes is not modelled, and neither is `runtime.print`.
- Transformer.IfCmd: its ValueError message stops after the count. The host appends the repr of the argument tuple.
- Transformer.NumberToken: reads only `digits` and `digits.digits`. The other spellings that `float()` accepts are not modelled.
- Transformer.ForCmd: its `init is not None` and `incr is not None` tests are not modelled. `for_init` and `for_incr` never give None.
- An expression in statement position is written `Expression(e)`. The Python statement loops evaluate such a bare expression and drop its value, which means the same.
- The transformer is given typed children. Its rule methods' requires clauses state the node kinds the grammar hands them.
- Lark parsing and `Token` objects are not modelled. A token is its text.
- Environment.Ctx.FromDict: every root context gets its own copy of the builtins scope. In the source every root shares the one `BUILTINS` dictionary (lox/ctx.py:33, 43, 50), so an assignment to a builtin name such as `sqrt = 1;` through one context is seen through every other. The model does not capture that aliasing.
- `Ctx.pretty`, `pretty_scope`, the `repr` of the builtins dictionary, and `runtime.LoxFunction` are not modelled. `runtime.LoxFunction` duplicates `ast.LoxFunction`, which is the one the evaluator builds.
- The host recursion limit is a depth bound (`fuel`), not Python's exact frame count.
- NoFreshContext is only reported by the specification in `Semantics`, when its supply of new contexts does not fit the run. Every `Evaluator` method promises that it never occurs.
