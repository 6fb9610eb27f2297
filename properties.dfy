// What the `eval` methods of lox/ast.py promise, proved about the functions of
// module Semantics, and what the trees built by module Transformer do when
// they run.
module Properties {
  import opened Basics
  import opened Syntax
  import opened Environment
  import opened Runtime
  import opened Semantics
  import opened Transformer

  // ---------------------------------------------------------------------
  // Names

  /** `Var`: an unbound name is a NameError; a bound one reads the innermost
      scope that holds it. */
  lemma VarReadsInnermost(fuel: nat, name: string, c: Ctx, m: Machine)
    requires c.Valid()
    ensures var S := ScopesIn(m.heap, c);
            var r := Eval(fuel, Var(name), c, m).0;
      && (r.Err? <==> forall j :: 0 <= j < |S| ==> name !in S[j])
      && (r.Err? ==> r.error == UnboundName(name))
      && (r.Ok? ==> r.value == S[FirstHolding(S, name)][name])
      && Eval(fuel, Var(name), c, m).1 == m
  {
    var S := ScopesIn(m.heap, c);
    var i := FirstHolding(S, name);
    if i < |S| {
      LookupInnermost(S, name, i);
    }
  }

  /** `Assign`: it succeeds exactly when the name is bound once the value has
      been evaluated (a KeyError otherwise), and reading the name afterwards
      gives the assigned value, which is also the value of the assignment. */
  lemma AssignThenRead(fuel: nat, fuel2: nat, name: string, x: Expr, c: Ctx, m: Machine)
    requires c.Valid()
    ensures var (v, m1) := Eval(fuel, x, c, m);
            var r := Eval(fuel, Assign(name, x), c, m).0;
      && (v.Err? ==> r == v)
      && (v.Ok? ==> (r.Ok? <==> Lookup(ScopesIn(m1.heap, c), name).Ok?))
      && (v.Ok? && r.Err? ==> r.error == Undeclared(name))
      && (r.Ok? ==> r == v)
    ensures var (r, m') := Eval(fuel, Assign(name, x), c, m);
      r.Ok? ==> Eval(fuel2, Var(name), c, m').0 == r
  {
    var (v, m1) := Eval(fuel, x, c, m);
    if v.Ok? {
      AssignInDefined(m1.heap, c, name, v.value);
      if AssignIn(m1.heap, c, name, v.value).Ok? {
        AssignInLookup(m1.heap, c, name, v.value);
      }
    }
  }

  /** Declaring in a heap binds the name in the innermost scope. */
  lemma DeclareThenLookup(h: Heap, c: Ctx, key: string, v: Value)
    requires c.Valid() && DeclareIn(h, c, key, v).Ok?
    ensures Lookup(ScopesIn(DeclareIn(h, c, key, v).value, c), key) == Ok(v)
  {
    var S := ScopesIn(DeclareIn(h, c, key, v).value, c);
    assert c.Chain()[0] == c;
    LookupInnermost(S, key, 0);
  }

  /** `var name = init;` that succeeds binds `name` to the initialiser's value,
      or to nil without one. */
  lemma VarDefThenRead(fuel: nat, fuel2: nat, target: Expr, init: Option<Expr>, c: Ctx, m: Machine)
    requires c.Valid() && target.Var?
    ensures var (sig, m') := Exec(fuel, VarDefNode(target, init), c, m);
            var v := if init.None? then Ok(Nil) else Eval(fuel, init.value, c, m).0;
      sig.Normal? ==> Eval(fuel2, Var(target.name), c, m').0 == v
  {
    var (v, m1) := if init.None? then (Ok(Nil), m) else Eval(fuel, init.value, c, m);
    if v.Ok? && DeclareIn(m1.heap, c, target.name, v.value).Ok? {
      DeclareThenLookup(m1.heap, c, target.name, v.value);
    }
  }

  /** A function declaration binds its name, in the current context, to a
      function that captures that context. */
  lemma FunctionCapturesContext(fuel: nat, fuel2: nat, name: string, argNames: seq<string>, body: seq<Stmt>, c: Ctx, m: Machine)
    requires c.Valid()
    ensures var (sig, m') := Exec(fuel, FunDef(Var(name), argNames, Block(body)), c, m);
      sig.Normal? ==> Eval(fuel2, Var(name), c, m').0 == Ok(LoxFunction(argNames, body, c))
  {
    if DeclareIn(m.heap, c, name, LoxFunction(argNames, body, c)).Ok? {
      DeclareThenLookup(m.heap, c, name, LoxFunction(argNames, body, c));
    }
  }

  // ---------------------------------------------------------------------
  // Expressions without side effects

  /** Expressions that neither assign nor call. */
  predicate ReadOnly(e: Expr)
  {
    match e
    case Literal(_) => true
    case Var(_) => true
    case BinOp(l, r, _) => ReadOnly(l) && ReadOnly(r)
    case And(l, r) => ReadOnly(l) && ReadOnly(r)
    case Or(l, r) => ReadOnly(l) && ReadOnly(r)
    case UnaryOp(x, _) => ReadOnly(x)
    case _ => false
  }

  /** Such an expression leaves the machine as it was, and its value does not
      depend on the recursion depth left. */
  lemma {:induction false} ReadOnlyEval(fuel: nat, fuel2: nat, e: Expr, c: Ctx, m: Machine)
    requires c.Valid() && ReadOnly(e)
    ensures Eval(fuel, e, c, m).1 == m
    ensures Eval(fuel, e, c, m).0 == Eval(fuel2, e, c, m).0
    decreases e
  {
    match e
    case Literal(_) =>
    case Var(_) =>
    case BinOp(l, r, _) =>
      ReadOnlyEval(fuel, fuel2, l, c, m);
      ReadOnlyEval(fuel2, fuel, l, c, m);
      ReadOnlyEval(fuel, fuel2, r, c, m);
      ReadOnlyEval(fuel2, fuel, r, c, m);
    case And(l, r) =>
      ReadOnlyEval(fuel, fuel2, l, c, m);
      ReadOnlyEval(fuel2, fuel, l, c, m);
      ReadOnlyEval(fuel, fuel2, r, c, m);
      ReadOnlyEval(fuel2, fuel, r, c, m);
    case Or(l, r) =>
      ReadOnlyEval(fuel, fuel2, l, c, m);
      ReadOnlyEval(fuel2, fuel, l, c, m);
      ReadOnlyEval(fuel, fuel2, r, c, m);
      ReadOnlyEval(fuel2, fuel, r, c, m);
    case UnaryOp(x, _) =>
      ReadOnlyEval(fuel, fuel2, x, c, m);
      ReadOnlyEval(fuel2, fuel, x, c, m);
  }

  // ---------------------------------------------------------------------
  // Logical operators

  /** `And`: when the left value is falsey it is the result and the right
      operand is not evaluated (the machine is the one the left operand left
      behind); otherwise the right operand decides. The result is truthy
      exactly when both operands are. */
  lemma AndShortCircuits(fuel: nat, l: Expr, r: Expr, c: Ctx, m: Machine)
    requires c.Valid()
    ensures var (lv, m1) := Eval(fuel, l, c, m);
            var (res, m') := Eval(fuel, And(l, r), c, m);
      && (lv.Ok? && IsFalsey(lv.value) ==> res == lv && m' == m1)
      && (lv.Ok? && !IsFalsey(lv.value) ==> (res, m') == Eval(fuel, r, c, m1))
      && (res.Ok? ==> (IsLoxTrue(res.value) <==>
            lv.Ok? && IsLoxTrue(lv.value) && var rv := Eval(fuel, r, c, m1).0; rv.Ok? && IsLoxTrue(rv.value)))
  {
    var (lv, m1) := Eval(fuel, l, c, m);
    AndUnfold(fuel, l, r, c, m);
    if lv.Ok? && !IsFalsey(lv.value) {
      assert Eval(fuel, And(l, r), c, m) == Eval(fuel, r, c, m1);
    }
  }

  /** One step of `And`, with the operands left abstract. */
  lemma AndUnfold(fuel: nat, l: Expr, r: Expr, c: Ctx, m: Machine)
    requires c.Valid()
    ensures var (lv, m1) := Eval(fuel, l, c, m);
      Eval(fuel, And(l, r), c, m) == if lv.Err? || IsFalsey(lv.value) then (lv, m1) else Eval(fuel, r, c, m1)
  {
  }

  /** `Or`: when the left value is truthy it is the result and the right
      operand is not evaluated; otherwise the right operand decides. The
      result is truthy exactly when one of the operands is. */
  lemma OrShortCircuits(fuel: nat, l: Expr, r: Expr, c: Ctx, m: Machine)
    requires c.Valid()
    ensures var (lv, m1) := Eval(fuel, l, c, m);
            var (res, m') := Eval(fuel, Or(l, r), c, m);
      && (lv.Ok? && IsLoxTrue(lv.value) ==> res == lv && m' == m1)
      && (lv.Ok? && !IsLoxTrue(lv.value) ==> (res, m') == Eval(fuel, r, c, m1))
      && (res.Ok? ==> (IsLoxTrue(res.value) <==>
            lv.Ok? && (IsLoxTrue(lv.value) || var rv := Eval(fuel, r, c, m1).0; rv.Ok? && IsLoxTrue(rv.value))))
  {
    var (lv, m1) := Eval(fuel, l, c, m);
    OrUnfold(fuel, l, r, c, m);
    if lv.Ok? && !IsLoxTrue(lv.value) {
      assert Eval(fuel, Or(l, r), c, m) == Eval(fuel, r, c, m1);
    }
  }

  /** One step of `Or`, with the operands left abstract. */
  lemma OrUnfold(fuel: nat, l: Expr, r: Expr, c: Ctx, m: Machine)
    requires c.Valid()
    ensures var (lv, m1) := Eval(fuel, l, c, m);
      Eval(fuel, Or(l, r), c, m) == if lv.Err? || !IsFalsey(lv.value) then (lv, m1) else Eval(fuel, r, c, m1)
  {
  }

  /** `BinOp` evaluates the left operand before the right one: an error on
      the left is the result even when the right operand would fail too. */
  lemma BinOpLeftFirst(fuel: nat, l: Expr, r: Expr, op: BinaryOp, c: Ctx, m: Machine)
    requires c.Valid()
    ensures var (lv, m1) := Eval(fuel, l, c, m);
            var (rv, m2) := Eval(fuel, r, c, m1);
            var res := Eval(fuel, BinOp(l, r, op), c, m);
      && (lv.Err? ==> res == (lv, m1))
      && (lv.Ok? && rv.Err? ==> res == (rv, m2))
      && (lv.Ok? && rv.Ok? ==> res == (ApplyBinary(op, lv.value, rv.value), m2))
  {
  }

  // ---------------------------------------------------------------------
  // Statements

  /** `If` built by `if_cmd`: the then-branch runs when the condition is
      truthy; with three children there is no else-branch, and a falsey
      condition ends in the host's AttributeError. */
  lemma IfRunsOneBranch(fuel: nat, args: seq<Child>, c: Ctx, m: Machine)
    requires c.Valid()
    requires |args| == 3 || |args| == 5
    requires args[1].ExprChild? && IsStatement(args[2])
    requires |args| == 5 ==> IsStatement(args[4])
    ensures var s := IfCmd(args).value;
            var (v, m1) := Eval(fuel, args[1].expr, c, m);
      && (v.Ok? && IsLoxTrue(v.value) ==> Exec(fuel, s, c, m) == Exec(fuel, AsStmt(args[2]), c, m1))
      && (v.Ok? && IsFalsey(v.value) && |args| == 3 ==> Exec(fuel, s, c, m) == (Raised(MissingElse), m1))
      && (v.Ok? && IsFalsey(v.value) && |args| == 5 ==> Exec(fuel, s, c, m) == Exec(fuel, AsStmt(args[4]), c, m1))
  {
  }

  /** `return;` returns nil. */
  lemma BareReturnGivesNil(fuel: nat, c: Ctx, m: Machine)
    requires c.Valid()
    ensures Exec(fuel, ReturnCmd(None), c, m) == (Returning(Nil), m)
  {
  }

  /** `While` with a condition free of side effects that ends normally ends
      on a falsey condition: the condition is tested again before every
      iteration, and the loop stops at the first test that is falsey. */
  lemma {:induction false} WhileEndsOnFalsey(fuel: nat, cond: Expr, body: Stmt, c: Ctx, m: Machine)
    requires c.Valid() && ReadOnly(cond)
    requires Exec(fuel, While(cond, body), c, m).0.Normal?
    ensures var m' := Exec(fuel, While(cond, body), c, m).1;
            var v := Eval(fuel, cond, c, m').0;
      v.Ok? && IsFalsey(v.value)
    decreases fuel
  {
    var v := Eval(fuel, cond, c, m).0;
    ReadOnlyEval(fuel, fuel, cond, c, m);
    if v.Ok? && IsLoxTrue(v.value) {
      WhileTruthyRound(fuel, cond, body, c, m);
      var m2 := Exec(fuel, body, c, m).1;
      WhileEndsOnFalsey(fuel - 1, cond, body, c, m2);
      var m' := Exec(fuel - 1, While(cond, body), c, m2).1;
      ReadOnlyEval(fuel - 1, fuel, cond, c, m');
    }
  }

  /** A normal `while` run whose condition holds without side effects: the
      body ended normally below the recursion limit, and the loop went on
      from the state the body left. */
  lemma WhileTruthyRound(fuel: nat, cond: Expr, body: Stmt, c: Ctx, m: Machine)
    requires c.Valid()
    requires var (v, m1) := Eval(fuel, cond, c, m); m1 == m && v.Ok? && IsLoxTrue(v.value)
    requires Exec(fuel, While(cond, body), c, m).0.Normal?
    ensures fuel > 0 && Exec(fuel, body, c, m).0.Normal?
    ensures Exec(fuel, While(cond, body), c, m) == Exec(fuel - 1, While(cond, body), c, Exec(fuel, body, c, m).1)
  {
    var (sig, m2) := Exec(fuel, body, c, m);
    assert sig.Normal? && fuel > 0;
    WhileUnroll(fuel, While(cond, body), c, m, Eval(fuel, cond, c, m).0, m, m2);
  }

  /** `while (true) e;` never ends normally: it recurses until the host's
      recursion limit, and changes nothing on the way. */
  lemma {:induction false} EndlessLoopHitsLimit(fuel: nat, k: Const, c: Ctx, m: Machine)
    requires c.Valid()
    ensures Exec(fuel, While(Literal(BoolConst(true)), Expression(Literal(k))), c, m) == (Raised(RecursionLimit), m)
    decreases fuel
  {
    assert Eval(fuel, Literal(BoolConst(true)), c, m) == (Ok(Bool(true)), m);
    assert Exec(fuel, Expression(Literal(k)), c, m) == (Normal, m);
    if fuel > 0 {
      EndlessLoopHitsLimit(fuel - 1, k, c, m);
    }
  }

  /** Whatever its body, `while (true)` never ends normally: it ends with
      the first `return` or exception of its body, or at the recursion
      limit. */
  lemma {:induction false} TrueLoopNeverEndsNormally(fuel: nat, body: Stmt, c: Ctx, m: Machine)
    requires c.Valid()
    ensures !Exec(fuel, While(Literal(BoolConst(true)), body), c, m).0.Normal?
    decreases fuel
  {
    var loop := While(Literal(BoolConst(true)), body);
    assert Eval(fuel, Literal(BoolConst(true)), c, m) == (Ok(Bool(true)), m);
    var (sig, m2) := Exec(fuel, body, c, m);
    if sig.Normal? && fuel > 0 {
      WhileUnroll(fuel, loop, c, m, Ok(Bool(true)), m, m2);
      TrueLoopNeverEndsNormally(fuel - 1, body, c, m2);
    }
  }

  /** `for (;;) body` never ends normally either, once the transformer has
      desugared it into a block around `while (true)`. */
  lemma EmptyForNeverEndsNormally(fuel: nat, body: Child, c: Ctx, m: Machine)
    requires c.Valid() && IsStatement(body)
    ensures !Exec(fuel, ForCmd(ForInit([]), ForCond([]), ForIncr([]), body), c, m).0.Normal?
  {
    ForWithNothing(body);
    var loop := While(Literal(BoolConst(true)), AsStmt(body));
    match Allocate(m, c, map[])
    case Err(_) =>
    case Ok((nc, m1)) =>
      TrueLoopNeverEndsNormally(fuel, AsStmt(body), nc, m1);
      StmtsSingle(fuel, loop, nc, m1);
  }

  /** Statements that only declare: a `var` with no initialiser or a literal
      one, and `fun`. */
  predicate IsDeclaration(s: Stmt)
  {
    (s.VarDef? && (s.init.None? || s.init.value.Literal?)) || s.Function?
  }

  /** Declarations change no scope but the one they run in, print nothing and
      allocate nothing. */
  lemma {:induction false} DeclarationsStayLocal(fuel: nat, ss: seq<Stmt>, nc: Ctx, m: Machine)
    requires nc.Valid()
    requires forall i :: 0 <= i < |ss| ==> IsDeclaration(ss[i])
    ensures var (sig, m') := ExecStmts(fuel, ss, nc, m);
      && !sig.Returning?
      && m'.printed == m.printed && m'.supply == m.supply
      && m'.heap.Keys <= m.heap.Keys + {nc}
      && forall d :: d in m.heap && d != nc ==> d in m'.heap && m'.heap[d] == m.heap[d]
    decreases |ss|
  {
    if |ss| > 0 {
      var s := ss[0];
      if s.VarDef? && s.init.Some? {
        assert Eval(fuel, s.init.value, nc, m) == (Ok(ConstValue(s.init.value.constant)), m);
      }
      var (sig, m1) := Exec(fuel, s, nc, m);
      assert m1.printed == m.printed && m1.supply == m.supply && m1.heap.Keys <= m.heap.Keys + {nc};
      assert forall d :: d in m.heap && d != nc ==> d in m1.heap && m1.heap[d] == m.heap[d];
      if sig.Normal? {
        DeclarationsStayLocal(fuel, ss[1..], nc, m1);
      }
    }
  }

  /** `Block`: declarations inside a block go into its fresh scope, so every
      scope that existed before keeps its bindings, and every name reads as
      before from the enclosing context. */
  lemma BlockDeclarationsDoNotLeak(fuel: nat, ss: seq<Stmt>, c: Ctx, m: Machine)
    requires c.Valid()
    requires forall i :: 0 <= i < |ss| ==> IsDeclaration(ss[i])
    ensures var (sig, m') := Exec(fuel, Block(ss), c, m);
      forall d :: d in m.heap ==> d in m'.heap && m'.heap[d] == m.heap[d]
    ensures var (sig, m') := Exec(fuel, Block(ss), c, m);
      (forall i :: 0 <= i < |c.Chain()| ==> c.Chain()[i] in m.heap) ==>
        ScopesIn(m'.heap, c) == ScopesIn(m.heap, c)
  {
    match Allocate(m, c, map[])
    case Err(_) =>
    case Ok((nc, m1)) =>
      DeclarationsStayLocal(fuel, ss, nc, m1);
  }

  // ---------------------------------------------------------------------
  // Calls

  /** `LoxFunction.__call__` with the wrong number of arguments raises
      TypeError before any new scope exists: the machine is unchanged. */
  lemma ArityCheckedFirst(fuel: nat, names: seq<string>, body: seq<Stmt>, closure: Ctx, args: seq<Value>, m: Machine)
    requires fuel > 0 && |names| != |args|
    ensures CallValue(fuel, LoxFunction(names, body, closure), args, m) == (Err(ArityError(|names|, |args|)), m)
  {
  }

  /** The context a call runs its body in sees the parameter scope first
      and then, unchanged, the scopes of the captured context. */
  lemma CallScopes(m: Machine, closure: Ctx, scope: Scope)
    requires closure.Valid() && Allocate(m, closure, scope).Ok?
    ensures var (nc, m1) := Allocate(m, closure, scope).value;
      ScopesIn(m1.heap, nc) == [scope] + ScopesIn(m.heap, closure)
  {
    var (nc, m1) := Allocate(m, closure, scope).value;
    ScopesBelow(m.heap, nc, scope);
  }

  /** A context that is new to the heap, given a scope, sees that scope in
      front of its parent's. */
  lemma ScopesBelow(h: Heap, nc: Ctx, scope: Scope)
    requires nc.Valid() && nc.parent != null && nc !in h
    ensures ScopesIn(h[nc := scope], nc) == [scope] + ScopesIn(h, nc.parent)
  {
    var before, after := ScopesIn(h, nc.parent), ScopesIn(h[nc := scope], nc);
    assert |after| == |before| + 1 && after[0] == scope;
    forall i | 0 < i < |after|
      ensures after[i] == before[i - 1]
    {
      var d := nc.parent.Chain()[i - 1];
      assert nc.Chain()[i] == d && d.depth < nc.depth;
      assert ScopeOf(h[nc := scope], d) == ScopeOf(h, d);
    }
    assert after == [scope] + before;
  }

  /** `dict(zip(names, values))` then `Ctx(scope, self.ctx)`: in the body of
      a call, a parameter reads as the argument in its position (the last
      parameter of a name, when names repeat), and an empty body gives nil. */
  lemma CallBindsParameters(fuel: nat, names: seq<string>, args: seq<Value>, closure: Ctx, m: Machine, i: nat)
    requires fuel > 0 && closure.Valid() && |names| == |args|
    requires Allocate(m, closure, BindParams(names, args)).Ok?
    requires i < |names| && forall j :: i < j < |names| ==> names[j] != names[i]
    ensures CallValue(fuel, LoxFunction(names, [Return(Var(names[i]))], closure), args, m).0 == Ok(args[i])
    ensures CallValue(fuel, LoxFunction(names, [], closure), args, m).0 == Ok(Nil)
  {
    var scope := BindParams(names, args);
    var (nc, m1) := Allocate(m, closure, scope).value;
    CallScopes(m, closure, scope);
    BindParamsAt(names, args, i);
    LookupCons(scope, ScopesIn(m.heap, closure), names[i]);
    StmtsSingle(fuel - 1, Return(Var(names[i])), nc, m1);
  }

  /** A name that is not a parameter reads, in the body of a call, as it
      reads from the captured context. */
  lemma CallSeesClosure(fuel: nat, names: seq<string>, args: seq<Value>, closure: Ctx, m: Machine, n: string)
    requires fuel > 0 && closure.Valid() && |names| == |args|
    requires Allocate(m, closure, BindParams(names, args)).Ok?
    requires n !in names
    ensures CallValue(fuel, LoxFunction(names, [Return(Var(n))], closure), args, m).0 ==
            Eval(fuel, Var(n), closure, m).0
  {
    var scope := BindParams(names, args);
    var (nc, m1) := Allocate(m, closure, scope).value;
    CallScopes(m, closure, scope);
    LookupCons(scope, ScopesIn(m.heap, closure), n);
    var r := Eval(fuel, Var(n), closure, m).0;
    assert Eval(fuel - 1, Var(n), nc, m1) == (r, m1);
    StmtsSingle(fuel - 1, Return(Var(n)), nc, m1);
    var sig := if r.Err? then Raised(r.error) else Returning(r.value);
    assert ExecStmts(fuel - 1, [Return(Var(n))], nc, m1) == (sig, m1);
    assert CallValue(fuel, LoxFunction(names, [Return(Var(n))], closure), args, m) ==
           (match sig case Normal => Ok(Nil) case Returning(v) => Ok(v) case Raised(err) => Err(err), m1);
  }

  /** The first `return` ends the statement list: what follows it never
      runs. */
  lemma FirstReturnWins(fuel: nat, e: Expr, rest: seq<Stmt>, c: Ctx, m: Machine)
    requires c.Valid()
    ensures var (v, m1) := Eval(fuel, e, c, m);
      ExecStmts(fuel, [Return(e)] + rest, c, m) == (if v.Ok? then Returning(v.value) else Raised(v.error), m1)
  {
    var ss := [Return(e)] + rest;
    assert ss[0] == Return(e);
    var (v, m1) := Eval(fuel, e, c, m);
    assert Exec(fuel, Return(e), c, m) == (if v.Ok? then Returning(v.value) else Raised(v.error), m1);
  }
}
