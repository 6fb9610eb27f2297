// Which scopes a run can give new names to. `Ctx.var_def` (lox/ctx.py)
// declares in the current scope only, `Ctx.assign` changes the value of a
// name that is already bound, and a block or a call pushes a fresh scope:
// so an expression binds no new name in any scope that existed before it,
// and a statement binds new names only in the scope it runs in.
module Scoping {
  import opened Basics
  import opened Syntax
  import opened Environment
  import opened Runtime
  import opened Semantics

  /** Every context of `h` is still in `h'`, and every one outside `X` holds
      exactly the names it held in `h` (their values may differ). */
  predicate KeepsNames(h: Heap, h': Heap, X: set<Ctx>)
  {
    forall d :: d in h ==> d in h' && (d !in X ==> ScopeOf(h', d).Keys == ScopeOf(h, d).Keys)
  }

  lemma NamesChain(h1: Heap, h2: Heap, h3: Heap, X: set<Ctx>)
    requires KeepsNames(h1, h2, X) && KeepsNames(h2, h3, X)
    ensures KeepsNames(h1, h3, X)
  {
  }

  lemma NamesWiden(h: Heap, h': Heap, c: Ctx)
    requires KeepsNames(h, h', {})
    ensures KeepsNames(h, h', {c})
  {
  }

  /** A context that was not in `h` to begin with may gain names freely. */
  lemma NamesFresh(h: Heap, h1: Heap, h2: Heap, nc: Ctx)
    requires nc !in h && KeepsNames(h, h1, {}) && KeepsNames(h1, h2, {nc})
    ensures KeepsNames(h, h2, {})
  {
  }

  /** An expression binds no new name anywhere: assignment only rebinds, and
      a call declares only in the scope it pushes. */
  lemma {:induction false} EvalNames(fuel: nat, e: Expr, c: Ctx, m: Machine)
    requires c.Valid()
    ensures KeepsNames(m.heap, Eval(fuel, e, c, m).1.heap, {})
    decreases fuel, ExprSize(e), 1
  {
    match e
    case Literal(_) =>
    case Var(_) =>
    case BinOp(left, right, _) =>
      var (lv, m1) := Eval(fuel, left, c, m);
      EvalNames(fuel, left, c, m);
      if lv.Ok? {
        EvalNames(fuel, right, c, m1);
        NamesChain(m.heap, m1.heap, Eval(fuel, right, c, m1).1.heap, {});
      }
    case And(left, right) =>
      var (lv, m1) := Eval(fuel, left, c, m);
      EvalNames(fuel, left, c, m);
      if lv.Ok? && !IsFalsey(lv.value) {
        EvalNames(fuel, right, c, m1);
        NamesChain(m.heap, m1.heap, Eval(fuel, right, c, m1).1.heap, {});
      }
    case Or(left, right) =>
      var (lv, m1) := Eval(fuel, left, c, m);
      EvalNames(fuel, left, c, m);
      if lv.Ok? && IsFalsey(lv.value) {
        EvalNames(fuel, right, c, m1);
        NamesChain(m.heap, m1.heap, Eval(fuel, right, c, m1).1.heap, {});
      }
    case UnaryOp(x, _) =>
      EvalNames(fuel, x, c, m);
    case Call(_, _) =>
      CallExprNames(fuel, e, c, m);
    case Assign(_, _) =>
      AssignNames(fuel, e, c, m);
  }

  lemma {:induction false} CallExprNames(fuel: nat, e: Expr, c: Ctx, m: Machine)
    requires c.Valid() && e.Call?
    ensures KeepsNames(m.heap, Eval(fuel, e, c, m).1.heap, {})
    decreases fuel, ExprSize(e), 0
  {
    var (f, m1) := EvalCallee(fuel, e.callee, c, m);
    CalleeNames(fuel, e.callee, c, m);
    if f.Ok? {
      var (args, m2) := EvalArgs(fuel, e.params, c, m1);
      ArgsNames(fuel, e.params, c, m1);
      NamesChain(m.heap, m1.heap, m2.heap, {});
      if args.Ok? {
        CallNames(fuel, f.value, args.value, m2);
        NamesChain(m.heap, m2.heap, CallValue(fuel, f.value, args.value, m2).1.heap, {});
      }
    }
  }

  /** Assignment rebinds a name where it is already bound. */
  lemma {:induction false} AssignNames(fuel: nat, e: Expr, c: Ctx, m: Machine)
    requires c.Valid() && e.Assign?
    ensures KeepsNames(m.heap, Eval(fuel, e, c, m).1.heap, {})
    decreases fuel, ExprSize(e), 0
  {
    var (v, m1) := Eval(fuel, e.value, c, m);
    EvalNames(fuel, e.value, c, m);
    if v.Ok? && AssignIn(m1.heap, c, e.name, v.value).Ok? {
      var h := AssignIn(m1.heap, c, e.name, v.value).value;
      AssignInFrame(m1.heap, c, e.name, v.value);
      NamesChain(m.heap, m1.heap, h, {});
    }
  }

  lemma {:induction false} CalleeNames(fuel: nat, callee: Expr, c: Ctx, m: Machine)
    requires c.Valid()
    ensures KeepsNames(m.heap, EvalCallee(fuel, callee, c, m).1.heap, {})
    decreases fuel, ExprSize(callee), 2
  {
    if callee.Call? {
      EvalNames(fuel, callee, c, m);
    }
  }

  lemma {:induction false} ArgsNames(fuel: nat, es: seq<Expr>, c: Ctx, m: Machine)
    requires c.Valid()
    ensures KeepsNames(m.heap, EvalArgs(fuel, es, c, m).1.heap, {})
    decreases fuel, ExprsSize(es), 2
  {
    if |es| > 0 {
      var (v, m1) := Eval(fuel, es[0], c, m);
      EvalNames(fuel, es[0], c, m);
      if v.Ok? {
        ArgsNames(fuel, es[1..], c, m1);
        NamesChain(m.heap, m1.heap, EvalArgs(fuel, es[1..], c, m1).1.heap, {});
      }
    }
  }

  /** A call gives new names only to the scope it pushes for its
      parameters, which no earlier context is. */
  lemma {:induction false} CallNames(fuel: nat, f: Value, args: seq<Value>, m: Machine)
    ensures KeepsNames(m.heap, CallValue(fuel, f, args, m).1.heap, {})
    decreases fuel, 0, 0
  {
    if f.LoxFunction? && fuel > 0 && |f.argNames| == |args| {
      var scope := BindParams(f.argNames, args);
      if Allocate(m, f.ctx, scope).Ok? {
        var (nc, m1) := Allocate(m, f.ctx, scope).value;
        StmtsNames(fuel - 1, f.body, nc, m1);
        NamesFresh(m.heap, m1.heap, ExecStmts(fuel - 1, f.body, nc, m1).1.heap, nc);
      }
    }
  }

  /** A statement gives new names only to the scope of the context it runs
      in: `var` and `fun` declare there, and a block declares in a scope of
      its own. */
  lemma {:induction false} ExecNames(fuel: nat, s: Stmt, c: Ctx, m: Machine)
    requires c.Valid()
    ensures KeepsNames(m.heap, Exec(fuel, s, c, m).1.heap, {c})
    decreases fuel, StmtSize(s), 1
  {
    match s
    case Print(e) =>
      EvalNames(fuel, e, c, m);
      NamesWiden(m.heap, Eval(fuel, e, c, m).1.heap, c);
    case Return(e) =>
      EvalNames(fuel, e, c, m);
      NamesWiden(m.heap, Eval(fuel, e, c, m).1.heap, c);
    case VarDef(name, init) =>
      var (v, m1) := if init.None? then (Ok(Nil), m) else Eval(fuel, init.value, c, m);
      if init.Some? {
        EvalNames(fuel, init.value, c, m);
      }
      NamesWiden(m.heap, m1.heap, c);
      if v.Ok? {
        NamesChain(m.heap, m1.heap, Declare(m1, c, name, v.value).1.heap, {c});
      }
    case If(cond, thenBranch, orelse) =>
      var (v, m1) := Eval(fuel, cond, c, m);
      EvalNames(fuel, cond, c, m);
      NamesWiden(m.heap, m1.heap, c);
      if v.Ok? && IsLoxTrue(v.value) {
        ExecNames(fuel, thenBranch, c, m1);
        NamesChain(m.heap, m1.heap, Exec(fuel, thenBranch, c, m1).1.heap, {c});
      } else if v.Ok? && orelse.Some? {
        ExecNames(fuel, orelse.value, c, m1);
        NamesChain(m.heap, m1.heap, Exec(fuel, orelse.value, c, m1).1.heap, {c});
      }
    case While(_, _) =>
      WhileNames(fuel, s, c, m);
    case Block(_) =>
      BlockNames(fuel, s, c, m);
      NamesWiden(m.heap, Exec(fuel, s, c, m).1.heap, c);
    case Function(_, _, _) =>
    case Expression(e) =>
      EvalNames(fuel, e, c, m);
      NamesWiden(m.heap, Eval(fuel, e, c, m).1.heap, c);
  }

  lemma {:induction false} WhileNames(fuel: nat, s: Stmt, c: Ctx, m: Machine)
    requires c.Valid() && s.While?
    ensures KeepsNames(m.heap, Exec(fuel, s, c, m).1.heap, {c})
    decreases fuel, StmtSize(s), 0
  {
    var (v, m1) := Eval(fuel, s.cond, c, m);
    EvalNames(fuel, s.cond, c, m);
    NamesWiden(m.heap, m1.heap, c);
    if v.Ok? && IsLoxTrue(v.value) {
      var (sig, m2) := Exec(fuel, s.body, c, m1);
      ExecNames(fuel, s.body, c, m1);
      NamesChain(m.heap, m1.heap, m2.heap, {c});
      if sig.Normal? && fuel > 0 {
        ExecNames(fuel - 1, s, c, m2);
        NamesChain(m.heap, m2.heap, Exec(fuel - 1, s, c, m2).1.heap, {c});
      }
    }
  }

  /** A block declares in the fresh scope it pushes. */
  lemma {:induction false} BlockNames(fuel: nat, s: Stmt, c: Ctx, m: Machine)
    requires c.Valid() && s.Block?
    ensures KeepsNames(m.heap, Exec(fuel, s, c, m).1.heap, {})
    decreases fuel, StmtSize(s), 0
  {
    if Allocate(m, c, map[]).Ok? {
      var (nc, m1) := Allocate(m, c, map[]).value;
      StmtsNames(fuel, s.stmts, nc, m1);
      NamesFresh(m.heap, m1.heap, ExecStmts(fuel, s.stmts, nc, m1).1.heap, nc);
    }
  }

  lemma {:induction false} StmtsNames(fuel: nat, ss: seq<Stmt>, c: Ctx, m: Machine)
    requires c.Valid()
    ensures KeepsNames(m.heap, ExecStmts(fuel, ss, c, m).1.heap, {c})
    decreases fuel, StmtsSize(ss), 2
  {
    if |ss| > 0 {
      var (sig, m1) := Exec(fuel, ss[0], c, m);
      ExecNames(fuel, ss[0], c, m);
      if sig.Normal? {
        StmtsNames(fuel, ss[1..], c, m1);
        NamesChain(m.heap, m1.heap, ExecStmts(fuel, ss[1..], c, m1).1.heap, {c});
      }
    }
  }

  /** `Block`: whatever its statements are, every scope that existed before
      the block holds exactly the names it held, so a name is bound from the
      enclosing context after the block exactly when it was bound before. */
  lemma BlockKeepsNames(fuel: nat, ss: seq<Stmt>, c: Ctx, m: Machine)
    requires c.Valid()
    ensures var m' := Exec(fuel, Block(ss), c, m).1;
      forall d :: d in m.heap ==> d in m'.heap && m'.heap[d].Keys == m.heap[d].Keys
    ensures var m' := Exec(fuel, Block(ss), c, m).1;
      (forall i :: 0 <= i < |c.Chain()| ==> c.Chain()[i] in m.heap) ==>
        forall name :: Lookup(ScopesIn(m'.heap, c), name).Ok? <==> Lookup(ScopesIn(m.heap, c), name).Ok?
  {
    var m' := Exec(fuel, Block(ss), c, m).1;
    BlockNames(fuel, Block(ss), c, m);
    if forall i :: 0 <= i < |c.Chain()| ==> c.Chain()[i] in m.heap {
      var before, after := ScopesIn(m.heap, c), ScopesIn(m'.heap, c);
      assert forall j :: 0 <= j < |before| ==> after[j].Keys == before[j].Keys;
    }
  }
}
