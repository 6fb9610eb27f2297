// The meaning of the `eval` methods of lox/ast.py, as functions over a
// snapshot of the scopes.
//
// A `Machine` holds the contents of every scope (a Heap), the values handed to
// `print` so far, and the supply of contexts the run will allocate: each
// `Ctx(...)` or `push` of the source takes the next context from `supply`. The
// supply lets these functions name the very objects that the imperative
// evaluator (module Evaluator) creates with `new`; a supply that does not fit
// the run (an object that already has a scope, or the wrong parent) is
// reported as NoFreshContext, which no real run produces.
//
// The host's recursion limit is the `fuel` argument: the remaining depth of
// host recursion. Each iteration of a `while` (While.eval calls itself) and
// each call of a Lox function goes one level deeper; at depth zero the host
// raises RecursionError.
module Semantics {
  import opened Basics
  import opened Syntax
  import opened Objects
  import opened Environment
  import opened Runtime

  datatype Machine = Machine(heap: Heap, printed: seq<Value>, supply: seq<Ctx>)

  /** How a statement ends: normally, through `return` (the LoxReturn
      exception carrying a value), or with an exception. */
  datatype Signal = Normal | Returning(value: Value) | Raised(error: Error)

  /** `is_lox_true`. */
  predicate IsLoxTrue(v: Value)
  {
    v != Bool(false) && v != Nil
  }

  /** `is_falsey`. */
  predicate IsFalsey(v: Value)
  {
    v == Bool(false) || v == Nil
  }

  /** The two tests of lox/ast.py are complements of each other, and both
      agree with `truthy` of lox/runtime.py. */
  lemma TruthTestsAgree(v: Value)
    ensures IsLoxTrue(v) <==> !IsFalsey(v)
    ensures IsLoxTrue(v) <==> Truthy(v)
  {
  }

  function ConstValue(k: Const): Value
  {
    match k
    case NilConst => Nil
    case BoolConst(b) => Bool(b)
    case NumConst(n) => Number(n)
    case StrConst(s) => Str(s)
  }

  function UnboundName(name: string): Error
  {
    Error(NameError, "variável " + name + " não existe!")
  }

  function ArityError(expected: nat, got: nat): Error
  {
    Error(TypeError, "esperava " + NatToString(expected) + " argumentos, recebeu " + NatToString(got))
  }

  function NotCallable(v: Value): Error
  {
    Error(TypeError, "'" + TypeName(v) + "' object is not callable")
  }

  function NodeName(e: Expr): string
  {
    match e
    case Literal(_) => "Literal"
    case Var(_) => "Var"
    case BinOp(_, _, _) => "BinOp"
    case And(_, _) => "And"
    case Or(_, _) => "Or"
    case UnaryOp(_, _) => "UnaryOp"
    case Call(_, _) => "Call"
    case Assign(_, _) => "Assign"
  }

  function UnsupportedCallee(e: Expr): Error
  {
    Error(RuntimeError, "Unsupported callee type: <class 'lox.ast." + NodeName(e) + "'>")
  }

  const RecursionLimit := Error(RecursionError, "maximum recursion depth exceeded")
  const MissingElse := Error(AttributeError, "'NoneType' object has no attribute 'eval'")
  const NoFresh := Error(NoFreshContext, "the supply of new contexts does not fit the run")

  /** `dict(zip(names, values))`: a later parameter of the same name wins. */
  function BindParams(names: seq<string>, values: seq<Value>): (s: Scope)
    requires |names| == |values|
    ensures forall n :: n in s <==> n in names
    ensures forall n :: n in s ==> s[n] in values
  {
    if |names| == 0 then map[]
    else BindParams(names[..|names| - 1], values[..|values| - 1])[names[|names| - 1] := values[|values| - 1]]
  }

  /** Parameters bind positionally: the i-th name is bound to the i-th
      argument unless a later parameter has the same name. */
  lemma {:induction false} BindParamsAt(names: seq<string>, values: seq<Value>, i: nat)
    requires |names| == |values| && i < |names|
    requires forall j :: i < j < |names| ==> names[j] != names[i]
    ensures BindParams(names, values)[names[i]] == values[i]
  {
    var k := |names| - 1;
    if i < k {
      assert names[..k][i] == names[i] && values[..k][i] == values[i];
      BindParamsAt(names[..k], values[..k], i);
    }
  }

  /** `Ctx(scope, parent)` inside a run: the next context of the supply,
      which must not have a scope yet and must have the given parent. */
  ghost function Allocate(m: Machine, parent: Ctx, scope: Scope): (r: Result<(Ctx, Machine)>)
    ensures r.Err? ==> r.error == NoFresh
    ensures r.Ok? ==>
              var (c, m') := r.value;
              |m.supply| > 0 && c == m.supply[0] && c.Valid() && c.parent == parent && c !in m.heap &&
              m' == Machine(m.heap[c := scope], m.printed, m.supply[1..])
  {
    if |m.supply| == 0 then Err(NoFresh)
    else
      var c := m.supply[0];
      if c in m.heap || c.parent != parent || !c.Valid() then Err(NoFresh)
      else Ok((c, Machine(m.heap[c := scope], m.printed, m.supply[1..])))
  }

  /** `ctx.var_def(name, value)` on a machine. */
  ghost function Declare(m: Machine, c: Ctx, name: string, v: Value): (Signal, Machine)
    requires c.Valid()
  {
    match DeclareIn(m.heap, c, name, v)
    case Ok(h) => (Normal, m.(heap := h))
    case Err(err) => (Raised(err), m)
  }

  // ---------------------------------------------------------------------
  // Expressions

  ghost function Eval(fuel: nat, e: Expr, c: Ctx, m: Machine): (Result<Value>, Machine)
    requires c.Valid()
    decreases fuel, ExprSize(e), 1
  {
    match e
    case Literal(k) => (Ok(ConstValue(k)), m)
    case Var(name) =>
      (match Lookup(ScopesIn(m.heap, c), name)
       case Ok(v) => Ok(v)
       case Err(_) => Err(UnboundName(name)), m)
    case BinOp(left, right, op) =>
      var (lv, m1) := Eval(fuel, left, c, m);
      if lv.Err? then (lv, m1)
      else
        var (rv, m2) := Eval(fuel, right, c, m1);
        if rv.Err? then (rv, m2) else (ApplyBinary(op, lv.value, rv.value), m2)
    case And(left, right) =>
      var (lv, m1) := Eval(fuel, left, c, m);
      if lv.Err? || IsFalsey(lv.value) then (lv, m1) else Eval(fuel, right, c, m1)
    case Or(left, right) =>
      var (lv, m1) := Eval(fuel, left, c, m);
      if lv.Err? || !IsFalsey(lv.value) then (lv, m1) else Eval(fuel, right, c, m1)
    case UnaryOp(x, op) =>
      var (v, m1) := Eval(fuel, x, c, m);
      if v.Err? then (v, m1) else (ApplyUnary(op, v.value), m1)
    case Call(callee, params) =>
      var (f, m1) := EvalCallee(fuel, callee, c, m);
      if f.Err? then (f, m1)
      else
        var (args, m2) := EvalArgs(fuel, params, c, m1);
        if args.Err? then (Err(args.error), m2) else CallValue(fuel, f.value, args.value, m2)
    case Assign(name, x) =>
      var (v, m1) := Eval(fuel, x, c, m);
      if v.Err? then (v, m1)
      else
        match AssignIn(m1.heap, c, name, v.value)
        case Ok(h) => (v, m1.(heap := h))
        case Err(err) => (Err(err), m1)
  }

  /** `Call._eval_callee`: a name is looked up directly (an unbound one is a
      KeyError, not the NameError of `Var`), a call is evaluated, and any
      other node is refused. */
  ghost function EvalCallee(fuel: nat, callee: Expr, c: Ctx, m: Machine): (Result<Value>, Machine)
    requires c.Valid()
    decreases fuel, ExprSize(callee), 2
  {
    match callee
    case Var(name) => (Lookup(ScopesIn(m.heap, c), name), m)
    case Call(_, _) => Eval(fuel, callee, c, m)
    case _ => (Err(UnsupportedCallee(callee)), m)
  }

  /** The arguments of a call, left to right; the first error stops. */
  ghost function EvalArgs(fuel: nat, es: seq<Expr>, c: Ctx, m: Machine): (Result<seq<Value>>, Machine)
    requires c.Valid()
    decreases fuel, ExprsSize(es), 2
  {
    if |es| == 0 then (Ok([]), m)
    else
      var (v, m1) := Eval(fuel, es[0], c, m);
      if v.Err? then (Err(v.error), m1)
      else
        var (vs, m2) := EvalArgs(fuel, es[1..], c, m1);
        if vs.Err? then (vs, m2) else (Ok([v.value] + vs.value), m2)
  }

  /** `func(*args)`. A Lox function checks the argument count, runs its body
      in a new context below the captured one, and gives the value of the
      first `return`, or nil. Builtins and class objects are host code. */
  ghost function CallValue(fuel: nat, f: Value, args: seq<Value>, m: Machine): (Result<Value>, Machine)
    decreases fuel, 0, 0
  {
    match f
    case LoxFunction(names, body, closure) =>
      if fuel == 0 then (Err(RecursionLimit), m)
      else if |names| != |args| then (Err(ArityError(|names|, |args|)), m)
      else
        (match Allocate(m, closure, BindParams(names, args))
         case Err(err) => (Err(err), m)
         case Ok((nc, m1)) =>
           var (sig, m2) := ExecStmts(fuel - 1, body, nc, m1);
           (match sig
            case Normal => Ok(Nil)
            case Returning(v) => Ok(v)
            case Raised(err) => Err(err), m2))
    case Builtin(name) => (Err(Error(HostCall, name)), m)
    case Class(cls) => (Err(Error(HostCall, cls.name)), m)
    case _ => (Err(NotCallable(f)), m)
  }

  // ---------------------------------------------------------------------
  // Statements

  ghost function Exec(fuel: nat, s: Stmt, c: Ctx, m: Machine): (Signal, Machine)
    requires c.Valid()
    decreases fuel, StmtSize(s), 1
  {
    match s
    case Print(e) =>
      var (v, m1) := Eval(fuel, e, c, m);
      if v.Err? then (Raised(v.error), m1) else (Normal, m1.(printed := m1.printed + [v.value]))
    case Return(e) =>
      var (v, m1) := Eval(fuel, e, c, m);
      if v.Err? then (Raised(v.error), m1) else (Returning(v.value), m1)
    case VarDef(name, init) =>
      var (v, m1) := if init.None? then (Ok(Nil), m) else Eval(fuel, init.value, c, m);
      if v.Err? then (Raised(v.error), m1) else Declare(m1, c, name, v.value)
    case If(cond, thenBranch, orelse) =>
      var (v, m1) := Eval(fuel, cond, c, m);
      if v.Err? then (Raised(v.error), m1)
      else if IsLoxTrue(v.value) then Exec(fuel, thenBranch, c, m1)
      else if orelse.None? then (Raised(MissingElse), m1)
      else Exec(fuel, orelse.value, c, m1)
    case While(cond, body) =>
      var (v, m1) := Eval(fuel, cond, c, m);
      if v.Err? then (Raised(v.error), m1)
      else if !IsLoxTrue(v.value) then (Normal, m1)
      else
        var (sig, m2) := Exec(fuel, body, c, m1);
        if !sig.Normal? then (sig, m2)
        else if fuel == 0 then (Raised(RecursionLimit), m2)
        else Exec(fuel - 1, s, c, m2)
    case Block(stmts) =>
      (match Allocate(m, c, map[])
       case Err(err) => (Raised(err), m)
       case Ok((nc, m1)) => ExecStmts(fuel, stmts, nc, m1))
    case Function(name, argNames, body) =>
      Declare(m, c, name, LoxFunction(argNames, body, c))
    case Expression(e) =>
      var (v, m1) := Eval(fuel, e, c, m);
      if v.Err? then (Raised(v.error), m1) else (Normal, m1)
  }

  /** A statement list in one context: in order, until the first statement
      that returns or raises. */
  ghost function ExecStmts(fuel: nat, ss: seq<Stmt>, c: Ctx, m: Machine): (Signal, Machine)
    requires c.Valid()
    decreases fuel, StmtsSize(ss), 2
  {
    if |ss| == 0 then (Normal, m)
    else
      var (sig, m1) := Exec(fuel, ss[0], c, m);
      if !sig.Normal? then (sig, m1) else ExecStmts(fuel, ss[1..], c, m1)
  }

  /** `Program.eval`: the statements in the given context, no new scope. */
  ghost function Run(fuel: nat, p: Program, c: Ctx, m: Machine): (Signal, Machine)
    requires c.Valid()
  {
    ExecStmts(fuel, p.stmts, c, m)
  }

  // ---------------------------------------------------------------------
  // Output and allocation are append-only

  /** `m` after earlier output `p` and with `rest` queued behind its supply. */
  function Shift(m: Machine, p: seq<Value>, rest: seq<Ctx>): Machine
  {
    Machine(m.heap, p + m.printed, m.supply + rest)
  }

  /** An error a real run can raise: anything but the model's own report
      of a supply that does not fit the run. */
  predicate Genuine(err: Error)
  {
    err.kind != NoFreshContext
  }

  predicate GenuineResult<T>(r: Result<T>)
  {
    r.Err? ==> Genuine(r.error)
  }

  predicate GenuineSignal(sig: Signal)
  {
    sig.Raised? ==> Genuine(sig.error)
  }

  lemma ShiftAllocate(m: Machine, parent: Ctx, scope: Scope, p: seq<Value>, rest: seq<Ctx>)
    requires Allocate(m, parent, scope).Ok?
    ensures var (c, m1) := Allocate(m, parent, scope).value;
            Allocate(Shift(m, p, rest), parent, scope) == Ok((c, Shift(m1, p, rest)))
  {
    assert (m.supply + rest)[0] == m.supply[0];
    assert (m.supply + rest)[1..] == m.supply[1..] + rest;
  }

  /** What was printed before an expression does not change what it does,
      and it takes from the supply of new contexts only what it needs: with
      earlier output `p` and more contexts `rest` in the supply, a run ends
      the same way, with `p` in front of its output and `rest` left over. */
  lemma {:induction false} EvalFrame(fuel: nat, e: Expr, c: Ctx, m: Machine, p: seq<Value>, rest: seq<Ctx>)
    requires c.Valid() && GenuineResult(Eval(fuel, e, c, m).0)
    ensures Eval(fuel, e, c, Shift(m, p, rest)) == (Eval(fuel, e, c, m).0, Shift(Eval(fuel, e, c, m).1, p, rest))
    decreases fuel, ExprSize(e), 1
  {
    match e
    case Literal(_) =>
    case Var(_) =>
    case BinOp(left, right, _) =>
      var (lv, m1) := Eval(fuel, left, c, m);
      EvalFrame(fuel, left, c, m, p, rest);
      if lv.Ok? {
        EvalFrame(fuel, right, c, m1, p, rest);
      }
    case And(left, right) =>
      var (lv, m1) := Eval(fuel, left, c, m);
      EvalFrame(fuel, left, c, m, p, rest);
      if lv.Ok? && !IsFalsey(lv.value) {
        EvalFrame(fuel, right, c, m1, p, rest);
      }
    case Or(left, right) =>
      var (lv, m1) := Eval(fuel, left, c, m);
      EvalFrame(fuel, left, c, m, p, rest);
      if lv.Ok? && IsFalsey(lv.value) {
        EvalFrame(fuel, right, c, m1, p, rest);
      }
    case UnaryOp(x, _) =>
      EvalFrame(fuel, x, c, m, p, rest);
    case Call(callee, params) =>
      var (f, m1) := EvalCallee(fuel, callee, c, m);
      CalleeFrame(fuel, callee, c, m, p, rest);
      if f.Ok? {
        var (args, m2) := EvalArgs(fuel, params, c, m1);
        ArgsFrame(fuel, params, c, m1, p, rest);
        if args.Ok? {
          CallFrame(fuel, f.value, args.value, m2, p, rest);
        }
      }
    case Assign(_, x) =>
      EvalFrame(fuel, x, c, m, p, rest);
  }

  lemma {:induction false} CalleeFrame(fuel: nat, callee: Expr, c: Ctx, m: Machine, p: seq<Value>, rest: seq<Ctx>)
    requires c.Valid() && GenuineResult(EvalCallee(fuel, callee, c, m).0)
    ensures EvalCallee(fuel, callee, c, Shift(m, p, rest)) ==
              (EvalCallee(fuel, callee, c, m).0, Shift(EvalCallee(fuel, callee, c, m).1, p, rest))
    decreases fuel, ExprSize(callee), 2
  {
    if callee.Call? {
      EvalFrame(fuel, callee, c, m, p, rest);
    }
  }

  lemma {:induction false} ArgsFrame(fuel: nat, es: seq<Expr>, c: Ctx, m: Machine, p: seq<Value>, rest: seq<Ctx>)
    requires c.Valid() && GenuineResult(EvalArgs(fuel, es, c, m).0)
    ensures EvalArgs(fuel, es, c, Shift(m, p, rest)) == (EvalArgs(fuel, es, c, m).0, Shift(EvalArgs(fuel, es, c, m).1, p, rest))
    decreases fuel, ExprsSize(es), 2
  {
    if |es| > 0 {
      var (v, m1) := Eval(fuel, es[0], c, m);
      EvalFrame(fuel, es[0], c, m, p, rest);
      if v.Ok? {
        ArgsFrame(fuel, es[1..], c, m1, p, rest);
      }
    }
  }

  lemma {:induction false} CallFrame(fuel: nat, f: Value, args: seq<Value>, m: Machine, p: seq<Value>, rest: seq<Ctx>)
    requires GenuineResult(CallValue(fuel, f, args, m).0)
    ensures CallValue(fuel, f, args, Shift(m, p, rest)) == (CallValue(fuel, f, args, m).0, Shift(CallValue(fuel, f, args, m).1, p, rest))
    decreases fuel, 0, 0
  {
    if f.LoxFunction? && fuel > 0 && |f.argNames| == |args| {
      var scope := BindParams(f.argNames, args);
      if Allocate(m, f.ctx, scope).Ok? {
        var (nc, m1) := Allocate(m, f.ctx, scope).value;
        ShiftAllocate(m, f.ctx, scope, p, rest);
        StmtsFrame(fuel - 1, f.body, nc, m1, p, rest);
      }
    }
  }

  lemma {:induction false} ExecFrame(fuel: nat, s: Stmt, c: Ctx, m: Machine, p: seq<Value>, rest: seq<Ctx>)
    requires c.Valid() && GenuineSignal(Exec(fuel, s, c, m).0)
    ensures Exec(fuel, s, c, Shift(m, p, rest)) == (Exec(fuel, s, c, m).0, Shift(Exec(fuel, s, c, m).1, p, rest))
    decreases fuel, StmtSize(s), 1
  {
    match s
    case Print(e) =>
      var (v, m1) := Eval(fuel, e, c, m);
      EvalFrame(fuel, e, c, m, p, rest);
      if v.Ok? {
        assert (p + m1.printed) + [v.value] == p + (m1.printed + [v.value]);
      }
    case Return(e) =>
      EvalFrame(fuel, e, c, m, p, rest);
    case VarDef(_, init) =>
      if init.Some? {
        EvalFrame(fuel, init.value, c, m, p, rest);
      }
    case If(cond, thenBranch, orelse) =>
      var (v, m1) := Eval(fuel, cond, c, m);
      EvalFrame(fuel, cond, c, m, p, rest);
      if v.Ok? && IsLoxTrue(v.value) {
        ExecFrame(fuel, thenBranch, c, m1, p, rest);
      } else if v.Ok? && orelse.Some? {
        ExecFrame(fuel, orelse.value, c, m1, p, rest);
      }
    case While(cond, body) =>
      var (v, m1) := Eval(fuel, cond, c, m);
      EvalFrame(fuel, cond, c, m, p, rest);
      if v.Ok? && IsLoxTrue(v.value) {
        var (sig, m2) := Exec(fuel, body, c, m1);
        ExecFrame(fuel, body, c, m1, p, rest);
        if sig.Normal? && fuel > 0 {
          ExecFrame(fuel - 1, s, c, m2, p, rest);
        }
      }
    case Block(stmts) =>
      if Allocate(m, c, map[]).Ok? {
        var (nc, m1) := Allocate(m, c, map[]).value;
        ShiftAllocate(m, c, map[], p, rest);
        StmtsFrame(fuel, stmts, nc, m1, p, rest);
      }
    case Function(_, _, _) =>
    case Expression(e) =>
      EvalFrame(fuel, e, c, m, p, rest);
  }

  lemma {:induction false} StmtsFrame(fuel: nat, ss: seq<Stmt>, c: Ctx, m: Machine, p: seq<Value>, rest: seq<Ctx>)
    requires c.Valid() && GenuineSignal(ExecStmts(fuel, ss, c, m).0)
    ensures ExecStmts(fuel, ss, c, Shift(m, p, rest)) == (ExecStmts(fuel, ss, c, m).0, Shift(ExecStmts(fuel, ss, c, m).1, p, rest))
    decreases fuel, StmtsSize(ss), 2
  {
    if |ss| > 0 {
      var (sig, m1) := Exec(fuel, ss[0], c, m);
      ExecFrame(fuel, ss[0], c, m, p, rest);
      if sig.Normal? {
        StmtsFrame(fuel, ss[1..], c, m1, p, rest);
      }
    }
  }

  // ---------------------------------------------------------------------
  // Running lists in pieces

  /** Evaluating `xs + ys` evaluates `xs`, then `ys` on the machine `xs`
      left behind, and joins the two value lists; the first error stops. */
  lemma {:induction false} ArgsAppend(fuel: nat, xs: seq<Expr>, ys: seq<Expr>, c: Ctx, m: Machine)
    requires c.Valid()
    ensures EvalArgs(fuel, xs + ys, c, m) ==
              var (vs, m1) := EvalArgs(fuel, xs, c, m);
              if vs.Err? then (vs, m1)
              else
                var (ws, m2) := EvalArgs(fuel, ys, c, m1);
                if ws.Err? then (ws, m2) else (Ok(vs.value + ws.value), m2)
    decreases |xs|
  {
    if |xs| == 0 {
      assert xs + ys == ys;
      var (ws, m2) := EvalArgs(fuel, ys, c, m);
      if ws.Ok? {
        assert [] + ws.value == ws.value;
      }
    } else {
      assert (xs + ys)[0] == xs[0];
      assert (xs + ys)[1..] == xs[1..] + ys;
      var (v, m1) := Eval(fuel, xs[0], c, m);
      if v.Ok? {
        ArgsAppend(fuel, xs[1..], ys, c, m1);
        var (vs, m2) := EvalArgs(fuel, xs[1..], c, m1);
        if vs.Ok? {
          var (ws, m3) := EvalArgs(fuel, ys, c, m2);
          if ws.Ok? {
            assert [v.value] + (vs.value + ws.value) == ([v.value] + vs.value) + ws.value;
          }
        }
      }
    }
  }

  /** A one-element argument list is its one expression. */
  lemma ArgsSingle(fuel: nat, x: Expr, c: Ctx, m: Machine)
    requires c.Valid()
    ensures var (v, m1) := Eval(fuel, x, c, m);
            EvalArgs(fuel, [x], c, m) == if v.Err? then (Err(v.error), m1) else (Ok([v.value]), m1)
  {
    assert [x][1..] == [];
    var (v, m1) := Eval(fuel, x, c, m);
    if v.Ok? {
      assert [v.value] + [] == [v.value];
    }
  }

  /** Running `xs + ys` runs `xs`, then, if `xs` ended normally, `ys` on the
      machine `xs` left behind. */
  lemma {:induction false} StmtsAppend(fuel: nat, xs: seq<Stmt>, ys: seq<Stmt>, c: Ctx, m: Machine)
    requires c.Valid()
    ensures ExecStmts(fuel, xs + ys, c, m) ==
              var (sig, m1) := ExecStmts(fuel, xs, c, m);
              if !sig.Normal? then (sig, m1) else ExecStmts(fuel, ys, c, m1)
    decreases |xs|
  {
    if |xs| == 0 {
      assert xs + ys == ys;
    } else {
      assert (xs + ys)[0] == xs[0];
      assert (xs + ys)[1..] == xs[1..] + ys;
      var (sig, m1) := Exec(fuel, xs[0], c, m);
      if sig.Normal? {
        StmtsAppend(fuel, xs[1..], ys, c, m1);
      }
    }
  }

  /** A one-statement list is its one statement. */
  lemma StmtsSingle(fuel: nat, s: Stmt, c: Ctx, m: Machine)
    requires c.Valid()
    ensures ExecStmts(fuel, [s], c, m) == Exec(fuel, s, c, m)
  {
    assert [s][1..] == [];
  }

  /** A `while` whose condition holds and whose body ends normally goes
      round again, one frame deeper. */
  lemma WhileUnroll(fuel: nat, s: Stmt, c: Ctx, m: Machine, v: Result<Value>, m1: Machine, m2: Machine)
    requires c.Valid() && s.While? && fuel > 0
    requires Eval(fuel, s.cond, c, m) == (v, m1) && v.Ok? && IsLoxTrue(v.value)
    requires Exec(fuel, s.body, c, m1) == (Normal, m2)
    ensures Exec(fuel, s, c, m) == Exec(fuel - 1, s, c, m2)
  {
  }
}
