// The `eval` methods of lox/ast.py and `LoxFunction.__call__`, as methods
// over live `Ctx` objects.
//
// Every method is proved against the functions of module Semantics. `U` is
// the set of live contexts the run can reach; `U'` is `U` plus the contexts
// the method created, `allocs` lists those in the order of creation, and
// `out` the values the method handed to `print`. The contract says that the
// specification, started on the scopes the contexts of `U` hold, with nothing
// printed and `allocs` as its supply of new contexts, ends with the method's
// result, the output `out` and the scopes the contexts of `U'` hold
// afterwards, and that the run raised no NoFreshContext report. The frame
// lemmas of module Semantics (EvalFrame and its siblings) extend such a run
// to any earlier output and any longer supply, which is how the methods
// compose.
module Evaluator {
  import opened Basics
  import opened Syntax
  import opened Objects
  import opened Environment
  import opened Runtime
  import opened Semantics

  // ---------------------------------------------------------------------
  // The universe of contexts a run works on

  /** A function value only refers to contexts of `U`. */
  ghost predicate ValueIn(v: Value, U: set<Ctx>)
  {
    v.LoxFunction? ==> v.ctx in U
  }

  /** `h` gives a scope to exactly the contexts of `U`; their parents are in
      `U`, and so are the contexts captured by the functions they hold. */
  ghost predicate WellFormed(U: set<Ctx>, h: Heap)
  {
    && h.Keys == U
    && (forall c :: c in U ==> c.Valid() && (c.parent != null ==> c.parent in U))
    && (forall c, k :: c in U && k in h[c] ==> ValueIn(h[c][k], U))
  }

  ghost predicate Closed(U: set<Ctx>)
    reads U
  {
    WellFormed(U, Snapshot(U))
  }

  lemma {:induction false} ReprInside(c: Ctx, U: set<Ctx>)
    requires c in U && forall d :: d in U ==> d.Valid() && (d.parent != null ==> d.parent in U)
    ensures c.Repr() <= U
    decreases c.depth
  {
    if c.parent != null {
      ReprInside(c.parent, U);
    }
  }

  lemma {:induction false} ReprInChain(c: Ctx, d: Ctx) returns (j: nat)
    requires c.Valid() && d in c.Repr()
    ensures j < |c.Chain()| && c.Chain()[j] == d
    decreases c.depth
  {
    if d == c {
      j := 0;
    } else {
      var j' := ReprInChain(c.parent, d);
      j := j' + 1;
    }
  }

  lemma LookupInside(U: set<Ctx>, h: Heap, c: Ctx, name: string)
    requires WellFormed(U, h) && c in U && Lookup(ScopesIn(h, c), name).Ok?
    ensures ValueIn(Lookup(ScopesIn(h, c), name).value, U)
  {
    var i := FirstHolding(ScopesIn(h, c), name);
    assert name in ScopeOf(h, c.Chain()[i]);
  }

  lemma WellFormedAssign(U: set<Ctx>, h: Heap, c: Ctx, key: string, v: Value)
    requires WellFormed(U, h) && c in U && ValueIn(v, U) && AssignIn(h, c, key, v).Ok?
    ensures WellFormed(U, AssignIn(h, c, key, v).value)
  {
    var i := FirstHolding(ScopesIn(h, c), key);
    assert key in ScopeOf(h, c.Chain()[i]);
  }

  lemma WellFormedDeclare(U: set<Ctx>, h: Heap, c: Ctx, key: string, v: Value)
    requires WellFormed(U, h) && c in U && ValueIn(v, U) && DeclareIn(h, c, key, v).Ok?
    ensures WellFormed(U, DeclareIn(h, c, key, v).value)
  {
  }

  lemma WellFormedAllocate(U: set<Ctx>, h: Heap, nc: Ctx, scope: Scope)
    requires WellFormed(U, h) && nc !in U && nc.Valid() && nc.parent != null && nc.parent in U
    requires forall k :: k in scope ==> ValueIn(scope[k], U)
    ensures WellFormed(U + {nc}, h[nc := scope])
  {
  }

  /** A change to the scope of `c` alone, read as a heap. */
  lemma SnapshotAfterUpdate(U: set<Ctx>, h0: Heap, c: Ctx)
    requires c in U && h0.Keys == U
    requires forall d :: d in U && d != c ==> d.scope == h0[d]
    ensures Snapshot(U) == h0[c := c.scope]
  {
  }

  /** What `Set` leaves behind, read as a heap: the assignment of module
      Environment when some scope holds the name, the old heap otherwise. */
  lemma SnapshotAfterSet(U: set<Ctx>, h1: Heap, c: Ctx, key: string, v: Value)
    requires c.Valid() && c.Repr() <= U && h1.Keys == U
    requires forall d :: d in U && d !in c.Repr() ==> d.scope == h1[d]
    requires var S := ScopesIn(h1, c);
             var i := FirstHolding(S, key);
             forall j :: 0 <= j < |c.Chain()| ==> c.Chain()[j].scope == if j == i then S[j][key := v] else S[j]
    ensures Snapshot(U) == if AssignIn(h1, c, key, v).Ok? then AssignIn(h1, c, key, v).value else h1
  {
    var i := FirstHolding(ScopesIn(h1, c), key);
    if i == |c.Chain()| {
      SnapshotAfterMiss(U, h1, c, key, v);
    } else {
      SnapshotAfterHit(U, h1, c, key, v, i);
    }
  }

  /** No scope holds the name: nothing changed. */
  lemma SnapshotAfterMiss(U: set<Ctx>, h1: Heap, c: Ctx, key: string, v: Value)
    requires c.Valid() && c.Repr() <= U && h1.Keys == U
    requires forall d :: d in U && d !in c.Repr() ==> d.scope == h1[d]
    requires FirstHolding(ScopesIn(h1, c), key) == |c.Chain()|
    requires forall j :: 0 <= j < |c.Chain()| ==> c.Chain()[j].scope == ScopesIn(h1, c)[j]
    ensures Snapshot(U) == h1
  {
    forall d | d in U
      ensures d.scope == h1[d]
    {
      if d in c.Repr() {
        var j := ReprInChain(c, d);
      }
    }
    SnapshotIs(U, h1);
  }

  /** Scope `i` holds the name: that scope alone changed. */
  lemma SnapshotAfterHit(U: set<Ctx>, h1: Heap, c: Ctx, key: string, v: Value, i: nat)
    requires c.Valid() && c.Repr() <= U && h1.Keys == U
    requires forall d :: d in U && d !in c.Repr() ==> d.scope == h1[d]
    requires i == FirstHolding(ScopesIn(h1, c), key) < |c.Chain()|
    requires var S := ScopesIn(h1, c);
             forall j :: 0 <= j < |c.Chain()| ==> c.Chain()[j].scope == if j == i then S[j][key := v] else S[j]
    ensures AssignIn(h1, c, key, v) == Ok(Snapshot(U))
  {
    var owner := c.Chain()[i];
    var h2 := h1[owner := ScopeOf(h1, owner)[key := v]];
    forall d | d in U
      ensures d.scope == h2[d]
    {
      if d in c.Repr() {
        var j := ReprInChain(c, d);
        if j != i {
          ChainDistinct(c, i, j);
        }
      } else {
        assert d != owner;
      }
    }
    SnapshotIs(U, h2);
  }


  /** A heap that agrees with every scope of `U` is its snapshot. */
  lemma SnapshotIs(U: set<Ctx>, h: Heap)
    requires h.Keys == U && forall d :: d in U ==> d.scope == h[d]
    ensures Snapshot(U) == h
  {
  }


  // ---------------------------------------------------------------------
  // Runs in pieces

  /** The shifts the lemmas below use, written out. */
  lemma ShiftNothing(h0: Heap, a1: seq<Ctx>, a2: seq<Ctx>, h1: Heap, out1: seq<Value>, h2: Heap, out2: seq<Value>)
    ensures Shift(Machine(h0, [], a1), [], a2) == Machine(h0, [], a1 + a2)
    ensures Shift(Machine(h1, out1, []), [], a2) == Machine(h1, out1, a2)
    ensures Shift(Machine(h1, [], a2), out1, []) == Machine(h1, out1, a2)
    ensures Shift(Machine(h2, out2, []), out1, []) == Machine(h2, out1 + out2, [])
  {
    assert [] + out1 == out1 + [] == out1;
    assert [] + a2 == a2 + [] == a2;
    var none: seq<Value> := [];
    var noCtx: seq<Ctx> := [];
    assert none + none == none;
    assert noCtx + noCtx == noCtx;
  }

  /** A node with two operands, run as its left operand on the contexts
      `a1` and then its right operand on the contexts `a2`. */
  lemma BinarySteps(fuel: nat, e: Expr, c: Ctx, h0: Heap, a1: seq<Ctx>, left: Result<Value>, h1: Heap, out1: seq<Value>,
                    a2: seq<Ctx>, right: Result<Value>, h2: Heap, out2: seq<Value>)
    requires c.Valid() && (e.BinOp? || e.And? || e.Or?)
    requires Eval(fuel, e.left, c, Machine(h0, [], a1)) == (left, Machine(h1, out1, [])) && GenuineResult(left)
    requires Eval(fuel, e.right, c, Machine(h1, [], a2)) == (right, Machine(h2, out2, [])) && GenuineResult(right)
    requires left.Ok? && (e.And? ==> !IsFalsey(left.value)) && (e.Or? ==> IsFalsey(left.value))
    ensures Eval(fuel, e, c, Machine(h0, [], a1 + a2)) ==
              (if e.BinOp? && right.Ok? then ApplyBinary(e.op, left.value, right.value) else right, Machine(h2, out1 + out2, []))
  {
    EvalFrame(fuel, e.left, c, Machine(h0, [], a1), [], a2);
    EvalFrame(fuel, e.right, c, Machine(h1, [], a2), out1, []);
    ShiftNothing(h0, a1, a2, h1, out1, h2, out2);
  }

  /** One more argument: the list evaluated so far, then the next
      expression on the contexts `a`. An error ends the whole list. */
  lemma ArgsStep(fuel: nat, es: seq<Expr>, i: nat, c: Ctx, h0: Heap, allocs: seq<Ctx>, values: seq<Value>,
                 hi: Heap, out: seq<Value>, a: seq<Ctx>, v: Result<Value>, h1: Heap, o: seq<Value>)
    requires c.Valid() && i < |es|
    requires EvalArgs(fuel, es[..i], c, Machine(h0, [], allocs)) == (Ok(values), Machine(hi, out, []))
    requires Eval(fuel, es[i], c, Machine(hi, [], a)) == (v, Machine(h1, o, [])) && GenuineResult(v)
    ensures EvalArgs(fuel, es[..i + 1], c, Machine(h0, [], allocs + a)) ==
              (if v.Err? then Err(v.error) else Ok(values + [v.value]), Machine(h1, out + o, []))
    ensures v.Err? ==> EvalArgs(fuel, es, c, Machine(h0, [], allocs + a)) == (Err(v.error), Machine(h1, out + o, []))
  {
    ArgsFrame(fuel, es[..i], c, Machine(h0, [], allocs), [], a);
    EvalFrame(fuel, es[i], c, Machine(hi, [], a), out, []);
    ShiftNothing(h0, allocs, a, hi, out, h1, o);
    ArgsAppend(fuel, es[..i], [es[i]], c, Machine(h0, [], allocs + a));
    ArgsSingle(fuel, es[i], c, Machine(hi, out, a));
    assert es[..i + 1] == es[..i] + [es[i]];
    if v.Err? {
      ArgsAppend(fuel, es[..i + 1], es[i + 1..], c, Machine(h0, [], allocs + a));
      assert es == es[..i + 1] + es[i + 1..];
    }
  }

  /** One more statement: the list run so far, then the next statement on
      the contexts `a`. */
  lemma StmtsStep(fuel: nat, ss: seq<Stmt>, i: nat, c: Ctx, h0: Heap, allocs: seq<Ctx>,
                  hi: Heap, out: seq<Value>, a: seq<Ctx>, sig: Signal, h1: Heap, o: seq<Value>)
    requires c.Valid() && i < |ss|
    requires ExecStmts(fuel, ss[..i], c, Machine(h0, [], allocs)) == (Normal, Machine(hi, out, []))
    requires Exec(fuel, ss[i], c, Machine(hi, [], a)) == (sig, Machine(h1, o, [])) && GenuineSignal(sig)
    ensures ExecStmts(fuel, ss[..i + 1], c, Machine(h0, [], allocs + a)) == (sig, Machine(h1, out + o, []))
  {
    StmtsSupply(fuel, ss[..i], c, h0, allocs, hi, out, a);
    ExecAfter(fuel, ss[i], c, hi, a, sig, h1, o, out);
    StmtsSnoc(fuel, ss, i, c, Machine(h0, [], allocs + a), Machine(hi, out, a), sig, Machine(h1, out + o, []));
  }

  /** Contexts queued behind the supply of a list that ends normally are
      left over for what follows. */
  lemma StmtsSupply(fuel: nat, ss: seq<Stmt>, c: Ctx, h0: Heap, allocs: seq<Ctx>, h1: Heap, out: seq<Value>, a: seq<Ctx>)
    requires c.Valid()
    requires ExecStmts(fuel, ss, c, Machine(h0, [], allocs)) == (Normal, Machine(h1, out, []))
    ensures ExecStmts(fuel, ss, c, Machine(h0, [], allocs + a)) == (Normal, Machine(h1, out, a))
  {
    StmtsFrame(fuel, ss, c, Machine(h0, [], allocs), [], a);
    var none: seq<Value> := [];
    assert none + none == none && none + out == out;
    var noCtx: seq<Ctx> := [];
    assert noCtx + a == a;
  }

  /** A list with one more statement at its end. */
  lemma StmtsSnoc(fuel: nat, ss: seq<Stmt>, i: nat, c: Ctx, m0: Machine, mi: Machine, sig: Signal, m1: Machine)
    requires c.Valid() && i < |ss|
    requires ExecStmts(fuel, ss[..i], c, m0) == (Normal, mi)
    requires Exec(fuel, ss[i], c, mi) == (sig, m1)
    ensures ExecStmts(fuel, ss[..i + 1], c, m0) == (sig, m1)
  {
    StmtsAppend(fuel, ss[..i], [ss[i]], c, m0);
    StmtsSingle(fuel, ss[i], c, mi);
    assert ss[..i + 1] == ss[..i] + [ss[i]];
  }

  /** A statement that does not end normally ends the whole list. */
  lemma StmtsStop(fuel: nat, ss: seq<Stmt>, i: nat, c: Ctx, m0: Machine, sig: Signal, m1: Machine)
    requires c.Valid() && i < |ss|
    requires ExecStmts(fuel, ss[..i + 1], c, m0) == (sig, m1) && !sig.Normal?
    ensures ExecStmts(fuel, ss, c, m0) == (sig, m1)
  {
    StmtsAppend(fuel, ss[..i + 1], ss[i + 1..], c, m0);
    assert ss == ss[..i + 1] + ss[i + 1..];
  }

  /** The shifts of a run in three pieces, written out. */
  lemma ShiftThree(h0: Heap, a1: seq<Ctx>, a2: seq<Ctx>, a3: seq<Ctx>, h1: Heap, out1: seq<Value>,
                   h2: Heap, out2: seq<Value>, h3: Heap, out3: seq<Value>)
    ensures Shift(Machine(h0, [], a1), [], a2 + a3) == Machine(h0, [], a1 + a2 + a3)
    ensures Shift(Machine(h1, out1, []), [], a2 + a3) == Machine(h1, out1, a2 + a3)
    ensures Shift(Machine(h1, [], a2), out1, a3) == Machine(h1, out1, a2 + a3)
    ensures Shift(Machine(h2, out2, []), out1, a3) == Machine(h2, out1 + out2, a3)
    ensures Shift(Machine(h2, [], a3), out1 + out2, []) == Machine(h2, out1 + out2, a3)
    ensures Shift(Machine(h3, out3, []), out1 + out2, []) == Machine(h3, out1 + out2 + out3, [])
  {
    assert a1 + (a2 + a3) == a1 + a2 + a3;
    assert [] + out1 == out1 + [] == out1;
    assert [] + (a2 + a3) == a2 + a3;
    assert (out1 + out2) + [] == out1 + out2;
    assert a3 + [] == a3;
    var noCtx: seq<Ctx> := [];
    assert noCtx + noCtx == noCtx;
  }

  /** A call whose argument list raises: the callee on `a1`, then the
      arguments on `a2`. */
  lemma CallStopsAtArgs(fuel: nat, e: Expr, c: Ctx, h0: Heap, a1: seq<Ctx>, f: Result<Value>, h1: Heap, out1: seq<Value>,
                        a2: seq<Ctx>, args: Result<seq<Value>>, h2: Heap, out2: seq<Value>)
    requires c.Valid() && e.Call?
    requires EvalCallee(fuel, e.callee, c, Machine(h0, [], a1)) == (f, Machine(h1, out1, [])) && f.Ok?
    requires EvalArgs(fuel, e.params, c, Machine(h1, [], a2)) == (args, Machine(h2, out2, [])) && args.Err? && GenuineResult(args)
    ensures Eval(fuel, e, c, Machine(h0, [], a1 + a2)) == (Err(args.error), Machine(h2, out1 + out2, []))
  {
    CalleeFrame(fuel, e.callee, c, Machine(h0, [], a1), [], a2);
    ArgsFrame(fuel, e.params, c, Machine(h1, [], a2), out1, []);
    ShiftNothing(h0, a1, a2, h1, out1, h2, out2);
  }

  /** A call in three pieces: the callee on `a1`, the arguments on `a2`,
      the call itself on `a3`. */
  lemma CallSteps(fuel: nat, e: Expr, c: Ctx, h0: Heap, a1: seq<Ctx>, f: Result<Value>, h1: Heap, out1: seq<Value>,
                  a2: seq<Ctx>, args: Result<seq<Value>>, h2: Heap, out2: seq<Value>,
                  a3: seq<Ctx>, res: Result<Value>, h3: Heap, out3: seq<Value>)
    requires c.Valid() && e.Call?
    requires EvalCallee(fuel, e.callee, c, Machine(h0, [], a1)) == (f, Machine(h1, out1, [])) && f.Ok?
    requires EvalArgs(fuel, e.params, c, Machine(h1, [], a2)) == (args, Machine(h2, out2, [])) && args.Ok?
    requires CallValue(fuel, f.value, args.value, Machine(h2, [], a3)) == (res, Machine(h3, out3, [])) && GenuineResult(res)
    ensures Eval(fuel, e, c, Machine(h0, [], a1 + a2 + a3)) == (res, Machine(h3, out1 + out2 + out3, []))
  {
    CalleeFrame(fuel, e.callee, c, Machine(h0, [], a1), [], a2 + a3);
    ArgsFrame(fuel, e.params, c, Machine(h1, [], a2), out1, a3);
    CallFrame(fuel, f.value, args.value, Machine(h2, [], a3), out1 + out2, []);
    ShiftThree(h0, a1, a2, a3, h1, out1, h2, out2, h3, out3);
  }

  /** An `if` that runs a branch: the condition on `a1`, the branch on
      `a2`. */
  lemma IfSteps(fuel: nat, s: Stmt, c: Ctx, h0: Heap, a1: seq<Ctx>, v: Result<Value>, h1: Heap, out1: seq<Value>,
                branch: Stmt, a2: seq<Ctx>, sig: Signal, h2: Heap, out2: seq<Value>)
    requires c.Valid() && s.If?
    requires Eval(fuel, s.cond, c, Machine(h0, [], a1)) == (v, Machine(h1, out1, [])) && v.Ok?
    requires IsLoxTrue(v.value) || s.orelse.Some?
    requires branch == if IsLoxTrue(v.value) then s.thenBranch else s.orelse.value
    requires Exec(fuel, branch, c, Machine(h1, [], a2)) == (sig, Machine(h2, out2, [])) && GenuineSignal(sig)
    ensures Exec(fuel, s, c, Machine(h0, [], a1 + a2)) == (sig, Machine(h2, out1 + out2, []))
  {
    EvalFrame(fuel, s.cond, c, Machine(h0, [], a1), [], a2);
    ExecFrame(fuel, branch, c, Machine(h1, [], a2), out1, []);
    ShiftNothing(h0, a1, a2, h1, out1, h2, out2);
  }

  /** A `while` round that ends the loop after the body: the body did not
      end normally, or the host has no frame left for the next round. */
  lemma WhileStops(fuel: nat, s: Stmt, c: Ctx, h0: Heap, a1: seq<Ctx>, v: Result<Value>, h1: Heap, out1: seq<Value>,
                   a2: seq<Ctx>, sig: Signal, h2: Heap, out2: seq<Value>)
    requires c.Valid() && s.While?
    requires Eval(fuel, s.cond, c, Machine(h0, [], a1)) == (v, Machine(h1, out1, [])) && v.Ok? && IsLoxTrue(v.value)
    requires Exec(fuel, s.body, c, Machine(h1, [], a2)) == (sig, Machine(h2, out2, [])) && GenuineSignal(sig)
    requires !sig.Normal? || fuel == 0
    ensures Exec(fuel, s, c, Machine(h0, [], a1 + a2)) ==
              (if !sig.Normal? then sig else Raised(RecursionLimit), Machine(h2, out1 + out2, []))
  {
    EvalFrame(fuel, s.cond, c, Machine(h0, [], a1), [], a2);
    ExecFrame(fuel, s.body, c, Machine(h1, [], a2), out1, []);
    ShiftNothing(h0, a1, a2, h1, out1, h2, out2);
  }

  /** A `while` whose condition raises or is falsey stops there. */
  lemma WhileSkips(fuel: nat, s: Stmt, c: Ctx, h0: Heap, a1: seq<Ctx>, v: Result<Value>, h1: Heap, out1: seq<Value>)
    requires c.Valid() && s.While?
    requires Eval(fuel, s.cond, c, Machine(h0, [], a1)) == (v, Machine(h1, out1, []))
    requires v.Err? || !IsLoxTrue(v.value)
    ensures Exec(fuel, s, c, Machine(h0, [], a1)) == (if v.Err? then Raised(v.error) else Normal, Machine(h1, out1, []))
  {
  }

  /** A statement run after output `p` adds its own output behind `p`. */
  lemma ExecAfter(fuel: nat, s: Stmt, c: Ctx, h0: Heap, a: seq<Ctx>, sig: Signal, h1: Heap, out: seq<Value>, p: seq<Value>)
    requires c.Valid()
    requires Exec(fuel, s, c, Machine(h0, [], a)) == (sig, Machine(h1, out, [])) && GenuineSignal(sig)
    ensures Exec(fuel, s, c, Machine(h0, p, a)) == (sig, Machine(h1, p + out, []))
  {
    ExecFrame(fuel, s, c, Machine(h0, [], a), p, []);
    assert p + [] == p && a + [] == a;
    var none: seq<Ctx> := [];
    assert none + none == none;
  }

  /** The condition and the body of a `while` round, with the contexts
      `rest` still to be allocated: the loop goes on one frame deeper. */
  lemma WhileHead(fuel: nat, s: Stmt, c: Ctx, h0: Heap, a1: seq<Ctx>, v: Result<Value>, h1: Heap, out1: seq<Value>,
                  a2: seq<Ctx>, h2: Heap, out2: seq<Value>, rest: seq<Ctx>)
    requires c.Valid() && s.While? && fuel > 0
    requires Eval(fuel, s.cond, c, Machine(h0, [], a1)) == (v, Machine(h1, out1, [])) && v.Ok? && IsLoxTrue(v.value)
    requires Exec(fuel, s.body, c, Machine(h1, [], a2)) == (Normal, Machine(h2, out2, []))
    ensures Exec(fuel, s, c, Machine(h0, [], a1 + a2 + rest)) == Exec(fuel - 1, s, c, Machine(h2, out1 + out2, rest))
  {
    var none: seq<Value> := [];
    ShiftThree(h0, a1, a2, rest, h1, out1, h2, out2, h2, none);
    EvalFrame(fuel, s.cond, c, Machine(h0, [], a1), [], a2 + rest);
    ExecFrame(fuel, s.body, c, Machine(h1, [], a2), out1, rest);
    WhileUnroll(fuel, s, c, Machine(h0, [], a1 + a2 + rest), v, Machine(h1, out1, a2 + rest), Machine(h2, out1 + out2, rest));
  }


  /** A `while` round whose body ended normally, followed by the loop one
      frame deeper on the contexts `a3`. */
  lemma WhileAgainSteps(fuel: nat, s: Stmt, c: Ctx, h0: Heap, a1: seq<Ctx>, v: Result<Value>, h1: Heap, out1: seq<Value>,
                        a2: seq<Ctx>, h2: Heap, out2: seq<Value>, a3: seq<Ctx>, sig: Signal, h3: Heap, out3: seq<Value>)
    requires c.Valid() && s.While? && fuel > 0
    requires Eval(fuel, s.cond, c, Machine(h0, [], a1)) == (v, Machine(h1, out1, [])) && v.Ok? && IsLoxTrue(v.value)
    requires Exec(fuel, s.body, c, Machine(h1, [], a2)) == (Normal, Machine(h2, out2, []))
    requires Exec(fuel - 1, s, c, Machine(h2, out1 + out2, a3)) == (sig, Machine(h3, out1 + out2 + out3, []))
    ensures Exec(fuel, s, c, Machine(h0, [], a1 + a2 + a3)) == (sig, Machine(h3, out1 + out2 + out3, []))
  {
    WhileHead(fuel, s, c, h0, a1, v, h1, out1, a2, h2, out2, a3);
  }

  // ---------------------------------------------------------------------
  // Expressions

  /** `Expr.eval(ctx)`. */
  method EvalExpr(fuel: nat, e: Expr, c: Ctx, ghost U: set<Ctx>)
    returns (r: Result<Value>, out: seq<Value>, ghost U': set<Ctx>, ghost allocs: seq<Ctx>)
    requires Closed(U) && c in U
    modifies U
    ensures Closed(U') && U <= U' && fresh(U' - U)
    ensures r.Ok? ==> ValueIn(r.value, U')
    ensures GenuineResult(r)
    ensures Eval(fuel, e, c, Machine(old(Snapshot(U)), [], allocs)) == (r, Machine(Snapshot(U'), out, []))
    decreases fuel, ExprSize(e), 1
  {
    match e
    case Literal(k) =>
      r, out, U', allocs := Ok(ConstValue(k)), [], U, [];
    case Var(_) =>
      r := EvalVar(fuel, e, c, U);
      out, U', allocs := [], U, [];
    case BinOp(_, _, _) =>
      r, out, U', allocs := EvalBinOp(fuel, e, c, U);
    case And(_, _) =>
      r, out, U', allocs := EvalAnd(fuel, e, c, U);
    case Or(_, _) =>
      r, out, U', allocs := EvalOr(fuel, e, c, U);
    case UnaryOp(_, _) =>
      r, out, U', allocs := EvalUnaryOp(fuel, e, c, U);
    case Call(_, _) =>
      r, out, U', allocs := EvalCall(fuel, e, c, U);
    case Assign(_, _) =>
      r, out, U', allocs := EvalAssign(fuel, e, c, U);
  }

  /** `Var.eval`: the innermost binding of the name; NameError when no
      scope holds it. */
  method EvalVar(fuel: nat, e: Expr, c: Ctx, ghost U: set<Ctx>) returns (r: Result<Value>)
    requires e.Var? && Closed(U) && c in U
    ensures r.Ok? ==> ValueIn(r.value, U)
    ensures r == Eval(fuel, e, c, Machine(Snapshot(U), [], [])).0
    ensures r.Err? ==> r.error == UnboundName(e.name)
  {
    ReprInside(c, U);
    ScopesInSnapshot(Snapshot(U), c);
    var got := c.Get(e.name);
    if got.Ok? {
      r := got;
      LookupInside(U, Snapshot(U), c, e.name);
    } else {
      r := Err(UnboundName(e.name));
    }
  }

  /** `BinOp.eval`: the left operand, then the right one, then the
      operator. */
  method EvalBinOp(fuel: nat, e: Expr, c: Ctx, ghost U: set<Ctx>)
    returns (r: Result<Value>, out: seq<Value>, ghost U': set<Ctx>, ghost allocs: seq<Ctx>)
    requires e.BinOp? && Closed(U) && c in U
    modifies U
    ensures Closed(U') && U <= U' && fresh(U' - U)
    ensures r.Ok? ==> ValueIn(r.value, U')
    ensures GenuineResult(r)
    ensures Eval(fuel, e, c, Machine(old(Snapshot(U)), [], allocs)) == (r, Machine(Snapshot(U'), out, []))
    decreases fuel, ExprSize(e), 0
  {
    ghost var h0 := Snapshot(U);
    var left, out1, U1, a1 := EvalExpr(fuel, e.left, c, U);
    if left.Err? {
      r, out, U', allocs := left, out1, U1, a1;
      return;
    }
    ghost var h1 := Snapshot(U1);
    var right, out2, U2, a2 := EvalExpr(fuel, e.right, c, U1);
    r := if right.Err? then right else ApplyBinary(e.op, left.value, right.value);
    out, U', allocs := out1 + out2, U2, a1 + a2;
    BinarySteps(fuel, e, c, h0, a1, left, h1, out1, a2, right, Snapshot(U2), out2);
  }

  /** `And.eval`: the left value when it is nil or false, without
      evaluating the right operand; the right value otherwise. */
  method EvalAnd(fuel: nat, e: Expr, c: Ctx, ghost U: set<Ctx>)
    returns (r: Result<Value>, out: seq<Value>, ghost U': set<Ctx>, ghost allocs: seq<Ctx>)
    requires e.And? && Closed(U) && c in U
    modifies U
    ensures Closed(U') && U <= U' && fresh(U' - U)
    ensures r.Ok? ==> ValueIn(r.value, U')
    ensures GenuineResult(r)
    ensures Eval(fuel, e, c, Machine(old(Snapshot(U)), [], allocs)) == (r, Machine(Snapshot(U'), out, []))
    decreases fuel, ExprSize(e), 0
  {
    ghost var h0 := Snapshot(U);
    var left, out1, U1, a1 := EvalExpr(fuel, e.left, c, U);
    if left.Err? || IsFalsey(left.value) {
      r, out, U', allocs := left, out1, U1, a1;
      return;
    }
    ghost var h1 := Snapshot(U1);
    var right, out2, U2, a2 := EvalExpr(fuel, e.right, c, U1);
    r, out, U', allocs := right, out1 + out2, U2, a1 + a2;
    BinarySteps(fuel, e, c, h0, a1, left, h1, out1, a2, right, Snapshot(U2), out2);
  }

  /** `Or.eval`: the left value when it is neither nil nor false, without
      evaluating the right operand; the right value otherwise. */
  method EvalOr(fuel: nat, e: Expr, c: Ctx, ghost U: set<Ctx>)
    returns (r: Result<Value>, out: seq<Value>, ghost U': set<Ctx>, ghost allocs: seq<Ctx>)
    requires e.Or? && Closed(U) && c in U
    modifies U
    ensures Closed(U') && U <= U' && fresh(U' - U)
    ensures r.Ok? ==> ValueIn(r.value, U')
    ensures GenuineResult(r)
    ensures Eval(fuel, e, c, Machine(old(Snapshot(U)), [], allocs)) == (r, Machine(Snapshot(U'), out, []))
    decreases fuel, ExprSize(e), 0
  {
    ghost var h0 := Snapshot(U);
    var left, out1, U1, a1 := EvalExpr(fuel, e.left, c, U);
    if left.Err? || !IsFalsey(left.value) {
      r, out, U', allocs := left, out1, U1, a1;
      return;
    }
    ghost var h1 := Snapshot(U1);
    var right, out2, U2, a2 := EvalExpr(fuel, e.right, c, U1);
    r, out, U', allocs := right, out1 + out2, U2, a1 + a2;
    BinarySteps(fuel, e, c, h0, a1, left, h1, out1, a2, right, Snapshot(U2), out2);
  }

  /** `UnaryOp.eval`. */
  method EvalUnaryOp(fuel: nat, e: Expr, c: Ctx, ghost U: set<Ctx>)
    returns (r: Result<Value>, out: seq<Value>, ghost U': set<Ctx>, ghost allocs: seq<Ctx>)
    requires e.UnaryOp? && Closed(U) && c in U
    modifies U
    ensures Closed(U') && U <= U' && fresh(U' - U)
    ensures r.Ok? ==> ValueIn(r.value, U')
    ensures GenuineResult(r)
    ensures Eval(fuel, e, c, Machine(old(Snapshot(U)), [], allocs)) == (r, Machine(Snapshot(U'), out, []))
    decreases fuel, ExprSize(e), 0
  {
    var v;
    v, out, U', allocs := EvalExpr(fuel, e.expr, c, U);
    r := if v.Err? then v else ApplyUnary(e.uop, v.value);
  }

  /** `Assign.eval`: the value, then `ctx[name] = value`; the value is the
      result. */
  method EvalAssign(fuel: nat, e: Expr, c: Ctx, ghost U: set<Ctx>)
    returns (r: Result<Value>, out: seq<Value>, ghost U': set<Ctx>, ghost allocs: seq<Ctx>)
    requires e.Assign? && Closed(U) && c in U
    modifies U
    ensures Closed(U') && U <= U' && fresh(U' - U)
    ensures r.Ok? ==> ValueIn(r.value, U')
    ensures GenuineResult(r)
    ensures Eval(fuel, e, c, Machine(old(Snapshot(U)), [], allocs)) == (r, Machine(Snapshot(U'), out, []))
    decreases fuel, ExprSize(e), 0
  {
    var v;
    v, out, U', allocs := EvalExpr(fuel, e.value, c, U);
    if v.Err? {
      r := v;
      return;
    }
    ghost var h1 := Snapshot(U');
    ReprInside(c, U');
    ScopesInSnapshot(h1, c);
    AssignInDefined(h1, c, e.name, v.value);
    var outcome := c.Set(e.name, v.value);
    SnapshotAfterSet(U', h1, c, e.name, v.value);
    if outcome.Fail? {
      r := Err(outcome.error);
    } else {
      r := v;
      WellFormedAssign(U', h1, c, e.name, v.value);
    }
  }

  /** `Call._eval_callee`. */
  method ResolveCallee(fuel: nat, callee: Expr, c: Ctx, ghost U: set<Ctx>)
    returns (r: Result<Value>, out: seq<Value>, ghost U': set<Ctx>, ghost allocs: seq<Ctx>)
    requires Closed(U) && c in U
    modifies U
    ensures Closed(U') && U <= U' && fresh(U' - U)
    ensures r.Ok? ==> ValueIn(r.value, U')
    ensures GenuineResult(r)
    ensures EvalCallee(fuel, callee, c, Machine(old(Snapshot(U)), [], allocs)) == (r, Machine(Snapshot(U'), out, []))
    decreases fuel, ExprSize(callee), 2
  {
    match callee
    case Var(name) =>
      ReprInside(c, U);
      ScopesInSnapshot(Snapshot(U), c);
      r := c.Get(name);
      if r.Ok? {
        LookupInside(U, Snapshot(U), c, name);
      }
      out, U', allocs := [], U, [];
    case Call(_, _) =>
      r, out, U', allocs := EvalExpr(fuel, callee, c, U);
    case _ =>
      r := Err(UnsupportedCallee(callee));
      out, U', allocs := [], U, [];
  }

  /** The argument list of a call, `[param.eval(ctx) for param in params]`. */
  method EvalParams(fuel: nat, es: seq<Expr>, c: Ctx, ghost U: set<Ctx>)
    returns (r: Result<seq<Value>>, out: seq<Value>, ghost U': set<Ctx>, ghost allocs: seq<Ctx>)
    requires Closed(U) && c in U
    modifies U
    ensures Closed(U') && U <= U' && fresh(U' - U)
    ensures r.Ok? ==> |r.value| == |es| && forall i :: 0 <= i < |r.value| ==> ValueIn(r.value[i], U')
    ensures GenuineResult(r)
    ensures EvalArgs(fuel, es, c, Machine(old(Snapshot(U)), [], allocs)) == (r, Machine(Snapshot(U'), out, []))
    decreases fuel, ExprsSize(es), 3
  {
    ghost var h0 := Snapshot(U);
    var values: seq<Value> := [];
    out, U', allocs := [], U, [];
    var i := 0;
    while i < |es|
      invariant 0 <= i <= |es| && |values| == i
      invariant Closed(U') && U <= U' && fresh(U' - U) && c in U'
      invariant forall j :: 0 <= j < i ==> ValueIn(values[j], U')
      invariant EvalArgs(fuel, es[..i], c, Machine(h0, [], allocs)) == (Ok(values), Machine(Snapshot(U'), out, []))
    {
      var v, o, U1, a := EvalParam(fuel, es, i, c, U', h0, allocs, values, out);
      if v.Err? {
        r := Err(v.error);
        out, U', allocs := out + o, U1, allocs + a;
        return;
      }
      values := values + [v.value];
      out, U', allocs := out + o, U1, allocs + a;
      i := i + 1;
    }
    assert es[..i] == es;
    r := Ok(values);
  }

  /** The argument at index `i`, after the arguments before it gave
      `values`. */
  method EvalParam(fuel: nat, es: seq<Expr>, i: nat, c: Ctx, ghost U: set<Ctx>, ghost h0: Heap, ghost allocs: seq<Ctx>,
                   ghost values: seq<Value>, ghost out: seq<Value>)
    returns (v: Result<Value>, o: seq<Value>, ghost U': set<Ctx>, ghost a: seq<Ctx>)
    requires i < |es| && Closed(U) && c in U
    requires EvalArgs(fuel, es[..i], c, Machine(h0, [], allocs)) == (Ok(values), Machine(Snapshot(U), out, []))
    modifies U
    ensures Closed(U') && U <= U' && fresh(U' - U)
    ensures v.Ok? ==> ValueIn(v.value, U')
    ensures GenuineResult(v)
    ensures EvalArgs(fuel, es[..i + 1], c, Machine(h0, [], allocs + a)) ==
              (if v.Err? then Err(v.error) else Ok(values + [v.value]), Machine(Snapshot(U'), out + o, []))
    ensures v.Err? ==> EvalArgs(fuel, es, c, Machine(h0, [], allocs + a)) == (Err(v.error), Machine(Snapshot(U'), out + o, []))
    decreases fuel, ExprsSize(es), 2
  {
    ExprsSizeSuffix(es, i);
    ghost var hi := Snapshot(U);
    v, o, U', a := EvalExpr(fuel, es[i], c, U);
    ArgsStep(fuel, es, i, c, h0, allocs, values, hi, out, a, v, Snapshot(U'), o);
  }

  /** `Call.eval`: the callee, then the arguments left to right, then the
      call. */
  method EvalCall(fuel: nat, e: Expr, c: Ctx, ghost U: set<Ctx>)
    returns (r: Result<Value>, out: seq<Value>, ghost U': set<Ctx>, ghost allocs: seq<Ctx>)
    requires e.Call? && Closed(U) && c in U
    modifies U
    ensures Closed(U') && U <= U' && fresh(U' - U)
    ensures r.Ok? ==> ValueIn(r.value, U')
    ensures GenuineResult(r)
    ensures Eval(fuel, e, c, Machine(old(Snapshot(U)), [], allocs)) == (r, Machine(Snapshot(U'), out, []))
    decreases fuel, ExprSize(e), 0
  {
    ghost var h0 := Snapshot(U);
    var f, out1, U1, a1 := ResolveCallee(fuel, e.callee, c, U);
    if f.Err? {
      r, out, U', allocs := f, out1, U1, a1;
      return;
    }
    ghost var h1 := Snapshot(U1);
    var args, out2, U2, a2 := EvalParams(fuel, e.params, c, U1);
    if args.Err? {
      r, out, U', allocs := Err(args.error), out1 + out2, U2, a1 + a2;
      CallStopsAtArgs(fuel, e, c, h0, a1, f, h1, out1, a2, args, Snapshot(U2), out2);
      return;
    }
    ghost var h2 := Snapshot(U2);
    var res, out3, U3, a3 := Invoke(fuel, f.value, args.value, U2);
    r, out, U', allocs := res, out1 + out2 + out3, U3, a1 + a2 + a3;
    CallSteps(fuel, e, c, h0, a1, f, h1, out1, a2, args, h2, out2, a3, res, Snapshot(U3), out3);
  }

  /** A call of a Lox function that allocated `nc` for its parameters and
      ran its body there. */
  lemma InvokeSteps(fuel: nat, f: Value, args: seq<Value>, h0: Heap, nc: Ctx, a1: seq<Ctx>,
                    sig: Signal, h2: Heap, out: seq<Value>)
    requires f.LoxFunction? && fuel > 0 && |f.argNames| == |args|
    requires nc.Valid() && nc.parent == f.ctx && nc !in h0
    requires ExecStmts(fuel - 1, f.body, nc, Machine(h0[nc := BindParams(f.argNames, args)], [], a1)) ==
               (sig, Machine(h2, out, []))
    ensures CallValue(fuel, f, args, Machine(h0, [], [nc] + a1)) ==
              (match sig
               case Normal => Ok(Nil)
               case Returning(v) => Ok(v)
               case Raised(err) => Err(err), Machine(h2, out, []))
  {
    var m := Machine(h0, [], [nc] + a1);
    assert m.supply[0] == nc && m.supply[1..] == a1;
    assert Allocate(m, f.ctx, BindParams(f.argNames, args)) ==
             Ok((nc, Machine(h0[nc := BindParams(f.argNames, args)], [], a1)));
  }

  /** The parameters bound to the arguments in a new context whose parent
      is the closure of `f`. */
  method BindInNewContext(f: Value, args: seq<Value>, ghost U: set<Ctx>) returns (nc: Ctx, ghost U': set<Ctx>)
    requires f.LoxFunction? && |f.argNames| == |args|
    requires Closed(U) && ValueIn(f, U) && forall i :: 0 <= i < |args| ==> ValueIn(args[i], U)
    ensures fresh(nc) && U' == U + {nc} && Closed(U')
    ensures nc.Valid() && nc.parent == f.ctx && nc !in old(Snapshot(U))
    ensures Snapshot(U') == old(Snapshot(U))[nc := BindParams(f.argNames, args)]
  {
    ghost var h0 := Snapshot(U);
    var scope := BindParams(f.argNames, args);
    nc := new Ctx(scope, f.ctx);
    U' := U + {nc};
    WellFormedAllocate(U, h0, nc, scope);
    assert Snapshot(U') == h0[nc := scope];
  }

  /** `LoxFunction.__call__` once the depth and the arity are checked: the
      parameters bound in a new context below the closure, then the body. */
  method InvokeFunction(fuel: nat, f: Value, args: seq<Value>, ghost U: set<Ctx>)
    returns (r: Result<Value>, out: seq<Value>, ghost U': set<Ctx>, ghost allocs: seq<Ctx>)
    requires f.LoxFunction? && fuel > 0 && |f.argNames| == |args|
    requires Closed(U) && ValueIn(f, U) && forall i :: 0 <= i < |args| ==> ValueIn(args[i], U)
    modifies U
    ensures Closed(U') && U <= U' && fresh(U' - U)
    ensures r.Ok? ==> ValueIn(r.value, U')
    ensures GenuineResult(r)
    ensures CallValue(fuel, f, args, Machine(old(Snapshot(U)), [], allocs)) == (r, Machine(Snapshot(U'), out, []))
    decreases fuel - 1, StmtsSize(f.body), 3
  {
    ghost var h0 := Snapshot(U);
    var nc, U1 := BindInNewContext(f, args, U);
    ghost var h1 := h0[nc := BindParams(f.argNames, args)];
    ghost var a1;
    var sig;
    sig, out, U', a1 := ExecBody(fuel - 1, f.body, nc, U1);
    assert ExecStmts(fuel - 1, f.body, nc, Machine(h1, [], a1)) == (sig, Machine(Snapshot(U'), out, []));
    r := match sig
      case Normal => Ok(Nil)
      case Returning(v) => Ok(v)
      case Raised(err) => Err(err);
    allocs := [nc] + a1;
    InvokeSteps(fuel, f, args, h0, nc, a1, sig, Snapshot(U'), out);
  }

  /** `LoxFunction.__call__` and the other values a program may call. A Lox
      function checks the argument count, binds the parameters in a new
      context below the captured one, and runs its body there; the value of
      the first `return` is the result, nil when the body runs to its end. */
  method Invoke(fuel: nat, f: Value, args: seq<Value>, ghost U: set<Ctx>)
    returns (r: Result<Value>, out: seq<Value>, ghost U': set<Ctx>, ghost allocs: seq<Ctx>)
    requires Closed(U) && ValueIn(f, U) && forall i :: 0 <= i < |args| ==> ValueIn(args[i], U)
    modifies U
    ensures Closed(U') && U <= U' && fresh(U' - U)
    ensures r.Ok? ==> ValueIn(r.value, U')
    ensures GenuineResult(r)
    ensures CallValue(fuel, f, args, Machine(old(Snapshot(U)), [], allocs)) == (r, Machine(Snapshot(U'), out, []))
    decreases fuel, 0, 0
  {
    out, U', allocs := [], U, [];
    match f
    case LoxFunction(names, body, closure) =>
      if fuel == 0 {
        r := Err(RecursionLimit);
      } else if |names| != |args| {
        r := Err(ArityError(|names|, |args|));
      } else {
        r, out, U', allocs := InvokeFunction(fuel, f, args, U);
      }
    case Builtin(name) =>
      r := Err(Error(HostCall, name));
    case Class(cls) =>
      r := Err(Error(HostCall, cls.name));
    case _ =>
      r := Err(NotCallable(f));
  }

  // ---------------------------------------------------------------------
  // Statements

  /** `Stmt.eval(ctx)`. The signal says how the statement ended: normally,
      by `return` (the LoxReturn exception) or by any other exception. */
  method ExecStmt(fuel: nat, s: Stmt, c: Ctx, ghost U: set<Ctx>)
    returns (sig: Signal, out: seq<Value>, ghost U': set<Ctx>, ghost allocs: seq<Ctx>)
    requires Closed(U) && c in U
    modifies U
    ensures Closed(U') && U <= U' && fresh(U' - U)
    ensures sig.Returning? ==> ValueIn(sig.value, U')
    ensures GenuineSignal(sig)
    ensures Exec(fuel, s, c, Machine(old(Snapshot(U)), [], allocs)) == (sig, Machine(Snapshot(U'), out, []))
    decreases fuel, StmtSize(s), 1
  {
    match s
    case Print(_) =>
      sig, out, U', allocs := ExecPrint(fuel, s, c, U);
    case Return(_) =>
      sig, out, U', allocs := ExecReturn(fuel, s, c, U);
    case VarDef(_, _) =>
      sig, out, U', allocs := ExecVarDef(fuel, s, c, U);
    case If(_, _, _) =>
      sig, out, U', allocs := ExecIf(fuel, s, c, U);
    case While(_, _) =>
      sig, out, U', allocs := ExecWhile(fuel, s, c, U);
    case Block(_) =>
      sig, out, U', allocs := ExecBlock(fuel, s, c, U);
    case Function(_, _, _) =>
      sig := ExecFunction(fuel, s, c, U);
      out, U', allocs := [], U, [];
    case Expression(_) =>
      sig, out, U', allocs := ExecExpression(fuel, s, c, U);
  }

  /** `Print.eval`: the value goes to the output. */
  method ExecPrint(fuel: nat, s: Stmt, c: Ctx, ghost U: set<Ctx>)
    returns (sig: Signal, out: seq<Value>, ghost U': set<Ctx>, ghost allocs: seq<Ctx>)
    requires s.Print? && Closed(U) && c in U
    modifies U
    ensures Closed(U') && U <= U' && fresh(U' - U)
    ensures sig.Returning? ==> ValueIn(sig.value, U')
    ensures GenuineSignal(sig)
    ensures Exec(fuel, s, c, Machine(old(Snapshot(U)), [], allocs)) == (sig, Machine(Snapshot(U'), out, []))
    decreases fuel, StmtSize(s), 0
  {
    var v;
    v, out, U', allocs := EvalExpr(fuel, s.expr, c, U);
    if v.Err? {
      sig := Raised(v.error);
    } else {
      sig := Normal;
      out := out + [v.value];
    }
  }

  /** `Return.eval`: the value leaves through the LoxReturn exception. */
  method ExecReturn(fuel: nat, s: Stmt, c: Ctx, ghost U: set<Ctx>)
    returns (sig: Signal, out: seq<Value>, ghost U': set<Ctx>, ghost allocs: seq<Ctx>)
    requires s.Return? && Closed(U) && c in U
    modifies U
    ensures Closed(U') && U <= U' && fresh(U' - U)
    ensures sig.Returning? ==> ValueIn(sig.value, U')
    ensures GenuineSignal(sig)
    ensures Exec(fuel, s, c, Machine(old(Snapshot(U)), [], allocs)) == (sig, Machine(Snapshot(U'), out, []))
    decreases fuel, StmtSize(s), 0
  {
    var v;
    v, out, U', allocs := EvalExpr(fuel, s.expr, c, U);
    sig := if v.Err? then Raised(v.error) else Returning(v.value);
  }

  /** `ctx.var_def(name, v)` on the live context, matched with `Declare`. */
  method DefineIn(c: Ctx, name: string, v: Value, ghost U: set<Ctx>) returns (sig: Signal)
    requires Closed(U) && c in U && ValueIn(v, U)
    modifies c
    ensures Closed(U) && !sig.Returning? && GenuineSignal(sig)
    ensures Declare(Machine(old(Snapshot(U)), [], []), c, name, v) == (sig, Machine(Snapshot(U), [], []))
  {
    ghost var h0 := Snapshot(U);
    ghost var s0 := c.scope;
    var outcome := c.VarDef(name, v);
    SnapshotAfterUpdate(U, h0, c);
    assert ScopeOf(h0, c) == s0;
    if outcome.Fail? {
      sig := Raised(outcome.error);
      assert h0[c := c.scope] == h0;
    } else {
      sig := Normal;
      assert DeclareIn(h0, c, name, v) == Ok(h0[c := c.scope]);
      WellFormedDeclare(U, h0, c, name, v);
    }
  }

  /** `VarDef.eval`: the initial value (nil without an initialiser), then
      `ctx.var_def`. */
  method ExecVarDef(fuel: nat, s: Stmt, c: Ctx, ghost U: set<Ctx>)
    returns (sig: Signal, out: seq<Value>, ghost U': set<Ctx>, ghost allocs: seq<Ctx>)
    requires s.VarDef? && Closed(U) && c in U
    modifies U
    ensures Closed(U') && U <= U' && fresh(U' - U)
    ensures sig.Returning? ==> ValueIn(sig.value, U')
    ensures GenuineSignal(sig)
    ensures Exec(fuel, s, c, Machine(old(Snapshot(U)), [], allocs)) == (sig, Machine(Snapshot(U'), out, []))
    decreases fuel, StmtSize(s), 0
  {
    var v: Result<Value>;
    if s.init.None? {
      v, out, U', allocs := Ok(Nil), [], U, [];
    } else {
      v, out, U', allocs := EvalExpr(fuel, s.init.value, c, U);
    }
    if v.Err? {
      sig := Raised(v.error);
    } else {
      ghost var h1 := Snapshot(U');
      sig := DefineIn(c, s.name, v.value, U');
    }
  }

  /** `If.eval`: without an else branch, a false condition reaches
      `None.eval` and raises AttributeError. */
  method ExecIf(fuel: nat, s: Stmt, c: Ctx, ghost U: set<Ctx>)
    returns (sig: Signal, out: seq<Value>, ghost U': set<Ctx>, ghost allocs: seq<Ctx>)
    requires s.If? && Closed(U) && c in U
    modifies U
    ensures Closed(U') && U <= U' && fresh(U' - U)
    ensures sig.Returning? ==> ValueIn(sig.value, U')
    ensures GenuineSignal(sig)
    ensures Exec(fuel, s, c, Machine(old(Snapshot(U)), [], allocs)) == (sig, Machine(Snapshot(U'), out, []))
    decreases fuel, StmtSize(s), 0
  {
    ghost var h0 := Snapshot(U);
    var v, out1, U1, a1 := EvalExpr(fuel, s.cond, c, U);
    if v.Err? || (!IsLoxTrue(v.value) && s.orelse.None?) {
      sig := if v.Err? then Raised(v.error) else Raised(MissingElse);
      out, U', allocs := out1, U1, a1;
      return;
    }
    ghost var h1 := Snapshot(U1);
    var branch := if IsLoxTrue(v.value) then s.thenBranch else s.orelse.value;
    var out2;
    ghost var a2;
    sig, out2, U', a2 := ExecStmt(fuel, branch, c, U1);
    out, allocs := out1 + out2, a1 + a2;
    IfSteps(fuel, s, c, h0, a1, v, h1, out1, branch, a2, sig, Snapshot(U'), out2);
  }

  /** `While.eval`: the condition, then the body and the loop again; the
      loop calls itself, one host frame deeper each time round. */
  method ExecWhile(fuel: nat, s: Stmt, c: Ctx, ghost U: set<Ctx>)
    returns (sig: Signal, out: seq<Value>, ghost U': set<Ctx>, ghost allocs: seq<Ctx>)
    requires s.While? && Closed(U) && c in U
    modifies U
    ensures Closed(U') && U <= U' && fresh(U' - U)
    ensures sig.Returning? ==> ValueIn(sig.value, U')
    ensures GenuineSignal(sig)
    ensures Exec(fuel, s, c, Machine(old(Snapshot(U)), [], allocs)) == (sig, Machine(Snapshot(U'), out, []))
    decreases fuel, StmtSize(s), 0
  {
    ghost var h0 := Snapshot(U);
    var v, out1, U1, a1 := EvalExpr(fuel, s.cond, c, U);
    if v.Err? || !IsLoxTrue(v.value) {
      sig := if v.Err? then Raised(v.error) else Normal;
      out, U', allocs := out1, U1, a1;
      WhileSkips(fuel, s, c, h0, a1, v, Snapshot(U1), out1);
      return;
    }
    sig, out, U', allocs := ExecWhileRound(fuel, s, c, U1, h0, a1, v, out1);
  }

  /** One round of a `while` whose condition held, given the condition's
      output `out1`: the body, then the loop again unless the body did not
      end normally or the recursion limit is reached. */
  method ExecWhileRound(fuel: nat, s: Stmt, c: Ctx, ghost U: set<Ctx>, ghost h0: Heap, ghost a1: seq<Ctx>,
                        ghost v: Result<Value>, out1: seq<Value>)
    returns (sig: Signal, out: seq<Value>, ghost U': set<Ctx>, ghost allocs: seq<Ctx>)
    requires s.While? && Closed(U) && c in U
    requires Eval(fuel, s.cond, c, Machine(h0, [], a1)) == (v, Machine(Snapshot(U), out1, []))
    requires v.Ok? && IsLoxTrue(v.value)
    modifies U
    ensures Closed(U') && U <= U' && fresh(U' - U)
    ensures sig.Returning? ==> ValueIn(sig.value, U')
    ensures GenuineSignal(sig)
    ensures Exec(fuel, s, c, Machine(h0, [], allocs)) == (sig, Machine(Snapshot(U'), out, []))
    decreases fuel, StmtSize(s.body), 2
  {
    ghost var h1 := Snapshot(U);
    var sig2, out2, U2, a2 := ExecStmt(fuel, s.body, c, U);
    sig, out, U', allocs := ExecWhileNext(fuel, s, c, U2, h0, a1, v, h1, out1, a2, sig2, out2);
  }

  /** After the body of a round ended with `sig2`: stop on a signal or at
      the recursion limit, otherwise run the loop again, one frame deeper. */
  method ExecWhileNext(fuel: nat, s: Stmt, c: Ctx, ghost U: set<Ctx>, ghost h0: Heap, ghost a1: seq<Ctx>,
                       ghost v: Result<Value>, ghost h1: Heap, out1: seq<Value>, ghost a2: seq<Ctx>,
                       sig2: Signal, out2: seq<Value>)
    returns (sig: Signal, out: seq<Value>, ghost U': set<Ctx>, ghost allocs: seq<Ctx>)
    requires s.While? && Closed(U) && c in U
    requires Eval(fuel, s.cond, c, Machine(h0, [], a1)) == (v, Machine(h1, out1, [])) && v.Ok? && IsLoxTrue(v.value)
    requires Exec(fuel, s.body, c, Machine(h1, [], a2)) == (sig2, Machine(Snapshot(U), out2, [])) && GenuineSignal(sig2)
    requires sig2.Returning? ==> ValueIn(sig2.value, U)
    modifies U
    ensures Closed(U') && U <= U' && fresh(U' - U)
    ensures sig.Returning? ==> ValueIn(sig.value, U')
    ensures GenuineSignal(sig)
    ensures Exec(fuel, s, c, Machine(h0, [], allocs)) == (sig, Machine(Snapshot(U'), out, []))
    decreases fuel, StmtSize(s.body), 1
  {
    ghost var h2 := Snapshot(U);
    if !sig2.Normal? || fuel == 0 {
      sig := if !sig2.Normal? then sig2 else Raised(RecursionLimit);
      out, U', allocs := out1 + out2, U, a1 + a2;
      WhileStops(fuel, s, c, h0, a1, v, h1, out1, a2, sig2, h2, out2);
      return;
    }
    var out3;
    ghost var a3;
    sig, out3, U', a3 := ExecWhileAfter(fuel, s, c, U, out1 + out2);
    out, allocs := out1 + out2 + out3, a1 + a2 + a3;
    WhileAgainSteps(fuel, s, c, h0, a1, v, h1, out1, a2, h2, out2, a3, sig, Snapshot(U'), out3);
  }

  /** The loop run again, one frame deeper, after the output `p` of the
      rounds so far. */
  method ExecWhileAfter(fuel: nat, s: Stmt, c: Ctx, ghost U: set<Ctx>, p: seq<Value>)
    returns (sig: Signal, out: seq<Value>, ghost U': set<Ctx>, ghost allocs: seq<Ctx>)
    requires s.While? && fuel > 0 && Closed(U) && c in U
    modifies U
    ensures Closed(U') && U <= U' && fresh(U' - U)
    ensures sig.Returning? ==> ValueIn(sig.value, U')
    ensures GenuineSignal(sig)
    ensures Exec(fuel - 1, s, c, Machine(old(Snapshot(U)), p, allocs)) == (sig, Machine(Snapshot(U'), p + out, []))
    decreases fuel, StmtSize(s.body), 0
  {
    ghost var h0 := Snapshot(U);
    sig, out, U', allocs := ExecWhile(fuel - 1, s, c, U);
    ExecAfter(fuel - 1, s, c, h0, allocs, sig, Snapshot(U'), out, p);
  }

  /** `Block.eval`: the statements in `ctx.push({})`, a new context below the
      current one. */
  method ExecBlock(fuel: nat, s: Stmt, c: Ctx, ghost U: set<Ctx>)
    returns (sig: Signal, out: seq<Value>, ghost U': set<Ctx>, ghost allocs: seq<Ctx>)
    requires s.Block? && Closed(U) && c in U
    modifies U
    ensures Closed(U') && U <= U' && fresh(U' - U)
    ensures sig.Returning? ==> ValueIn(sig.value, U')
    ensures GenuineSignal(sig)
    ensures Exec(fuel, s, c, Machine(old(Snapshot(U)), [], allocs)) == (sig, Machine(Snapshot(U'), out, []))
    decreases fuel, StmtSize(s), 0
  {
    ghost var h0 := Snapshot(U);
    var nc := c.Push(Some(map[]));
    ghost var U1 := U + {nc};
    WellFormedAllocate(U, h0, nc, map[]);
    assert Snapshot(U1) == h0[nc := map[]];
    ghost var a1;
    sig, out, U', a1 := ExecBody(fuel, s.stmts, nc, U1);
    allocs := [nc] + a1;
    assert allocs[0] == nc && allocs[1..] == a1;
  }

  /** `Function.eval`: a function value that captures the current context,
      declared under the function's name. */
  method ExecFunction(fuel: nat, s: Stmt, c: Ctx, ghost U: set<Ctx>) returns (sig: Signal)
    requires s.Function? && Closed(U) && c in U
    modifies c
    ensures Closed(U) && !sig.Returning? && GenuineSignal(sig)
    ensures Exec(fuel, s, c, Machine(old(Snapshot(U)), [], [])) == (sig, Machine(Snapshot(U), [], []))
  {
    sig := DefineIn(c, s.name, LoxFunction(s.argNames, s.funBody, c), U);
  }

  /** `Expression.eval`: the value is dropped. */
  method ExecExpression(fuel: nat, s: Stmt, c: Ctx, ghost U: set<Ctx>)
    returns (sig: Signal, out: seq<Value>, ghost U': set<Ctx>, ghost allocs: seq<Ctx>)
    requires s.Expression? && Closed(U) && c in U
    modifies U
    ensures Closed(U') && U <= U' && fresh(U' - U)
    ensures sig.Returning? ==> ValueIn(sig.value, U')
    ensures GenuineSignal(sig)
    ensures Exec(fuel, s, c, Machine(old(Snapshot(U)), [], allocs)) == (sig, Machine(Snapshot(U'), out, []))
    decreases fuel, StmtSize(s), 0
  {
    var v;
    v, out, U', allocs := EvalExpr(fuel, s.expr, c, U);
    sig := if v.Err? then Raised(v.error) else Normal;
  }

  /** `for stmt in stmts: stmt.eval(ctx)`, the loop of `Block.eval`,
      `Program.eval` and `LoxFunction.__call__`: the first statement that does
      not end normally ends the loop. */
  method ExecBody(fuel: nat, ss: seq<Stmt>, c: Ctx, ghost U: set<Ctx>)
    returns (sig: Signal, out: seq<Value>, ghost U': set<Ctx>, ghost allocs: seq<Ctx>)
    requires Closed(U) && c in U
    modifies U
    ensures Closed(U') && U <= U' && fresh(U' - U)
    ensures sig.Returning? ==> ValueIn(sig.value, U')
    ensures GenuineSignal(sig)
    ensures ExecStmts(fuel, ss, c, Machine(old(Snapshot(U)), [], allocs)) == (sig, Machine(Snapshot(U'), out, []))
    decreases fuel, StmtsSize(ss), 2
  {
    ghost var h0 := Snapshot(U);
    sig, out, U', allocs := Normal, [], U, [];
    var i := 0;
    while i < |ss|
      invariant 0 <= i <= |ss|
      invariant Closed(U') && U <= U' && fresh(U' - U) && c in U'
      invariant ExecStmts(fuel, ss[..i], c, Machine(h0, [], allocs)) == (Normal, Machine(Snapshot(U'), out, []))
    {
      StmtsSizeSuffix(ss, i);
      ghost var hi := Snapshot(U');
      var sig1, o, U1, a := ExecStmt(fuel, ss[i], c, U');
      StmtsStep(fuel, ss, i, c, h0, allocs, hi, out, a, sig1, Snapshot(U1), o);
      out, U', allocs := out + o, U1, allocs + a;
      if !sig1.Normal? {
        StmtsStop(fuel, ss, i, c, Machine(h0, [], allocs), sig1, Machine(Snapshot(U'), out, []));
        sig := sig1;
        return;
      }
      i := i + 1;
    }
    assert ss[..i] == ss;
  }

  /** `Program.eval`: the statements in the given context. */
  method RunProgram(fuel: nat, prog: Program, c: Ctx, ghost U: set<Ctx>)
    returns (sig: Signal, out: seq<Value>, ghost U': set<Ctx>, ghost allocs: seq<Ctx>)
    requires Closed(U) && c in U
    modifies U
    ensures Closed(U') && U <= U' && fresh(U' - U)
    ensures GenuineSignal(sig)
    ensures Run(fuel, prog, c, Machine(old(Snapshot(U)), [], allocs)) == (sig, Machine(Snapshot(U'), out, []))
  {
    sig, out, U', allocs := ExecBody(fuel, prog.stmts, c, U);
  }
}
