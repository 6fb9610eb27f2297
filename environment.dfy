// lox/ctx.py: the runtime values and the chain of scopes they live in.
//
// A `Ctx` is one scope (a mutable name-to-value map) with a link to its
// enclosing context. Function values hold their defining context by
// reference, so `Ctx` is a class: assignments made through one closure are
// seen through every other reference to the same context.
//
// Besides the live objects, this module gives a second, value-level view of
// the same chain: a `Heap` maps each context to the contents of its scope at
// one moment. The specification of the evaluator (module Semantics) works on
// heaps; lemma ScopesInSnapshot ties the two views together.
module Environment {
  import opened Basics
  import opened Syntax
  import opened Objects

  /** `Value = bool | str | float | None | Callable` (lox/ast.py:21), with
      the callables split into user functions (ast.LoxFunction), the host
      builtins of the root scope, and the class objects and instances of
      lox/runtime.py. */
  datatype Value =
    | Nil
    | Bool(b: bool)
    | Number(n: real)
    | Str(s: string)
    | LoxFunction(argNames: seq<string>, body: seq<Stmt>, ctx: Ctx)
    | Builtin(name: string)
    | Class(cls: LoxClass)
    | Instance(obj: LoxInstance)

  type Scope = map<string, Value>

  /** The builtins dictionary that every default root context holds. */
  const BUILTINS: Scope :=
    map["sqrt" := Builtin("sqrt"), "clock" := Builtin("clock"), "max" := Builtin("max")]

  // ---------------------------------------------------------------------
  // Scope lists, innermost first

  /** The position of the innermost scope that holds `key`, or |scopes|
      when none does. */
  function FirstHolding(scopes: seq<Scope>, key: string): (i: nat)
    ensures i <= |scopes|
    ensures forall j :: 0 <= j < i ==> key !in scopes[j]
    ensures i < |scopes| ==> key in scopes[i]
  {
    if |scopes| == 0 then 0
    else if key in scopes[0] then 0
    else 1 + FirstHolding(scopes[1..], key)
  }

  function NotFound(key: string): Error
  {
    Error(KeyError, "Variável '" + key + "' não encontrada")
  }

  function Undeclared(key: string): Error
  {
    Error(KeyError, "Variável '" + key + "' não foi declarada")
  }

  function Redeclared(key: string): Error
  {
    Error(NameError, "Variável '" + key + "' já foi declarada neste escopo")
  }

  /** Name resolution over a list of scopes: the binding of the innermost
      scope that holds the name. */
  function Lookup(scopes: seq<Scope>, key: string): (r: Result<Value>)
    ensures r.Err? <==> forall j :: 0 <= j < |scopes| ==> key !in scopes[j]
    ensures r.Err? ==> r.error == NotFound(key)
  {
    var i := FirstHolding(scopes, key);
    if i == |scopes| then Err(NotFound(key)) else Ok(scopes[i][key])
  }

  /** The binding found is the one of the innermost scope holding the name. */
  lemma LookupInnermost(scopes: seq<Scope>, key: string, i: nat)
    requires i < |scopes| && key in scopes[i]
    requires forall j :: 0 <= j < i ==> key !in scopes[j]
    ensures Lookup(scopes, key) == Ok(scopes[i][key])
  {
  }

  lemma LookupCons(s: Scope, rest: seq<Scope>, key: string)
    ensures FirstHolding([s] + rest, key) == if key in s then 0 else 1 + FirstHolding(rest, key)
    ensures Lookup([s] + rest, key) == if key in s then Ok(s[key]) else Lookup(rest, key)
  {
    assert ([s] + rest)[1..] == rest;
  }

  // ---------------------------------------------------------------------
  // The context class

  class Ctx {
    var scope: Scope
    const parent: Ctx?
    /** The number of contexts above this one; it only serves to show that
        the walk up the chain ends. */
    const depth: nat

    ghost predicate Valid()
      decreases depth
    {
      if parent == null then depth == 0 else depth == parent.depth + 1 && parent.Valid()
    }

    /** This context and its ancestors, innermost first. */
    ghost function Chain(): (r: seq<Ctx>)
      requires Valid()
      ensures |r| == depth + 1 && r[0] == this
      ensures forall i :: 0 <= i < |r| ==> r[i].depth + i == depth
      ensures parent == null ==> r == [this]
      ensures parent != null ==> r == [this] + parent.Chain()
      decreases depth
    {
      if parent == null then [this] else [this] + parent.Chain()
    }

    ghost function Repr(): (r: set<Ctx>)
      requires Valid()
      ensures this in r
      ensures forall d :: d in r ==> d.depth <= depth
      ensures forall i :: 0 <= i < |Chain()| ==> Chain()[i] in r
      ensures parent != null ==> r == {this} + parent.Repr()
      decreases depth
    {
      if parent == null then {this} else {this} + parent.Repr()
    }

    /** `Ctx(scope, parent)`. */
    constructor (scope: Scope, parent: Ctx?)
      requires parent != null ==> parent.Valid()
      ensures Valid() && this.scope == scope && this.parent == parent
    {
      this.scope := scope;
      this.parent := parent;
      this.depth := if parent == null then 0 else parent.depth + 1;
    }

    /** `Ctx.from_dict`: a global context over `env` whose parent is a new
        root holding the builtins. */
    static method FromDict(env: Scope) returns (c: Ctx)
      ensures fresh(c) && fresh(c.parent) && c.Valid()
      ensures c.scope == env && c.parent != null && c.parent.scope == BUILTINS
      ensures c.IsGlobal()
    {
      var root := new Ctx(BUILTINS, null);
      c := new Ctx(env, root);
    }

    /** `iter_scopes()`: the scopes from this one outwards. */
    function Scopes(): (r: seq<Scope>)
      requires Valid()
      reads Repr()
      ensures |r| == |Chain()|
      ensures forall i :: 0 <= i < |r| ==> r[i] == Chain()[i].scope
      decreases depth
    {
      if parent == null then [scope] else [scope] + parent.Scopes()
    }

    /** `iter_scopes(reverse=True)`: the scopes from the root inwards. */
    function ScopesReversed(): (r: seq<Scope>)
      requires Valid()
      reads Repr()
      ensures r == Reverse(Scopes())
      decreases depth
    {
      if parent == null then [scope] else parent.ScopesReversed() + [scope]
    }

    /** `__getitem__`: the binding of the innermost scope that holds
        `key`; KeyError when no scope does. */
    function Get(key: string): (r: Result<Value>)
      requires Valid()
      reads Repr()
      ensures r == Lookup(Scopes(), key)
      decreases depth
    {
      if key in scope then Ok(scope[key])
      else if parent != null then LookupCons(scope, parent.Scopes(), key); parent.Get(key)
      else Err(NotFound(key))
    }

    /** `__contains__`. */
    predicate Contains(name: string): (r: bool)
      requires Valid()
      reads Repr()
      ensures r <==> Get(name).Ok?
      decreases depth
    {
      name in scope || (parent != null && parent.Contains(name))
    }

    /** `to_dict`: all visible bindings, inner scopes shadowing outer ones. */
    function ToDict(): (r: Scope)
      requires Valid()
      reads Repr()
      ensures forall k :: k in r <==> Contains(k)
      ensures forall k :: k in r ==> Get(k) == Ok(r[k])
      decreases depth
    {
      if parent == null then scope else parent.ToDict() + scope
    }

    /** `is_global`: the context right below the root. */
    predicate IsGlobal(): (r: bool)
      requires Valid()
      ensures r <==> |Chain()| == 2
    {
      parent != null && parent.parent == null
    }

    /** `__setitem__`: rebinds `key` in the innermost scope that holds it
        and in no other; KeyError, with nothing changed, when no scope
        holds it. */
    method Set(key: string, value: Value) returns (r: Outcome)
      requires Valid()
      modifies Repr()
      ensures r.Pass? <==> old(Contains(key))
      ensures r.Fail? ==> r.error == Undeclared(key)
      ensures var i := old(FirstHolding(Scopes(), key));
              forall j :: 0 <= j < |Chain()| ==>
                Chain()[j].scope == if j == i then old(Scopes())[j][key := value] else old(Scopes())[j]
      decreases depth, 1
    {
      if key in scope {
        ghost var before := Scopes();
        assert FirstHolding(before, key) == 0;
        scope := scope[key := value];
        r := Pass;
        forall j | 0 <= j < |Chain()|
          ensures Chain()[j].scope == if j == 0 then before[j][key := value] else before[j]
        {
          if j > 0 {
            assert Chain()[j].depth < depth;
          }
        }
      } else if parent != null {
        r := SetInParent(key, value);
      } else {
        assert Scopes() == [scope];
        r := Fail(Undeclared(key));
      }
    }

    /** `__setitem__` when this scope does not hold `key`: the parent's
        assignment, which leaves this scope as it was. */
    method SetInParent(key: string, value: Value) returns (r: Outcome)
      requires Valid() && parent != null && key !in scope
      modifies Repr()
      ensures r.Pass? <==> old(Contains(key))
      ensures r.Fail? ==> r.error == Undeclared(key)
      ensures var i := old(FirstHolding(Scopes(), key));
              forall j :: 0 <= j < |Chain()| ==>
                Chain()[j].scope == if j == i then old(Scopes())[j][key := value] else old(Scopes())[j]
      decreases depth, 0
    {
      assert this !in parent.Repr();
      ghost var chain := Chain();
      ghost var before := Scopes();
      ghost var above := parent.Scopes();
      assert chain == [this] + parent.Chain() && before == [scope] + above;
      ghost var i' := FirstHolding(above, key);
      LookupCons(scope, above, key);
      assert FirstHolding(before, key) == i' + 1;
      assert Contains(key) == parent.Contains(key);
      r := parent.Set(key, value);
      forall j | 0 <= j < |chain|
        ensures chain[j].scope == if j == i' + 1 then before[j][key := value] else before[j]
      {
        if j > 0 {
          assert chain[j] == parent.Chain()[j - 1] && before[j] == above[j - 1];
        }
      }
    }

    /** `var_def`: binds `key` in this scope only. Redefining a name this
        scope already holds is a NameError, except in the global scope. */
    method VarDef(key: string, value: Value) returns (r: Outcome)
      requires Valid()
      modifies this
      ensures r.Fail? <==> key in old(scope) && !IsGlobal()
      ensures r.Fail? ==> r.error == Redeclared(key) && scope == old(scope)
      ensures r.Pass? ==> scope == old(scope)[key := value]
    {
      if key in scope && !IsGlobal() {
        r := Fail(Redeclared(key));
      } else {
        scope := scope[key := value];
        r := Pass;
      }
    }

    /** `push`: a new context whose parent is this one, over the given
        scope or an empty one. */
    method Push(s: Option<Scope>) returns (c: Ctx)
      requires Valid()
      ensures fresh(c) && c.Valid() && c.parent == this
      ensures c.scope == (if s.Some? then s.value else map[])
      ensures c.Scopes() == [c.scope] + Scopes()
    {
      c := new Ctx(if s.Some? then s.value else map[], this);
    }

    /** `pop`: this scope and the parent context, or RuntimeError for a
        context without a parent. Nothing changes. */
    method Pop() returns (r: Result<(Scope, Ctx)>)
      requires Valid()
      ensures r.Err? <==> parent == null
      ensures r.Err? ==> r.error == Error(RuntimeError, "Cannot pop the global scope.")
      ensures r.Ok? ==> r.value.1 == parent && r.value.1.Valid() && [r.value.0] + r.value.1.Scopes() == Scopes()
    {
      if parent == null {
        r := Err(Error(RuntimeError, "Cannot pop the global scope."));
      } else {
        var p: Ctx := parent;
        r := Ok((scope, p));
      }
    }
  }

  /** Two contexts of one chain are different objects. */
  lemma ChainDistinct(c: Ctx, i: nat, j: nat)
    requires c.Valid() && i < |c.Chain()| && j < |c.Chain()| && i != j
    ensures c.Chain()[i] != c.Chain()[j]
  {
  }

  // ---------------------------------------------------------------------
  // Heaps: the contents of many scopes at one moment

  type Heap = map<Ctx, Scope>

  function ScopeOf(h: Heap, c: Ctx): Scope
  {
    if c in h then h[c] else map[]
  }

  /** The heap that holds the current scope of every context in `U`. */
  ghost function Snapshot(U: set<Ctx>): (h: Heap)
    reads U
    ensures h.Keys == U
    ensures forall c :: c in U ==> h[c] == c.scope
  {
    map c | c in U :: c.scope
  }

  /** The scopes visible from `c` in heap `h`, innermost first. */
  ghost function ScopesIn(h: Heap, c: Ctx): (r: seq<Scope>)
    requires c.Valid()
    ensures |r| == |c.Chain()|
    ensures forall i :: 0 <= i < |r| ==> r[i] == ScopeOf(h, c.Chain()[i])
  {
    var ch := c.Chain();
    seq(|ch|, i requires 0 <= i < |ch| => ScopeOf(h, ch[i]))
  }

  /** A heap that agrees with the live scopes of a chain gives the same
      scope list as the live objects. */
  lemma ScopesInSnapshot(h: Heap, c: Ctx)
    requires c.Valid()
    requires forall d :: d in c.Repr() ==> d in h && h[d] == d.scope
    ensures ScopesIn(h, c) == c.Scopes()
  {
  }

  /** Assignment in a heap: the innermost scope of `c`'s chain that holds
      `key` gets the new value; KeyError when none holds it. */
  ghost function AssignIn(h: Heap, c: Ctx, key: string, v: Value): Result<Heap>
    requires c.Valid()
  {
    var i := FirstHolding(ScopesIn(h, c), key);
    if i == |c.Chain()| then Err(Undeclared(key))
    else
      var owner := c.Chain()[i];
      Ok(h[owner := ScopeOf(h, owner)[key := v]])
  }

  /** Declaration in a heap, with the rule of `var_def`. */
  function DeclareIn(h: Heap, c: Ctx, key: string, v: Value): Result<Heap>
    requires c.Valid()
  {
    if key in ScopeOf(h, c) && !c.IsGlobal() then Err(Redeclared(key))
    else Ok(h[c := ScopeOf(h, c)[key := v]])
  }

  /** Assignment succeeds exactly when lookup would, and fails with the
      KeyError of `__setitem__` otherwise. */
  lemma AssignInDefined(h: Heap, c: Ctx, key: string, v: Value)
    requires c.Valid()
    ensures AssignIn(h, c, key, v).Ok? <==> Lookup(ScopesIn(h, c), key).Ok?
    ensures AssignIn(h, c, key, v).Err? ==> AssignIn(h, c, key, v).error == Undeclared(key)
  {
  }

  /** After a successful assignment the scope list seen from `c` differs
      from the one before only in the innermost holder of `key`. */
  lemma AssignInScopes(h: Heap, c: Ctx, key: string, v: Value)
    requires c.Valid() && AssignIn(h, c, key, v).Ok?
    ensures var S := ScopesIn(h, c);
            var S' := ScopesIn(AssignIn(h, c, key, v).value, c);
            var i := FirstHolding(S, key);
            i < |S| && |S'| == |S| &&
            forall j :: 0 <= j < |S| ==> S'[j] == if j == i then S[i][key := v] else S[j]
  {
    var S := ScopesIn(h, c);
    var i := FirstHolding(S, key);
    var h' := AssignIn(h, c, key, v).value;
    var S' := ScopesIn(h', c);
    forall j | 0 <= j < |S|
      ensures S'[j] == if j == i then S[i][key := v] else S[j]
    {
      if j != i {
        ChainDistinct(c, i, j);
      }
    }
  }

  /** After a successful assignment the name reads back as the assigned
      value and every other name reads as before. */
  lemma {:induction false} AssignInLookup(h: Heap, c: Ctx, key: string, v: Value)
    requires c.Valid() && AssignIn(h, c, key, v).Ok?
    ensures var h' := AssignIn(h, c, key, v).value;
      && Lookup(ScopesIn(h', c), key) == Ok(v)
      && (forall k :: k != key ==> Lookup(ScopesIn(h', c), k) == Lookup(ScopesIn(h, c), k))
  {
    var S := ScopesIn(h, c);
    var i := FirstHolding(S, key);
    var h' := AssignIn(h, c, key, v).value;
    var S' := ScopesIn(h', c);
    AssignInScopes(h, c, key, v);
    LookupInnermost(S', key, i);
    forall k | k != key
      ensures Lookup(S', k) == Lookup(S, k)
    {
      assert forall j :: 0 <= j < |S| ==> (k in S[j] <==> k in S'[j]) && (k in S[j] ==> S[j][k] == S'[j][k]);
      var a := FirstHolding(S, k);
      if a < |S| {
        LookupInnermost(S', k, a);
      }
    }
  }

  /** Assignment never creates or removes a binding and changes no scope
      but the innermost holder's. */
  lemma AssignInFrame(h: Heap, c: Ctx, key: string, v: Value)
    requires c.Valid() && AssignIn(h, c, key, v).Ok?
    ensures var h' := AssignIn(h, c, key, v).value;
            var owner := c.Chain()[FirstHolding(ScopesIn(h, c), key)];
      && h'.Keys == h.Keys
      && (forall d :: d in h ==> ScopeOf(h', d).Keys == ScopeOf(h, d).Keys)
      && (forall d :: d in h && d != owner ==> h'[d] == h[d])
  {
    var i := FirstHolding(ScopesIn(h, c), key);
    assert c.Chain()[i] in h;
  }
}
