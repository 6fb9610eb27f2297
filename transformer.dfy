// The rule methods of LoxTransformer (lox/transformer.py) that build the
// syntax tree of module Syntax from the children a parse tree node hands them.
//
// A child is the text of a token, an expression node, a statement node, or a
// list of expressions (what the `params` rule produces). The source lets an
// expression stand where a statement is expected, and the statement loops of
// lox/ast.py evaluate it and drop its value; the model writes such an
// expression as the statement `Expression(e)`, which means the same (AsStmt).
module Transformer {
  import opened Basics
  import opened Syntax
  import opened Environment
  import opened Runtime

  datatype Child =
    | TokenChild(text: string)
    | ExprChild(expr: Expr)
    | StmtChild(stmt: Stmt)
    | ListChild(exprs: seq<Expr>)

  /** A child that can stand in a statement list. */
  predicate IsStatement(c: Child)
  {
    c.ExprChild? || c.StmtChild?
  }

  /** The statement a child stands for in a statement list. */
  function AsStmt(c: Child): (s: Stmt)
    requires IsStatement(c)
    ensures c.StmtChild? ==> s == c.stmt
    ensures c.ExprChild? ==> s == Expression(c.expr)
  {
    if c.StmtChild? then c.stmt else Expression(c.expr)
  }

  /** `Literal(None)`, the node the rules use for "nothing here". */
  const NoneLiteral := Literal(NilConst)

  // ---------------------------------------------------------------------
  // Operators and calls

  /** `op_handler(f)`: the rule method that builds a BinOp node applying `f`
      to its two children. */
  function OpHandler(op: BinaryOp): (build: (Expr, Expr) -> Expr)
    ensures forall left, right :: build(left, right).BinOp? && build(left, right).op == op
    ensures forall left, right :: build(left, right).left == left && build(left, right).right == right
  {
    (left: Expr, right: Expr) => BinOp(left, right, op)
  }

  /** The class attributes `mul = op_handler(op.mul)` ... `ne =
      op_handler(op.ne)`: the operator each grammar rule stands for. */
  function RuleOperator(rule: string): (r: Option<BinaryOp>)
    ensures r.Some? <==> rule in {"mul", "div", "sub", "add", "gt", "lt", "ge", "le", "eq", "ne"}
  {
    match rule
    case "mul" => Some(Mul)
    case "div" => Some(Div)
    case "sub" => Some(Sub)
    case "add" => Some(Add)
    case "gt" => Some(Gt)
    case "lt" => Some(Lt)
    case "ge" => Some(Ge)
    case "le" => Some(Le)
    case "eq" => Some(Eq)
    case "ne" => Some(Ne)
    case _ => None
  }

  /** Each arithmetic rule builds the node that applies the runtime
      function of the same name (`div` is `truediv`). */
  lemma RuleOperatorIsArithmetic(l: Value, r: Value)
    ensures ApplyBinary(RuleOperator("add").value, l, r) == Runtime.Add(l, r)
    ensures ApplyBinary(RuleOperator("sub").value, l, r) == Runtime.Sub(l, r)
    ensures ApplyBinary(RuleOperator("mul").value, l, r) == Runtime.Mul(l, r)
    ensures ApplyBinary(RuleOperator("div").value, l, r) == Truediv(l, r)
  {
    assert RuleOperator("add") == Some(Add) && RuleOperator("sub") == Some(Sub);
    assert RuleOperator("mul") == Some(Mul) && RuleOperator("div") == Some(Div);
  }

  /** Each comparison rule builds the node that applies the runtime
      comparison of the same name. */
  lemma RuleOperatorIsComparison(l: Value, r: Value)
    ensures ApplyBinary(RuleOperator("gt").value, l, r) == Compare(l, r, Gt)
    ensures ApplyBinary(RuleOperator("lt").value, l, r) == Compare(l, r, Lt)
    ensures ApplyBinary(RuleOperator("ge").value, l, r) == Compare(l, r, Ge)
    ensures ApplyBinary(RuleOperator("le").value, l, r) == Compare(l, r, Le)
  {
    assert RuleOperator("gt") == Some(Gt) && RuleOperator("lt") == Some(Lt);
    assert RuleOperator("ge") == Some(Ge) && RuleOperator("le") == Some(Le);
  }

  /** `eq` and `ne` build the nodes that apply the runtime equality tests. */
  lemma RuleOperatorIsEquality(l: Value, r: Value)
    ensures ApplyBinary(RuleOperator("eq").value, l, r) == Ok(Bool(Runtime.Eq(l, r)))
    ensures ApplyBinary(RuleOperator("ne").value, l, r) == Ok(Bool(Runtime.Ne(l, r)))
  {
    assert RuleOperator("eq") == Some(Eq) && RuleOperator("ne") == Some(Ne);
  }

  /** No two operator rules build the same operator. */
  lemma RuleOperatorInjective(a: string, b: string)
    requires RuleOperator(a).Some? && RuleOperator(a) == RuleOperator(b)
    ensures a == b
  {
  }

  /** `call(callee, *args)`: a single list child (from `params`) is the
      argument list; otherwise the children themselves are. */
  function CallNode(callee: Expr, args: seq<Child>): (r: Expr)
    requires (|args| == 1 && args[0].ListChild?) || forall i :: 0 <= i < |args| ==> args[i].ExprChild?
    ensures r.Call? && r.callee == callee
    ensures |args| == 1 && args[0].ListChild? ==> r.params == args[0].exprs
    ensures !(|args| == 1 && args[0].ListChild?) ==>
              |r.params| == |args| && forall i :: 0 <= i < |args| ==> r.params[i] == args[i].expr
  {
    if |args| == 1 && args[0].ListChild? then Call(callee, args[0].exprs)
    else Call(callee, seq(|args|, i requires 0 <= i < |args| => args[i].expr))
  }

  /** `assign(var, value)`: the target's name, whether the child is a Var
      node or the bare token. */
  function AssignNode(target: Child, value: Expr): (r: Expr)
    requires target.TokenChild? || (target.ExprChild? && target.expr.Var?)
    ensures r.Assign? && r.value == value
    ensures r.name == if target.TokenChild? then target.text else target.expr.name
  {
    Assign(if target.TokenChild? then target.text else target.expr.name, value)
  }

  // ---------------------------------------------------------------------
  // Statements

  /** `var_def(token, var, value=None)`. */
  function VarDefNode(target: Expr, value: Option<Expr>): (r: Stmt)
    requires target.Var?
    ensures r.VarDef? && r.name == target.name && r.init == value
  {
    VarDef(target.name, value)
  }

  /** `block(*stmts)`. */
  function BlockNode(stmts: seq<Child>): (r: Stmt)
    requires forall i :: 0 <= i < |stmts| ==> IsStatement(stmts[i])
    ensures r.Block? && |r.stmts| == |stmts|
    ensures forall i :: 0 <= i < |stmts| ==> r.stmts[i] == AsStmt(stmts[i])
  {
    Block(seq(|stmts|, i requires 0 <= i < |stmts| && IsStatement(stmts[i]) => AsStmt(stmts[i])))
  }

  function IfArityError(count: nat): Error
  {
    Error(ValueError, "if_cmd expected 3 or 5 args, got " + NatToString(count))
  }

  /** `if_cmd(*args)`: `IF cond then` or `IF cond then ELSE orelse`. */
  function IfCmd(args: seq<Child>): (r: Result<Stmt>)
    requires |args| == 3 || |args| == 5 ==> args[1].ExprChild? && IsStatement(args[2])
    requires |args| == 5 ==> IsStatement(args[4])
    ensures r.Ok? <==> |args| == 3 || |args| == 5
    ensures r.Err? ==> r.error == IfArityError(|args|)
    ensures r.Ok? ==> r.value.If? && r.value.cond == args[1].expr && r.value.thenBranch == AsStmt(args[2])
    ensures r.Ok? ==> (r.value.orelse.Some? <==> |args| == 5)
    ensures |args| == 5 ==> r.value.orelse == Some(AsStmt(args[4]))
  {
    if |args| == 3 then Ok(If(args[1].expr, AsStmt(args[2]), None))
    else if |args| == 5 then Ok(If(args[1].expr, AsStmt(args[2]), Some(AsStmt(args[4]))))
    else Err(IfArityError(|args|))
  }

  /** The error message names the count it was given. */
  lemma IfArityErrorNamesCount(a: nat, b: nat)
    requires a != b
    ensures IfArityError(a) != IfArityError(b)
  {
    var prefix := "if_cmd expected 3 or 5 args, got ";
    assert IfArityError(a).message[|prefix|..] == NatToString(a);
    assert IfArityError(b).message[|prefix|..] == NatToString(b);
    ParseNatToString(a);
    ParseNatToString(b);
  }

  /** `for_init(*args)`: the initialiser, or `Literal(None)`. */
  function ForInit(args: seq<Child>): (r: Child)
    ensures |args| == 0 ==> r == ExprChild(NoneLiteral)
    ensures |args| > 0 ==> r == args[0]
  {
    if |args| == 0 then ExprChild(NoneLiteral) else args[0]
  }

  /** `for_cond(*args)`: the condition, or `Literal(True)`. */
  function ForCond(args: seq<Expr>): (r: Expr)
    ensures |args| == 0 ==> r == Literal(BoolConst(true))
    ensures |args| > 0 ==> r == args[0]
  {
    if |args| == 0 then Literal(BoolConst(true)) else args[0]
  }

  /** `for_incr(*args)`: the increment, or `Literal(None)`. */
  function ForIncr(args: seq<Expr>): (r: Expr)
    ensures |args| == 0 ==> r == NoneLiteral
    ensures |args| > 0 ==> r == args[0]
  {
    if |args| == 0 then NoneLiteral else args[0]
  }

  /** The body of the `while` that `for_cmd` builds. */
  function LoopBody(incr: Expr, body: Child): Stmt
    requires IsStatement(body)
  {
    if incr == NoneLiteral then AsStmt(body)
    else if body.StmtChild? && body.stmt.Block? then Block(body.stmt.stmts + [Expression(incr)])
    else Block([AsStmt(body), Expression(incr)])
  }

  /** `for_cmd(token, init, cond, incr, body)`: the `for` loop rewritten as
      `{ init; while (cond) { body; incr; } }`. */
  function ForCmd(init: Child, cond: Expr, incr: Expr, body: Child): (r: Stmt)
    requires IsStatement(init) && IsStatement(body)
    ensures r.Block? && 1 <= |r.stmts| <= 2
    ensures r.stmts[|r.stmts| - 1] == While(cond, LoopBody(incr, body))
  {
    var prefix := if init == ExprChild(NoneLiteral) then [] else [AsStmt(init)];
    Block(prefix + [While(cond, LoopBody(incr, body))])
  }

  /** The statements a body contributes to the loop body: a block's own
      statements, or the body itself. */
  function Flatten(s: Stmt): (r: seq<Stmt>)
    ensures s.Block? ==> r == s.stmts
    ensures !s.Block? ==> r == [s]
  {
    if s.Block? then s.stmts else [s]
  }

  /** The loop is the last statement, and the initialiser comes first exactly
      when there is one (anything but `Literal(None)`). */
  lemma ForCmdShape(init: Child, cond: Expr, incr: Expr, body: Child)
    requires IsStatement(init) && IsStatement(body)
    ensures var r := ForCmd(init, cond, incr, body);
      && r.Block?
      && r.stmts[|r.stmts| - 1].While? && r.stmts[|r.stmts| - 1].cond == cond
      && (|r.stmts| == 2 <==> init != ExprChild(NoneLiteral))
      && (|r.stmts| == 1 <==> init == ExprChild(NoneLiteral))
      && (|r.stmts| == 2 ==> r.stmts[0] == AsStmt(init))
  {
  }

  /** With an increment the loop body is a block that runs the body's
      statements (a block's own statements, not the block nested) and then
      the increment; without one it is the body unchanged. */
  lemma ForCmdBody(init: Child, cond: Expr, incr: Expr, body: Child)
    requires IsStatement(init) && IsStatement(body)
    ensures var r := ForCmd(init, cond, incr, body);
            var loop := r.stmts[|r.stmts| - 1].body;
      && (incr == NoneLiteral ==> loop == AsStmt(body))
      && (incr != NoneLiteral ==>
            loop.Block? && loop.stmts == Flatten(AsStmt(body)) + [Expression(incr)]
            && loop.stmts[|loop.stmts| - 1] == Expression(incr))
  {
  }

  /** `for (;;) body`: no initialiser, a condition that is always true, and
      the body as the loop body. */
  lemma ForWithNothing(body: Child)
    requires IsStatement(body)
    ensures ForCmd(ForInit([]), ForCond([]), ForIncr([]), body) == Block([While(Literal(BoolConst(true)), AsStmt(body))])
  {
    assert [] + [While(Literal(BoolConst(true)), AsStmt(body))] == [While(Literal(BoolConst(true)), AsStmt(body))];
  }

  /** `fun_def(token, name, args, body)`: the function takes the block's
      statements, not the block. */
  function FunDef(name: Expr, argNames: seq<string>, body: Stmt): (r: Stmt)
    requires name.Var? && body.Block?
    ensures r.Function? && r.name == name.name && r.argNames == argNames && r.funBody == body.stmts
  {
    Function(name.name, argNames, body.stmts)
  }

  /** `fun_args(*args)`: the names of the parameters present, in order. */
  function FunArgs(args: seq<Option<string>>): (r: seq<string>)
    ensures |r| <= |args|
    ensures forall n :: n in r <==> Some(n) in args
  {
    if |args| == 0 then []
    else
      var rest := FunArgs(args[1..]);
      assert forall n :: Some(n) in args <==> Some(n) == args[0] || Some(n) in args[1..];
      if args[0].Some? then [args[0].value] + rest else rest
  }

  /** With no missing parameter, `fun_args` keeps every name in its place. */
  lemma {:induction false} FunArgsKeepsOrder(args: seq<Option<string>>)
    requires forall i :: 0 <= i < |args| ==> args[i].Some?
    ensures |FunArgs(args)| == |args|
    ensures forall i :: 0 <= i < |args| ==> FunArgs(args)[i] == args[i].value
  {
    if |args| > 0 {
      FunArgsKeepsOrder(args[1..]);
    }
  }

  /** `return_cmd(token, expr=None)`. */
  function ReturnCmd(expr: Option<Expr>): (r: Stmt)
    ensures r.Return?
    ensures r.expr == if expr.Some? then expr.value else NoneLiteral
  {
    Return(if expr.Some? then expr.value else NoneLiteral)
  }

  // ---------------------------------------------------------------------
  // Tokens

  /** `VAR(token)`. */
  function VarToken(text: string): (r: Expr)
    ensures r.Var? && r.name == text
  {
    Var(text)
  }

  /** Python's `s[1:-1]`: empty when `s` has fewer than two characters. */
  function Unquote(s: string): (r: string)
    ensures |s| >= 2 ==> |r| == |s| - 2 && forall i :: 0 <= i < |r| ==> r[i] == s[i + 1]
    ensures |s| < 2 ==> r == ""
  {
    if |s| >= 2 then s[1..|s| - 1] else ""
  }

  /** `STRING(token)`: the token without its first and last character. */
  function StringToken(text: string): (r: Expr)
    ensures r.Literal? && r.constant.StrConst?
    ensures |r.constant.s| == if |text| >= 2 then |text| - 2 else 0
    ensures forall i :: 0 <= i < |r.constant.s| ==> r.constant.s[i] == text[i + 1]
  {
    Literal(StrConst(Unquote(text)))
  }

  /** `BOOL(token)`. */
  function BoolToken(text: string): (r: Expr)
    ensures r.Literal? && r.constant.BoolConst?
    ensures r.constant.b <==> text == "true"
  {
    Literal(BoolConst(text == "true"))
  }

  /** `NIL(token)`, and also `empty()`. */
  function NilToken(): (r: Expr)
    ensures r == NoneLiteral
  {
    Literal(NilConst)
  }

  /** `NUMBER(token)`: `float(token)`, which refuses text that is not a
      number with ValueError. */
  function NumberToken(text: string): (r: Result<Expr>)
    ensures r.Ok? <==> ParseDecimal(text).Some?
    ensures r.Ok? ==> r.value == Literal(NumConst(ParseDecimal(text).value))
    ensures r.Err? ==> r.error.kind == ValueError
  {
    match ParseDecimal(text)
    case Some(x) => Ok(Literal(NumConst(x)))
    case None => Err(Error(ValueError, "could not convert string to float: '" + text + "'"))
  }

  /** A string literal as `show_repr` writes it is read back as the same
      string. */
  lemma StringTokenRoundTrip(s: string)
    ensures StringToken(ShowRepr(Str(s)).value) == Literal(StrConst(s))
  {
    var t := ShowRepr(Str(s)).value;
    assert Unquote(t) == t[1..|t| - 1];
  }

  /** `true` and `false` as `show` writes them are read back as the same
      boolean, and every other word is false. */
  lemma BoolTokenRoundTrip(b: bool)
    ensures BoolToken(Show(Bool(b)).value) == Literal(BoolConst(b))
    ensures BoolToken("True") == Literal(BoolConst(false))
  {
  }

  /** A non-negative whole number as `show` writes it (no ".0") is read back
      by `NUMBER` as the same number. */
  lemma NumberTokenRoundTrip(n: real)
    requires n >= 0.0 && IsIntegral(n)
    ensures Show(Number(n)).Some?
    ensures NumberToken(Show(Number(n)).value) == Ok(Literal(NumConst(n)))
  {
    var k: nat := n.Floor;
    assert IntToString(n.Floor) == NatToString(k);
    NatToStringIsDecimal(k);
  }

  /** A token `a.b` of two digit strings is the number `ab` divided by ten
      for each digit of `b`. */
  lemma NumberTokenFraction(a: string, b: string)
    requires ParseNat(a).Some? && ParseNat(b).Some?
    ensures NumberToken(a + "." + b) == Ok(Literal(NumConst(ParseNat(a + b).value as real / Pow10(|b|) as real)))
  {
    var s := a + "." + b;
    assert DotIndex(s) == |a| && s[..|a|] == a && s[|a| + 1..] == b by {
      assert s[|a|] == '.';
      assert forall j :: 0 <= j < |a| ==> s[j] == a[j] && IsDigit(a[j]);
    }
    DecimalPointValue(s);
  }

  /** `NUMBER` refuses text with a sign or letters. */
  lemma NumberTokenRefuses()
    ensures NumberToken("-1").Err? && NumberToken("abc").Err? && NumberToken("").Err?
  {
    assert DotIndex("-1") == 2;
    assert !IsDigit('-');
    assert DotIndex("abc") == 3;
    assert !IsDigit('c');
  }
}
