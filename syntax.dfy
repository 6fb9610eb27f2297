// The node classes of lox/ast.py that the evaluator runs, as datatypes.
// A BinOp or UnaryOp node holds the runtime function it applies; here the
// node names that function (BinaryOp, UnaryOperator), and Runtime gives the
// function each name stands for.
module Syntax {
  import opened Basics

  /** The values a `Literal` node can hold: the transformer only ever
      builds literals for nil, booleans, numbers and strings. */
  datatype Const = NilConst | BoolConst(b: bool) | NumConst(n: real) | StrConst(s: string)

  /** runtime.add, sub, mul, truediv, gt, ge, lt, le, eq, ne. */
  datatype BinaryOp = Add | Sub | Mul | Div | Gt | Ge | Lt | Le | Eq | Ne

  /** runtime.neg and runtime.not_. */
  datatype UnaryOperator = Neg | Not

  datatype Expr =
    | Literal(constant: Const)
    | Var(name: string)
    | BinOp(left: Expr, right: Expr, op: BinaryOp)
    | And(left: Expr, right: Expr)
    | Or(left: Expr, right: Expr)
    | UnaryOp(expr: Expr, uop: UnaryOperator)
    | Call(callee: Expr, params: seq<Expr>)
    | Assign(name: string, value: Expr)

  datatype Stmt =
    | Print(expr: Expr)
    | Return(expr: Expr)
    | VarDef(name: string, init: Option<Expr>)
    | If(cond: Expr, thenBranch: Stmt, orelse: Option<Stmt>)
    | While(cond: Expr, body: Stmt)
    | Block(stmts: seq<Stmt>)
    | Function(name: string, argNames: seq<string>, funBody: seq<Stmt>)
    | Expression(expr: Expr)

  datatype Program = Program(stmts: seq<Stmt>)

  // ---------------------------------------------------------------------
  // Sizes, the structural part of the evaluator's termination measure.

  function ExprSize(e: Expr): (n: nat)
    ensures n >= 1
  {
    match e
    case Literal(_) => 1
    case Var(_) => 1
    case BinOp(l, r, _) => 1 + ExprSize(l) + ExprSize(r)
    case And(l, r) => 1 + ExprSize(l) + ExprSize(r)
    case Or(l, r) => 1 + ExprSize(l) + ExprSize(r)
    case UnaryOp(x, _) => 1 + ExprSize(x)
    case Call(callee, params) => 1 + ExprSize(callee) + ExprsSize(params)
    case Assign(_, x) => 1 + ExprSize(x)
  }

  function ExprsSize(es: seq<Expr>): nat
  {
    if |es| == 0 then 0 else ExprSize(es[0]) + ExprsSize(es[1..])
  }

  function StmtSize(s: Stmt): (n: nat)
    ensures n >= 1
  {
    match s
    case Print(e) => 1 + ExprSize(e)
    case Return(e) => 1 + ExprSize(e)
    case VarDef(_, init) => 1 + (match init case None => 0 case Some(e) => ExprSize(e))
    case If(c, t, o) => 1 + ExprSize(c) + StmtSize(t) + (match o case None => 0 case Some(x) => StmtSize(x))
    case While(c, b) => 1 + ExprSize(c) + StmtSize(b)
    case Block(ss) => 1 + StmtsSize(ss)
    case Function(_, _, _) => 1
    case Expression(e) => 1 + ExprSize(e)
  }

  function StmtsSize(ss: seq<Stmt>): nat
  {
    if |ss| == 0 then 0 else StmtSize(ss[0]) + StmtsSize(ss[1..])
  }

  lemma {:induction false} ExprsSizeSuffix(es: seq<Expr>, i: nat)
    requires i < |es|
    ensures ExprSize(es[i]) + ExprsSize(es[i + 1..]) <= ExprsSize(es[i..])
    ensures ExprsSize(es[i..]) <= ExprsSize(es)
  {
    if i > 0 {
      ExprsSizeSuffix(es[1..], i - 1);
      assert es[1..][i - 1..] == es[i..];
      assert es[1..][i..] == es[i + 1..];
    } else {
      assert es[0..] == es;
    }
  }

  lemma {:induction false} StmtsSizeSuffix(ss: seq<Stmt>, i: nat)
    requires i < |ss|
    ensures StmtSize(ss[i]) + StmtsSize(ss[i + 1..]) <= StmtsSize(ss[i..])
    ensures StmtsSize(ss[i..]) <= StmtsSize(ss)
  {
    if i > 0 {
      StmtsSizeSuffix(ss[1..], i - 1);
      assert ss[1..][i - 1..] == ss[i..];
      assert ss[1..][i..] == ss[i + 1..];
    } else {
      assert ss[0..] == ss;
    }
  }
}
