// lox/runtime.py: truthiness, the arithmetic and comparison operators, and
// the rendering of values as text.
//
// Numbers are reals. The source's numeric check is `isinstance(x, (int,
// float))`, which a Python boolean passes, so `true` and `false` take part in
// arithmetic as 1 and 0.
module Runtime {
  import opened Basics
  import opened Syntax
  import opened Objects
  import opened Environment

  /** `truthy`: only nil and false are false. */
  predicate Truthy(v: Value)
  {
    !(v.Nil? || v == Bool(false))
  }

  /** `not_`. */
  function Not(v: Value): (r: Value)
    ensures r.Bool? && (r.b <==> v == Nil || v == Bool(false))
  {
    Bool(!Truthy(v))
  }

  /** Zero and the empty string are true, unlike in Python. */
  lemma TruthyOnlyNilAndFalseAreFalse(v: Value)
    ensures !Truthy(v) <==> v == Nil || v == Bool(false)
    ensures Truthy(Number(0.0)) && Truthy(Str(""))
    ensures Not(v) == Bool(!Truthy(v))
  {
  }

  /** The check `isinstance(x, (int, float))`. */
  predicate IsNumeric(v: Value)
  {
    v.Bool? || v.Number?
  }

  /** The number a numeric operand stands for. */
  function NumValue(v: Value): real
    requires IsNumeric(v)
  {
    if v.Bool? then (if v.b then 1.0 else 0.0) else v.n
  }

  /** The name of the host type of a value, as `type(v).__name__` gives it. */
  function TypeName(v: Value): string
  {
    match v
    case Nil => "NoneType"
    case Bool(_) => "bool"
    case Number(_) => "float"
    case Str(_) => "str"
    case LoxFunction(_, _, _) => "LoxFunction"
    case Builtin(_) => "builtin_function_or_method"
    case Class(_) => "LoxClass"
    case Instance(_) => "LoxInstance"
  }

  const AddOperandsError := Error(LoxError, "Operandos devem ser dois números ou duas strings.")
  const NumberOperandsError := Error(LoxError, "Operandos devem ser números.")
  const DivisionByZeroError := Error(LoxError, "Divisão por zero.")
  const NumberOperandError := Error(LoxError, "Operando deve ser um número.")

  /** `add`: numeric sum, or concatenation of two strings. */
  function Add(left: Value, right: Value): (r: Result<Value>)
    ensures r.Ok? <==> (IsNumeric(left) && IsNumeric(right)) || (left.Str? && right.Str?)
    ensures r.Err? ==> r.error == AddOperandsError
    ensures IsNumeric(left) && IsNumeric(right) ==> r.value.Number? && r.value.n == NumValue(left) + NumValue(right)
    ensures left.Str? && right.Str? ==>
              r.value.Str? && |r.value.s| == |left.s| + |right.s| &&
              r.value.s[..|left.s|] == left.s && r.value.s[|left.s|..] == right.s
  {
    if IsNumeric(left) && IsNumeric(right) then Ok(Number(NumValue(left) + NumValue(right)))
    else if left.Str? && right.Str? then Ok(Str(left.s + right.s))
    else Err(AddOperandsError)
  }

  /** `sub`. */
  function Sub(left: Value, right: Value): (r: Result<Value>)
    ensures r.Ok? <==> IsNumeric(left) && IsNumeric(right)
    ensures r.Err? ==> r.error == NumberOperandsError
    ensures r.Ok? ==> r.value.Number? && r.value.n + NumValue(right) == NumValue(left)
  {
    if IsNumeric(left) && IsNumeric(right) then Ok(Number(NumValue(left) - NumValue(right)))
    else Err(NumberOperandsError)
  }

  /** `mul`. */
  function Mul(left: Value, right: Value): (r: Result<Value>)
    ensures r.Ok? <==> IsNumeric(left) && IsNumeric(right)
    ensures r.Err? ==> r.error == NumberOperandsError
    ensures r.Ok? ==> r.value.Number?
    ensures r.Ok? && NumValue(right) != 0.0 ==> r.value.n / NumValue(right) == NumValue(left)
    ensures r.Ok? && NumValue(right) == 0.0 ==> r.value.n == 0.0
  {
    if IsNumeric(left) && IsNumeric(right) then Ok(Number(NumValue(left) * NumValue(right)))
    else Err(NumberOperandsError)
  }

  /** `truediv`: a right operand equal to zero (`0.0` or `false`) is an
      error whatever the left operand is. */
  function Truediv(left: Value, right: Value): (r: Result<Value>)
    ensures r.Ok? <==> IsNumeric(left) && IsNumeric(right) && NumValue(right) != 0.0
    ensures !(IsNumeric(left) && IsNumeric(right)) ==> r == Err(NumberOperandsError)
    ensures IsNumeric(left) && IsNumeric(right) && NumValue(right) == 0.0 ==> r == Err(DivisionByZeroError)
    ensures r.Ok? ==> r.value.Number? && r.value.n * NumValue(right) == NumValue(left)
  {
    if IsNumeric(left) && IsNumeric(right) then
      if NumValue(right) == 0.0 then Err(DivisionByZeroError)
      else Ok(Number(NumValue(left) / NumValue(right)))
    else Err(NumberOperandsError)
  }

  /** `neg`. */
  function Neg(v: Value): (r: Result<Value>)
    ensures r.Ok? <==> IsNumeric(v)
    ensures r.Err? ==> r.error == NumberOperandError
    ensures r.Ok? ==> r.value.Number? && r.value.n + NumValue(v) == 0.0
  {
    if IsNumeric(v) then Ok(Number(-NumValue(v))) else Err(NumberOperandError)
  }

  /** The shared shape of `gt`, `ge`, `lt` and `le`: each compares the sign
      of the difference `left - right` with zero. */
  function Compare(left: Value, right: Value, op: BinaryOp): (r: Result<Value>)
    requires op in {Gt, Ge, Lt, Le}
    ensures r.Ok? <==> IsNumeric(left) && IsNumeric(right)
    ensures r.Err? ==> r.error == NumberOperandsError
    ensures r.Ok? ==> r.value.Bool?
    ensures r.Ok? ==>
              var d := Sub(left, right).value.n;
              (r.value.b <==> match op
                 case Gt => d > 0.0
                 case Ge => d >= 0.0
                 case Lt => d < 0.0
                 case _ => d <= 0.0)
  {
    if IsNumeric(left) && IsNumeric(right) then
      var a, b := NumValue(left), NumValue(right);
      Ok(Bool(match op
        case Gt => a > b
        case Ge => a >= b
        case Lt => a < b
        case _ => a <= b))
    else Err(NumberOperandsError)
  }

  /** `eq`: never raises; values of different host types are different. */
  function Eq(left: Value, right: Value): (r: bool)
    ensures TypeName(left) != TypeName(right) ==> !r
  {
    if TypeName(left) != TypeName(right) then false else left == right
  }

  /** `ne`. */
  function Ne(left: Value, right: Value): (r: bool)
    ensures r <==> !Eq(left, right)
  {
    !Eq(left, right)
  }

  /** The function a BinOp node's operator stands for. */
  function ApplyBinary(op: BinaryOp, left: Value, right: Value): (r: Result<Value>)
    ensures r.Err? ==> r.error.kind == LoxError
    ensures op.Eq? || op.Ne? ==> r.Ok?
    ensures r.Ok? ==> r.value.Number? || r.value.Str? || r.value.Bool?
  {
    match op
    case Add => Add(left, right)
    case Sub => Sub(left, right)
    case Mul => Mul(left, right)
    case Div => Truediv(left, right)
    case Eq => Ok(Bool(Eq(left, right)))
    case Ne => Ok(Bool(Ne(left, right)))
    case _ => Compare(left, right, op)
  }

  /** The function a UnaryOp node's operator stands for. */
  function ApplyUnary(op: UnaryOperator, v: Value): (r: Result<Value>)
    ensures r.Err? ==> r.error == NumberOperandError
    ensures op.Not? ==> r.Ok?
    ensures r.Ok? ==> r.value.Number? || r.value.Bool?
  {
    match op
    case Neg => Neg(v)
    case Not => Ok(Not(v))
  }

  // ---------------------------------------------------------------------
  // Properties of the operators

  /** Equality is identity of values: the type test only settles early the
      cases that would compare unequal anyway. So nil is not false, 1 is not
      "1" and true is not 1. */
  lemma EqIsValueEquality(left: Value, right: Value)
    ensures Eq(left, right) <==> left == right
    ensures Eq(left, right) == Eq(right, left)
    ensures !Eq(Nil, Bool(false)) && !Eq(Number(1.0), Str("1")) && !Eq(Bool(true), Number(1.0))
  {
  }

  /** Subtraction undoes addition, and division undoes multiplication by a
      non-zero number. */
  lemma {:induction false} ArithmeticInverses(x: Value, y: Value)
    requires IsNumeric(x) && IsNumeric(y)
    ensures Sub(Add(x, y).value, y) == Ok(Number(NumValue(x)))
    ensures NumValue(y) != 0.0 ==> Truediv(Mul(x, y).value, y) == Ok(Number(NumValue(x)))
  {
    if NumValue(y) != 0.0 {
      var p := NumValue(x) * NumValue(y);
      assert p / NumValue(y) == NumValue(x);
    }
  }

  /** Multiplication is commutative and has `1` (and `true`) as identity. */
  lemma MulCommutes(x: Value, y: Value)
    requires IsNumeric(x) && IsNumeric(y)
    ensures Mul(x, y) == Mul(y, x)
    ensures Mul(x, Bool(true)) == Ok(Number(NumValue(x)))
  {
    var a, b := NumValue(x), NumValue(y);
    assert a * b == b * a;
  }

  /** `true` and `false` pass the numeric check as 1 and 0. */
  lemma BooleansAreNumbers()
    ensures Add(Bool(true), Number(1.0)) == Ok(Number(2.0))
    ensures Truediv(Number(1.0), Bool(false)) == Err(DivisionByZeroError)
    ensures Add(Nil, Number(1.0)) == Err(AddOperandsError)
  {
  }

  /** The four comparisons agree with each other: `a > b` is `b < a`, `a >= b`
      is `b <= a`, and `a >= b` is the negation of `a < b`. */
  lemma ComparisonsAgree(left: Value, right: Value)
    requires IsNumeric(left) && IsNumeric(right)
    ensures Compare(left, right, Gt) == Compare(right, left, Lt)
    ensures Compare(left, right, Ge) == Compare(right, left, Le)
    ensures Compare(left, right, Ge).value.b <==> !Compare(left, right, Lt).value.b
    ensures Compare(left, right, Le).value.b <==> Compare(left, right, Lt).value.b || Eq(Number(NumValue(left)), Number(NumValue(right)))
  {
  }

  // ---------------------------------------------------------------------
  // Rendering

  predicate IsIntegral(x: real)
  {
    x == x.Floor as real
  }

  /** `show`. None where the source defers to Python's own `str` for a value
      the model does not render: a non-integral float and a function. */
  function Show(v: Value): (r: Option<string>)
    ensures r.None? <==> (v.Number? && !IsIntegral(v.n)) || v.LoxFunction?
    ensures v.Number? && IsIntegral(v.n) ==> '.' !in r.value && ParseInt(r.value) == Some(v.n.Floor)
    ensures v.Str? ==> r == Some(v.s)
    ensures v.Builtin? ==> r == Some("<native fn>")
    ensures v.Class? ==> r == Some(v.cls.name)
    ensures v.Instance? ==> r == Some(v.obj.loxClass.name + " instance")
  {
    match v
    case Nil => Some("nil")
    case Bool(b) => Some(if b then "true" else "false")
    case Number(n) =>
      if IsIntegral(n) then
        IntToStringRoundTrip(n.Floor);
        Some(IntToString(n.Floor))
      else None
    case Str(s) => Some(s)
    case Class(c) => Some(c.Str())
    case Instance(o) => Some(o.Str())
    case LoxFunction(_, _, _) => None
    case Builtin(_) => Some("<native fn>")
  }

  /** `show_repr`: strings in double quotes, everything else as `show`. */
  function ShowRepr(v: Value): (r: Option<string>)
    ensures v.Str? ==>
              r.Some? && |r.value| == |v.s| + 2 && r.value[0] == '"' && r.value[|r.value| - 1] == '"' &&
              r.value[1..|r.value| - 1] == v.s
    ensures !v.Str? ==> r == Show(v)
  {
    if v.Str? then Some("\"" + v.s + "\"") else Show(v)
  }

  /** nil, true and false render as the keywords that denote them. */
  lemma ShowKeywords()
    ensures Show(Nil) == Some("nil")
    ensures Show(Bool(true)) == Some("true") && Show(Bool(false)) == Some("false")
  {
  }
}
