/// The operator semantics of `src/Interpreter.js` (`visitUnaryExpr`,
/// `visitBinaryExpr`, `_isEqual` and the operand checks), applied to
/// operand values that have already been evaluated.
module Operators {
  import opened Common
  import opened Syntax
  import opened Values
  import opened Lexer
  import opened LexerProperties

  /// `RuntimeError`: the token that caused it and a message.
  datatype RuntimeError = RuntimeError(token: Token, message: string)

  const OperandMessage := "Operand must be a number."
  const OperandsMessage := "Operands must be a numbers."
  const PlusMessage := "Operands must be two numbers or two strings."
  const DivisionMessage := "Unable to divide by zero."

  /// `_checkNumberOperand`: passes exactly when the operand is a number.
  function CheckNumberOperand(op: Token, v: Value): (r: Result<Number, RuntimeError>)
    ensures r.Ok? <==> v.Num?
    ensures r.Ok? ==> r.value == v.n
    ensures r.Err? ==> r.error == RuntimeError(op, OperandMessage)
  {
    if v.Num? then Ok(v.n) else Err(RuntimeError(op, OperandMessage))
  }

  /// `_checkNumberOperands`: passes exactly when both operands are numbers.
  function CheckNumberOperands(op: Token, left: Value, right: Value): (r: Result<(Number, Number), RuntimeError>)
    ensures r.Ok? <==> left.Num? && right.Num?
    ensures r.Ok? ==> r.value == (left.n, right.n)
    ensures r.Err? ==> r.error == RuntimeError(op, OperandsMessage)
  {
    if left.Num? && right.Num? then Ok((left.n, right.n)) else Err(RuntimeError(op, OperandsMessage))
  }

  /// `_isEqual`: JavaScript strict equality.
  predicate IsEqual(a: Value, b: Value)
  {
    StrictEquals(a, b)
  }

  /// `visitUnaryExpr` once the operand is evaluated. Both `-` and `!` first
  /// demand a number; an operator with no case yields `undefined`.
  function UnaryOp(op: Token, right: Value): Result<Value, RuntimeError>
  {
    match op.kind
    case Minus =>
      (match CheckNumberOperand(op, right)
       case Err(e) => Err(e)
       case Ok(n) => Ok(Num(Negate(n))))
    case Bang =>
      (match CheckNumberOperand(op, right)
       case Err(e) => Err(e)
       case Ok(_) => Ok(Bool(!IsTruthy(right))))
    case _ => Ok(Undefined)
  }

  /// The operators that go through `_checkNumberOperands`.
  const NumericOperators: set<TokenType> :=
    {Minus, Slash, Star, Greater, GreaterEqual, Less, LessEqual, BangEqual, EqualEqual}

  /// `visitBinaryExpr` once both operands are evaluated.
  function BinaryOp(op: Token, left: Value, right: Value): Result<Value, RuntimeError>
  {
    if op.kind == Plus then PlusOp(op, left, right)
    else if op.kind in NumericOperators then
      match CheckNumberOperands(op, left, right)
      case Err(e) => Err(e)
      case Ok((a, b)) => NumericOp(op, left, right, a, b)
    else Ok(Nil)
  }

  /// The `PLUS` case.
  function PlusOp(op: Token, left: Value, right: Value): Result<Value, RuntimeError>
  {
    if left.Num? || right.Num? then Ok(Num(Add(ToNumber(left), ToNumber(right))))
    else if left.Str? && right.Str? then Ok(Str(left.s + right.s))
    else Err(RuntimeError(op, PlusMessage))
  }

  /// The cases after `_checkNumberOperands` passed with numbers `a`, `b`.
  function NumericOp(op: Token, left: Value, right: Value, a: Number, b: Number): Result<Value, RuntimeError>
    requires op.kind in NumericOperators
  {
    match op.kind
    case Minus => Ok(Num(Subtract(a, b)))
    case Slash => if b == Finite(0.0) then Err(RuntimeError(op, DivisionMessage)) else Ok(Num(Divide(a, b)))
    case Star => Ok(Num(Multiply(a, b)))
    case Greater => Ok(Bool(Below(b, a)))
    case GreaterEqual => Ok(Bool(AtMost(b, a)))
    case Less => Ok(Bool(Below(a, b)))
    case LessEqual => Ok(Bool(AtMost(a, b)))
    case BangEqual => Ok(Bool(!IsEqual(left, right)))
    case EqualEqual => Ok(Bool(IsEqual(left, right)))
  }

  // -------------------------------------------------------------------
  // What the dispatch promises.

  /// `!` accepts only numbers, and every number is truthy, so `!` of a
  /// number is always `false`.
  lemma BangOnlyOnNumbers(op: Token, v: Value)
    requires op.kind == Bang
    ensures UnaryOp(op, v) == if v.Num? then Ok(Bool(false)) else Err(RuntimeError(op, OperandMessage))
  {
  }

  /// Unary `-` negates a number and rejects everything else.
  lemma MinusNegates(op: Token, v: Value)
    requires op.kind == Minus
    ensures UnaryOp(op, v).Ok? <==> v.Num?
    ensures v.Num? && v.n.Finite? ==> UnaryOp(op, v) == Ok(Num(Finite(-v.n.r)))
    ensures !v.Num? ==> UnaryOp(op, v) == Err(RuntimeError(op, OperandMessage))
  {
  }

  /// `+`: numeric addition as soon as either side is a number, string
  /// concatenation when both are strings, and otherwise the error.
  lemma PlusCases(op: Token, left: Value, right: Value)
    requires op.kind == Plus
    ensures BinaryOp(op, left, right).Err? <==> !left.Num? && !right.Num? && !(left.Str? && right.Str?)
    ensures BinaryOp(op, left, right).Err? ==> BinaryOp(op, left, right).error == RuntimeError(op, PlusMessage)
    ensures left.Num? && right.Num? ==> BinaryOp(op, left, right) == Ok(Num(Add(left.n, right.n)))
    ensures left.Str? && right.Str? ==> BinaryOp(op, left, right) == Ok(Str(left.s + right.s))
  {
  }

  /// A number on one side coerces the other: `1 + nil` is 1 and `true + 1`
  /// is 2, while `1 + "a"` is NaN.
  lemma PlusCoerces(op: Token, r: real)
    requires op.kind == Plus
    ensures BinaryOp(op, Num(Finite(r)), Nil) == Ok(Num(Finite(r)))
    ensures BinaryOp(op, Bool(true), Num(Finite(r))) == Ok(Num(Finite(1.0 + r)))
    ensures BinaryOp(op, Num(Finite(r)), Str("a")) == Ok(Num(NaN))
  {
    assert !IsNumberText("a") by {
      assert !IsDigit("a"[0]);
    }
  }

  /// Every operator other than `+` demands two numbers, `==` and `!=`
  /// included; when both are numbers only division can still fail.
  lemma NumericNeedNumbers(op: Token, left: Value, right: Value)
    requires op.kind in NumericOperators
    ensures !(left.Num? && right.Num?) ==> BinaryOp(op, left, right) == Err(RuntimeError(op, OperandsMessage))
    ensures left.Num? && right.Num? ==>
      (BinaryOp(op, left, right).Err? <==> op.kind == Slash && right.n == Finite(0.0))
  {
  }

  /// Division by zero is an error, not a value.
  lemma DivisionByZero(op: Token, left: Value)
    requires op.kind == Slash && left.Num?
    ensures BinaryOp(op, left, Num(Finite(0.0))) == Err(RuntimeError(op, DivisionMessage))
  {
  }

  /// The comparisons and equality tests yield booleans, `!=` is the
  /// negation of `==`, and `>` is `<` with the operands swapped.
  lemma ComparisonsAreBooleans(op: Token, eq: Token, ne: Token, left: Value, right: Value)
    requires op.kind in {Greater, GreaterEqual, Less, LessEqual} && eq.kind == EqualEqual && ne.kind == BangEqual
    requires left.Num? && right.Num?
    ensures BinaryOp(op, left, right).Ok? && BinaryOp(op, left, right).value.Bool?
    ensures BinaryOp(eq, left, right).Ok? && BinaryOp(ne, left, right).Ok?
    ensures BinaryOp(ne, left, right).value == Bool(!BinaryOp(eq, left, right).value.b)
    ensures op.kind == Greater ==> BinaryOp(op, left, right).value == Bool(Below(right.n, left.n))
  {
  }

  /// NaN is not equal to itself, so `NaN == NaN` is false.
  lemma NaNIsNotEqual(eq: Token)
    requires eq.kind == EqualEqual
    ensures BinaryOp(eq, Num(NaN), Num(NaN)) == Ok(Bool(false))
  {
  }
}
