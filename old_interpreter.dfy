/// `Interpreter.js`: the older evaluator of single expressions. It has no
/// environment and no statements; it visits literals, groupings, prefix and
/// binary operators, and applies the same operator rules as the statement
/// interpreter, except that its truthiness test differs.
module ExpressionInterpreter {
  import opened Common
  import opened Syntax
  import opened Values
  import opened Operators
  import opened Grammar
  import Semantics
  import Environments

  /// Why an evaluation stopped: a `RuntimeError`, or the host's
  /// `TypeError` for a tree with a node the interpreter has no visitor for
  /// (or for the `null` a failed parse returns).
  datatype Fault = Runtime(error: RuntimeError) | NoVisitor

  /// `_isTrue` as written: `obj == null` holds for both `null` and
  /// `undefined`, and `obj instanceof Boolean` is false for every primitive
  /// boolean, so every other value, `false` included, is true.
  predicate IsTrue(v: Value)
  {
    !(v.Nil? || v.Undefined?)
  }

  /// `visitUnaryExpr` once the operand is evaluated.
  function UnaryAsWritten(op: Token, right: Value): Result<Value, RuntimeError>
  {
    match op.kind
    case Minus =>
      (match CheckNumberOperand(op, right)
       case Err(e) => Err(e)
       case Ok(n) => Ok(Num(Negate(n))))
    case Bang =>
      (match CheckNumberOperand(op, right)
       case Err(e) => Err(e)
       case Ok(_) => Ok(Bool(!IsTrue(right))))
    case _ => Ok(Undefined)
  }

  function Lift(r: Result<Value, RuntimeError>): (f: Result<Value, Fault>)
    ensures f.Ok? <==> r.Ok?
    ensures r.Ok? ==> f.value == r.value
    ensures r.Err? ==> f.error == Runtime(r.error)
  {
    match r
    case Ok(v) => Ok(v)
    case Err(e) => Err(Runtime(e))
  }

  /// `_evaluate`: the value of the tree, or the fault that stopped it. The
  /// right operand of a binary operator is evaluated before the left.
  function Evaluate(e: Expr): (r: Result<Value, Fault>)
    ensures ExprOnlyTree(e) ==> r.Err? ==> r.error.Runtime?
  {
    match e
    case Literal(l) => Ok(FromLiteral(l))
    case Grouping(x) => Evaluate(x)
    case Unary(op, x) =>
      (match Evaluate(x)
       case Err(f) => Err(f)
       case Ok(v) => Lift(UnaryAsWritten(op, v)))
    case Binary(l, op, x) =>
      (match Evaluate(x)
       case Err(f) => Err(f)
       case Ok(right) =>
         match Evaluate(l)
         case Err(f) => Err(f)
         case Ok(left) => Lift(BinaryOp(op, left, right)))
    case _ => Err(NoVisitor)
  }

  /// `interpret(expression)`: the value `console.log` prints, or the error
  /// handed to `Lox.runtimeError`. A failed parse passes `null`.
  function Interpret(expression: Option<Expr>): (r: Result<Value, Fault>)
    ensures expression.None? ==> r == Err(NoVisitor)
    ensures expression.Some? ==> r == Evaluate(expression.value)
  {
    if expression.None? then Err(NoVisitor) else Evaluate(expression.value)
  }

  // -------------------------------------------------------------------
  // Properties.

  /// Boolean `false` counts as true for `_isTrue`, unlike `_isTruthy`.
  lemma FalseIsTrue()
    ensures IsTrue(Bool(false)) && !IsTruthy(Bool(false))
  {
  }

  /// The two truthiness tests agree on numbers, which are the only values
  /// `!` lets through; so prefix operators behave identically in both
  /// interpreters, and `!` of any number is `false`.
  lemma UnaryAgrees(op: Token, v: Value)
    ensures UnaryAsWritten(op, v) == UnaryOp(op, v)
    ensures op.kind == Bang && v.Num? ==> UnaryAsWritten(op, v) == Ok(Bool(false))
  {
  }

  /// An error in the right operand is the one reported, whatever the left
  /// operand holds.
  lemma RightErrorWins(l: Expr, op: Token, x: Expr)
    requires Evaluate(x).Err?
    ensures Evaluate(Binary(l, op, x)) == Evaluate(x)
  {
  }

  /// On the trees the expression-only parser builds, this interpreter and
  /// the statement interpreter agree: the same value or the same
  /// `RuntimeError`, with the bindings and the output untouched.
  lemma {:induction false} AgreesWithStatementInterpreter(e: Expr, env: Environments.Bindings, out: seq<Value>, fuel: nat)
    requires ExprOnlyTree(e)
    ensures Evaluate(e).Ok? ==> Semantics.Eval(e, env, out, fuel) == Semantics.Run(Semantics.Normal(Evaluate(e).value), env, out)
    ensures Evaluate(e).Err? ==>
      Semantics.Eval(e, env, out, fuel) == Semantics.Run(Semantics.Abrupt(Semantics.Thrown(Evaluate(e).error.error)), env, out)
  {
    match e
    case Literal(_) =>
    case Grouping(x) =>
      AgreesWithStatementInterpreter(x, env, out, fuel);
    case Unary(op, x) =>
      AgreesWithStatementInterpreter(x, env, out, fuel);
      if Evaluate(x).Ok? {
        UnaryAgrees(op, Evaluate(x).value);
      }
      assert Semantics.Eval(e, env, out, fuel) == Semantics.EvalUnary(op, x, env, out, fuel);
    case Binary(l, op, x) =>
      AgreesWithStatementInterpreter(x, env, out, fuel);
      AgreesWithStatementInterpreter(l, env, out, fuel);
      assert Semantics.Eval(e, env, out, fuel) == Semantics.EvalBinary(l, op, x, env, out, fuel);
  }

  /// `--1` is 1 and `!1` is `false`.
  lemma PrefixExamples(minus: Token, bang: Token)
    requires minus.kind == Minus && bang.kind == Bang
    ensures Evaluate(Unary(minus, Unary(minus, Literal(NumLit(1.0))))) == Ok(Num(Finite(1.0)))
    ensures Evaluate(Unary(bang, Literal(NumLit(1.0)))) == Ok(Bool(false))
    ensures Evaluate(Unary(bang, Literal(BoolLit(true)))) == Err(Runtime(RuntimeError(bang, OperandMessage)))
  {
    assert Evaluate(Unary(minus, Literal(NumLit(1.0)))) == Ok(Num(Finite(-1.0)));
  }

  /// `nil == nil` is an error: equality demands numbers.
  lemma EqualityNeedsNumbers(eq: Token)
    requires eq.kind == EqualEqual
    ensures Evaluate(Binary(Literal(NilLit), eq, Literal(NilLit))) == Err(Runtime(RuntimeError(eq, OperandsMessage)))
  {
  }
}
