/// Runtime values of the evaluators and the JavaScript primitives they lean
/// on: numbers with NaN, truthiness, strict equality and `Number(x)`.
module Values {
  import opened Common
  import opened Syntax
  import opened Lexer
  import opened LexerProperties

  /// A JavaScript number: a real value or NaN. IEEE rounding, the
  /// infinities and negative zero are not modelled.
  datatype Number = Finite(r: real) | NaN

  /// A runtime value. `Undefined` is JavaScript's `undefined`, which the
  /// unary visitor returns for an operator it has no case for; `Nil` is
  /// `null`.
  datatype Value =
    | Undefined
    | Nil
    | Bool(b: bool)
    | Num(n: Number)
    | Str(s: string)
    | Fn(callable: Callable)

  /// `LoxCallable`: a native function (only `clock` exists; its reading is
  /// fixed when the interpreter is built) or a user function holding its
  /// declaration. There is no captured environment.
  datatype Callable =
    | Native(nativeArity: nat, reading: Value)
    | LoxFn(declaration: FunctionDecl)

  /// `arity()`: the stored arity of a native, the parameter count of a
  /// user function.
  function Arity(c: Callable): (n: nat)
    ensures c.LoxFn? ==> n == |c.declaration.parameters|
    ensures c.Native? ==> n == c.nativeArity
  {
    match c
    case Native(a, _) => a
    case LoxFn(d) => |d.parameters|
  }

  /// `visitLiteralExpr`: the value a literal node holds.
  function FromLiteral(l: LiteralValue): (v: Value)
    ensures v.Nil? <==> l.NilLit?
    ensures l.BoolLit? ==> v == Bool(l.b)
    ensures l.NumLit? ==> v == Num(Finite(l.r))
    ensures l.StrLit? ==> v == Str(l.s)
  {
    match l
    case NilLit => Nil
    case BoolLit(b) => Bool(b)
    case NumLit(r) => Num(Finite(r))
    case StrLit(s) => Str(s)
  }

  /// `_isTruthy` of `src/Interpreter.js`: `null` is false, a boolean is
  /// itself, everything else (numbers, strings, functions, `undefined`) is
  /// true.
  predicate IsTruthy(v: Value)
  {
    match v
    case Nil => false
    case Bool(b) => b
    case _ => true
  }

  // -------------------------------------------------------------------
  // Number arithmetic: NaN absorbs, finite operands compute exactly.

  function Negate(a: Number): (c: Number)
    ensures c.NaN? <==> a.NaN?
    ensures a.Finite? ==> c.r == -a.r
  {
    if a.NaN? then NaN else Finite(-a.r)
  }

  function Add(a: Number, b: Number): (c: Number)
    ensures c.NaN? <==> a.NaN? || b.NaN?
    ensures c.Finite? ==> c.r == a.r + b.r
  {
    if a.NaN? || b.NaN? then NaN else Finite(a.r + b.r)
  }

  function Subtract(a: Number, b: Number): (c: Number)
    ensures c.NaN? <==> a.NaN? || b.NaN?
    ensures c.Finite? ==> c.r == a.r - b.r
  {
    if a.NaN? || b.NaN? then NaN else Finite(a.r - b.r)
  }

  function Multiply(a: Number, b: Number): (c: Number)
    ensures c.NaN? <==> a.NaN? || b.NaN?
    ensures c.Finite? ==> c.r == a.r * b.r
  {
    if a.NaN? || b.NaN? then NaN else Finite(a.r * b.r)
  }

  /// Division by a non-zero divisor (the interpreters reject zero first).
  function Divide(a: Number, b: Number): (c: Number)
    requires b != Finite(0.0)
    ensures c.NaN? <==> a.NaN? || b.NaN?
    ensures c.Finite? ==> c.r * b.r == a.r
  {
    if a.NaN? || b.NaN? then NaN else Finite(a.r / b.r)
  }

  /// `<` on numbers: false whenever NaN is involved.
  predicate Below(a: Number, b: Number)
  {
    a.Finite? && b.Finite? && a.r < b.r
  }

  predicate AtMost(a: Number, b: Number)
  {
    a.Finite? && b.Finite? && a.r <= b.r
  }

  /// `===`: NaN equals nothing, not even itself; other values compare
  /// structurally (a user function is identified by its declaration).
  predicate StrictEquals(a: Value, b: Value)
  {
    if a.Num? && b.Num? then a.n.Finite? && b.n.Finite? && a.n.r == b.n.r
    else a == b
  }

  /// `Number(s)` for a string: the empty string is 0, text in the
  /// scanner's number syntax is its decimal value, anything else is NaN.
  /// JavaScript's `Number` also accepts surrounding whitespace, a sign,
  /// `1.`, `.5`, exponents, `Infinity` and `0x`/`0o`/`0b` prefixes; this
  /// model maps all of those to NaN.
  function StringToNumber(s: string): (n: Number)
    ensures s == "" ==> n == Finite(0.0)
    ensures IsNumberText(s) ==> n == Finite(DecimalValue(s))
    ensures s != "" && !IsNumberText(s) ==> n.NaN?
  {
    if s == "" then Finite(0.0)
    else if IsNumberText(s) then Finite(DecimalValue(s))
    else NaN
  }

  /// `Number(x)`: the coercion `+` applies when either operand is a number.
  function ToNumber(v: Value): (n: Number)
    ensures v.Num? ==> n == v.n
    ensures v.Nil? ==> n == Finite(0.0)
    ensures v.Bool? ==> n == Finite(if v.b then 1.0 else 0.0)
    ensures v.Undefined? || v.Fn? ==> n.NaN?
  {
    match v
    case Undefined => NaN
    case Nil => Finite(0.0)
    case Bool(b) => Finite(if b then 1.0 else 0.0)
    case Num(n) => n
    case Str(s) => StringToNumber(s)
    case Fn(_) => NaN
  }
}
