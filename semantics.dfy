/// The meaning of statements and expressions as `src/Interpreter.js` gives
/// it, written as functions over the current bindings and the printed
/// output. Every block and every call runs in a new, empty environment with
/// no enclosing scope, exactly as the code does, so no block sees or changes
/// the bindings around it. Loop iterations and calls spend one unit of
/// `fuel` each; running out is an outcome of its own.
module Semantics {
  import opened Common
  import opened Syntax
  import opened Values
  import opened Operators
  import opened Environments

  /// Why a statement or an expression stopped early.
  datatype Signal =
    | Thrown(error: RuntimeError)
      // a host `TypeError` from reading `property` (`toString`, `accept`)
      // of `null` or `undefined`
    | TypeError(property: string)
      // the `Return` signal a `return` statement throws
    | Returned(value: Value)
      // the fuel bound was reached
    | OutOfFuel

  datatype Completion<+T> = Normal(value: T) | Abrupt(signal: Signal)

  /// A completion with the bindings of the current environment and the
  /// printed values afterwards.
  datatype Run<+T> = Run(completion: Completion<T>, env: Bindings, out: seq<Value>)

  /// No `Return` signal escapes.
  predicate NoReturn<T>(r: Run<T>)
  {
    r.completion.Abrupt? ==> !r.completion.signal.Returned?
  }

  /// An expression's effect: it binds no new name, and output only grows.
  predicate ExprEffect<T>(env: Bindings, out: seq<Value>, r: Run<T>)
  {
    r.env.Keys == env.Keys && out <= r.out && NoReturn(r)
  }

  /// A statement's effect: bindings are only added or overwritten, and
  /// output only grows.
  predicate StmtEffect(env: Bindings, out: seq<Value>, r: Run<()>)
  {
    env.Keys <= r.env.Keys && out <= r.out
  }

  /// A thrown `RuntimeError` or a value.
  function Apply<T>(r: Result<T, RuntimeError>, env: Bindings, out: seq<Value>): (run: Run<T>)
    ensures run.env == env && run.out == out && NoReturn(run)
    ensures run.completion.Normal? <==> r.Ok?
  {
    match r
    case Ok(v) => Run(Normal(v), env, out)
    case Err(e) => Run(Abrupt(Thrown(e)), env, out)
  }

  /// The same run with its value dropped.
  function Discard<T>(r: Run<T>): (d: Run<()>)
    ensures d.env == r.env && d.out == r.out
    ensures d.completion.Normal? <==> r.completion.Normal?
    ensures r.completion.Abrupt? ==> d.completion == Abrupt(r.completion.signal)
  {
    Run(if r.completion.Normal? then Normal(()) else Abrupt(r.completion.signal), r.env, r.out)
  }

  /// The same abrupt run at another result type.
  function Forward<T, U>(r: Run<T>): (d: Run<U>)
    requires r.completion.Abrupt?
    ensures d == Run(Abrupt(r.completion.signal), r.env, r.out)
  {
    Run(Abrupt(r.completion.signal), r.env, r.out)
  }

  // ---------------------------------------------------------------------
  // Expressions. Each `decreases` is fuel, then tree size, then a rank for
  // the helpers that take over a node of the same size.

  /// `_evaluate`: dispatch on the node.
  function Eval(e: Expr, env: Bindings, out: seq<Value>, fuel: nat): (r: Run<Value>)
    ensures ExprEffect(env, out, r)
    decreases fuel, ExprSize(e), 2
  {
    match e
    case Literal(l) => Run(Normal(FromLiteral(l)), env, out)
    case Grouping(x) => Eval(x, env, out, fuel)
    case Unary(op, x) => EvalUnary(op, x, env, out, fuel)
    case Binary(l, op, x) => EvalBinary(l, op, x, env, out, fuel)
    case Logical(l, op, x) => EvalLogical(l, op, x, env, out, fuel)
    case Variable(name) => Apply(Lookup(env, name), env, out)
    case Assign(name, x) => EvalAssign(name, x, env, out, fuel)
    case Call(callee, paren, args) => EvalCall(callee, paren, args, env, out, fuel)
  }

  /// `visitUnaryExpr`.
  function EvalUnary(op: Token, x: Expr, env: Bindings, out: seq<Value>, fuel: nat): (r: Run<Value>)
    ensures ExprEffect(env, out, r)
    decreases fuel, ExprSize(x) + 1, 1
  {
    var xr := Eval(x, env, out, fuel);
    if xr.completion.Abrupt? then xr
    else Apply(UnaryOp(op, xr.completion.value), xr.env, xr.out)
  }

  /// `visitBinaryExpr`: the right operand is evaluated before the left.
  function EvalBinary(l: Expr, op: Token, x: Expr, env: Bindings, out: seq<Value>, fuel: nat): (r: Run<Value>)
    ensures ExprEffect(env, out, r)
    decreases fuel, ExprSize(l) + ExprSize(x) + 1, 1
  {
    var xr := Eval(x, env, out, fuel);
    if xr.completion.Abrupt? then xr
    else
      var lr := Eval(l, xr.env, xr.out, fuel);
      if lr.completion.Abrupt? then lr
      else Apply(BinaryOp(op, lr.completion.value, xr.completion.value), lr.env, lr.out)
  }

  /// `visitLogicalExpr`: `or` keeps a truthy left operand, any other
  /// operator (`and`) keeps a falsy one; otherwise the right operand is the
  /// value.
  function EvalLogical(l: Expr, op: Token, x: Expr, env: Bindings, out: seq<Value>, fuel: nat): (r: Run<Value>)
    ensures ExprEffect(env, out, r)
    decreases fuel, ExprSize(l) + ExprSize(x) + 1, 1
  {
    var lr := Eval(l, env, out, fuel);
    if lr.completion.Abrupt? then lr
    else if (op.kind == OrKw) == IsTruthy(lr.completion.value) then lr
    else Eval(x, lr.env, lr.out, fuel)
  }

  /// `visitAssignExpr`: the value is the assigned value.
  function EvalAssign(name: Token, x: Expr, env: Bindings, out: seq<Value>, fuel: nat): (r: Run<Value>)
    ensures ExprEffect(env, out, r)
    decreases fuel, ExprSize(x) + 1, 1
  {
    var xr := Eval(x, env, out, fuel);
    if xr.completion.Abrupt? then xr
    else
      match Rebind(xr.env, name, xr.completion.value)
      case Err(err) => Run(Abrupt(Thrown(err)), xr.env, xr.out)
      case Ok(b) => Run(Normal(xr.completion.value), b, xr.out)
  }

  /// `visitCallExpr`: the callee, then the arguments left to right, then
  /// the call.
  function EvalCall(callee: Expr, paren: Token, args: seq<Expr>, env: Bindings, out: seq<Value>, fuel: nat): (r: Run<Value>)
    ensures ExprEffect(env, out, r)
    decreases fuel, ExprSize(callee) + ExprsSize(args) + 1, 1
  {
    var cr := Eval(callee, env, out, fuel);
    if cr.completion.Abrupt? then cr
    else
      var ar := EvalArgs(args, cr.env, cr.out, fuel);
      if ar.completion.Abrupt? then Forward(ar)
      else CallValue(cr.completion.value, paren, ar.completion.value, ar.env, ar.out, fuel)
  }

  /// `expr.args.map(arg => this._evaluate(arg))`.
  function EvalArgs(args: seq<Expr>, env: Bindings, out: seq<Value>, fuel: nat): (r: Run<seq<Value>>)
    ensures ExprEffect(env, out, r)
    ensures r.completion.Normal? ==> |r.completion.value| == |args|
    decreases fuel, ExprsSize(args), 3
  {
    if args == [] then Run(Normal([]), env, out)
    else
      var first := Eval(args[0], env, out, fuel);
      if first.completion.Abrupt? then Forward(first)
      else
        var rest := EvalArgs(args[1..], first.env, first.out, fuel);
        if rest.completion.Abrupt? then rest
        else Run(Normal([first.completion.value] + rest.completion.value), rest.env, rest.out)
  }

  const NotCallableMessage := "Can only call functions and classes."

  function ArityMessage(expected: nat, got: nat): string
  {
    "Expected " + NatToString(expected) + " arguments but got " + NatToString(got) + "."
  }

  /// The checks of `visitCallExpr` on the evaluated callee and arguments.
  function CallValue(callee: Value, paren: Token, args: seq<Value>, env: Bindings, out: seq<Value>, fuel: nat): (r: Run<Value>)
    ensures ExprEffect(env, out, r) && r.env == env
    ensures !callee.Fn? ==> r == Run(Abrupt(Thrown(RuntimeError(paren, NotCallableMessage))), env, out)
    ensures callee.Fn? && |args| != Arity(callee.callable) ==>
      r == Run(Abrupt(Thrown(RuntimeError(paren, ArityMessage(Arity(callee.callable), |args|)))), env, out)
    decreases fuel, 0, 2
  {
    if !callee.Fn? then Run(Abrupt(Thrown(RuntimeError(paren, NotCallableMessage))), env, out)
    else if |args| != Arity(callee.callable) then
      Run(Abrupt(Thrown(RuntimeError(paren, ArityMessage(Arity(callee.callable), |args|)))), env, out)
    else CallFn(callee.callable, args, env, out, fuel)
  }

  /// `call` of a native (its reading) or of a `LoxFn`.
  function CallFn(f: Callable, args: seq<Value>, env: Bindings, out: seq<Value>, fuel: nat): (r: Run<Value>)
    requires |args| == Arity(f)
    ensures ExprEffect(env, out, r) && r.env == env
    decreases fuel, 0, 1
  {
    match f
    case Native(_, reading) => Run(Normal(reading), env, out)
    case LoxFn(d) => CallUser(d, args, env, out, fuel)
  }

  /// `LoxFn.call`: the body runs as a block in an environment with the
  /// parameters bound; a `Return` signal becomes the value, and finishing
  /// the body yields `nil`. The caller's bindings are untouched.
  function CallUser(d: FunctionDecl, args: seq<Value>, env: Bindings, out: seq<Value>, fuel: nat): (r: Run<Value>)
    requires |args| == |d.parameters|
    ensures ExprEffect(env, out, r) && r.env == env
    decreases fuel, 0, 0
  {
    if fuel == 0 then Run(Abrupt(OutOfFuel), env, out)
    else
      var br := ExecBlock(d.body, BindParameters(d.parameters, args), env, out, fuel - 1);
      match br.completion
      case Normal(_) => Run(Normal(Nil), env, br.out)
      case Abrupt(Returned(v)) => Run(Normal(v), env, br.out)
      case Abrupt(s) => Run(Abrupt(s), env, br.out)
  }

  /// The parameter bindings `LoxFn.call` defines one by one; a repeated
  /// name ends up bound to the argument of its last occurrence.
  function BindParameters(params: seq<Token>, args: seq<Value>): (b: Bindings)
    requires |params| == |args|
    ensures b.Keys == set i | 0 <= i < |params| :: params[i].lexeme
    decreases |params|
  {
    if params == [] then map[]
    else
      var n := |params| - 1;
      Bind(BindParameters(params[..n], args[..n]), params[n].lexeme, args[n])
  }

  // ---------------------------------------------------------------------
  // Statements.

  /// `_execute`: dispatch on the statement.
  function Exec(s: Stmt, env: Bindings, out: seq<Value>, fuel: nat): (r: Run<()>)
    ensures StmtEffect(env, out, r)
    decreases fuel, StmtSize(s), 1
  {
    match s
    case ExpressionStmt(e) => Discard(Eval(e, env, out, fuel))
    case PrintStmt(e) => ExecPrint(e, env, out, fuel)
    case VarStmt(name, init) => ExecVar(name, init, env, out, fuel)
    case BlockStmt(ss) => ExecBlock(ss, map[], env, out, fuel)
    case IfStmt(c, t, el) => ExecIf(c, t, el, env, out, fuel)
    case WhileStmt(c, body) => ExecWhile(c, body, env, out, fuel)
    case FunctionStmt(d) => Run(Normal(()), Bind(env, d.name.lexeme, Fn(LoxFn(d))), out)
    case ReturnStmt(v) => ExecReturn(v, env, out, fuel)
  }

  /// `visitPrintStmt`: the value is printed with `toString()`, which the
  /// host refuses for `null` and `undefined`.
  function ExecPrint(e: Expr, env: Bindings, out: seq<Value>, fuel: nat): (r: Run<()>)
    ensures StmtEffect(env, out, r) && r.env.Keys == env.Keys
    decreases fuel, ExprSize(e) + 1, 0
  {
    var er := Eval(e, env, out, fuel);
    if er.completion.Abrupt? then Discard(er)
    else if er.completion.value.Nil? || er.completion.value.Undefined? then
      Run(Abrupt(TypeError("toString")), er.env, er.out)
    else Run(Normal(()), er.env, er.out + [er.completion.value])
  }

  /// `visitVarStmt`: `nil` without an initializer.
  function ExecVar(name: Token, init: Option<Expr>, env: Bindings, out: seq<Value>, fuel: nat): (r: Run<()>)
    ensures StmtEffect(env, out, r)
    ensures r.completion.Normal? ==> name.lexeme in r.env
    decreases fuel, (if init.Some? then ExprSize(init.value) else 0) + 1, 0
  {
    if init.None? then Run(Normal(()), Bind(env, name.lexeme, Nil), out)
    else
      var er := Eval(init.value, env, out, fuel);
      if er.completion.Abrupt? then Discard(er)
      else Run(Normal(()), Bind(er.env, name.lexeme, er.completion.value), er.out)
  }

  /// `visitIfStmt`.
  function ExecIf(c: Expr, t: Stmt, el: Option<Stmt>, env: Bindings, out: seq<Value>, fuel: nat): (r: Run<()>)
    ensures StmtEffect(env, out, r)
    decreases fuel, ExprSize(c) + StmtSize(t) + (if el.Some? then StmtSize(el.value) else 0) + 1, 0
  {
    var cr := Eval(c, env, out, fuel);
    if cr.completion.Abrupt? then Discard(cr)
    else if IsTruthy(cr.completion.value) then Exec(t, cr.env, cr.out, fuel)
    else if el.Some? then Exec(el.value, cr.env, cr.out, fuel)
    else Run(Normal(()), cr.env, cr.out)
  }

  /// `visitWhileStmt`: each iteration re-evaluates the condition; starting
  /// the next iteration costs one unit of fuel.
  function ExecWhile(c: Expr, body: Stmt, env: Bindings, out: seq<Value>, fuel: nat): (r: Run<()>)
    ensures StmtEffect(env, out, r)
    decreases fuel, ExprSize(c) + StmtSize(body) + 1, 0
  {
    var cr := Eval(c, env, out, fuel);
    if cr.completion.Abrupt? then Discard(cr)
    else if !IsTruthy(cr.completion.value) then Run(Normal(()), cr.env, cr.out)
    else
      var br := Exec(body, cr.env, cr.out, fuel);
      if br.completion.Abrupt? then br
      else if fuel == 0 then Run(Abrupt(OutOfFuel), br.env, br.out)
      else ExecWhile(c, body, br.env, br.out, fuel - 1)
  }

  /// `visitReturnStmt`: throw the `Return` signal with the value (`nil`
  /// without one).
  function ExecReturn(v: Option<Expr>, env: Bindings, out: seq<Value>, fuel: nat): (r: Run<()>)
    ensures StmtEffect(env, out, r)
    ensures r.completion.Abrupt?
    decreases fuel, (if v.Some? then ExprSize(v.value) else 0) + 1, 0
  {
    if v.None? then Run(Abrupt(Returned(Nil)), env, out)
    else
      var er := Eval(v.value, env, out, fuel);
      if er.completion.Abrupt? then Discard(er)
      else Run(Abrupt(Returned(er.completion.value)), er.env, er.out)
  }

  /// An entry of a statement list: a `null` entry (a declaration that
  /// failed to parse) makes `stmt.accept` throw in the host.
  function ExecEntry(o: Option<Stmt>, env: Bindings, out: seq<Value>, fuel: nat): (r: Run<()>)
    ensures StmtEffect(env, out, r)
    decreases fuel, OptStmtSize(o), 2
  {
    if o.None? then Run(Abrupt(TypeError("accept")), env, out)
    else Exec(o.value, env, out, fuel)
  }

  /// `statements.forEach(s => this._execute(s))`: in order, stopping at the
  /// first statement that completes abruptly.
  function ExecList(ss: StmtList, env: Bindings, out: seq<Value>, fuel: nat): (r: Run<()>)
    ensures StmtEffect(env, out, r)
    decreases fuel, StmtListSize(ss), 3
  {
    if ss == [] then Run(Normal(()), env, out)
    else
      var first := ExecEntry(ss[0], env, out, fuel);
      if first.completion.Abrupt? then first
      else ExecList(ss[1..], first.env, first.out, fuel)
  }

  /// `_executeBlock(statements, inner)`: the statements run against `inner`,
  /// and afterwards, however they completed, the current bindings are the
  /// ones from before.
  function ExecBlock(ss: StmtList, inner: Bindings, env: Bindings, out: seq<Value>, fuel: nat): (r: Run<()>)
    ensures r.env == env && out <= r.out
    decreases fuel, StmtListSize(ss), 4
  {
    var br := ExecList(ss, inner, out, fuel);
    Run(br.completion, env, br.out)
  }

  /// The bindings `new Interpreter()` starts with: only `clock`, a native
  /// of arity 0 whose reading is `now`.
  function Globals(now: real): (b: Bindings)
    ensures b.Keys == {"clock"}
    ensures b["clock"].Fn? && Arity(b["clock"].callable) == 0
  {
    map["clock" := Fn(Native(0, Num(Finite(now))))]
  }

  /// `interpret`: run the program against the globals; the error that
  /// stopped it, if any, is what `Lox.runtimeError` reports.
  function Interpret(ss: StmtList, now: real, fuel: nat): (r: (seq<Value>, Option<Signal>))
  {
    var run := ExecList(ss, Globals(now), [], fuel);
    (run.out, if run.completion.Abrupt? then Some(run.completion.signal) else None)
  }
}
