/// `src/Interpreter.js` as a class: the `environment` field is swapped for
/// every block and call and restored afterwards; `output` collects what
/// `print` writes. Every method is proved to compute exactly what the
/// functions of `Semantics` say, from the state it starts in.
module Interpreting {
  import opened Common
  import opened Syntax
  import opened Values
  import opened Operators
  import opened Environments
  import opened Semantics

  /// The argument values evaluated so far, in front of the run of the rest.
  function Prepend(vs: seq<Value>, r: Run<seq<Value>>): (p: Run<seq<Value>>)
    ensures p.env == r.env && p.out == r.out
    ensures p.completion.Normal? <==> r.completion.Normal?
  {
    if r.completion.Normal? then Run(Normal(vs + r.completion.value), r.env, r.out) else r
  }

  /// One step of `EvalArgs` from position `i`.
  lemma EvalArgsStep(args: seq<Expr>, i: nat, vs: seq<Value>, env: Bindings, out: seq<Value>, fuel: nat)
    requires i < |args|
    ensures var first := Eval(args[i], env, out, fuel);
      Prepend(vs, EvalArgs(args[i..], env, out, fuel)) ==
        if first.completion.Abrupt? then Forward(first)
        else Prepend(vs + [first.completion.value], EvalArgs(args[i + 1..], first.env, first.out, fuel))
  {
    assert args[i..][0] == args[i];
    assert args[i..][1..] == args[i + 1..];
    var first := Eval(args[i], env, out, fuel);
    if first.completion.Normal? {
      var rest := EvalArgs(args[i + 1..], first.env, first.out, fuel);
      if rest.completion.Normal? {
        assert vs + ([first.completion.value] + rest.completion.value) == (vs + [first.completion.value]) + rest.completion.value;
      }
    }
  }

  /// One step of `ExecList` from position `i`.
  lemma ExecListStep(ss: StmtList, i: nat, env: Bindings, out: seq<Value>, fuel: nat)
    requires i < |ss|
    ensures var first := ExecEntry(ss[i], env, out, fuel);
      ExecList(ss[i..], env, out, fuel) ==
        if first.completion.Abrupt? then first else ExecList(ss[i + 1..], first.env, first.out, fuel)
  {
    assert ss[i..][0] == ss[i];
    assert ss[i..][1..] == ss[i + 1..];
  }

  /// One iteration of `ExecWhile`.
  lemma ExecWhileStep(c: Expr, body: Stmt, env: Bindings, out: seq<Value>, fuel: nat)
    ensures var cr := Eval(c, env, out, fuel);
      ExecWhile(c, body, env, out, fuel) ==
        if cr.completion.Abrupt? then Discard(cr)
        else if !IsTruthy(cr.completion.value) then Run(Normal(()), cr.env, cr.out)
        else
          var br := Exec(body, cr.env, cr.out, fuel);
          if br.completion.Abrupt? then br
          else if fuel == 0 then Run(Abrupt(OutOfFuel), br.env, br.out)
          else ExecWhile(c, body, br.env, br.out, fuel - 1)
  {
  }

  class Interpreter {
    const globals: Environment
    var environment: Environment
    var output: seq<Value>

    /// The state of the interpreter as a `Run` with completion `c`.
    function Snapshot<T>(c: Completion<T>): Run<T>
      reads this, environment
    {
      Run(c, environment.values, output)
    }

    /// `new Interpreter()`: the globals hold `clock`, whose reading is
    /// `now`, and are the current environment.
    constructor (now: real)
      ensures environment == globals && globals.values == Globals(now) && output == []
    {
      var g := new Environment();
      globals := g;
      environment := g;
      output := [];
      new;
      g.Define("clock", Fn(Native(0, Num(Finite(now)))));
    }

    /// `interpret`: execute the statements in order; the first statement
    /// that completes abruptly ends the run, and its signal is what gets
    /// reported.
    method Interpret(statements: StmtList, fuel: nat) returns (reported: Option<Signal>)
      modifies this, environment
      ensures environment == old(environment)
      ensures var run := ExecList(statements, old(environment.values), old(output), fuel);
        environment.values == run.env && output == run.out &&
        reported == if run.completion.Abrupt? then Some(run.completion.signal) else None
    {
      ghost var full := ExecList(statements, environment.values, output, fuel);
      var i := 0;
      while i < |statements|
        invariant 0 <= i <= |statements| && environment == old(environment)
        invariant ExecList(statements[i..], environment.values, output, fuel) == full
        decreases |statements| - i
      {
        ExecListStep(statements, i, environment.values, output, fuel);
        var c := ExecuteEntry(statements[i], fuel);
        if c.Abrupt? {
          return Some(c.signal);
        }
        i := i + 1;
      }
      return None;
    }

    // -------------------------------------------------------------------
    // Expressions

    /// `_evaluate`.
    method Evaluate(e: Expr, fuel: nat) returns (r: Completion<Value>)
      modifies this, environment
      ensures environment == old(environment)
      ensures Snapshot(r) == Eval(e, old(environment.values), old(output), fuel)
      decreases fuel, ExprSize(e), 2
    {
      match e
      case Literal(l) => r := Normal(FromLiteral(l));
      case Grouping(x) => r := Evaluate(x, fuel);
      case Unary(op, x) => r := VisitUnary(op, x, fuel);
      case Binary(l, op, x) => r := VisitBinary(l, op, x, fuel);
      case Logical(l, op, x) => r := VisitLogical(l, op, x, fuel);
      case Variable(name) =>
        var v := environment.Get(name);
        r := if v.Ok? then Normal(v.value) else Abrupt(Thrown(v.error));
      case Assign(name, x) => r := VisitAssign(name, x, fuel);
      case Call(callee, paren, args) => r := VisitCall(callee, paren, args, fuel);
    }

    method VisitUnary(op: Token, x: Expr, fuel: nat) returns (r: Completion<Value>)
      modifies this, environment
      ensures environment == old(environment)
      ensures Snapshot(r) == EvalUnary(op, x, old(environment.values), old(output), fuel)
      decreases fuel, ExprSize(x) + 1, 1
    {
      var right := Evaluate(x, fuel);
      if right.Abrupt? {
        return right;
      }
      var v := UnaryOp(op, right.value);
      r := if v.Ok? then Normal(v.value) else Abrupt(Thrown(v.error));
    }

    /// `visitBinaryExpr`: right operand first.
    method VisitBinary(l: Expr, op: Token, x: Expr, fuel: nat) returns (r: Completion<Value>)
      modifies this, environment
      ensures environment == old(environment)
      ensures Snapshot(r) == EvalBinary(l, op, x, old(environment.values), old(output), fuel)
      decreases fuel, ExprSize(l) + ExprSize(x) + 1, 1
    {
      var right := Evaluate(x, fuel);
      if right.Abrupt? {
        return right;
      }
      var left := Evaluate(l, fuel);
      if left.Abrupt? {
        return left;
      }
      var v := BinaryOp(op, left.value, right.value);
      r := if v.Ok? then Normal(v.value) else Abrupt(Thrown(v.error));
    }

    method VisitLogical(l: Expr, op: Token, x: Expr, fuel: nat) returns (r: Completion<Value>)
      modifies this, environment
      ensures environment == old(environment)
      ensures Snapshot(r) == EvalLogical(l, op, x, old(environment.values), old(output), fuel)
      decreases fuel, ExprSize(l) + ExprSize(x) + 1, 1
    {
      var left := Evaluate(l, fuel);
      if left.Abrupt? {
        return left;
      }
      if op.kind == OrKw {
        if IsTruthy(left.value) {
          return left;
        }
      } else {
        if !IsTruthy(left.value) {
          return left;
        }
      }
      r := Evaluate(x, fuel);
    }

    method VisitAssign(name: Token, x: Expr, fuel: nat) returns (r: Completion<Value>)
      modifies this, environment
      ensures environment == old(environment)
      ensures Snapshot(r) == EvalAssign(name, x, old(environment.values), old(output), fuel)
      decreases fuel, ExprSize(x) + 1, 1
    {
      var value := Evaluate(x, fuel);
      if value.Abrupt? {
        return value;
      }
      var stored := environment.Assign(name, value.value);
      if stored.Err? {
        return Abrupt(Thrown(stored.error));
      }
      return value;
    }

    method VisitCall(callee: Expr, paren: Token, args: seq<Expr>, fuel: nat) returns (r: Completion<Value>)
      modifies this, environment
      ensures environment == old(environment)
      ensures Snapshot(r) == EvalCall(callee, paren, args, old(environment.values), old(output), fuel)
      decreases fuel, ExprSize(callee) + ExprsSize(args) + 1, 1
    {
      var f := Evaluate(callee, fuel);
      if f.Abrupt? {
        return f;
      }
      var values := EvaluateArguments(args, fuel);
      if values.Abrupt? {
        return Abrupt(values.signal);
      }
      r := Invoke(f.value, paren, values.value, fuel);
    }

    /// `expr.args.map(arg => this._evaluate(arg))`, left to right.
    method EvaluateArguments(args: seq<Expr>, fuel: nat) returns (r: Completion<seq<Value>>)
      modifies this, environment
      ensures environment == old(environment)
      ensures Snapshot(r) == EvalArgs(args, old(environment.values), old(output), fuel)
      decreases fuel, ExprsSize(args), 3
    {
      ghost var full := EvalArgs(args, environment.values, output, fuel);
      var values: seq<Value> := [];
      var i := 0;
      assert args[i..] == args;
      assert Prepend(values, full) == full by {
        if full.completion.Normal? {
          assert values + full.completion.value == full.completion.value;
        }
      }
      while i < |args|
        invariant 0 <= i <= |args| && environment == old(environment)
        invariant Prepend(values, EvalArgs(args[i..], environment.values, output, fuel)) == full
        decreases |args| - i
      {
        EvalArgsStep(args, i, values, environment.values, output, fuel);
        ArgumentSize(args, i);
        var v := Evaluate(args[i], fuel);
        if v.Abrupt? {
          return Abrupt(v.signal);
        }
        values := values + [v.value];
        i := i + 1;
      }
      assert args[i..] == [];
      assert values + [] == values;
      return Normal(values);
    }

    /// The callable and arity checks of `visitCallExpr`, then the call.
    method Invoke(callee: Value, paren: Token, args: seq<Value>, fuel: nat) returns (r: Completion<Value>)
      modifies this
      ensures environment == old(environment)
      ensures Snapshot(r) == CallValue(callee, paren, args, old(environment.values), old(output), fuel)
      decreases fuel, 0, 2
    {
      if !callee.Fn? {
        return Abrupt(Thrown(RuntimeError(paren, NotCallableMessage)));
      }
      if |args| != Arity(callee.callable) {
        return Abrupt(Thrown(RuntimeError(paren, ArityMessage(Arity(callee.callable), |args|))));
      }
      r := CallFunction(callee.callable, args, fuel);
    }

    /// `NativeFn.call` and `LoxFn.call`: the body runs as a block in a new
    /// environment holding the parameters; a `Return` signal is caught and
    /// its value returned, and a body that finishes yields `nil`.
    method CallFunction(f: Callable, args: seq<Value>, fuel: nat) returns (r: Completion<Value>)
      requires |args| == Arity(f)
      modifies this
      ensures environment == old(environment)
      ensures Snapshot(r) == CallFn(f, args, old(environment.values), old(output), fuel)
      decreases fuel, 0, 1
    {
      match f
      case Native(_, reading) =>
        return Normal(reading);
      case LoxFn(d) =>
        r := CallUserFunction(d, args, fuel);
    }

    /// `LoxFn.call`: the body runs as a block in a new environment holding
    /// the parameters; a `Return` signal is caught and its value returned,
    /// and a body that finishes yields `nil`.
    method CallUserFunction(d: FunctionDecl, args: seq<Value>, fuel: nat) returns (r: Completion<Value>)
      requires |args| == |d.parameters|
      modifies this
      ensures environment == old(environment)
      ensures Snapshot(r) == CallUser(d, args, old(environment.values), old(output), fuel)
      decreases fuel, 0, 0
    {
      if fuel == 0 {
        return Abrupt(OutOfFuel);
      }
      var scope := new Environment();
      DefineParameters(scope, d.parameters, args);
      var body := ExecuteBlock(d.body, scope, fuel - 1);
      match body
      case Normal(_) => return Normal(Nil);
      case Abrupt(Returned(v)) => return Normal(v);
      case Abrupt(s) => return Abrupt(s);
    }

    /// `this._declaration.parameters.forEach((param, index) =>
    /// environment.define(param.lexeme, args[index]))` on a new environment.
    static method DefineParameters(scope: Environment, params: seq<Token>, args: seq<Value>)
      requires |params| == |args| && scope.values == map[]
      modifies scope
      ensures scope.values == BindParameters(params, args)
    {
      var i := 0;
      while i < |params|
        invariant 0 <= i <= |params|
        invariant scope.values == BindParameters(params[..i], args[..i])
        decreases |params| - i
      {
        assert params[..i + 1][..i] == params[..i];
        assert args[..i + 1][..i] == args[..i];
        scope.Define(params[i].lexeme, args[i]);
        i := i + 1;
      }
      assert params[..i] == params && args[..i] == args;
    }

    // -------------------------------------------------------------------
    // Statements

    /// `_execute`.
    method Execute(s: Stmt, fuel: nat) returns (r: Completion<()>)
      modifies this, environment
      ensures environment == old(environment)
      ensures Snapshot(r) == Exec(s, old(environment.values), old(output), fuel)
      decreases fuel, StmtSize(s), 1
    {
      match s
      case ExpressionStmt(e) =>
        var v := Evaluate(e, fuel);
        r := if v.Normal? then Normal(()) else Abrupt(v.signal);
      case PrintStmt(e) => r := VisitPrint(e, fuel);
      case VarStmt(name, init) => r := VisitVar(name, init, fuel);
      case BlockStmt(ss) =>
        var scope := new Environment();
        r := ExecuteBlock(ss, scope, fuel);
      case IfStmt(c, t, el) => r := VisitIf(c, t, el, fuel);
      case WhileStmt(c, body) => r := VisitWhile(c, body, fuel);
      case FunctionStmt(d) =>
        environment.Define(d.name.lexeme, Fn(LoxFn(d)));
        r := Normal(());
      case ReturnStmt(v) => r := VisitReturn(v, fuel);
    }

    /// `visitPrintStmt`.
    method VisitPrint(e: Expr, fuel: nat) returns (r: Completion<()>)
      modifies this, environment
      ensures environment == old(environment)
      ensures Snapshot(r) == ExecPrint(e, old(environment.values), old(output), fuel)
      decreases fuel, ExprSize(e) + 1, 0
    {
      var v := Evaluate(e, fuel);
      if v.Abrupt? {
        return Abrupt(v.signal);
      }
      if v.value.Nil? || v.value.Undefined? {
        return Abrupt(TypeError("toString"));
      }
      output := output + [v.value];
      return Normal(());
    }

    /// `visitVarStmt`.
    method VisitVar(name: Token, init: Option<Expr>, fuel: nat) returns (r: Completion<()>)
      modifies this, environment
      ensures environment == old(environment)
      ensures Snapshot(r) == ExecVar(name, init, old(environment.values), old(output), fuel)
      decreases fuel, (if init.Some? then ExprSize(init.value) else 0) + 1, 0
    {
      var value := Nil;
      if init.Some? {
        var v := Evaluate(init.value, fuel);
        if v.Abrupt? {
          return Abrupt(v.signal);
        }
        value := v.value;
      }
      environment.Define(name.lexeme, value);
      return Normal(());
    }

    /// `visitIfStmt`.
    method VisitIf(c: Expr, t: Stmt, el: Option<Stmt>, fuel: nat) returns (r: Completion<()>)
      modifies this, environment
      ensures environment == old(environment)
      ensures Snapshot(r) == ExecIf(c, t, el, old(environment.values), old(output), fuel)
      decreases fuel, ExprSize(c) + StmtSize(t) + (if el.Some? then StmtSize(el.value) else 0) + 1, 0
    {
      var cond := Evaluate(c, fuel);
      if cond.Abrupt? {
        return Abrupt(cond.signal);
      }
      if IsTruthy(cond.value) {
        r := Execute(t, fuel);
      } else if el.Some? {
        r := Execute(el.value, fuel);
      } else {
        r := Normal(());
      }
    }

    /// `visitWhileStmt`: the loop of the source, with the fuel bound.
    method VisitWhile(c: Expr, body: Stmt, fuel: nat) returns (r: Completion<()>)
      modifies this, environment
      ensures environment == old(environment)
      ensures Snapshot(r) == ExecWhile(c, body, old(environment.values), old(output), fuel)
      decreases fuel, ExprSize(c) + StmtSize(body) + 1, 0
    {
      ghost var full := ExecWhile(c, body, environment.values, output, fuel);
      var f: nat := fuel;
      while true
        invariant f <= fuel && environment == old(environment)
        invariant ExecWhile(c, body, environment.values, output, f) == full
        decreases f
      {
        ExecWhileStep(c, body, environment.values, output, f);
        ghost var rest := ExecWhile(c, body, environment.values, output, f);
        var cond := Evaluate(c, f);
        if cond.Abrupt? {
          return Abrupt(cond.signal);
        }
        if !IsTruthy(cond.value) {
          return Normal(());
        }
        var b := Execute(body, f);
        if b.Abrupt? {
          return b;
        }
        if f == 0 {
          return Abrupt(OutOfFuel);
        }
        assert ExecWhile(c, body, environment.values, output, f - 1) == rest;
        f := f - 1;
      }
    }

    /// `visitReturnStmt`.
    method VisitReturn(v: Option<Expr>, fuel: nat) returns (r: Completion<()>)
      modifies this, environment
      ensures environment == old(environment)
      ensures Snapshot(r) == ExecReturn(v, old(environment.values), old(output), fuel)
      decreases fuel, (if v.Some? then ExprSize(v.value) else 0) + 1, 0
    {
      var value := Nil;
      if v.Some? {
        var x := Evaluate(v.value, fuel);
        if x.Abrupt? {
          return Abrupt(x.signal);
        }
        value := x.value;
      }
      return Abrupt(Returned(value));
    }

    /// `stmt.accept(this)` on an entry of a statement list.
    method ExecuteEntry(o: Option<Stmt>, fuel: nat) returns (r: Completion<()>)
      modifies this, environment
      ensures environment == old(environment)
      ensures Snapshot(r) == ExecEntry(o, old(environment.values), old(output), fuel)
      decreases fuel, OptStmtSize(o), 2
    {
      if o.None? {
        return Abrupt(TypeError("accept"));
      }
      r := Execute(o.value, fuel);
    }

    /// `_executeBlock`: run the statements with `inner` as the current
    /// environment, and restore the previous one on every way out (the
    /// `finally`).
    method ExecuteBlock(statements: StmtList, inner: Environment, fuel: nat) returns (r: Completion<()>)
      requires inner != environment
      modifies this, inner
      ensures environment == old(environment)
      ensures Snapshot(r) == ExecBlock(statements, old(inner.values), old(environment.values), old(output), fuel)
      decreases fuel, StmtListSize(statements), 4
    {
      ghost var full := ExecList(statements, inner.values, output, fuel);
      var previous := environment;
      environment := inner;
      var i := 0;
      r := Normal(());
      while i < |statements| && r.Normal?
        invariant 0 <= i <= |statements| && environment == inner
        invariant r.Normal? ==> r == Normal(()) && ExecList(statements[i..], inner.values, output, fuel) == full
        invariant r.Abrupt? ==> Run(r, inner.values, output) == full
        decreases |statements| - i, if r.Normal? then 1 else 0
      {
        ExecListStep(statements, i, inner.values, output, fuel);
        EntrySize(statements, i);
        var c := ExecuteEntry(statements[i], fuel);
        if c.Abrupt? {
          r := c;
        } else {
          i := i + 1;
        }
      }
      assert r.Normal? ==> statements[i..] == [];
      environment := previous;
    }
  }
}
