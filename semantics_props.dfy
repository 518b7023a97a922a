/// Properties of the statement and expression semantics: sequencing,
/// short-circuiting, evaluation order, scoping and parameter binding, and
/// a few whole programs.
module SemanticsProperties {
  import opened Common
  import opened Syntax
  import opened Values
  import opened Operators
  import opened Environments
  import opened Semantics

  // ---------------------------------------------------------------------
  // Statement lists.

  /// Running `a + b` runs `a`, and then, only if `a` completed normally,
  /// `b` from where `a` left off.
  lemma {:induction false} ExecListAppend(a: StmtList, b: StmtList, env: Bindings, out: seq<Value>, fuel: nat)
    ensures ExecList(a + b, env, out, fuel) ==
      var ra := ExecList(a, env, out, fuel);
      if ra.completion.Abrupt? then ra else ExecList(b, ra.env, ra.out, fuel)
    decreases |a|
  {
    if a != [] {
      assert (a + b)[0] == a[0];
      assert (a + b)[1..] == a[1..] + b;
      var first := ExecEntry(a[0], env, out, fuel);
      if first.completion.Normal? {
        ExecListAppend(a[1..], b, first.env, first.out, fuel);
      }
    } else {
      assert a + b == b;
    }
  }

  /// One step of a statement list: its first statement, then the rest.
  lemma ExecListCons(st: Stmt, rest: StmtList, env: Bindings, out: seq<Value>, fuel: nat)
    ensures ExecList([Some(st)] + rest, env, out, fuel) ==
      var first := Exec(st, env, out, fuel);
      if first.completion.Abrupt? then first else ExecList(rest, first.env, first.out, fuel)
  {
    assert ([Some(st)] + rest)[0] == Some(st);
    assert ([Some(st)] + rest)[1..] == rest;
    assert ExecEntry(Some(st), env, out, fuel) == Exec(st, env, out, fuel);
  }

  /// Statements after one that completes abruptly are never run: their
  /// output and their errors do not appear.
  lemma StopsAtFirstAbrupt(a: StmtList, b: StmtList, env: Bindings, out: seq<Value>, fuel: nat)
    requires ExecList(a, env, out, fuel).completion.Abrupt?
    ensures ExecList(a + b, env, out, fuel) == ExecList(a, env, out, fuel)
  {
    ExecListAppend(a, b, env, out, fuel);
  }

  /// A program whose prefix stops with an error reports that error and the
  /// prefix's output, whatever follows it.
  lemma InterpretStopsAtFirstError(a: StmtList, b: StmtList, now: real, fuel: nat)
    requires Interpret(a, now, fuel).1.Some?
    ensures Interpret(a + b, now, fuel) == Interpret(a, now, fuel)
  {
    StopsAtFirstAbrupt(a, b, Globals(now), [], fuel);
  }

  /// A program that completes normally prints its output and then its
  /// continuation's.
  lemma InterpretSequences(a: StmtList, b: StmtList, now: real, fuel: nat)
    requires Interpret(a, now, fuel).1.None?
    ensures Interpret(a, now, fuel).0 <= Interpret(a + b, now, fuel).0
  {
    ExecListAppend(a, b, Globals(now), [], fuel);
  }

  // ---------------------------------------------------------------------
  // Expressions.

  /// `or` with a truthy left operand and `and` with a falsy one never
  /// evaluate the right operand: any right operand gives the same run.
  lemma ShortCircuit(l: Expr, op: Token, x: Expr, y: Expr, env: Bindings, out: seq<Value>, fuel: nat)
    requires Eval(l, env, out, fuel).completion.Normal?
    requires (op.kind == OrKw) == IsTruthy(Eval(l, env, out, fuel).completion.value)
    ensures EvalLogical(l, op, x, env, out, fuel) == EvalLogical(l, op, y, env, out, fuel)
    ensures EvalLogical(l, op, x, env, out, fuel) == Eval(l, env, out, fuel)
  {
  }

  /// When the left operand does not decide, the logical expression is its
  /// right operand, evaluated after the left.
  lemma LogicalFallsThrough(l: Expr, op: Token, x: Expr, env: Bindings, out: seq<Value>, fuel: nat)
    requires Eval(l, env, out, fuel).completion.Normal?
    requires (op.kind == OrKw) != IsTruthy(Eval(l, env, out, fuel).completion.value)
    ensures var lr := Eval(l, env, out, fuel);
      EvalLogical(l, op, x, env, out, fuel) == Eval(x, lr.env, lr.out, fuel)
  {
  }

  /// Binary operands are evaluated right to left: an error in the right
  /// operand wins, and the left operand is then never evaluated.
  lemma RightOperandFirst(l: Expr, m: Expr, op: Token, x: Expr, env: Bindings, out: seq<Value>, fuel: nat)
    requires Eval(x, env, out, fuel).completion.Abrupt?
    ensures EvalBinary(l, op, x, env, out, fuel) == Eval(x, env, out, fuel)
    ensures EvalBinary(l, op, x, env, out, fuel) == EvalBinary(m, op, x, env, out, fuel)
  {
  }

  /// An assignment yields the assigned value and rebinds the name, and
  /// fails without a trace of the value when the name is unbound.
  lemma AssignmentValue(name: Token, x: Expr, env: Bindings, out: seq<Value>, fuel: nat)
    requires Eval(x, env, out, fuel).completion.Normal?
    ensures var xr := Eval(x, env, out, fuel);
      var r := EvalAssign(name, x, env, out, fuel);
      (r.completion.Normal? <==> name.lexeme in xr.env) &&
      (r.completion.Normal? ==> r.completion.value == xr.completion.value && r.env == xr.env[name.lexeme := xr.completion.value]) &&
      (r.completion.Abrupt? ==> r.completion == Abrupt(Thrown(UndefinedVariable(name))) && r.env == xr.env)
  {
  }

  /// Calling a value that is not a function is an error at the closing
  /// parenthesis, after the callee and the arguments were evaluated.
  lemma CallNonFunction(callee: Expr, paren: Token, args: seq<Expr>, env: Bindings, out: seq<Value>, fuel: nat)
    requires Eval(callee, env, out, fuel).completion.Normal?
    requires !Eval(callee, env, out, fuel).completion.value.Fn?
    ensures var cr := Eval(callee, env, out, fuel);
      var ar := EvalArgs(args, cr.env, cr.out, fuel);
      ar.completion.Normal? ==>
        EvalCall(callee, paren, args, env, out, fuel).completion == Abrupt(Thrown(RuntimeError(paren, NotCallableMessage)))
  {
  }

  // ---------------------------------------------------------------------
  // Blocks and calls.

  /// A block leaves the bindings around it exactly as they were, and what
  /// it does depends on them not at all: it runs the same from any outer
  /// bindings.
  lemma BlockIsIsolated(ss: StmtList, env: Bindings, env2: Bindings, out: seq<Value>, fuel: nat)
    ensures Exec(BlockStmt(ss), env, out, fuel).env == env
    ensures Exec(BlockStmt(ss), env, out, fuel).completion == Exec(BlockStmt(ss), env2, out, fuel).completion
    ensures Exec(BlockStmt(ss), env, out, fuel).out == Exec(BlockStmt(ss), env2, out, fuel).out
  {
  }

  /// A function call leaves the caller's bindings as they were, and a
  /// `return` inside the body never escapes the call.
  lemma CallIsIsolated(d: FunctionDecl, args: seq<Value>, env: Bindings, out: seq<Value>, fuel: nat)
    requires |args| == |d.parameters|
    ensures CallUser(d, args, env, out, fuel).env == env
    ensures out <= CallUser(d, args, env, out, fuel).out
    ensures CallUser(d, args, env, out, fuel).completion.Abrupt? ==>
      !CallUser(d, args, env, out, fuel).completion.signal.Returned?
  {
  }

  /// The value of a call: with no fuel left the call runs out; otherwise
  /// the body runs as a block over the parameters bound to the arguments,
  /// a body that falls off its end gives `nil`, a `return` gives its value,
  /// and any other abrupt end of the body is the call's own. What the body
  /// printed is kept either way.
  lemma CallResult(d: FunctionDecl, args: seq<Value>, env: Bindings, out: seq<Value>, fuel: nat)
    requires |args| == |d.parameters|
    ensures fuel == 0 ==> CallUser(d, args, env, out, fuel) == Run(Abrupt(OutOfFuel), env, out)
    ensures fuel > 0 ==>
      var b := ExecBlock(d.body, BindParameters(d.parameters, args), env, out, fuel - 1);
      var r := CallUser(d, args, env, out, fuel);
      && (b.completion.Normal? ==> r == Run(Normal(Nil), env, b.out))
      && (b.completion.Abrupt? && b.completion.signal.Returned? ==> r == Run(Normal(b.completion.signal.value), env, b.out))
      && (b.completion.Abrupt? && !b.completion.signal.Returned? ==> r == Run(Abrupt(b.completion.signal), env, b.out))
  {
  }

  /// A parameter whose name does not occur again later in the list is
  /// bound to its own argument.
  lemma {:induction false} BindParametersAt(params: seq<Token>, args: seq<Value>, i: nat)
    requires |params| == |args| && i < |params|
    requires forall j :: i < j < |params| ==> params[j].lexeme != params[i].lexeme
    ensures BindParameters(params, args)[params[i].lexeme] == args[i]
    decreases |params|
  {
    var n := |params| - 1;
    var earlier := BindParameters(params[..n], args[..n]);
    assert BindParameters(params, args) == Bind(earlier, params[n].lexeme, args[n]);
    if i < n {
      assert params[..n][i] == params[i] && args[..n][i] == args[i];
      BindParametersAt(params[..n], args[..n], i);
      assert params[i].lexeme in earlier && params[i].lexeme != params[n].lexeme;
    }
  }

  /// With distinct parameter names, every parameter is bound to its
  /// argument.
  lemma BindDistinctParameters(params: seq<Token>, args: seq<Value>)
    requires |params| == |args|
    requires forall j, k :: 0 <= j < k < |params| ==> params[j].lexeme != params[k].lexeme
    ensures forall i :: 0 <= i < |params| ==> BindParameters(params, args)[params[i].lexeme] == args[i]
  {
    forall i | 0 <= i < |params|
      ensures BindParameters(params, args)[params[i].lexeme] == args[i]
    {
      BindParametersAt(params, args, i);
    }
  }

  // ---------------------------------------------------------------------
  // Derived rules for single statements, in big-step form.

  /// `var name = e;` binds the value of `e`.
  lemma VarRule(name: Token, e: Expr, env: Bindings, out: seq<Value>, fuel: nat, v: Value, env': Bindings, out': seq<Value>)
    requires Eval(e, env, out, fuel) == Run(Normal(v), env', out')
    ensures Exec(VarStmt(name, Some(e)), env, out, fuel) == Run(Normal(()), env'[name.lexeme := v], out')
  {
    assert ExecVar(name, Some(e), env, out, fuel) == Run(Normal(()), env'[name.lexeme := v], out');
  }

  /// `print e;` appends the value of `e` unless it is `nil` or `undefined`.
  lemma PrintRule(e: Expr, env: Bindings, out: seq<Value>, fuel: nat, v: Value, env': Bindings, out': seq<Value>)
    requires Eval(e, env, out, fuel) == Run(Normal(v), env', out')
    ensures Exec(PrintStmt(e), env, out, fuel) ==
      if v.Nil? || v.Undefined? then Run(Abrupt(TypeError("toString")), env', out')
      else Run(Normal(()), env', out' + [v])
  {
    assert Exec(PrintStmt(e), env, out, fuel) == ExecPrint(e, env, out, fuel);
  }

  /// `e;` keeps the effects of `e` and drops its value.
  lemma ExpressionRule(e: Expr, env: Bindings, out: seq<Value>, fuel: nat, v: Value, env': Bindings, out': seq<Value>)
    requires Eval(e, env, out, fuel) == Run(Normal(v), env', out')
    ensures Exec(ExpressionStmt(e), env, out, fuel) == Run(Normal(()), env', out')
  {
    assert Exec(ExpressionStmt(e), env, out, fuel) == Discard(Eval(e, env, out, fuel));
  }

  /// A statement whose expression stops abruptly stops with the same
  /// signal.
  lemma AbruptRule(e: Expr, env: Bindings, out: seq<Value>, fuel: nat, s: Signal, env': Bindings, out': seq<Value>)
    requires Eval(e, env, out, fuel) == Run(Abrupt(s), env', out')
    ensures Exec(ExpressionStmt(e), env, out, fuel) == Run(Abrupt(s), env', out')
    ensures Exec(PrintStmt(e), env, out, fuel) == Run(Abrupt(s), env', out')
  {
    assert Exec(ExpressionStmt(e), env, out, fuel) == Discard(Eval(e, env, out, fuel));
    assert Exec(PrintStmt(e), env, out, fuel) == ExecPrint(e, env, out, fuel);
  }

  /// A call of a user function with fuel left runs its body from the
  /// parameter bindings.
  lemma CallRule(callee: Expr, paren: Token, args: seq<Expr>, env: Bindings, out: seq<Value>, fuel: nat,
                 d: FunctionDecl, vs: seq<Value>)
    requires Eval(callee, env, out, fuel) == Run(Normal(Fn(LoxFn(d))), env, out)
    requires EvalArgs(args, env, out, fuel) == Run(Normal(vs), env, out)
    requires |vs| == |d.parameters| && fuel > 0
    ensures Eval(Call(callee, paren, args), env, out, fuel) == CallUser(d, vs, env, out, fuel)
  {
    assert Eval(Call(callee, paren, args), env, out, fuel) == EvalCall(callee, paren, args, env, out, fuel);
    assert CallValue(Fn(LoxFn(d)), paren, vs, env, out, fuel) == CallFn(LoxFn(d), vs, env, out, fuel);
  }

  // ---------------------------------------------------------------------
  // Whole programs.

  function Tok(kind: TokenType, lexeme: string): Token
  {
    Token(kind, lexeme, NilLit, 1)
  }

  function Number(r: real): Expr
  {
    Literal(NumLit(r))
  }

  /// `var a = 1; a = 2; print a;` prints 2 with the corrected assignment
  /// (`Rebind`); the source as written throws at `a = 2` instead.
  lemma AssignThenPrint(now: real, fuel: nat)
    ensures var a := Tok(Identifier, "a");
      Interpret([Some(VarStmt(a, Some(Number(1.0)))), Some(ExpressionStmt(Assign(a, Number(2.0)))), Some(PrintStmt(Variable(a)))], now, fuel)
        == ([Num(Finite(2.0))], None)
  {
    var a := Tok(Identifier, "a");
    var s1, s2, s3 := VarStmt(a, Some(Number(1.0))), ExpressionStmt(Assign(a, Number(2.0))), PrintStmt(Variable(a));
    var one, two := Num(Finite(1.0)), Num(Finite(2.0));
    var g := Globals(now);
    var g1 := g["a" := one];
    var g2 := g1["a" := two];
    VarRule(a, Number(1.0), g, [], fuel, one, g, []);
    assert Eval(Number(2.0), g1, [], fuel) == Run(Normal(two), g1, []);
    assert Eval(Assign(a, Number(2.0)), g1, [], fuel) == Run(Normal(two), g2, []);
    ExpressionRule(Assign(a, Number(2.0)), g1, [], fuel, two, g2, []);
    PrintRule(Variable(a), g2, [], fuel, two, g2, []);
    assert [] + [two] == [two];
    assert [Some(s1), Some(s2), Some(s3)] == [Some(s1)] + ([Some(s2)] + ([Some(s3)] + []));
    ExecListCons(s1, [Some(s2)] + ([Some(s3)] + []), g, [], fuel);
    ExecListCons(s2, [Some(s3)] + [], g1, [], fuel);
    ExecListCons(s3, [], g2, [], fuel);
  }

  /// `print nil;` stops with the host's `TypeError`, printing nothing.
  lemma PrintNilFails(now: real, fuel: nat)
    ensures Interpret([Some(PrintStmt(Literal(NilLit)))], now, fuel) == ([], Some(TypeError("toString")))
  {
    var g := Globals(now);
    PrintRule(Literal(NilLit), g, [], fuel, Nil, g, []);
    assert [Some(PrintStmt(Literal(NilLit)))] == [Some(PrintStmt(Literal(NilLit)))] + [];
    ExecListCons(PrintStmt(Literal(NilLit)), [], g, [], fuel);
  }

  /// `var a = 1; { print a; }` fails: the block does not see `a`.
  lemma BlockCannotSeeOuter(now: real, fuel: nat)
    ensures var a := Tok(Identifier, "a");
      Interpret([Some(VarStmt(a, Some(Number(1.0)))), Some(BlockStmt([Some(PrintStmt(Variable(a)))]))], now, fuel)
        == ([], Some(Thrown(UndefinedVariable(a))))
  {
    var a := Tok(Identifier, "a");
    var s1, p := VarStmt(a, Some(Number(1.0))), PrintStmt(Variable(a));
    var s2 := BlockStmt([Some(p)]);
    var g := Globals(now);
    var g1 := g["a" := Num(Finite(1.0))];
    var err := Thrown(UndefinedVariable(a));
    var e: Bindings := map[];
    VarRule(a, Number(1.0), g, [], fuel, Num(Finite(1.0)), g, []);
    assert Eval(Variable(a), e, [], fuel) == Run(Abrupt(err), e, []);
    AbruptRule(Variable(a), e, [], fuel, err, e, []);
    assert [Some(p)] == [Some(p)] + [];
    ExecListCons(p, [], e, [], fuel);
    assert Exec(s2, g1, [], fuel) == Run(Abrupt(err), g1, []);
    assert [Some(s1), Some(s2)] == [Some(s1)] + ([Some(s2)] + []);
    ExecListCons(s1, [Some(s2)] + [], g, [], fuel);
    ExecListCons(s2, [], g1, [], fuel);
  }

  /// `fun id(x) { return x; } print id(3);` prints 3, given one unit of
  /// fuel for the call.
  lemma CallReturnsArgument(now: real, fuel: nat)
    requires fuel >= 1
    ensures var x := Tok(Identifier, "x");
      var id := Tok(Identifier, "id");
      var d := FunctionDecl(id, [x], [Some(ReturnStmt(Some(Variable(x))))]);
      Interpret([Some(FunctionStmt(d)), Some(PrintStmt(Call(Variable(id), Tok(RightParen, ")"), [Number(3.0)])))], now, fuel)
        == ([Num(Finite(3.0))], None)
  {
    var x := Tok(Identifier, "x");
    var id := Tok(Identifier, "id");
    var paren := Tok(RightParen, ")");
    var d := FunctionDecl(id, [x], [Some(ReturnStmt(Some(Variable(x))))]);
    var s1 := FunctionStmt(d);
    var call := Call(Variable(id), paren, [Number(3.0)]);
    var s2 := PrintStmt(call);
    var three := Num(Finite(3.0));
    var g := Globals(now);
    var g1 := g["id" := Fn(LoxFn(d))];
    assert Exec(s1, g, [], fuel) == Run(Normal(()), g1, []);
    IdentityCall(d, g1, fuel);
    assert Eval(Variable(id), g1, [], fuel) == Run(Normal(Fn(LoxFn(d))), g1, []);
    assert [Number(3.0)][1..] == [];
    assert Eval(Number(3.0), g1, [], fuel) == Run(Normal(three), g1, []);
    assert EvalArgs([], g1, [], fuel) == Run(Normal([]), g1, []);
    assert [three] + [] == [three];
    assert EvalArgs([Number(3.0)], g1, [], fuel) == Run(Normal([three]), g1, []);
    CallRule(Variable(id), paren, [Number(3.0)], g1, [], fuel, d, [three]);
    PrintRule(call, g1, [], fuel, three, g1, []);
    assert [] + [three] == [three];
    assert [Some(s1), Some(s2)] == [Some(s1)] + ([Some(s2)] + []);
    ExecListCons(s1, [Some(s2)] + [], g, [], fuel);
    ExecListCons(s2, [], g1, [], fuel);
  }

  /// The body of `fun id(x) { return x; }` called with 3.
  lemma IdentityCall(d: FunctionDecl, env: Bindings, fuel: nat)
    requires fuel >= 1
    requires d.parameters == [Tok(Identifier, "x")] && d.body == [Some(ReturnStmt(Some(Variable(Tok(Identifier, "x")))))]
    ensures CallUser(d, [Num(Finite(3.0))], env, [], fuel) == Run(Normal(Num(Finite(3.0))), env, [])
  {
    var x := Tok(Identifier, "x");
    var ret := ReturnStmt(Some(Variable(x)));
    var three := Num(Finite(3.0));
    var scope := map["x" := three];
    assert BindParameters([x], [three]) == scope;
    assert Eval(Variable(x), scope, [], fuel - 1) == Run(Normal(three), scope, []);
    assert Exec(ret, scope, [], fuel - 1) == Run(Abrupt(Returned(three)), scope, []);
    assert [Some(ret)] == [Some(ret)] + [];
    ExecListCons(ret, [], scope, [], fuel - 1);
  }

  /// A function body does not see the globals, so `clock` is unbound
  /// inside it: `fun f() { return clock(); } f();` fails.
  lemma GlobalsInvisibleInFunctions(now: real, fuel: nat)
    requires fuel >= 1
    ensures var c := Tok(Identifier, "clock");
      var f := Tok(Identifier, "f");
      var paren := Tok(RightParen, ")");
      var d := FunctionDecl(f, [], [Some(ReturnStmt(Some(Call(Variable(c), paren, []))))]);
      Interpret([Some(FunctionStmt(d)), Some(ExpressionStmt(Call(Variable(f), paren, [])))], now, fuel)
        == ([], Some(Thrown(UndefinedVariable(c))))
  {
    var c := Tok(Identifier, "clock");
    var f := Tok(Identifier, "f");
    var paren := Tok(RightParen, ")");
    var inner := Call(Variable(c), paren, []);
    var ret := ReturnStmt(Some(inner));
    var d := FunctionDecl(f, [], [Some(ret)]);
    var s1 := FunctionStmt(d);
    var call := Call(Variable(f), paren, []);
    var s2 := ExpressionStmt(call);
    var err := Thrown(UndefinedVariable(c));
    var e: Bindings := map[];
    var g := Globals(now);
    var g1 := g["f" := Fn(LoxFn(d))];
    assert Exec(s1, g, [], fuel) == Run(Normal(()), g1, []);
    // the call's body
    assert BindParameters([], []) == e;
    assert Eval(Variable(c), e, [], fuel - 1) == Run(Abrupt(err), e, []);
    assert Eval(inner, e, [], fuel - 1) == Run(Abrupt(err), e, []);
    assert Exec(ret, e, [], fuel - 1) == Run(Abrupt(err), e, []);
    assert [Some(ret)] == [Some(ret)] + [];
    ExecListCons(ret, [], e, [], fuel - 1);
    assert CallUser(d, [], g1, [], fuel) == Run(Abrupt(err), g1, []);
    // the call expression
    assert Eval(Variable(f), g1, [], fuel) == Run(Normal(Fn(LoxFn(d))), g1, []);
    assert EvalArgs([], g1, [], fuel) == Run(Normal([]), g1, []);
    CallRule(Variable(f), paren, [], g1, [], fuel, d, []);
    AbruptRule(call, g1, [], fuel, err, g1, []);
    assert [Some(s1), Some(s2)] == [Some(s1)] + ([Some(s2)] + []);
    ExecListCons(s1, [Some(s2)] + [], g, [], fuel);
    ExecListCons(s2, [], g1, [], fuel);
  }

  /// `clock()` at the top level yields the reading the interpreter was
  /// built with: `print clock();` prints `now`.
  lemma ClockReading(now: real, fuel: nat)
    ensures var c := Tok(Identifier, "clock");
      Interpret([Some(PrintStmt(Call(Variable(c), Tok(RightParen, ")"), [])))], now, fuel)
        == ([Num(Finite(now))], None)
  {
    var c := Tok(Identifier, "clock");
    var paren := Tok(RightParen, ")");
    var call := Call(Variable(c), paren, []);
    var g := Globals(now);
    var clock := Fn(Native(0, Num(Finite(now))));
    assert Eval(Variable(c), g, [], fuel) == Run(Normal(clock), g, []);
    assert EvalArgs([], g, [], fuel) == Run(Normal([]), g, []);
    assert EvalCall(Variable(c), paren, [], g, [], fuel) == CallValue(clock, paren, [], g, [], fuel);
    assert Eval(call, g, [], fuel) == Run(Normal(Num(Finite(now))), g, []);
    PrintRule(call, g, [], fuel, Num(Finite(now)), g, []);
    assert [] + [Num(Finite(now))] == [Num(Finite(now))];
    assert [Some(PrintStmt(call))] == [Some(PrintStmt(call))] + [];
    ExecListCons(PrintStmt(call), [], g, [], fuel);
  }

  /// `while (i < 3) i = i + 1;`
  function CountingLoopStmt(): Stmt
  {
    var i := Tok(Identifier, "i");
    WhileStmt(Binary(Variable(i), Tok(Less, "<"), Number(3.0)),
              ExpressionStmt(Assign(i, Binary(Variable(i), Tok(Plus, "+"), Number(1.0)))))
  }

  /// The loop's condition with `i` bound to `k`.
  lemma CountingCondition(env: Bindings, k: real, fuel: nat)
    requires "i" in env && env["i"] == Num(Finite(k))
    ensures Eval(CountingLoopStmt().condition, env, [], fuel) == Run(Normal(Bool(k < 3.0)), env, [])
  {
    var i := Tok(Identifier, "i");
    var less := Tok(Less, "<");
    assert Eval(Number(3.0), env, [], fuel) == Run(Normal(Num(Finite(3.0))), env, []);
    assert Eval(Variable(i), env, [], fuel) == Run(Normal(Num(Finite(k))), env, []);
    assert BinaryOp(less, Num(Finite(k)), Num(Finite(3.0))) == Ok(Bool(k < 3.0));
    assert Eval(Binary(Variable(i), less, Number(3.0)), env, [], fuel)
        == EvalBinary(Variable(i), less, Number(3.0), env, [], fuel);
  }

  /// The loop's body with `i` bound to `k`.
  lemma CountingBody(env: Bindings, k: real, fuel: nat)
    requires "i" in env && env["i"] == Num(Finite(k))
    ensures Exec(CountingLoopStmt().body, env, [], fuel) == Run(Normal(()), env["i" := Num(Finite(k + 1.0))], [])
  {
    var i := Tok(Identifier, "i");
    var plus := Tok(Plus, "+");
    var sum := Binary(Variable(i), plus, Number(1.0));
    var next := Num(Finite(k + 1.0));
    assert Eval(Number(1.0), env, [], fuel) == Run(Normal(Num(Finite(1.0))), env, []);
    assert Eval(Variable(i), env, [], fuel) == Run(Normal(Num(Finite(k))), env, []);
    assert BinaryOp(plus, Num(Finite(k)), Num(Finite(1.0))) == Ok(next);
    assert Eval(sum, env, [], fuel) == EvalBinary(Variable(i), plus, Number(1.0), env, [], fuel);
    assert Eval(sum, env, [], fuel) == Run(Normal(next), env, []);
    assert Eval(Assign(i, sum), env, [], fuel) == Run(Normal(next), env["i" := next], []);
    ExpressionRule(Assign(i, sum), env, [], fuel, next, env["i" := next], []);
  }

  /// One iteration of the loop from `i` bound to `k` below 3.
  lemma CountingStep(env: Bindings, k: real, fuel: nat)
    requires "i" in env && env["i"] == Num(Finite(k)) && k < 3.0 && fuel > 0
    ensures Exec(CountingLoopStmt(), env, [], fuel) == Exec(CountingLoopStmt(), env["i" := Num(Finite(k + 1.0))], [], fuel - 1)
  {
    var loop := CountingLoopStmt();
    CountingCondition(env, k, fuel);
    CountingBody(env, k, fuel);
    assert Exec(loop, env, [], fuel) == ExecWhile(loop.condition, loop.body, env, [], fuel);
    assert Exec(loop, env["i" := Num(Finite(k + 1.0))], [], fuel - 1)
        == ExecWhile(loop.condition, loop.body, env["i" := Num(Finite(k + 1.0))], [], fuel - 1);
  }

  /// The loop exits once `i` reaches 3.
  lemma CountingExit(env: Bindings, fuel: nat)
    requires "i" in env && env["i"] == Num(Finite(3.0))
    ensures Exec(CountingLoopStmt(), env, [], fuel) == Run(Normal(()), env, [])
  {
    var loop := CountingLoopStmt();
    CountingCondition(env, 3.0, fuel);
    assert Exec(loop, env, [], fuel) == ExecWhile(loop.condition, loop.body, env, [], fuel);
  }

  /// `var i = 0; while (i < 3) i = i + 1; print i;` prints 3 when the
  /// loop may iterate three times, with the corrected assignment (`Rebind`).
  lemma CountingLoop(now: real, fuel: nat)
    requires fuel >= 3
    ensures var i := Tok(Identifier, "i");
      Interpret([Some(VarStmt(i, Some(Number(0.0)))), Some(CountingLoopStmt()), Some(PrintStmt(Variable(i)))], now, fuel)
        == ([Num(Finite(3.0))], None)
  {
    var i := Tok(Identifier, "i");
    var s1, s2, s3 := VarStmt(i, Some(Number(0.0))), CountingLoopStmt(), PrintStmt(Variable(i));
    var g := Globals(now);
    var e0 := g["i" := Num(Finite(0.0))];
    var e1 := e0["i" := Num(Finite(1.0))];
    var e2 := e1["i" := Num(Finite(2.0))];
    var e3 := e2["i" := Num(Finite(3.0))];
    VarRule(i, Number(0.0), g, [], fuel, Num(Finite(0.0)), g, []);
    CountingStep(e0, 0.0, fuel);
    CountingStep(e1, 1.0, fuel - 1);
    CountingStep(e2, 2.0, fuel - 2);
    CountingExit(e3, fuel - 3);
    assert Eval(Variable(i), e3, [], fuel) == Run(Normal(Num(Finite(3.0))), e3, []);
    PrintRule(Variable(i), e3, [], fuel, Num(Finite(3.0)), e3, []);
    assert [] + [Num(Finite(3.0))] == [Num(Finite(3.0))];
    assert [Some(s1), Some(s2), Some(s3)] == [Some(s1)] + ([Some(s2)] + ([Some(s3)] + []));
    ExecListCons(s1, [Some(s2)] + ([Some(s3)] + []), g, [], fuel);
    ExecListCons(s2, [Some(s3)] + [], e0, [], fuel);
    ExecListCons(s3, [], e3, [], fuel);
  }

  /// A loop whose condition stays true exhausts any fuel:
  /// `while (true) {}` never finishes.
  lemma {:induction false} InfiniteLoopRunsOut(env: Bindings, out: seq<Value>, fuel: nat)
    ensures ExecWhile(Literal(BoolLit(true)), BlockStmt([]), env, out, fuel) == Run(Abrupt(OutOfFuel), env, out)
    decreases fuel
  {
    assert ExecList([], map[], out, fuel) == Run(Normal(()), map[], out);
    assert Exec(BlockStmt([]), env, out, fuel) == ExecBlock([], map[], env, out, fuel);
    if fuel > 0 {
      InfiniteLoopRunsOut(env, out, fuel - 1);
    }
  }
}
