/// The statement rules of `src/Parser.js` as functions, on top of the
/// expression rules of `Grammar`, and the entry points of both parsers.
module StmtGrammar {
  import opened Common
  import opened Syntax
  import opened Grammar

  // ---------------------------------------------------------------------
  // What the statement rules build

  /// No statement the parser builds is a function declaration or a
  /// `return`, and every expression in it is well nested.
  predicate BuiltStmt(s: Stmt)
    decreases s
  {
    match s
    case ExpressionStmt(e) => WellNested(e)
    case PrintStmt(e) => WellNested(e)
    case VarStmt(name, init) => name.kind == Identifier && (init.Some? ==> WellNested(init.value))
    case BlockStmt(ss) => BuiltList(ss)
    case IfStmt(c, t, el) => WellNested(c) && BuiltStmt(t) && (el.Some? ==> BuiltStmt(el.value))
    case WhileStmt(c, b) => WellNested(c) && BuiltStmt(b)
    case FunctionStmt(_) => false
    case ReturnStmt(_) => false
  }

  predicate BuiltList(ss: StmtList)
    decreases ss
  {
    forall i :: 0 <= i < |ss| ==> BuiltOpt(ss[i])
  }

  predicate BuiltOpt(o: Option<Stmt>)
    decreases o
  {
    o.Some? ==> BuiltStmt(o.value)
  }

  /// The number of `null` entries that failed declarations left in `s`, at
  /// any depth.
  function StmtFailures(s: Stmt): nat
    decreases s
  {
    match s
    case BlockStmt(ss) => ListFailures(ss)
    case IfStmt(_, t, el) => StmtFailures(t) + (if el.Some? then StmtFailures(el.value) else 0)
    case WhileStmt(_, b) => StmtFailures(b)
    case _ => 0
  }

  function ListFailures(ss: StmtList): nat
    decreases ss
  {
    if ss == [] then 0
    else OptFailures(ss[0]) + ListFailures(ss[1..])
  }

  function OptFailures(o: Option<Stmt>): nat
    decreases o
  {
    if o.Some? then StmtFailures(o.value) else 1
  }

  /// What a statement rule promises of what it builds: a tree of the
  /// parser's shapes, with no more `null` entries than errors it reported.
  predicate YieldsStmt(st: PState, r: Parse<Stmt>)
  {
    r.Parsed? ==> BuiltStmt(r.value) && |st.reported| + StmtFailures(r.value) <= |r.st.reported|
  }

  predicate YieldsOpt(st: PState, r: Parse<Option<Stmt>>)
  {
    r.Parsed? ==> r.value.Some? ==> BuiltStmt(r.value.value) && |st.reported| + StmtFailures(r.value.value) <= |r.st.reported|
  }

  predicate YieldsList(st: PState, r: Parse<StmtList>)
  {
    r.Parsed? ==> BuiltList(r.value) && |st.reported| + ListFailures(r.value) <= |r.st.reported|
  }

  lemma {:induction false} ListFailuresAppend(ss: StmtList, s: Option<Stmt>)
    ensures ListFailures(ss + [s]) == ListFailures(ss) + OptFailures(s)
    ensures BuiltList(ss) && BuiltOpt(s) ==> BuiltList(ss + [s])
    decreases |ss|
  {
    if ss == [] {
      assert [s][1..] == [];
    } else {
      assert (ss + [s])[1..] == ss[1..] + [s];
      ListFailuresAppend(ss[1..], s);
    }
  }

  // ---------------------------------------------------------------------
  // Error recovery

  /// The keywords that start a statement, before which `_synchronize` stops.
  const StatementKeywords: set<TokenType> :=
    {ClassKw, FunKw, VarKw, ForKw, IfKw, WhileKw, PrintKw, ReturnKw}

  /// A place where `_synchronize` stops: at EOF, just after a `;`, or just
  /// before a keyword that starts a statement.
  predicate Boundary(ts: seq<Token>, pos: nat)
    requires 0 < pos < |ts|
  {
    AtEnd(ts, pos) || ts[pos - 1].kind == Semicolon || ts[pos].kind in StatementKeywords
  }

  /// The loop of `_synchronize`: advance until a boundary.
  function SyncFrom(ts: seq<Token>, pos: nat): (r: nat)
    requires ValidTokens(ts) && 0 < pos < |ts|
    ensures pos <= r < |ts| && Boundary(ts, r)
    ensures forall k :: pos <= k < r ==> !Boundary(ts, k)
    decreases |ts| - pos
  {
    if Boundary(ts, pos) then pos else SyncFrom(ts, pos + 1)
  }

  /// `_synchronize`: discard the current token, then the tokens up to the
  /// first boundary after it. The result is the first boundary after `pos`,
  /// or `pos` itself when it is at EOF.
  function Synchronize(ts: seq<Token>, pos: nat): (r: nat)
    requires ValidTokens(ts) && pos < |ts|
    ensures r < |ts|
    ensures AtEnd(ts, pos) ==> r == pos
    ensures !AtEnd(ts, pos) ==> pos < r && Boundary(ts, r) && forall k :: pos < k < r ==> !Boundary(ts, k)
  {
    if AtEnd(ts, pos) then pos else SyncFrom(ts, pos + 1)
  }

  /// Synchronising never passes an EOF token.
  lemma SynchronizeWithin(ts: seq<Token>, st: PState)
    requires ValidTokens(ts) && Within(ts, st)
    ensures Within(ts, PState(Synchronize(ts, st.pos), st.reported))
  {
    var r := Synchronize(ts, st.pos);
    forall k | st.pos < k < r
      ensures ts[k].kind != Eof
    {
      assert !Boundary(ts, k);
    }
  }

  /// The `catch` of `_declaration`: a thrown error leaves a `null` entry
  /// and recovery resumes at the next statement boundary.
  function Recover(ts: seq<Token>, ghost st: PState, r: Parse<Stmt>): (d: Parse<Option<Stmt>>)
    requires ValidTokens(ts) && Within(ts, st) && Advances(ts, st, r) && Consumes(st, r) && YieldsStmt(st, r)
    ensures d.Parsed? && Advances(ts, st, d) && YieldsOpt(st, d)
    ensures d.value.Some? <==> r.Parsed?
    ensures d.value.None? ==> |st.reported| < |d.st.reported|
    ensures !AtEnd(ts, st.pos) ==> st.pos < d.st.pos
    ensures r.Parsed? ==> d.st == r.st
  {
    match r
    case Parsed(s, s') => Parsed(Some(s), s')
    case Thrown(_, s') =>
      SynchronizeWithin(ts, s');
      Parsed(None, PState(Synchronize(ts, s'.pos), s'.reported))
  }

  // ---------------------------------------------------------------------
  // Statements. As in `Grammar`, the second component of each `decreases`
  // ranks the rules that may call one another without consuming a token.

  /// `_declaration`: a variable declaration or a statement; a thrown error
  /// is caught and leaves a `null` entry. A declaration that starts before
  /// EOF consumes at least one token, so `parse` and `_block` terminate.
  function Declaration(ts: seq<Token>, st: PState): (r: Parse<Option<Stmt>>)
    requires ValidTokens(ts) && Within(ts, st)
    ensures r.Parsed? && Advances(ts, st, r) && YieldsOpt(st, r)
    ensures !AtEnd(ts, st.pos) ==> st.pos < r.st.pos
    ensures r.value.None? ==> |st.reported| < |r.st.reported|
    decreases |ts| - st.pos, 39
  {
    Recover(ts, st, Attempt(ts, st))
  }

  /// The `try` block of `_declaration`.
  function Attempt(ts: seq<Token>, st: PState): (r: Parse<Stmt>)
    requires ValidTokens(ts) && Within(ts, st)
    ensures Advances(ts, st, r) && Consumes(st, r) && YieldsStmt(st, r)
    decreases |ts| - st.pos, 38
  {
    if Check(ts, st.pos, VarKw) then VarDeclaration(ts, Next(ts, st))
    else Statement(ts, st)
  }

  /// `_varDeclaration`, after `var`: a name, an optional `=` initializer and
  /// a `;`.
  function VarDeclaration(ts: seq<Token>, st: PState): (r: Parse<Stmt>)
    requires ValidTokens(ts) && Within(ts, st)
    ensures Advances(ts, st, r) && Consumes(st, r) && YieldsStmt(st, r)
    decreases |ts| - st.pos, 36
  {
    match Consume(ts, st, Identifier, "Expect variable name.")
    case Thrown(e, s) => Thrown(e, s)
    case Parsed(name, s) =>
      match Initializer(ts, s)
      case Thrown(e, s') => Thrown(e, s')
      case Parsed(init, s') =>
        match Consume(ts, s', Semicolon, "Expect ';' after variable declaration.")
        case Thrown(e, s'') => Thrown(e, s'')
        case Parsed(_, s'') => Parsed(VarStmt(name, init), s'')
  }

  /// The optional `= expression` of a variable declaration.
  function Initializer(ts: seq<Token>, st: PState): (r: Parse<Option<Expr>>)
    requires ValidTokens(ts) && Within(ts, st)
    ensures Advances(ts, st, r)
    ensures r.Parsed? && r.value.Some? ==> WellNested(r.value.value)
    ensures r.Parsed? && r.value.None? ==> r.st == st
    decreases |ts| - st.pos, 35
  {
    if Check(ts, st.pos, Equal) then
      match Expression(ts, Statements, Next(ts, st))
      case Thrown(e, s) => Thrown(e, s)
      case Parsed(v, s) => Parsed(Some(v), s)
    else Parsed(None, st)
  }

  /// `_statement`.
  function Statement(ts: seq<Token>, st: PState): (r: Parse<Stmt>)
    requires ValidTokens(ts) && Within(ts, st)
    ensures Advances(ts, st, r) && Consumes(st, r) && YieldsStmt(st, r)
    decreases |ts| - st.pos, 37, 2
  {
    if Check(ts, st.pos, ForKw) then ForStatement(ts, Next(ts, st))
    else if Check(ts, st.pos, IfKw) then IfStatement(ts, Next(ts, st))
    else if Check(ts, st.pos, PrintKw) then PrintStatement(ts, Next(ts, st))
    else OtherStatement(ts, st)
  }

  /// The rest of the chain of `_statement`: `while`, a block, or an
  /// expression statement.
  function OtherStatement(ts: seq<Token>, st: PState): (r: Parse<Stmt>)
    requires ValidTokens(ts) && Within(ts, st)
    ensures Advances(ts, st, r) && Consumes(st, r) && YieldsStmt(st, r)
    decreases |ts| - st.pos, 37, 1
  {
    if Check(ts, st.pos, WhileKw) then WhileStatement(ts, Next(ts, st))
    else BlockOrExpression(ts, st)
  }

  /// The last two links of the chain of `_statement`.
  function BlockOrExpression(ts: seq<Token>, st: PState): (r: Parse<Stmt>)
    requires ValidTokens(ts) && Within(ts, st)
    ensures Advances(ts, st, r) && Consumes(st, r) && YieldsStmt(st, r)
    decreases |ts| - st.pos, 37, 0
  {
    if Check(ts, st.pos, LeftBrace) then BlockStatement(ts, Next(ts, st))
    else ExpressionStatement(ts, st)
  }

  /// The branches of `Statement` one by one.
  lemma StatementCases(ts: seq<Token>, st: PState)
    requires ValidTokens(ts) && Within(ts, st)
    ensures Check(ts, st.pos, ForKw) ==> Statement(ts, st) == ForStatement(ts, Next(ts, st))
    ensures !Check(ts, st.pos, ForKw) && Check(ts, st.pos, IfKw) ==> Statement(ts, st) == IfStatement(ts, Next(ts, st))
    ensures !Check(ts, st.pos, ForKw) && !Check(ts, st.pos, IfKw) && Check(ts, st.pos, PrintKw) ==>
      Statement(ts, st) == PrintStatement(ts, Next(ts, st))
    ensures !Check(ts, st.pos, ForKw) && !Check(ts, st.pos, IfKw) && !Check(ts, st.pos, PrintKw) ==>
      Statement(ts, st) == OtherStatement(ts, st)
  {
  }

  /// The branches of `OtherStatement` one by one.
  lemma OtherStatementCases(ts: seq<Token>, st: PState)
    requires ValidTokens(ts) && Within(ts, st)
    ensures Check(ts, st.pos, WhileKw) ==> OtherStatement(ts, st) == WhileStatement(ts, Next(ts, st))
    ensures !Check(ts, st.pos, WhileKw) ==> OtherStatement(ts, st) == BlockOrExpression(ts, st)
  {
  }

  /// The branches of `BlockOrExpression`.
  lemma BlockOrExpressionCases(ts: seq<Token>, st: PState)
    requires ValidTokens(ts) && Within(ts, st)
    ensures Check(ts, st.pos, LeftBrace) ==> BlockOrExpression(ts, st) == BlockStatement(ts, Next(ts, st))
    ensures !Check(ts, st.pos, LeftBrace) ==> BlockOrExpression(ts, st) == ExpressionStatement(ts, st)
  {
  }

  /// `new Stmt.Block(this._block())`, after `{`.
  function BlockStatement(ts: seq<Token>, st: PState): (r: Parse<Stmt>)
    requires ValidTokens(ts) && Within(ts, st)
    ensures Advances(ts, st, r) && Consumes(st, r) && YieldsStmt(st, r)
    decreases |ts| - st.pos, 42
  {
    match Block(ts, st)
    case Thrown(e, s) => Thrown(e, s)
    case Parsed(ss, s) => Parsed(BlockStmt(ss), s)
  }

  /// The loop that `for (init; cond; incr) body` becomes: `body` followed by
  /// `incr` is repeated while `cond` (true when absent) holds, after `init`.
  function Desugar(init: Option<Stmt>, cond: Option<Expr>, incr: Option<Expr>, body: Stmt): (s: Stmt)
    ensures init.None? ==> s.WhileStmt?
    ensures init.Some? ==> s.BlockStmt? && |s.statements| == 2 && s.statements[0] == init
    ensures init.Some? ==> s.statements[1].Some? && s.statements[1].value.WhileStmt?
    ensures var loop := if init.Some? then s.statements[1].value else s;
      && loop.condition == (if cond.Some? then cond.value else Literal(BoolLit(true)))
      && (incr.None? ==> loop.body == body)
      && (incr.Some? ==> loop.body == BlockStmt([Some(body), Some(ExpressionStmt(incr.value))]))
  {
    var body' := if incr.Some? then BlockStmt([Some(body), Some(ExpressionStmt(incr.value))]) else body;
    var loop := WhileStmt(if cond.Some? then cond.value else Literal(BoolLit(true)), body');
    if init.Some? then BlockStmt([init, Some(loop)]) else loop
  }

  /// The desugared loop holds `init`, `cond`, `incr` and `body` and no
  /// other statement or expression, so it is built from them and keeps
  /// their `null` entries.
  lemma DesugarBuilt(init: Option<Stmt>, cond: Option<Expr>, incr: Option<Expr>, body: Stmt)
    requires init.Some? ==> BuiltStmt(init.value)
    requires cond.Some? ==> WellNested(cond.value)
    requires incr.Some? ==> WellNested(incr.value)
    requires BuiltStmt(body)
    ensures BuiltStmt(Desugar(init, cond, incr, body))
    ensures StmtFailures(Desugar(init, cond, incr, body)) ==
              (if init.Some? then StmtFailures(init.value) else 0) + StmtFailures(body)
  {
    var body' := if incr.Some? then BlockStmt([Some(body), Some(ExpressionStmt(incr.value))]) else body;
    if incr.Some? {
      assert [Some(body), Some(ExpressionStmt(incr.value))][1..] == [Some(ExpressionStmt(incr.value))];
      assert [Some(ExpressionStmt(incr.value))][1..] == [];
      assert OptFailures(Some(ExpressionStmt(incr.value))) == 0;
      assert ListFailures([Some(ExpressionStmt(incr.value))]) == 0 + ListFailures([]);
      assert ListFailures([Some(body), Some(ExpressionStmt(incr.value))]) ==
             OptFailures(Some(body)) + ListFailures([Some(ExpressionStmt(incr.value))]);
      assert StmtFailures(body') == StmtFailures(body);
      assert BuiltList([Some(body), Some(ExpressionStmt(incr.value))]);
    }
    var loop := WhileStmt(if cond.Some? then cond.value else Literal(BoolLit(true)), body');
    assert BuiltStmt(loop);
    assert StmtFailures(loop) == StmtFailures(body');
    if init.Some? {
      assert [init, Some(loop)][1..] == [Some(loop)];
      assert [Some(loop)][1..] == [];
      assert ListFailures([Some(loop)]) == OptFailures(Some(loop)) + ListFailures([]);
      assert ListFailures([init, Some(loop)]) == OptFailures(init) + ListFailures([Some(loop)]);
      assert BuiltList([init, Some(loop)]);
    }
  }

  /// `_forStatement`, after `for`.
  function ForStatement(ts: seq<Token>, st: PState): (r: Parse<Stmt>)
    requires ValidTokens(ts) && Within(ts, st)
    ensures Advances(ts, st, r) && Consumes(st, r) && YieldsStmt(st, r)
    decreases |ts| - st.pos, 37
  {
    match Consume(ts, st, LeftParen, "Expect '(' after 'for'.")
    case Thrown(e, s) => Thrown(e, s)
    case Parsed(_, s1) =>
      match ForInitializer(ts, s1)
      case Thrown(e, s) => Thrown(e, s)
      case Parsed(init, s2) => ForCondition(ts, st, init, s2)
  }

  /// The first clause of a `for`: empty (`;`), a variable declaration or an
  /// expression statement.
  function ForInitializer(ts: seq<Token>, st: PState): (r: Parse<Option<Stmt>>)
    requires ValidTokens(ts) && Within(ts, st)
    ensures Advances(ts, st, r) && Consumes(st, r) && YieldsOpt(st, r)
    decreases |ts| - st.pos, 37
  {
    if Check(ts, st.pos, Semicolon) then Parsed(None, Next(ts, st))
    else
      match (if Check(ts, st.pos, VarKw) then VarDeclaration(ts, Next(ts, st)) else ExpressionStatement(ts, st))
      case Thrown(e, s) => Thrown(e, s)
      case Parsed(init, s) => Parsed(Some(init), s)
  }

  /// The condition clause of a `for` and its `;`.
  function ForCondition(ts: seq<Token>, ghost st0: PState, init: Option<Stmt>, st: PState): (r: Parse<Stmt>)
    requires ValidTokens(ts) && Within(ts, st) && st0.pos < st.pos && st0.reported <= st.reported
    requires init.Some? ==> BuiltStmt(init.value) && |st0.reported| + StmtFailures(init.value) <= |st.reported|
    ensures Advances(ts, st, r) && Consumes(st0, r) && YieldsStmt(st0, r)
    decreases |ts| - st.pos, 36
  {
    match OptExpression(ts, st, Semicolon)
    case Thrown(e, s) => Thrown(e, s)
    case Parsed(cond, s) =>
      match Consume(ts, s, Semicolon, "Expect ';' after loop condition.")
      case Thrown(e, s') => Thrown(e, s')
      case Parsed(_, s') => ForIncrement(ts, st0, init, cond, s')
  }

  /// The increment clause of a `for`, its `)` and the body, desugared.
  function ForIncrement(ts: seq<Token>, ghost st0: PState, init: Option<Stmt>, cond: Option<Expr>, st: PState): (r: Parse<Stmt>)
    requires ValidTokens(ts) && Within(ts, st) && st0.pos < st.pos && st0.reported <= st.reported
    requires init.Some? ==> BuiltStmt(init.value) && |st0.reported| + StmtFailures(init.value) <= |st.reported|
    requires cond.Some? ==> WellNested(cond.value)
    ensures Advances(ts, st, r) && Consumes(st0, r) && YieldsStmt(st0, r)
    decreases |ts| - st.pos, 36
  {
    match OptExpression(ts, st, RightParen)
    case Thrown(e, s) => Thrown(e, s)
    case Parsed(incr, s) =>
      match Consume(ts, s, RightParen, "Expect ')' after for clauses.")
      case Thrown(e, s') => Thrown(e, s')
      case Parsed(_, s') => ForBody(ts, st0, init, cond, incr, s')
  }

  /// The body of a `for`, and the loop it desugars to.
  function ForBody(ts: seq<Token>, ghost st0: PState, init: Option<Stmt>, cond: Option<Expr>, incr: Option<Expr>, st: PState): (r: Parse<Stmt>)
    requires ValidTokens(ts) && Within(ts, st) && st0.pos < st.pos && st0.reported <= st.reported
    requires init.Some? ==> BuiltStmt(init.value) && |st0.reported| + StmtFailures(init.value) <= |st.reported|
    requires cond.Some? ==> WellNested(cond.value)
    requires incr.Some? ==> WellNested(incr.value)
    ensures Advances(ts, st, r) && Consumes(st0, r) && YieldsStmt(st0, r)
    decreases |ts| - st.pos, 38
  {
    match Statement(ts, st)
    case Thrown(e, s) => Thrown(e, s)
    case Parsed(body, s) =>
      DesugarBuilt(init, cond, incr, body);
      Parsed(Desugar(init, cond, incr, body), s)
  }

  /// An expression unless the current token is `stop`.
  function OptExpression(ts: seq<Token>, st: PState, stop: TokenType): (r: Parse<Option<Expr>>)
    requires ValidTokens(ts) && Within(ts, st)
    ensures Advances(ts, st, r)
    ensures r.Parsed? && r.value.Some? ==> WellNested(r.value.value)
    ensures r.Parsed? ==> (r.value.None? <==> Check(ts, st.pos, stop)) && st.reported <= r.st.reported
    decreases |ts| - st.pos, 35
  {
    if Check(ts, st.pos, stop) then Parsed(None, st)
    else
      match Expression(ts, Statements, st)
      case Thrown(e, s) => Thrown(e, s)
      case Parsed(v, s) => Parsed(Some(v), s)
  }

  /// `(` condition `)` of `if` and `while`, with their error messages.
  function ParenCondition(ts: seq<Token>, st: PState, openMessage: string, closeMessage: string): (r: Parse<Expr>)
    requires ValidTokens(ts) && Within(ts, st)
    ensures Advances(ts, st, r) && Consumes(st, r)
    ensures r.Parsed? ==> WellNested(r.value)
    decreases |ts| - st.pos, 35
  {
    match Consume(ts, st, LeftParen, openMessage)
    case Thrown(e, s) => Thrown(e, s)
    case Parsed(_, s) =>
      match Expression(ts, Statements, s)
      case Thrown(e, s') => Thrown(e, s')
      case Parsed(cond, s') =>
        match Consume(ts, s', RightParen, closeMessage)
        case Thrown(e, s'') => Thrown(e, s'')
        case Parsed(_, s'') => Parsed(cond, s'')
  }

  /// `_whileStatement`, after `while`.
  function WhileStatement(ts: seq<Token>, st: PState): (r: Parse<Stmt>)
    requires ValidTokens(ts) && Within(ts, st)
    ensures Advances(ts, st, r) && Consumes(st, r) && YieldsStmt(st, r)
    decreases |ts| - st.pos, 37
  {
    match ParenCondition(ts, st, "Expect '(' after 'while'.", "Expect ')' after 'condition'.")
    case Thrown(e, s) => Thrown(e, s)
    case Parsed(cond, s) => WhileBody(ts, st, cond, s)
  }

  /// The body of a `while`, after its condition.
  function WhileBody(ts: seq<Token>, ghost st0: PState, cond: Expr, st: PState): (r: Parse<Stmt>)
    requires ValidTokens(ts) && Within(ts, st) && st0.pos < st.pos && st0.reported <= st.reported
    requires WellNested(cond)
    ensures Advances(ts, st, r) && Consumes(st0, r) && YieldsStmt(st0, r)
    decreases |ts| - st0.pos, 36
  {
    match Statement(ts, st)
    case Thrown(e, s) => Thrown(e, s)
    case Parsed(body, s) => Parsed(WhileStmt(cond, body), s)
  }

  /// `_ifStatement`, after `if`: the `else` branch binds to the nearest `if`.
  function IfStatement(ts: seq<Token>, st: PState): (r: Parse<Stmt>)
    requires ValidTokens(ts) && Within(ts, st)
    ensures Advances(ts, st, r) && Consumes(st, r) && YieldsStmt(st, r)
    decreases |ts| - st.pos, 37
  {
    match ParenCondition(ts, st, "Expect '(' after 'if'.", "Expect ')' after 'if'.")
    case Thrown(e, s) => Thrown(e, s)
    case Parsed(cond, s) =>
      match Statement(ts, s)
      case Thrown(e, s') => Thrown(e, s')
      case Parsed(thenBranch, s') => ElseBranch(ts, st, cond, thenBranch, s')
  }

  /// The optional `else` of an `if`.
  function ElseBranch(ts: seq<Token>, ghost st0: PState, cond: Expr, thenBranch: Stmt, st: PState): (r: Parse<Stmt>)
    requires ValidTokens(ts) && Within(ts, st) && st0.pos < st.pos && st0.reported <= st.reported
    requires WellNested(cond) && BuiltStmt(thenBranch) && |st0.reported| + StmtFailures(thenBranch) <= |st.reported|
    ensures Advances(ts, st, r) && Consumes(st0, r) && YieldsStmt(st0, r)
    decreases |ts| - st.pos, 36
  {
    if Check(ts, st.pos, ElseKw) then
      match Statement(ts, Next(ts, st))
      case Thrown(e, s) => Thrown(e, s)
      case Parsed(elseBranch, s) => Parsed(IfStmt(cond, thenBranch, Some(elseBranch)), s)
    else Parsed(IfStmt(cond, thenBranch, None), st)
  }

  /// An expression and its `;` (`_printStatement` and
  /// `_expressionStatement` share the message "Expect ';' after value.").
  function Terminated(ts: seq<Token>, st: PState): (r: Parse<Expr>)
    requires ValidTokens(ts) && Within(ts, st)
    ensures Advances(ts, st, r) && Consumes(st, r)
    ensures r.Parsed? ==> WellNested(r.value)
    decreases |ts| - st.pos, 35
  {
    match Expression(ts, Statements, st)
    case Thrown(e, s) => Thrown(e, s)
    case Parsed(v, s) =>
      match Consume(ts, s, Semicolon, "Expect ';' after value.")
      case Thrown(e, s') => Thrown(e, s')
      case Parsed(_, s') => Parsed(v, s')
  }

  /// `_printStatement`, after `print`.
  function PrintStatement(ts: seq<Token>, st: PState): (r: Parse<Stmt>)
    requires ValidTokens(ts) && Within(ts, st)
    ensures Advances(ts, st, r) && Consumes(st, r) && YieldsStmt(st, r)
    decreases |ts| - st.pos, 36
  {
    match Terminated(ts, st)
    case Thrown(e, s) => Thrown(e, s)
    case Parsed(v, s) => Parsed(PrintStmt(v), s)
  }

  /// `_expressionStatement`.
  function ExpressionStatement(ts: seq<Token>, st: PState): (r: Parse<Stmt>)
    requires ValidTokens(ts) && Within(ts, st)
    ensures Advances(ts, st, r) && Consumes(st, r) && YieldsStmt(st, r)
    decreases |ts| - st.pos, 36
  {
    match Terminated(ts, st)
    case Thrown(e, s) => Thrown(e, s)
    case Parsed(v, s) => Parsed(ExpressionStmt(v), s)
  }

  /// `_block`, after `{`: declarations up to `}`.
  function Block(ts: seq<Token>, st: PState): (r: Parse<StmtList>)
    requires ValidTokens(ts) && Within(ts, st)
    ensures Advances(ts, st, r) && Consumes(st, r) && YieldsList(st, r)
    decreases |ts| - st.pos, 41
  {
    var items := BlockItems(ts, st, []);
    match Consume(ts, items.st, RightBrace, "Expect '}' after block.")
    case Thrown(e, s) => Thrown(e, s)
    case Parsed(_, s) => Parsed(items.value, s)
  }

  /// The loop of `_block`: declarations are appended to `acc` until `}` or
  /// EOF.
  function BlockItems(ts: seq<Token>, st: PState, acc: StmtList): (r: Parse<StmtList>)
    requires ValidTokens(ts) && Within(ts, st)
    ensures r.Parsed? && Advances(ts, st, r)
    ensures BuiltList(acc) ==> BuiltList(r.value)
    ensures |st.reported| + ListFailures(r.value) <= |r.st.reported| + ListFailures(acc)
    ensures AtEnd(ts, r.st.pos) || Check(ts, r.st.pos, RightBrace)
    decreases |ts| - st.pos, 40
  {
    if !Check(ts, st.pos, RightBrace) && !AtEnd(ts, st.pos) then
      var d := Declaration(ts, st);
      ListFailuresAppend(acc, d.value);
      BlockItems(ts, d.st, acc + [d.value])
    else Parsed(acc, st)
  }

  // ---------------------------------------------------------------------
  // Entry points

  /// The loop of `parse`: declarations are appended to `acc` until EOF.
  function Declarations(ts: seq<Token>, st: PState, acc: StmtList): (r: (StmtList, PState))
    requires ValidTokens(ts) && Within(ts, st)
    ensures Within(ts, r.1) && AtEnd(ts, r.1.pos) && st.reported <= r.1.reported
    ensures BuiltList(acc) ==> BuiltList(r.0)
    ensures |st.reported| + ListFailures(r.0) <= |r.1.reported| + ListFailures(acc)
    decreases |ts| - st.pos
  {
    if AtEnd(ts, st.pos) then (acc, st)
    else
      var d := Declaration(ts, st);
      ListFailuresAppend(acc, d.value);
      Declarations(ts, d.st, acc + [d.value])
  }

  /// `parse` of `src/Parser.js`: the statements of the whole token list and
  /// the errors reported. It reads up to EOF, every `null` entry is matched
  /// by a reported error, and so a parse that reported nothing has no `null`
  /// entry.
  function ParseProgram(ts: seq<Token>): (r: (StmtList, seq<ParseError>))
    requires ValidTokens(ts)
    ensures BuiltList(r.0)
    ensures ListFailures(r.0) <= |r.1|
  {
    var (ss, st) := Declarations(ts, PState(0, []), []);
    (ss, st.reported)
  }

  /// The `try` of `parse` in `Parser.js`: an expression, or `null` when it
  /// threw a parse error.
  function ExpressionOrNull(ts: seq<Token>, st: PState): (r: (Option<Expr>, PState))
    requires ValidTokens(ts) && Within(ts, st)
    ensures Within(ts, r.1) && st.reported <= r.1.reported
    ensures r.0.None? <==> |st.reported| < |r.1.reported|
    ensures r.0.Some? ==> ExprOnlyTree(r.0.value) && WellNested(r.0.value)
  {
    match Expression(ts, ExpressionsOnly, st)
    case Parsed(e, s) => (Some(e), s)
    case Thrown(_, s) => (None, s)
  }

  /// `parse` of `Parser.js`: one expression from the start of the token
  /// list, or `null` after a parse error, and the errors reported. Tokens
  /// after the expression are not looked at. The result is `null` exactly
  /// when an error was reported.
  function ParseExpression(ts: seq<Token>): (r: (Option<Expr>, seq<ParseError>))
    requires ValidTokens(ts)
    ensures r.0.None? <==> |r.1| > 0
    ensures r.0.Some? ==> ExprOnlyTree(r.0.value) && WellNested(r.0.value)
  {
    var (e, st) := ExpressionOrNull(ts, PState(0, []));
    (e, st.reported)
  }
}
