/// The two parser classes (`src/Parser.js` and the expression-only
/// `Parser.js`) as one class over a token list with a mutable cursor. The
/// `dialect` says which of the two grammars it follows. Every method is
/// proved to compute the matching function of `Grammar` or `StmtGrammar`:
/// the same tree, the same final cursor and the same reports.
module Parsing {
  import opened Common
  import opened Syntax
  import opened Grammar
  import opened StmtGrammar

  class Parser {
    const tokens: seq<Token>
    const dialect: Dialect
    var current: nat
    /// The errors handed to `Lox.parseError`, in order.
    var reported: seq<ParseError>

    ghost predicate Valid()
      reads this
    {
      ValidTokens(tokens) && Within(tokens, State())
    }

    function State(): PState
      reads this
    {
      PState(current, reported)
    }

    /// A method's result together with the state it leaves.
    function Outcome<T>(r: Result<T, ParseError>): Parse<T>
      reads this
    {
      match r
      case Ok(v) => Parsed(v, State())
      case Err(e) => Thrown(e, State())
    }

    constructor (tokens: seq<Token>, dialect: Dialect)
      requires ValidTokens(tokens)
      ensures Valid() && this.tokens == tokens && this.dialect == dialect
      ensures State() == PState(0, [])
    {
      this.tokens := tokens;
      this.dialect := dialect;
      current := 0;
      reported := [];
    }

    // -------------------------------------------------------------------
    // Cursor helpers

    function Peek(): Token
      reads this
      requires Valid()
    {
      tokens[current]
    }

    function Previous(): Token
      reads this
      requires Valid() && current > 0
    {
      tokens[current - 1]
    }

    predicate IsAtEnd()
      reads this
      requires Valid()
    {
      Peek().kind == Eof
    }

    /// `_check` for any of the kinds `ks`.
    predicate Check(ks: set<TokenType>)
      reads this
      requires Valid()
    {
      !IsAtEnd() && Peek().kind in ks
    }

    method Advance()
      requires Valid()
      modifies this
      ensures Valid() && current == AdvancePos(tokens, old(current)) && reported == old(reported)
    {
      if !IsAtEnd() {
        current := current + 1;
      }
    }

    /// `_match`: consume the current token when it has one of the kinds `ks`.
    method Match(ks: set<TokenType>) returns (matched: bool)
      requires Valid()
      modifies this
      ensures Valid() && matched == CheckAny(tokens, old(current), ks) && reported == old(reported)
      ensures current == if matched then old(current) + 1 else old(current)
    {
      matched := Check(ks);
      if matched {
        Advance();
      }
    }

    /// `_error`: report `message` at `token`.
    method Error(token: Token, message: string) returns (e: ParseError)
      requires Valid()
      modifies this
      ensures Valid() && current == old(current)
      ensures e == ParseError(token, message) && reported == old(reported) + [e]
    {
      e := ParseError(token, message);
      reported := reported + [e];
    }

    method Consume(k: TokenType, message: string) returns (r: Result<Token, ParseError>)
      requires Valid()
      modifies this
      ensures Valid() && Outcome(r) == Grammar.Consume(tokens, old(State()), k, message)
    {
      if Check({k}) {
        var t := Peek();
        Advance();
        return Ok(t);
      }
      var e := Error(Peek(), message);
      return Err(e);
    }

    // -------------------------------------------------------------------
    // Expressions

    method Expression() returns (r: Result<Expr, ParseError>)
      requires Valid()
      modifies this
      ensures Valid() && Outcome(r) == Grammar.Expression(tokens, dialect, old(State()))
      decreases |tokens| - current, 34
    {
      if dialect == Statements {
        r := Assignment();
      } else {
        r := BinaryLevel(2);
      }
    }

    method Assignment() returns (r: Result<Expr, ParseError>)
      requires Valid() && dialect == Statements
      modifies this
      ensures Valid() && Outcome(r) == Grammar.Assignment(tokens, dialect, old(State()))
      decreases |tokens| - current, 32
    {
      ghost var st0 := State();
      r := BinaryLevel(0);
      if r.Err? {
        return;
      }
      var target := r.value;
      if Check({Equal}) {
        ghost var s := State();
        var equals := Peek();
        Advance();
        var value := Assignment();
        if value.Err? {
          return value;
        }
        if target.Variable? {
          return Ok(Assign(target.name, value.value));
        }
        var _ := Error(equals, "Invalid assignment target.");
        assert Outcome(Ok(target)) == AssignValue(tokens, dialect, target, st0, s);
      }
    }

    /// `_or`, `_and`, `_equality`, `_comparison`, `_term` and `_factor`,
    /// for `lv` from 0 to 5.
    method BinaryLevel(lv: nat) returns (r: Result<Expr, ParseError>)
      requires Valid() && lv < 6 && (dialect == ExpressionsOnly ==> lv >= 2)
      modifies this
      ensures Valid() && Outcome(r) == Level(tokens, dialect, lv, old(State()))
      decreases |tokens| - current, 30 - 2 * lv
    {
      ghost var st0 := State();
      var left := Operand(lv);
      if left.Err? {
        return left;
      }
      var expr := left.value;
      while Check(LevelOps(lv))
        invariant Valid() && st0.pos < current && st0.reported <= reported
        invariant WellNested(expr) && Strength(expr) >= lv + 1
        invariant dialect == ExpressionsOnly ==> ExprOnlyTree(expr) && reported == st0.reported
        invariant LevelRest(tokens, dialect, lv, expr, st0, State()) == Level(tokens, dialect, lv, st0)
        decreases |tokens| - current
      {
        ghost var s := State();
        LevelRestCases(tokens, dialect, lv, expr, st0, s);
        var operator := Peek();
        Advance();
        assert State() == Next(tokens, s);
        var right := Operand(lv);
        if right.Err? {
          return right;
        }
        expr := Node(lv, expr, operator, right.value);
      }
      return Ok(expr);
    }

    method Operand(lv: nat) returns (r: Result<Expr, ParseError>)
      requires Valid() && lv < 6 && (dialect == ExpressionsOnly ==> lv >= 2)
      modifies this
      ensures Valid() && Outcome(r) == Grammar.Operand(tokens, dialect, lv, old(State()))
      decreases |tokens| - current, 29 - 2 * lv
    {
      if lv == 5 {
        r := Unary();
      } else {
        r := BinaryLevel(lv + 1);
      }
    }

    method Unary() returns (r: Result<Expr, ParseError>)
      requires Valid()
      modifies this
      ensures Valid() && Outcome(r) == Grammar.Unary(tokens, dialect, old(State()))
      decreases |tokens| - current, 18
    {
      ghost var s := State();
      UnaryCases(tokens, dialect, s);
      var matched := Match({Bang, Minus});
      if matched {
        var operator := Previous();
        assert State() == Next(tokens, s);
        var right := Unary();
        if right.Err? {
          return right;
        }
        return Ok(Expr.Unary(operator, right.value));
      }
      r := Primary();
    }

    method Primary() returns (r: Result<Expr, ParseError>)
      requires Valid()
      modifies this
      ensures Valid() && Outcome(r) == Grammar.Primary(tokens, dialect, old(State()))
      decreases |tokens| - current, 17
    {
      ghost var st0 := State();
      var atom := SingleTokenPrimary();
      if atom.Some? {
        return Ok(atom.value);
      }
      var matched := Match({LeftParen});
      if matched {
        r := Group(st0);
        return;
      }
      var e := Error(Peek(), "Expect expression.");
      return Err(e);
    }

    /// The first cases of `_primary`: a literal or (statement parser only)
    /// an identifier, consumed when present.
    method SingleTokenPrimary() returns (atom: Option<Expr>)
      requires Valid()
      modifies this
      ensures Valid() && atom == Atom(tokens, dialect, old(current)) && reported == old(reported)
      ensures current == if atom.Some? then old(current) + 1 else old(current)
    {
      var matched := Match({FalseKw});
      if matched {
        return Some(Literal(BoolLit(false)));
      }
      matched := Match({TrueKw});
      if matched {
        return Some(Literal(BoolLit(true)));
      }
      matched := Match({NilKw});
      if matched {
        return Some(Literal(NilLit));
      }
      matched := Match({NumberTok, StringTok});
      if matched {
        return Some(Literal(Previous().literal));
      }
      if dialect == Statements {
        matched := Match({Identifier});
        if matched {
          return Some(Variable(Previous()));
        }
      }
      return None;
    }

    /// The parenthesised case of `_primary`, after the `(`.
    method Group(ghost st0: PState) returns (r: Result<Expr, ParseError>)
      requires Valid() && st0.pos < current && st0.reported == reported
      modifies this
      ensures Valid() && Outcome(r) == Grammar.Group(tokens, dialect, st0, old(State()))
      decreases |tokens| - current, 35
    {
      var inner := Expression();
      if inner.Err? {
        return inner;
      }
      var close := Consume(RightParen, "Expect ')' after expression.");
      if close.Err? {
        return Err(close.error);
      }
      return Ok(Grouping(inner.value));
    }

    // -------------------------------------------------------------------
    // Statements

    /// `parse` of `src/Parser.js`: declarations until EOF.
    method Parse() returns (statements: StmtList)
      requires Valid() && dialect == Statements
      modifies this
      ensures Valid() && (statements, State()) == Declarations(tokens, old(State()), [])
    {
      statements := [];
      while !IsAtEnd()
        invariant Valid()
        invariant Declarations(tokens, State(), statements) == Declarations(tokens, old(State()), [])
        decreases |tokens| - current
      {
        var d := Declaration();
        statements := statements + [d];
      }
    }

    method Declaration() returns (d: Option<Stmt>)
      requires Valid() && dialect == Statements
      modifies this
      ensures Valid() && Parsed(d, State()) == StmtGrammar.Declaration(tokens, old(State()))
      decreases |tokens| - current, 39
    {
      ghost var s := State();
      var r := Attempt();
      d := Recover(s, r);
    }

    /// The `try` block of `_declaration`.
    method Attempt() returns (r: Result<Stmt, ParseError>)
      requires Valid() && dialect == Statements
      modifies this
      ensures Valid() && Outcome(r) == StmtGrammar.Attempt(tokens, old(State()))
      decreases |tokens| - current, 38
    {
      ghost var s := State();
      if Check({VarKw}) {
        assert StmtGrammar.Attempt(tokens, s) == StmtGrammar.VarDeclaration(tokens, Next(tokens, s));
        Advance();
        r := VarDeclaration();
      } else {
        assert StmtGrammar.Attempt(tokens, s) == StmtGrammar.Statement(tokens, s);
        r := Statement();
      }
    }

    /// The `catch` of `_declaration`: a thrown error leaves `null` after
    /// `_synchronize`.
    method Recover(ghost st0: PState, r: Result<Stmt, ParseError>) returns (d: Option<Stmt>)
      requires Valid() && Within(tokens, st0)
      requires Advances(tokens, st0, Outcome(r)) && Consumes(st0, Outcome(r)) && YieldsStmt(st0, Outcome(r))
      modifies this
      ensures Valid() && Parsed(d, State()) == StmtGrammar.Recover(tokens, st0, old(Outcome(r)))
    {
      if r.Err? {
        Synchronize();
        return None;
      }
      return Some(r.value);
    }

    method VarDeclaration() returns (r: Result<Stmt, ParseError>)
      requires Valid() && dialect == Statements
      modifies this
      ensures Valid() && Outcome(r) == StmtGrammar.VarDeclaration(tokens, old(State()))
      decreases |tokens| - current, 36
    {
      var name := Consume(Identifier, "Expect variable name.");
      if name.Err? {
        return Err(name.error);
      }
      var initializer := Initializer();
      if initializer.Err? {
        return Err(initializer.error);
      }
      var semicolon := Consume(Semicolon, "Expect ';' after variable declaration.");
      if semicolon.Err? {
        return Err(semicolon.error);
      }
      return Ok(VarStmt(name.value, initializer.value));
    }

    /// The optional `= expression` of `_varDeclaration`.
    method Initializer() returns (r: Result<Option<Expr>, ParseError>)
      requires Valid() && dialect == Statements
      modifies this
      ensures Valid() && Outcome(r) == StmtGrammar.Initializer(tokens, old(State()))
      decreases |tokens| - current, 35
    {
      if Check({Equal}) {
        Advance();
        var value := Expression();
        if value.Err? {
          return Err(value.error);
        }
        return Ok(Some(value.value));
      }
      return Ok(None);
    }

    method Statement() returns (r: Result<Stmt, ParseError>)
      requires Valid() && dialect == Statements
      modifies this
      ensures Valid() && Outcome(r) == StmtGrammar.Statement(tokens, old(State()))
      decreases |tokens| - current, 37, 2
    {
      ghost var s := State();
      StatementCases(tokens, s);
      if Check({ForKw}) {
        Advance();
        assert State() == Next(tokens, s);
        r := ForStatement();
        assert Outcome(r) == StmtGrammar.Statement(tokens, s);
      } else if Check({IfKw}) {
        Advance();
        assert State() == Next(tokens, s);
        r := IfStatement();
        assert Outcome(r) == StmtGrammar.Statement(tokens, s);
      } else if Check({PrintKw}) {
        Advance();
        assert State() == Next(tokens, s);
        r := PrintStatement();
        assert Outcome(r) == StmtGrammar.Statement(tokens, s);
      } else {
        r := OtherStatement();
        assert Outcome(r) == StmtGrammar.Statement(tokens, s);
      }
    }

    method OtherStatement() returns (r: Result<Stmt, ParseError>)
      requires Valid() && dialect == Statements
      modifies this
      ensures Valid() && Outcome(r) == StmtGrammar.OtherStatement(tokens, old(State()))
      decreases |tokens| - current, 37, 1
    {
      ghost var s := State();
      OtherStatementCases(tokens, s);
      if Check({WhileKw}) {
        Advance();
        assert State() == Next(tokens, s);
        r := WhileStatement();
        assert Outcome(r) == StmtGrammar.OtherStatement(tokens, s);
      } else {
        r := BlockOrExpression();
        assert Outcome(r) == StmtGrammar.OtherStatement(tokens, s);
      }
    }

    method BlockOrExpression() returns (r: Result<Stmt, ParseError>)
      requires Valid() && dialect == Statements
      modifies this
      ensures Valid() && Outcome(r) == StmtGrammar.BlockOrExpression(tokens, old(State()))
      decreases |tokens| - current, 37, 0
    {
      ghost var s := State();
      BlockOrExpressionCases(tokens, s);
      if Check({LeftBrace}) {
        Advance();
        assert State() == Next(tokens, s);
        r := BlockStatement();
        assert Outcome(r) == StmtGrammar.BlockOrExpression(tokens, s);
      } else {
        r := ExpressionStatement();
        assert Outcome(r) == StmtGrammar.BlockOrExpression(tokens, s);
      }
    }

    /// `new Stmt.Block(this._block())`, after `{`.
    method BlockStatement() returns (r: Result<Stmt, ParseError>)
      requires Valid() && dialect == Statements
      modifies this
      ensures Valid() && Outcome(r) == StmtGrammar.BlockStatement(tokens, old(State()))
      decreases |tokens| - current, 42
    {
      var statements := Block();
      if statements.Err? {
        return Err(statements.error);
      }
      return Ok(BlockStmt(statements.value));
    }

    /// `_forStatement`, after `for`.
    method ForStatement() returns (r: Result<Stmt, ParseError>)
      requires Valid() && dialect == Statements
      modifies this
      ensures Valid() && Outcome(r) == StmtGrammar.ForStatement(tokens, old(State()))
      decreases |tokens| - current, 37
    {
      ghost var st0 := State();
      var open := Consume(LeftParen, "Expect '(' after 'for'.");
      if open.Err? {
        return Err(open.error);
      }
      var initializer := ForInitializer();
      if initializer.Err? {
        return Err(initializer.error);
      }
      r := ForCondition(st0, initializer.value);
    }

    method ForInitializer() returns (r: Result<Option<Stmt>, ParseError>)
      requires Valid() && dialect == Statements
      modifies this
      ensures Valid() && Outcome(r) == StmtGrammar.ForInitializer(tokens, old(State()))
      decreases |tokens| - current, 37
    {
      var matched := Match({Semicolon});
      if matched {
        return Ok(None);
      }
      var init: Result<Stmt, ParseError>;
      matched := Match({VarKw});
      if matched {
        init := VarDeclaration();
      } else {
        init := ExpressionStatement();
      }
      if init.Err? {
        return Err(init.error);
      }
      return Ok(Some(init.value));
    }

    /// The condition clause of `_forStatement` and its `;`.
    method ForCondition(ghost st0: PState, initializer: Option<Stmt>) returns (r: Result<Stmt, ParseError>)
      requires Valid() && dialect == Statements && st0.pos < current && st0.reported <= reported
      requires initializer.Some? ==> BuiltStmt(initializer.value) && |st0.reported| + StmtFailures(initializer.value) <= |reported|
      modifies this
      ensures Valid() && Outcome(r) == StmtGrammar.ForCondition(tokens, st0, initializer, old(State()))
      decreases |tokens| - current, 36
    {
      var condition := OptionalExpression(Semicolon);
      if condition.Err? {
        return Err(condition.error);
      }
      var semicolon := Consume(Semicolon, "Expect ';' after loop condition.");
      if semicolon.Err? {
        return Err(semicolon.error);
      }
      r := ForIncrement(st0, initializer, condition.value);
    }

    /// The increment clause of `_forStatement` and its `)`.
    method ForIncrement(ghost st0: PState, initializer: Option<Stmt>, condition: Option<Expr>) returns (r: Result<Stmt, ParseError>)
      requires Valid() && dialect == Statements && st0.pos < current && st0.reported <= reported
      requires initializer.Some? ==> BuiltStmt(initializer.value) && |st0.reported| + StmtFailures(initializer.value) <= |reported|
      requires condition.Some? ==> WellNested(condition.value)
      modifies this
      ensures Valid() && Outcome(r) == StmtGrammar.ForIncrement(tokens, st0, initializer, condition, old(State()))
      decreases |tokens| - current, 36
    {
      var increment := OptionalExpression(RightParen);
      if increment.Err? {
        return Err(increment.error);
      }
      var close := Consume(RightParen, "Expect ')' after for clauses.");
      if close.Err? {
        return Err(close.error);
      }
      r := ForBody(st0, initializer, condition, increment.value);
    }

    /// The body of `_forStatement` and the desugaring.
    method ForBody(ghost st0: PState, initializer: Option<Stmt>, condition: Option<Expr>, increment: Option<Expr>)
      returns (r: Result<Stmt, ParseError>)
      requires Valid() && dialect == Statements && st0.pos < current && st0.reported <= reported
      requires initializer.Some? ==> BuiltStmt(initializer.value) && |st0.reported| + StmtFailures(initializer.value) <= |reported|
      requires condition.Some? ==> WellNested(condition.value)
      requires increment.Some? ==> WellNested(increment.value)
      modifies this
      ensures Valid() && Outcome(r) == StmtGrammar.ForBody(tokens, st0, initializer, condition, increment, old(State()))
      decreases |tokens| - current, 38
    {
      var body := Statement();
      if body.Err? {
        return Err(body.error);
      }
      return Ok(Desugar(initializer, condition, increment, body.value));
    }

    /// `if (!this._check(stop)) expr = this._expression()`.
    method OptionalExpression(stop: TokenType) returns (r: Result<Option<Expr>, ParseError>)
      requires Valid() && dialect == Statements
      modifies this
      ensures Valid() && Outcome(r) == OptExpression(tokens, old(State()), stop)
      decreases |tokens| - current, 35
    {
      if Check({stop}) {
        return Ok(None);
      }
      var e := Expression();
      if e.Err? {
        return Err(e.error);
      }
      return Ok(Some(e.value));
    }

    /// `_whileStatement`, after `while`.
    method WhileStatement() returns (r: Result<Stmt, ParseError>)
      requires Valid() && dialect == Statements
      modifies this
      ensures Valid() && Outcome(r) == StmtGrammar.WhileStatement(tokens, old(State()))
      decreases |tokens| - current, 37
    {
      ghost var st0 := State();
      var condition := Condition("Expect '(' after 'while'.", "Expect ')' after 'condition'.");
      if condition.Err? {
        return Err(condition.error);
      }
      r := WhileBody(st0, condition.value);
    }

    /// The body of `_whileStatement`, after the condition.
    method WhileBody(ghost st0: PState, condition: Expr) returns (r: Result<Stmt, ParseError>)
      requires Valid() && dialect == Statements && st0.pos < current && st0.reported <= reported
      requires WellNested(condition)
      modifies this
      ensures Valid() && Outcome(r) == StmtGrammar.WhileBody(tokens, st0, condition, old(State()))
      decreases |tokens| - st0.pos, 36
    {
      var body := Statement();
      if body.Err? {
        return Err(body.error);
      }
      return Ok(WhileStmt(condition, body.value));
    }

    /// `_ifStatement`, after `if`.
    method IfStatement() returns (r: Result<Stmt, ParseError>)
      requires Valid() && dialect == Statements
      modifies this
      ensures Valid() && Outcome(r) == StmtGrammar.IfStatement(tokens, old(State()))
      decreases |tokens| - current, 37
    {
      ghost var st0 := State();
      var condition := Condition("Expect '(' after 'if'.", "Expect ')' after 'if'.");
      if condition.Err? {
        return Err(condition.error);
      }
      var thenBranch := Statement();
      if thenBranch.Err? {
        return Err(thenBranch.error);
      }
      r := ElseBranch(st0, condition.value, thenBranch.value);
    }

    /// The optional `else` branch of `_ifStatement`.
    method ElseBranch(ghost st0: PState, condition: Expr, thenBranch: Stmt) returns (r: Result<Stmt, ParseError>)
      requires Valid() && dialect == Statements && st0.pos < current && st0.reported <= reported
      requires WellNested(condition) && BuiltStmt(thenBranch) && |st0.reported| + StmtFailures(thenBranch) <= |reported|
      modifies this
      ensures Valid() && Outcome(r) == StmtGrammar.ElseBranch(tokens, st0, condition, thenBranch, old(State()))
      decreases |tokens| - current, 36
    {
      ghost var s := State();
      if Check({ElseKw}) {
        assert Grammar.Check(tokens, s.pos, ElseKw);
        Advance();
        assert State() == Next(tokens, s);
        var elseBranch := Statement();
        if elseBranch.Err? {
          return Err(elseBranch.error);
        }
        return Ok(IfStmt(condition, thenBranch, Some(elseBranch.value)));
      }
      return Ok(IfStmt(condition, thenBranch, None));
    }

    /// `(` condition `)` of `if` and `while`.
    method Condition(openMessage: string, closeMessage: string) returns (r: Result<Expr, ParseError>)
      requires Valid() && dialect == Statements
      modifies this
      ensures Valid() && Outcome(r) == ParenCondition(tokens, old(State()), openMessage, closeMessage)
      decreases |tokens| - current, 35
    {
      var open := Consume(LeftParen, openMessage);
      if open.Err? {
        return Err(open.error);
      }
      r := Expression();
      if r.Err? {
        return;
      }
      var close := Consume(RightParen, closeMessage);
      if close.Err? {
        return Err(close.error);
      }
    }

    /// `_printStatement`, after `print`.
    method PrintStatement() returns (r: Result<Stmt, ParseError>)
      requires Valid() && dialect == Statements
      modifies this
      ensures Valid() && Outcome(r) == StmtGrammar.PrintStatement(tokens, old(State()))
      decreases |tokens| - current, 36
    {
      var value := Terminated();
      if value.Err? {
        return Err(value.error);
      }
      return Ok(PrintStmt(value.value));
    }

    method ExpressionStatement() returns (r: Result<Stmt, ParseError>)
      requires Valid() && dialect == Statements
      modifies this
      ensures Valid() && Outcome(r) == StmtGrammar.ExpressionStatement(tokens, old(State()))
      decreases |tokens| - current, 36
    {
      var value := Terminated();
      if value.Err? {
        return Err(value.error);
      }
      return Ok(ExpressionStmt(value.value));
    }

    /// An expression and its `;`.
    method Terminated() returns (r: Result<Expr, ParseError>)
      requires Valid() && dialect == Statements
      modifies this
      ensures Valid() && Outcome(r) == StmtGrammar.Terminated(tokens, old(State()))
      decreases |tokens| - current, 35
    {
      r := Expression();
      if r.Err? {
        return;
      }
      var semicolon := Consume(Semicolon, "Expect ';' after value.");
      if semicolon.Err? {
        return Err(semicolon.error);
      }
    }

    /// `_block`, after `{`.
    method Block() returns (r: Result<StmtList, ParseError>)
      requires Valid() && dialect == Statements
      modifies this
      ensures Valid() && Outcome(r) == StmtGrammar.Block(tokens, old(State()))
      decreases |tokens| - current, 41
    {
      var statements: StmtList := [];
      while !Check({RightBrace}) && !IsAtEnd()
        invariant Valid()
        invariant BlockItems(tokens, State(), statements) == BlockItems(tokens, old(State()), [])
        decreases |tokens| - current
      {
        var d := Declaration();
        statements := statements + [d];
      }
      var close := Consume(RightBrace, "Expect '}' after block.");
      if close.Err? {
        return Err(close.error);
      }
      return Ok(statements);
    }

    /// `_synchronize`.
    method Synchronize()
      requires Valid()
      modifies this
      ensures Valid() && current == StmtGrammar.Synchronize(tokens, old(current)) && reported == old(reported)
    {
      ghost var target := StmtGrammar.Synchronize(tokens, current);
      Advance();
      while !IsAtEnd()
        invariant Valid() && reported == old(reported)
        invariant current > 0 ==> SyncFrom(tokens, current) == target
        invariant current == 0 ==> AtEnd(tokens, 0) && target == 0
        decreases |tokens| - current
      {
        if Previous().kind == Semicolon {
          return;
        }
        if Peek().kind in StatementKeywords {
          return;
        }
        Advance();
      }
    }

    // -------------------------------------------------------------------
    // The expression-only parser

    /// `parse` of `Parser.js`: an expression, or `null` when a parse error
    /// was thrown.
    method ParseExpression() returns (e: Option<Expr>)
      requires Valid() && dialect == ExpressionsOnly
      modifies this
      ensures Valid() && (e, State()) == ExpressionOrNull(tokens, old(State()))
    {
      var r := Expression();
      if r.Err? {
        return None;
      }
      return Some(r.value);
    }
  }
}
