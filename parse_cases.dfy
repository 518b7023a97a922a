/// Derived rules of the expression grammar, one parsing step each, and the
/// parses they give for concrete token lists: the arithmetic example of the
/// parser's test, right-nested prefix operators and the trailing tokens the
/// expression-only parser leaves alone.
module ParseCases {
  import opened Common
  import opened Syntax
  import opened Grammar
  import opened StmtGrammar

  // ---------------------------------------------------------------------
  // One step each.

  /// A single-token primary is its own unary expression.
  lemma UnaryOfAtom(ts: seq<Token>, d: Dialect, st: PState)
    requires ValidTokens(ts) && Within(ts, st) && Atom(ts, d, st.pos).Some?
    ensures Grammar.Unary(ts, d, st) == Parsed(Atom(ts, d, st.pos).value, Next(ts, st))
  {
    assert !CheckAny(ts, st.pos, {Bang, Minus});
    assert Primary(ts, d, st) == Parsed(Atom(ts, d, st.pos).value, Next(ts, st));
  }

  /// `_primary`: a single-token primary is consumed as it is; with none,
  /// and no `(`, the parser throws "Expect expression." at the cursor.
  lemma PrimaryCases(ts: seq<Token>, d: Dialect, st: PState)
    requires ValidTokens(ts) && Within(ts, st)
    ensures Atom(ts, d, st.pos).Some? ==> Primary(ts, d, st) == Parsed(Atom(ts, d, st.pos).value, Next(ts, st))
    ensures Atom(ts, d, st.pos).None? && !Check(ts, st.pos, LeftParen) ==>
      Primary(ts, d, st) == Throw(ts, st, "Expect expression.")
  {
  }

  /// The part of `_assignment` after `=`: it throws exactly when the value
  /// throws; a variable target becomes an `Assign` of the value, and any
  /// other target is kept, with "Invalid assignment target." reported at
  /// the `=` after the value's own reports.
  lemma AssignValueCases(ts: seq<Token>, d: Dialect, target: Expr, st0: PState, s: PState)
    requires ValidTokens(ts) && Within(ts, s) && d == Statements && Check(ts, s.pos, Equal)
    requires st0.pos < s.pos && st0.reported <= s.reported && WellNested(target)
    ensures var v := Assignment(ts, d, Next(ts, s));
      && (AssignValue(ts, d, target, st0, s).Thrown? <==> v.Thrown?)
      && (v.Thrown? ==> AssignValue(ts, d, target, st0, s) == v)
      && (v.Parsed? && target.Variable? ==> AssignValue(ts, d, target, st0, s) == Parsed(Assign(target.name, v.value), v.st))
      && (v.Parsed? && !target.Variable? ==>
            AssignValue(ts, d, target, st0, s) ==
              Parsed(target, PState(v.st.pos, v.st.reported + [ParseError(ts[s.pos], "Invalid assignment target.")])))
  {
  }

  /// A parenthesised expression closed by `)` is a `Grouping`.
  lemma UnaryOfGroup(ts: seq<Token>, d: Dialect, st: PState, inner: Expr, s: PState)
    requires ValidTokens(ts) && Within(ts, st) && Check(ts, st.pos, LeftParen)
    requires Expression(ts, d, Next(ts, st)) == Parsed(inner, s) && Within(ts, s)
    requires Check(ts, s.pos, RightParen)
    ensures Grammar.Unary(ts, d, st) == Parsed(Grouping(inner), Next(ts, s))
  {
    assert Atom(ts, d, st.pos).None?;
    assert Primary(ts, d, st) == Group(ts, d, st, Next(ts, st));
    assert Group(ts, d, st, Next(ts, st)) == Parsed(Grouping(inner), Next(ts, s));
  }

  /// A level whose operand is followed by no operator of the level is that
  /// operand.
  lemma LevelOfOperand(ts: seq<Token>, d: Dialect, lv: nat, st: PState, e: Expr, s: PState)
    requires ValidTokens(ts) && Within(ts, st) && lv < 6 && (d == ExpressionsOnly ==> lv >= 2)
    requires Operand(ts, d, lv, st) == Parsed(e, s) && Within(ts, s)
    requires !CheckAny(ts, s.pos, LevelOps(lv))
    ensures Level(ts, d, lv, st) == Parsed(e, s)
  {
  }

  /// One operator of level `lv` between two operands, and no further
  /// operator of the level, makes one operator node.
  lemma LevelOfPair(ts: seq<Token>, d: Dialect, lv: nat, st: PState, l: Expr, s1: PState, r: Expr, s2: PState)
    requires ValidTokens(ts) && Within(ts, st) && lv < 6 && (d == ExpressionsOnly ==> lv >= 2)
    requires Operand(ts, d, lv, st) == Parsed(l, s1) && Within(ts, s1)
    requires CheckAny(ts, s1.pos, LevelOps(lv))
    requires Operand(ts, d, lv, Next(ts, s1)) == Parsed(r, s2) && Within(ts, s2)
    requires !CheckAny(ts, s2.pos, LevelOps(lv))
    ensures Level(ts, d, lv, st) == Parsed(Node(lv, l, ts[s1.pos], r), s2)
  {
    var op := ts[s1.pos];
    NodeNested(lv, l, op, r);
    assert LevelRest(ts, d, lv, l, st, s1) == LevelRest(ts, d, lv, Node(lv, l, op, r), st, s2);
  }

  /// A level-`m` expression followed by no operator of the looser levels
  /// `lv` .. `m - 1` is also the level-`lv` expression: each looser level
  /// passes it through unchanged.
  lemma {:induction false} Climb(ts: seq<Token>, d: Dialect, lv: nat, m: nat, st: PState, e: Expr, s: PState)
    requires ValidTokens(ts) && Within(ts, st) && lv <= m < 6 && (d == ExpressionsOnly ==> lv >= 2)
    requires Level(ts, d, m, st) == Parsed(e, s) && Within(ts, s)
    requires forall k :: lv <= k < m ==> !CheckAny(ts, s.pos, LevelOps(k))
    ensures Level(ts, d, lv, st) == Parsed(e, s)
    decreases m - lv
  {
    if lv < m {
      Climb(ts, d, lv + 1, m, st, e, s);
      assert Operand(ts, d, lv, st) == Parsed(e, s);
      LevelOfOperand(ts, d, lv, st, e, s);
    }
  }

  /// An error thrown by the unary expression at the cursor is thrown,
  /// unchanged, by every level above it.
  lemma {:induction false} ThrowClimbs(ts: seq<Token>, d: Dialect, lv: nat, st: PState)
    requires ValidTokens(ts) && Within(ts, st) && lv < 6 && (d == ExpressionsOnly ==> lv >= 2)
    requires Grammar.Unary(ts, d, st).Thrown?
    ensures Level(ts, d, lv, st) == Grammar.Unary(ts, d, st)
    decreases 6 - lv
  {
    if lv < 5 {
      ThrowClimbs(ts, d, lv + 1, st);
    }
  }

  /// A unary expression followed by no binary operator is a whole
  /// level-`lv` expression.
  lemma LevelOfUnary(ts: seq<Token>, d: Dialect, lv: nat, st: PState, e: Expr, s: PState)
    requires ValidTokens(ts) && Within(ts, st) && lv < 6 && (d == ExpressionsOnly ==> lv >= 2)
    requires Grammar.Unary(ts, d, st) == Parsed(e, s) && Within(ts, s)
    requires forall k :: lv <= k < 6 ==> !CheckAny(ts, s.pos, LevelOps(k))
    ensures Level(ts, d, lv, st) == Parsed(e, s)
  {
    assert !CheckAny(ts, s.pos, LevelOps(5));
    LevelOfOperand(ts, d, 5, st, e, s);
    Climb(ts, d, lv, 5, st, e, s);
  }

  /// An `or` expression not followed by `=` is the whole expression of the
  /// statement parser.
  lemma ExpressionOfLevel(ts: seq<Token>, st: PState, e: Expr, s: PState)
    requires ValidTokens(ts) && Within(ts, st)
    requires Level(ts, Statements, 0, st) == Parsed(e, s) && Within(ts, s)
    requires !Check(ts, s.pos, Equal)
    ensures Expression(ts, Statements, st) == Parsed(e, s)
  {
  }

  /// A `for` statement that parses, after the keyword, has `(`, an
  /// initializer, an optional condition with its `;`, an optional increment
  /// with its `)` and a body, each parsed where the previous one stopped,
  /// and is the loop `Desugar` builds from those four parts.
  lemma ForDesugars(ts: seq<Token>, st: PState)
    requires ValidTokens(ts) && Within(ts, st)
    ensures ForStatement(ts, st).Parsed? ==>
      && Check(ts, st.pos, LeftParen)
      && var i := ForInitializer(ts, Next(ts, st));
         && i.Parsed?
         && var c := OptExpression(ts, i.st, Semicolon);
            && c.Parsed? && Check(ts, c.st.pos, Semicolon)
            && var n := OptExpression(ts, Next(ts, c.st), RightParen);
               && n.Parsed? && Check(ts, n.st.pos, RightParen)
               && var b := Statement(ts, Next(ts, n.st));
                  && b.Parsed?
                  && ForStatement(ts, st) == Parsed(Desugar(i.value, c.value, n.value, b.value), b.st)
  {
    if ForStatement(ts, st).Parsed? {
      var i := ForInitializer(ts, Next(ts, st));
      assert ForStatement(ts, st) == ForCondition(ts, st, i.value, i.st);
      var c := OptExpression(ts, i.st, Semicolon);
      assert ForCondition(ts, st, i.value, i.st) == ForIncrement(ts, st, i.value, c.value, Next(ts, c.st));
      var n := OptExpression(ts, Next(ts, c.st), RightParen);
      assert ForIncrement(ts, st, i.value, c.value, Next(ts, c.st)) == ForBody(ts, st, i.value, c.value, n.value, Next(ts, n.st));
    }
  }

  // ---------------------------------------------------------------------
  // The arithmetic example: `print (1 + 2) * (4 - 3);`

  /// `( a op b )` at the cursor, with `a` and `b` number tokens and `op` a
  /// term operator, is the grouping of one binary node.
  lemma GroupedTerm(ts: seq<Token>, st: PState)
    requires ValidTokens(ts) && Within(ts, st) && st.pos + 5 < |ts|
    requires ts[st.pos].kind == LeftParen && ts[st.pos + 4].kind == RightParen
    requires ts[st.pos + 1].kind == NumberTok && ts[st.pos + 3].kind == NumberTok
    requires ts[st.pos + 2].kind in LevelOps(4)
    ensures Grammar.Unary(ts, Statements, st) ==
      Parsed(Grouping(Binary(Literal(ts[st.pos + 1].literal), ts[st.pos + 2], Literal(ts[st.pos + 3].literal))),
             PState(st.pos + 5, st.reported))
  {
    var s1 := Next(ts, st);
    Term(ts, s1);
    UnaryOfGroup(ts, Statements, st, Binary(Literal(ts[st.pos + 1].literal), ts[st.pos + 2], Literal(ts[st.pos + 3].literal)),
                 PState(st.pos + 4, st.reported));
  }

  /// `a op b` at the cursor, with `a` and `b` number tokens, `op` a term
  /// operator and `)` after `b`, is one binary node.
  lemma Term(ts: seq<Token>, st: PState)
    requires ValidTokens(ts) && Within(ts, st) && st.pos + 3 < |ts|
    requires ts[st.pos].kind == NumberTok && ts[st.pos + 2].kind == NumberTok
    requires ts[st.pos + 1].kind in LevelOps(4) && ts[st.pos + 3].kind == RightParen
    ensures Expression(ts, Statements, st) ==
      Parsed(Binary(Literal(ts[st.pos].literal), ts[st.pos + 1], Literal(ts[st.pos + 2].literal)),
             PState(st.pos + 3, st.reported))
  {
    var l := Literal(ts[st.pos].literal);
    var r := Literal(ts[st.pos + 2].literal);
    var s4 := PState(st.pos + 3, st.reported);
    TermLevel(ts, st);
    assert Within(ts, s4);
    Climb(ts, Statements, 0, 4, st, Binary(l, ts[st.pos + 1], r), s4);
    ExpressionOfLevel(ts, st, Binary(l, ts[st.pos + 1], r), s4);
  }

  /// `a op b )` at the cursor, with `a` and `b` number tokens and `op` a
  /// term operator, is a term of one binary node.
  lemma TermLevel(ts: seq<Token>, st: PState)
    requires ValidTokens(ts) && Within(ts, st) && st.pos + 3 < |ts|
    requires ts[st.pos].kind == NumberTok && ts[st.pos + 2].kind == NumberTok
    requires ts[st.pos + 1].kind in LevelOps(4) && ts[st.pos + 3].kind == RightParen
    ensures Level(ts, Statements, 4, st) ==
      Parsed(Binary(Literal(ts[st.pos].literal), ts[st.pos + 1], Literal(ts[st.pos + 2].literal)),
             PState(st.pos + 3, st.reported))
  {
    var s2 := Next(ts, st);
    var s3 := Next(ts, s2);
    NumberFactor(ts, st);
    NumberFactor(ts, s3);
    assert Operand(ts, Statements, 4, s3) == Parsed(Literal(ts[st.pos + 2].literal), Next(ts, s3));
    LevelOfPair(ts, Statements, 4, st, Literal(ts[st.pos].literal), s2, Literal(ts[st.pos + 2].literal), Next(ts, s3));
  }

  /// A number token followed by no factor operator is a whole factor.
  lemma NumberFactor(ts: seq<Token>, st: PState)
    requires ValidTokens(ts) && Within(ts, st) && st.pos + 1 < |ts|
    requires ts[st.pos].kind == NumberTok && !CheckAny(ts, st.pos + 1, LevelOps(5))
    ensures Level(ts, Statements, 5, st) == Parsed(Literal(ts[st.pos].literal), PState(st.pos + 1, st.reported))
  {
    assert Atom(ts, Statements, st.pos) == Some(Literal(ts[st.pos].literal));
    UnaryOfAtom(ts, Statements, st);
    LevelOfOperand(ts, Statements, 5, st, Literal(ts[st.pos].literal), Next(ts, st));
  }

  /// The token kinds the scanner produces for the example.
  predicate ArithmeticTokens(ts: seq<Token>)
  {
    && |ts| == 14
    && ts[0].kind == PrintKw && ts[1].kind == LeftParen && ts[2].kind == NumberTok
    && ts[3].kind == Plus && ts[4].kind == NumberTok && ts[5].kind == RightParen
    && ts[6].kind == Star && ts[7].kind == LeftParen && ts[8].kind == NumberTok
    && ts[9].kind == Minus && ts[10].kind == NumberTok && ts[11].kind == RightParen
    && ts[12].kind == Semicolon && ts[13].kind == Eof
  }

  /// The expression of the example, `(a + b) * (c - d)` with the literals of
  /// the four number tokens.
  function ArithmeticTree(ts: seq<Token>): Expr
    requires ArithmeticTokens(ts)
  {
    Binary(Grouping(Binary(Literal(ts[2].literal), ts[3], Literal(ts[4].literal))), ts[6],
           Grouping(Binary(Literal(ts[8].literal), ts[9], Literal(ts[10].literal))))
  }

  /// Two unary expressions joined by one factor operator, and no further
  /// factor operator, are one factor.
  lemma FactorOfPair(ts: seq<Token>, st: PState, l: Expr, s1: PState, r: Expr, s2: PState)
    requires ValidTokens(ts) && Within(ts, st) && Within(ts, s1) && Within(ts, s2)
    requires Grammar.Unary(ts, Statements, st) == Parsed(l, s1)
    requires CheckAny(ts, s1.pos, LevelOps(5))
    requires Grammar.Unary(ts, Statements, Next(ts, s1)) == Parsed(r, s2)
    requires !CheckAny(ts, s2.pos, LevelOps(5))
    ensures Level(ts, Statements, 5, st) == Parsed(Binary(l, ts[s1.pos], r), s2)
  {
    LevelOfPair(ts, Statements, 5, st, l, s1, r, s2);
  }

  /// The two parenthesised operations of the example, at tokens 1 and 7.
  lemma ArithmeticGroups(ts: seq<Token>)
    requires ArithmeticTokens(ts)
    ensures Grammar.Unary(ts, Statements, PState(1, [])) ==
      Parsed(Grouping(Binary(Literal(ts[2].literal), ts[3], Literal(ts[4].literal))), PState(6, []))
    ensures Grammar.Unary(ts, Statements, PState(7, [])) ==
      Parsed(Grouping(Binary(Literal(ts[8].literal), ts[9], Literal(ts[10].literal))), PState(12, []))
  {
    assert Within(ts, PState(1, [])) && Within(ts, PState(7, []));
    assert LevelOps(4) == {Minus, Plus};
    GroupedTerm(ts, PState(1, []));
    GroupedTerm(ts, PState(7, []));
  }

  /// The product of the two groupings of the example.
  lemma FactorExample(ts: seq<Token>, l: Expr, r: Expr)
    requires ValidTokens(ts) && |ts| == 14
    requires Within(ts, PState(1, [])) && Within(ts, PState(7, []))
    requires Grammar.Unary(ts, Statements, PState(1, [])) == Parsed(l, PState(6, []))
    requires CheckAny(ts, 6, LevelOps(5))
    requires Grammar.Unary(ts, Statements, PState(7, [])) == Parsed(r, PState(12, []))
    requires !CheckAny(ts, 12, LevelOps(5))
    ensures Level(ts, Statements, 5, PState(1, [])) == Parsed(Binary(l, ts[6], r), PState(12, []))
  {
    assert Within(ts, PState(6, [])) && Within(ts, PState(12, []));
    FactorOfPair(ts, PState(1, []), l, PState(6, []), r, PState(12, []));
  }

  /// `(a + b) * (c - d)`, from token 1 up to the `;`, as a factor.
  lemma ArithmeticFactor(ts: seq<Token>)
    requires ArithmeticTokens(ts)
    ensures Level(ts, Statements, 5, PState(1, [])) == Parsed(ArithmeticTree(ts), PState(12, []))
  {
    assert Within(ts, PState(1, [])) && Within(ts, PState(7, []));
    ArithmeticGroups(ts);
    assert CheckAny(ts, 6, LevelOps(5)) && !CheckAny(ts, 12, LevelOps(5));
    FactorExample(ts, Grouping(Binary(Literal(ts[2].literal), ts[3], Literal(ts[4].literal))),
                  Grouping(Binary(Literal(ts[8].literal), ts[9], Literal(ts[10].literal))));
  }

  /// `(a + b) * (c - d)`, from token 1 up to the `;`.
  lemma ArithmeticExpression(ts: seq<Token>)
    requires ArithmeticTokens(ts)
    ensures Expression(ts, Statements, PState(1, [])) == Parsed(ArithmeticTree(ts), PState(12, []))
  {
    var s1 := PState(1, []);
    assert Within(ts, s1) && Within(ts, PState(12, []));
    ArithmeticFactor(ts);
    Climb(ts, Statements, 0, 5, s1, ArithmeticTree(ts), PState(12, []));
    ExpressionOfLevel(ts, s1, ArithmeticTree(ts), PState(12, []));
  }

  /// `e ;` after the `print` of the example is the body of a `print`
  /// statement.
  lemma PrintBody(ts: seq<Token>, e: Expr)
    requires ValidTokens(ts) && |ts| == 14 && Within(ts, PState(12, [])) && ts[12].kind == Semicolon
    requires Expression(ts, Statements, PState(1, [])) == Parsed(e, PState(12, []))
    ensures PrintStatement(ts, PState(1, [])) == Parsed(PrintStmt(e), PState(13, []))
  {
    assert Terminated(ts, PState(1, [])) == Parsed(e, PState(13, []));
  }

  /// `print e ;` from the start of the example is one declaration.
  lemma PrintOfExpression(ts: seq<Token>, e: Expr)
    requires ArithmeticTokens(ts)
    requires Expression(ts, Statements, PState(1, [])) == Parsed(e, PState(12, []))
    ensures Declaration(ts, PState(0, [])) == Parsed(Some(PrintStmt(e)), PState(13, []))
  {
    PrintBody(ts, e);
    assert Statement(ts, PState(0, [])) == PrintStatement(ts, PState(1, []));
    assert Attempt(ts, PState(0, [])) == Parsed(PrintStmt(e), PState(13, []));
  }

  // ---------------------------------------------------------------------
  // Assignment and the `for` loop.

  /// A single-token primary followed by no binary operator and no `=` is a
  /// whole expression of the statement parser.
  lemma AtomExpression(ts: seq<Token>, st: PState)
    requires ValidTokens(ts) && Within(ts, st) && st.pos + 1 < |ts| && Atom(ts, Statements, st.pos).Some?
    requires LevelOf(ts[st.pos + 1].kind) == 6 && ts[st.pos + 1].kind != Equal
    ensures Expression(ts, Statements, st) == Parsed(Atom(ts, Statements, st.pos).value, Next(ts, st))
  {
    var e := Atom(ts, Statements, st.pos).value;
    UnaryOfAtom(ts, Statements, st);
    LevelOfUnary(ts, Statements, 0, st, e, Next(ts, st));
    ExpressionOfLevel(ts, st, e, Next(ts, st));
  }

  /// A single-token primary followed by `=` is the whole `or` expression
  /// that `_assignment` takes as its target.
  lemma AtomBeforeEquals(ts: seq<Token>, st: PState)
    requires ValidTokens(ts) && Within(ts, st) && st.pos + 1 < |ts| && Atom(ts, Statements, st.pos).Some?
    requires ts[st.pos + 1].kind == Equal
    ensures Level(ts, Statements, 0, st) == Parsed(Atom(ts, Statements, st.pos).value, Next(ts, st))
  {
    assert LevelOf(Equal) == 6;
    UnaryOfAtom(ts, Statements, st);
    LevelOfUnary(ts, Statements, 0, st, Atom(ts, Statements, st.pos).value, Next(ts, st));
  }

  /// `_assignment` with a target followed by `=` is the rest of the
  /// assignment after that `=`.
  lemma AssignmentOfTarget(ts: seq<Token>, st: PState, t: Expr, s1: PState, r: Parse<Expr>)
    requires ValidTokens(ts) && Within(ts, st) && Within(ts, s1) && st.pos < s1.pos && st.reported <= s1.reported
    requires Level(ts, Statements, 0, st) == Parsed(t, s1) && Check(ts, s1.pos, Equal) && WellNested(t)
    requires AssignValue(ts, Statements, t, st, s1) == r
    ensures Assignment(ts, Statements, st) == r
  {
  }

  /// A variable target followed by `=` and a value is the assignment of
  /// the value to the variable; any other target followed by `=` and a value
  /// is kept, with "Invalid assignment target." reported at the `=`.
  lemma AssignValueOf(ts: seq<Token>, target: Expr, st0: PState, s1: PState, v: Expr, s: PState)
    requires ValidTokens(ts) && Within(ts, s1) && Check(ts, s1.pos, Equal)
    requires st0.pos < s1.pos && st0.reported <= s1.reported && WellNested(target)
    requires Assignment(ts, Statements, Next(ts, s1)) == Parsed(v, s)
    ensures target.Variable? ==> AssignValue(ts, Statements, target, st0, s1) == Parsed(Assign(target.name, v), s)
    ensures !target.Variable? ==>
      AssignValue(ts, Statements, target, st0, s1) ==
        Parsed(target, PState(s.pos, s.reported + [ParseError(ts[s1.pos], "Invalid assignment target.")]))
  {
  }

  /// `x = v` with `x` an identifier: the assignment of the value to `x`.
  lemma AssignStep(ts: seq<Token>, st: PState, v: Expr, s: PState)
    requires ValidTokens(ts) && Within(ts, st) && st.pos + 2 < |ts|
    requires ts[st.pos].kind == Identifier && ts[st.pos + 1].kind == Equal
    requires Assignment(ts, Statements, PState(st.pos + 2, st.reported)) == Parsed(v, s)
    ensures Assignment(ts, Statements, st) == Parsed(Assign(ts[st.pos], v), s)
  {
    var t := Variable(ts[st.pos]);
    var s1 := Next(ts, st);
    assert Atom(ts, Statements, st.pos) == Some(t);
    AtomBeforeEquals(ts, st);
    assert Next(ts, s1) == PState(st.pos + 2, st.reported);
    AssignValueOf(ts, t, st, s1, v, s);
    AssignmentOfTarget(ts, st, t, s1, Parsed(Assign(ts[st.pos], v), s));
  }

  /// `n = v` with `n` a number: the number itself, and "Invalid assignment
  /// target." reported at the `=` after the value's own reports.
  lemma InvalidTargetStep(ts: seq<Token>, st: PState, v: Expr, s: PState)
    requires ValidTokens(ts) && Within(ts, st) && st.pos + 2 < |ts|
    requires ts[st.pos].kind == NumberTok && ts[st.pos + 1].kind == Equal
    requires Assignment(ts, Statements, PState(st.pos + 2, st.reported)) == Parsed(v, s)
    ensures Assignment(ts, Statements, st) ==
      Parsed(Literal(ts[st.pos].literal), PState(s.pos, s.reported + [ParseError(ts[st.pos + 1], "Invalid assignment target.")]))
  {
    var t := Literal(ts[st.pos].literal);
    var s1 := Next(ts, st);
    var r := Parsed(t, PState(s.pos, s.reported + [ParseError(ts[st.pos + 1], "Invalid assignment target.")]));
    assert Atom(ts, Statements, st.pos) == Some(t);
    AtomBeforeEquals(ts, st);
    assert Next(ts, s1) == PState(st.pos + 2, st.reported);
    AssignValueOf(ts, t, st, s1, v, s);
    AssignmentOfTarget(ts, st, t, s1, r);
  }

  /// `1 = 2`: the target is not a variable, so the parser reports "Invalid
  /// assignment target." at the `=`, throws nothing, and returns the target
  /// `1` after reading the value `2`.
  lemma InvalidTargetReported(one: Token, equals: Token, two: Token, semicolon: Token, eof: Token)
    requires one.kind == NumberTok && equals.kind == Equal && two.kind == NumberTok
    requires semicolon.kind == Semicolon && eof.kind == Eof
    ensures var ts := [one, equals, two, semicolon, eof];
      Expression(ts, Statements, PState(0, [])) ==
        Parsed(Literal(one.literal), PState(3, [ParseError(equals, "Invalid assignment target.")]))
  {
    var ts := [one, equals, two, semicolon, eof];
    assert Within(ts, PState(2, []));
    assert Atom(ts, Statements, 2) == Some(Literal(two.literal));
    AtomExpression(ts, PState(2, []));
    InvalidTargetStep(ts, PState(0, []), Literal(two.literal), PState(3, []));
  }

  /// `x = 1` at the cursor, with nothing binding after the number: the
  /// assignment of the number to `x`.
  lemma AssignNumber(ts: seq<Token>, st: PState)
    requires ValidTokens(ts) && Within(ts, st) && st.pos + 3 < |ts|
    requires ts[st.pos].kind == Identifier && ts[st.pos + 1].kind == Equal && ts[st.pos + 2].kind == NumberTok
    requires LevelOf(ts[st.pos + 3].kind) == 6 && ts[st.pos + 3].kind != Equal
    ensures Assignment(ts, Statements, st) ==
      Parsed(Assign(ts[st.pos], Literal(ts[st.pos + 2].literal)), PState(st.pos + 3, st.reported))
  {
    var s2 := PState(st.pos + 2, st.reported);
    assert Within(ts, s2);
    assert Atom(ts, Statements, st.pos + 2) == Some(Literal(ts[st.pos + 2].literal));
    AtomExpression(ts, s2);
    AssignStep(ts, st, Literal(ts[st.pos + 2].literal), PState(st.pos + 3, st.reported));
  }

  /// `x = y = 1` at the cursor: assignment nests to the right, as
  /// `x = (y = 1)`.
  lemma AssignChain(ts: seq<Token>, st: PState)
    requires ValidTokens(ts) && Within(ts, st) && st.pos + 5 < |ts|
    requires ts[st.pos].kind == Identifier && ts[st.pos + 1].kind == Equal
    requires ts[st.pos + 2].kind == Identifier && ts[st.pos + 3].kind == Equal && ts[st.pos + 4].kind == NumberTok
    requires LevelOf(ts[st.pos + 5].kind) == 6 && ts[st.pos + 5].kind != Equal
    ensures Assignment(ts, Statements, st) ==
      Parsed(Assign(ts[st.pos], Assign(ts[st.pos + 2], Literal(ts[st.pos + 4].literal))), PState(st.pos + 5, st.reported))
  {
    var s2 := PState(st.pos + 2, st.reported);
    assert Within(ts, s2);
    AssignNumber(ts, s2);
    AssignStep(ts, st, Assign(ts[st.pos + 2], Literal(ts[st.pos + 4].literal)), PState(st.pos + 5, st.reported));
  }

  /// `a = b = 1`: assignment nests to the right, as `a = (b = 1)`.
  lemma AssignmentNestsRight(a: Token, equals1: Token, b: Token, equals2: Token, one: Token, eof: Token)
    requires a.kind == Identifier && b.kind == Identifier && one.kind == NumberTok
    requires equals1.kind == Equal && equals2.kind == Equal && eof.kind == Eof
    ensures var ts := [a, equals1, b, equals2, one, eof];
      Expression(ts, Statements, PState(0, [])) == Parsed(Assign(a, Assign(b, Literal(one.literal))), PState(5, []))
  {
    var ts := [a, equals1, b, equals2, one, eof];
    assert LevelOf(Eof) == 6;
    AssignChain(ts, PState(0, []));
  }

  /// The token kinds of `for (;; 1) print 2;` from position `p` on.
  predicate ForTokens(ts: seq<Token>, p: nat)
  {
    && p + 9 < |ts|
    && ts[p].kind == ForKw && ts[p + 1].kind == LeftParen && ts[p + 2].kind == Semicolon
    && ts[p + 3].kind == Semicolon && ts[p + 4].kind == NumberTok && ts[p + 5].kind == RightParen
    && ts[p + 6].kind == PrintKw && ts[p + 7].kind == NumberTok && ts[p + 8].kind == Semicolon
  }

  /// `for (;;` of the example: no initializer and no condition.
  lemma ForHead(ts: seq<Token>, st: PState, r: Parse<Stmt>)
    requires ValidTokens(ts) && Within(ts, st) && ForTokens(ts, st.pos)
    requires Within(ts, PState(st.pos + 4, st.reported))
    requires ForIncrement(ts, Next(ts, st), None, None, PState(st.pos + 4, st.reported)) == r
    ensures Statement(ts, st) == r
  {
    var s1 := Next(ts, st);
    var s2 := Next(ts, s1);
    var s3 := Next(ts, s2);
    var s4 := Next(ts, s3);
    assert ForInitializer(ts, s2) == Parsed(None, s3);
    assert OptExpression(ts, s3, Semicolon) == Parsed(None, s3);
    assert ForStatement(ts, s1) == ForCondition(ts, s1, None, s3);
  }

  /// `1)` of the example: the increment `1`.
  lemma ForIncrementClause(ts: seq<Token>, st0: PState, st: PState, r: Parse<Stmt>)
    requires ValidTokens(ts) && Within(ts, st) && st0.pos < st.pos && st0.reported <= st.reported
    requires st.pos + 2 < |ts| && ts[st.pos].kind == NumberTok && ts[st.pos + 1].kind == RightParen
    requires Within(ts, PState(st.pos + 2, st.reported))
    requires ForBody(ts, st0, None, None, Some(Literal(ts[st.pos].literal)), PState(st.pos + 2, st.reported)) == r
    ensures ForIncrement(ts, st0, None, None, st) == r
  {
    var s1 := Next(ts, st);
    AtomBeforeParen(ts, st);
    assert Next(ts, s1) == PState(st.pos + 2, st.reported);
  }

  /// A number token before `)` is an optional clause that is present.
  lemma AtomBeforeParen(ts: seq<Token>, st: PState)
    requires ValidTokens(ts) && Within(ts, st) && st.pos + 1 < |ts|
    requires ts[st.pos].kind == NumberTok && ts[st.pos + 1].kind == RightParen
    ensures OptExpression(ts, st, RightParen) == Parsed(Some(Literal(ts[st.pos].literal)), Next(ts, st))
  {
    assert Atom(ts, Statements, st.pos) == Some(Literal(ts[st.pos].literal));
    AtomExpression(ts, st);
  }

  /// A `for` body that parses is desugared with the clauses before it.
  lemma ForBodyDesugars(ts: seq<Token>, st0: PState, init: Option<Stmt>, cond: Option<Expr>, incr: Option<Expr>,
                        st: PState, body: Stmt, s: PState)
    requires ValidTokens(ts) && Within(ts, st) && st0.pos < st.pos && st0.reported <= st.reported
    requires init.Some? ==> BuiltStmt(init.value) && |st0.reported| + StmtFailures(init.value) <= |st.reported|
    requires cond.Some? ==> WellNested(cond.value)
    requires incr.Some? ==> WellNested(incr.value)
    requires Statement(ts, st) == Parsed(body, s)
    ensures ForBody(ts, st0, init, cond, incr, st) == Parsed(Desugar(init, cond, incr, body), s)
  {
  }

  /// `print t ;` with `t` a single-token primary is a `print` statement.
  lemma PrintAtom(ts: seq<Token>, st: PState)
    requires ValidTokens(ts) && Within(ts, st) && st.pos + 2 < |ts|
    requires ts[st.pos].kind == PrintKw && Atom(ts, Statements, st.pos + 1).Some? && ts[st.pos + 2].kind == Semicolon
    ensures Statement(ts, st) == Parsed(PrintStmt(Atom(ts, Statements, st.pos + 1).value), PState(st.pos + 3, st.reported))
  {
    var s1 := Next(ts, st);
    var t := Atom(ts, Statements, st.pos + 1).value;
    AtomExpression(ts, s1);
    assert Terminated(ts, s1) == Parsed(t, PState(st.pos + 3, st.reported));
  }

  /// `1) print 2;` of the example: the increment and the body, desugared
  /// with no initializer and no condition.
  lemma ForTail(ts: seq<Token>, st0: PState, st: PState)
    requires ValidTokens(ts) && Within(ts, st) && st0.pos < st.pos && st0.reported <= st.reported
    requires st.pos + 5 < |ts| && ts[st.pos].kind == NumberTok && ts[st.pos + 1].kind == RightParen
    requires ts[st.pos + 2].kind == PrintKw && ts[st.pos + 3].kind == NumberTok && ts[st.pos + 4].kind == Semicolon
    ensures ForIncrement(ts, st0, None, None, st) ==
      Parsed(WhileStmt(Literal(BoolLit(true)),
                       BlockStmt([Some(PrintStmt(Literal(ts[st.pos + 3].literal))), Some(ExpressionStmt(Literal(ts[st.pos].literal)))])),
             PState(st.pos + 5, st.reported))
  {
    var incr, body := Literal(ts[st.pos].literal), PrintStmt(Literal(ts[st.pos + 3].literal));
    var s2, s5 := PState(st.pos + 2, st.reported), PState(st.pos + 5, st.reported);
    assert Within(ts, s2);
    assert Atom(ts, Statements, st.pos + 3) == Some(Literal(ts[st.pos + 3].literal));
    PrintAtom(ts, s2);
    ForBodyDesugars(ts, st0, None, None, Some(incr), s2, body, s5);
    ForIncrementClause(ts, st0, st, Parsed(Desugar(None, None, Some(incr), body), s5));
  }

  /// `for (;; 1) print 2;`: with no initializer the loop is a bare `while`,
  /// the missing condition is the literal `true`, and the increment runs
  /// after the body in a block.
  lemma ForWithoutCondition(ts: seq<Token>, st: PState)
    requires ValidTokens(ts) && Within(ts, st) && ForTokens(ts, st.pos)
    ensures Statement(ts, st) ==
      Parsed(WhileStmt(Literal(BoolLit(true)),
                       BlockStmt([Some(PrintStmt(Literal(ts[st.pos + 7].literal))), Some(ExpressionStmt(Literal(ts[st.pos + 4].literal)))])),
             PState(st.pos + 9, st.reported))
  {
    var r := Parsed(WhileStmt(Literal(BoolLit(true)),
                              BlockStmt([Some(PrintStmt(Literal(ts[st.pos + 7].literal))), Some(ExpressionStmt(Literal(ts[st.pos + 4].literal)))])),
                    PState(st.pos + 9, st.reported));
    assert Within(ts, PState(st.pos + 4, st.reported));
    ForTail(ts, Next(ts, st), PState(st.pos + 4, st.reported));
    ForHead(ts, st, r);
  }

  /// A token that starts no primary, no group and no prefix operator makes
  /// the expression-only parser throw "Expect expression." there.
  lemma NoExpressionThrows(ts: seq<Token>, st: PState)
    requires ValidTokens(ts) && Within(ts, st) && Atom(ts, ExpressionsOnly, st.pos).None?
    requires !CheckAny(ts, st.pos, {Bang, Minus, LeftParen})
    ensures Expression(ts, ExpressionsOnly, st) == Throw(ts, st, "Expect expression.")
  {
    PrimaryCases(ts, ExpressionsOnly, st);
    assert Grammar.Unary(ts, ExpressionsOnly, st) == Throw(ts, st, "Expect expression.");
    ThrowClimbs(ts, ExpressionsOnly, 2, st);
  }

  /// An identifier is no expression of the expression-only parser: `x`
  /// gives no tree and the one report "Expect expression." at `x`.
  lemma IdentifierNotAnExpression(ident: Token, eof: Token)
    requires ident.kind == Identifier && eof.kind == Eof
    ensures ParseExpression([ident, eof]) == (None, [ParseError(ident, "Expect expression.")])
  {
    var ts := [ident, eof];
    var st := PState(0, []);
    assert Atom(ts, ExpressionsOnly, 0).None?;
    NoExpressionThrows(ts, st);
    var e := ParseError(ident, "Expect expression.");
    assert Throw<Expr>(ts, st, "Expect expression.") == Thrown(e, PState(0, [] + [e]));
    assert [] + [e] == [e];
    assert ExpressionOrNull(ts, st) == (None, PState(0, [ParseError(ident, "Expect expression.")]));
  }

  // ---------------------------------------------------------------------
  // The expression-only parser.

  /// Prefix operators nest to the right: `- - a` is `Unary(-, Unary(-, a))`.
  lemma PrefixNests(ts: seq<Token>, d: Dialect, st: PState)
    requires ValidTokens(ts) && Within(ts, st) && st.pos + 2 < |ts|
    requires Check(ts, st.pos, Minus) && Check(ts, st.pos + 1, Minus)
    requires Atom(ts, d, st.pos + 2).Some?
    ensures Grammar.Unary(ts, d, st) ==
      Parsed(Expr.Unary(ts[st.pos], Expr.Unary(ts[st.pos + 1], Atom(ts, d, st.pos + 2).value)), PState(st.pos + 3, st.reported))
  {
    var s1 := Next(ts, st);
    var s2 := Next(ts, s1);
    UnaryOfAtom(ts, d, s2);
    assert Grammar.Unary(ts, d, s1) == Parsed(Expr.Unary(ts[st.pos + 1], Atom(ts, d, st.pos + 2).value), Next(ts, s2));
  }

  /// `1 2`: the expression-only parser returns the first number and
  /// reports nothing; the second token is left unconsumed.
  lemma TrailingTokensIgnored(first: Token, second: Token, eof: Token)
    requires first.kind == NumberTok && second.kind != Eof && eof.kind == Eof
    requires forall k :: 2 <= k < 6 ==> second.kind !in LevelOps(k)
    ensures ParseExpression([first, second, eof]) == (Some(Literal(first.literal)), [])
  {
    var ts := [first, second, eof];
    assert Atom(ts, ExpressionsOnly, 0) == Some(Literal(first.literal));
    UnaryOfAtom(ts, ExpressionsOnly, PState(0, []));
    LevelOfUnary(ts, ExpressionsOnly, 2, PState(0, []), Literal(first.literal), PState(1, []));
    assert Expression(ts, ExpressionsOnly, PState(0, [])) == Parsed(Literal(first.literal), PState(1, []));
  }
}
