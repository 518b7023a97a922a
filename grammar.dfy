/// The grammar of both recursive-descent parsers (`src/Parser.js`, the
/// statement parser, and `Parser.js`, the older expression-only parser) as
/// functions from a token list and a parser state to the tree built and the
/// state reached. The `Parser` class in `parser.dfy` is proved to compute
/// exactly these functions.
///
/// A `ParseError` thrown by a rule is modelled by the `Thrown` outcome; the
/// report that `Lox.parseError` prints for every error (thrown or not) is
/// modelled by appending to the `reported` list of the state.
module Grammar {
  import opened Common
  import opened Syntax

  datatype ParseError = ParseError(token: Token, message: string)

  /// `Statements` is the grammar of `src/Parser.js`; `ExpressionsOnly` the
  /// one of `Parser.js`, whose expressions start at equality and whose
  /// primaries include no identifiers.
  datatype Dialect = Statements | ExpressionsOnly

  /// The parser's cursor (`current`) and the errors reported so far.
  datatype PState = PState(pos: nat, reported: seq<ParseError>)

  /// What a rule returns, or the error it throws, with the state reached.
  datatype Parse<+T> = Parsed(value: T, st: PState) | Thrown(error: ParseError, st: PState)

  /// Token lists as the scanner produces them: they end with EOF.
  predicate ValidTokens(ts: seq<Token>)
  {
    |ts| > 0 && ts[|ts| - 1].kind == Eof
  }

  /// The cursor is on a token and no EOF token lies behind it.
  predicate Within(ts: seq<Token>, st: PState)
  {
    st.pos < |ts| && forall k :: 0 <= k < st.pos ==> ts[k].kind != Eof
  }

  /// What every rule guarantees: the cursor only moves forward and never
  /// passes an EOF token, reports are only appended, and a thrown error is
  /// the last one reported.
  predicate Advances<T>(ts: seq<Token>, st: PState, r: Parse<T>)
  {
    && Within(ts, r.st)
    && st.pos <= r.st.pos
    && st.reported <= r.st.reported
    && (r.Thrown? ==> |st.reported| < |r.st.reported| && r.st.reported[|r.st.reported| - 1] == r.error)
  }

  /// A rule that succeeded consumed at least one token.
  predicate Consumes<T>(st: PState, r: Parse<T>)
  {
    r.Parsed? ==> st.pos < r.st.pos
  }

  // ---------------------------------------------------------------------
  // Cursor helpers (`_isAtEnd`, `_check`, `_advance`, `_consume`, `_error`)

  predicate AtEnd(ts: seq<Token>, pos: nat)
    requires pos < |ts|
  {
    ts[pos].kind == Eof
  }

  /// `_check`: false at EOF, otherwise whether the current token has kind `k`.
  predicate Check(ts: seq<Token>, pos: nat, k: TokenType)
    requires pos < |ts|
  {
    !AtEnd(ts, pos) && ts[pos].kind == k
  }

  /// `_match` with several kinds: whether the current token has one of them.
  predicate CheckAny(ts: seq<Token>, pos: nat, ks: set<TokenType>)
    requires pos < |ts|
  {
    !AtEnd(ts, pos) && ts[pos].kind in ks
  }

  /// `_advance`: one token further, except at EOF.
  function AdvancePos(ts: seq<Token>, pos: nat): (p: nat)
    requires ValidTokens(ts) && pos < |ts|
    ensures p < |ts|
    ensures p == if AtEnd(ts, pos) then pos else pos + 1
  {
    if AtEnd(ts, pos) then pos else pos + 1
  }

  /// The state after consuming the current token, which is not EOF.
  function Next(ts: seq<Token>, st: PState): (s: PState)
    requires ValidTokens(ts) && Within(ts, st) && !AtEnd(ts, st.pos)
    ensures Within(ts, s) && s.pos == st.pos + 1 && s.reported == st.reported
  {
    PState(st.pos + 1, st.reported)
  }

  /// `throw this._error(this._peek(), message)`: report the error at the
  /// current token and throw it.
  function Throw<T>(ts: seq<Token>, st: PState, message: string): (r: Parse<T>)
    requires st.pos < |ts|
    ensures r.Thrown? && r.error == ParseError(ts[st.pos], message)
    ensures r.st == PState(st.pos, st.reported + [r.error])
  {
    var e := ParseError(ts[st.pos], message);
    Thrown(e, PState(st.pos, st.reported + [e]))
  }

  /// `_consume`: the current token when it has kind `k`, otherwise the
  /// error `message` at the current token.
  function Consume(ts: seq<Token>, st: PState, k: TokenType, message: string): (r: Parse<Token>)
    requires ValidTokens(ts) && Within(ts, st)
    ensures Advances(ts, st, r) && Consumes(st, r)
    ensures r.Parsed? <==> Check(ts, st.pos, k)
    ensures r.Parsed? ==> r.value == ts[st.pos] && r.st == Next(ts, st)
    ensures r.Thrown? ==> r.st.pos == st.pos && r.error == ParseError(ts[st.pos], message)
  {
    if Check(ts, st.pos, k) then Parsed(ts[st.pos], Next(ts, st))
    else Throw(ts, st, message)
  }

  // ---------------------------------------------------------------------
  // Binding strength

  /// The operator kinds of the six left-associative levels, from the
  /// loosest: `or`, `and`, equality, comparison, term, factor.
  function LevelOps(lv: nat): set<TokenType>
  {
    if lv == 0 then {OrKw}
    else if lv == 1 then {AndKw}
    else if lv == 2 then {BangEqual, EqualEqual}
    else if lv == 3 then {Greater, GreaterEqual, Less, LessEqual}
    else if lv == 4 then {Minus, Plus}
    else if lv == 5 then {Slash, Star}
    else {}
  }

  /// The level whose operators include `k` (6 for a kind of no level).
  function LevelOf(k: TokenType): (lv: nat)
    ensures lv <= 6
    ensures lv < 6 ==> k in LevelOps(lv)
    ensures forall l :: l < 6 && k in LevelOps(l) ==> l == lv
  {
    if k == OrKw then 0
    else if k == AndKw then 1
    else if k in {BangEqual, EqualEqual} then 2
    else if k in {Greater, GreaterEqual, Less, LessEqual} then 3
    else if k in {Minus, Plus} then 4
    else if k in {Slash, Star} then 5
    else 6
  }

  /// How tightly the top node of `e` binds: assignment 0, the six operator
  /// levels 1 to 6, prefix operators 8, atoms 9.
  function Strength(e: Expr): nat
  {
    match e
    case Assign(_, _) => 0
    case Logical(_, op, _) => LevelOf(op.kind) + 1
    case Binary(_, op, _) => LevelOf(op.kind) + 1
    case Unary(_, _) => 8
    case _ => 9
  }

  /// The trees the statement parser can build: every operator node holds an
  /// operator of its kind, the left operand of a binary operator binds at
  /// least as tightly as the operator and the right operand strictly more
  /// tightly (so operators of one level associate to the left and looser
  /// levels sit above tighter ones), a prefix operator's operand is a prefix
  /// operator or an atom, names are identifiers, and there are no calls.
  predicate WellNested(e: Expr)
  {
    match e
    case Literal(_) => true
    case Grouping(x) => WellNested(x)
    case Unary(op, x) => op.kind in {Bang, Minus} && Strength(x) >= 8 && WellNested(x)
    case Binary(l, op, r) =>
      2 <= LevelOf(op.kind) < 6 &&
      Strength(l) >= Strength(e) && Strength(r) > Strength(e) && WellNested(l) && WellNested(r)
    case Logical(l, op, r) =>
      LevelOf(op.kind) < 2 &&
      Strength(l) >= Strength(e) && Strength(r) > Strength(e) && WellNested(l) && WellNested(r)
    case Variable(name) => name.kind == Identifier
    case Assign(name, v) => name.kind == Identifier && WellNested(v)
    case Call(_, _, _) => false
  }

  /// The trees of the expression-only parser: literals, groupings, prefix
  /// and binary operators.
  predicate ExprOnlyTree(e: Expr)
  {
    match e
    case Literal(_) => true
    case Grouping(x) => ExprOnlyTree(x)
    case Unary(_, x) => ExprOnlyTree(x)
    case Binary(l, _, r) => ExprOnlyTree(l) && ExprOnlyTree(r)
    case _ => false
  }

  /// What an expression rule promises of the tree it builds.
  predicate Builds(d: Dialect, st: PState, r: Parse<Expr>, strength: nat)
  {
    r.Parsed? ==>
      && WellNested(r.value) && Strength(r.value) >= strength
      && (d == ExpressionsOnly ==> ExprOnlyTree(r.value) && r.st.reported == st.reported)
  }

  // ---------------------------------------------------------------------
  // Expressions. The second component of each `decreases` ranks the rules
  // that may call one another without consuming a token.

  /// `_expression`: assignment in the statement parser, equality in the
  /// expression-only parser.
  function Expression(ts: seq<Token>, d: Dialect, st: PState): (r: Parse<Expr>)
    requires ValidTokens(ts) && Within(ts, st)
    ensures Advances(ts, st, r) && Consumes(st, r) && Builds(d, st, r, 0)
    decreases |ts| - st.pos, 34
  {
    if d == Statements then Assignment(ts, d, st) else Level(ts, d, 2, st)
  }

  /// `_assignment`: an `or` expression, and when `=` follows, the value of a
  /// right-associative assignment to it. A target that is not a variable is
  /// reported, not thrown, and the target itself is the result.
  function Assignment(ts: seq<Token>, d: Dialect, st: PState): (r: Parse<Expr>)
    requires ValidTokens(ts) && Within(ts, st) && d == Statements
    ensures Advances(ts, st, r) && Consumes(st, r) && Builds(d, st, r, 0)
    decreases |ts| - st.pos, 32
  {
    match Level(ts, d, 0, st)
    case Thrown(e, s) => Thrown(e, s)
    case Parsed(target, s) =>
      if Check(ts, s.pos, Equal) then AssignValue(ts, d, target, st, s) else Parsed(target, s)
  }

  /// The part of `_assignment` after the `=` at the cursor of `s`: the
  /// assigned value, and the `Assign` node, or the target itself and the
  /// report "Invalid assignment target." at the `=` when the target is not
  /// a variable.
  function AssignValue(ts: seq<Token>, d: Dialect, target: Expr, ghost st0: PState, s: PState): (r: Parse<Expr>)
    requires ValidTokens(ts) && Within(ts, s) && d == Statements && Check(ts, s.pos, Equal)
    requires st0.pos < s.pos && st0.reported <= s.reported && WellNested(target)
    ensures Advances(ts, s, r) && Consumes(st0, r) && Builds(d, st0, r, 0)
    decreases |ts| - s.pos, 31
  {
    var equals := ts[s.pos];
    match Assignment(ts, d, Next(ts, s))
    case Thrown(e, s') => Thrown(e, s')
    case Parsed(value, s') =>
      if target.Variable? then Parsed(Assign(target.name, value), s')
      else Parsed(target, PState(s'.pos, s'.reported + [ParseError(equals, "Invalid assignment target.")]))
  }

  /// The operator node of level `lv`.
  function Node(lv: nat, left: Expr, op: Token, right: Expr): Expr
  {
    if lv < 2 then Logical(left, op, right) else Binary(left, op, right)
  }

  /// Combining two operands at level `lv` keeps the tree well nested.
  lemma NodeNested(lv: nat, left: Expr, op: Token, right: Expr)
    requires lv < 6 && op.kind in LevelOps(lv)
    requires WellNested(left) && Strength(left) >= lv + 1
    requires WellNested(right) && Strength(right) >= lv + 2
    ensures WellNested(Node(lv, left, op, right)) && Strength(Node(lv, left, op, right)) == lv + 1
    ensures ExprOnlyTree(left) && ExprOnlyTree(right) && lv >= 2 ==> ExprOnlyTree(Node(lv, left, op, right))
  {
    assert LevelOf(op.kind) == lv;
  }

  /// `_or`, `_and`, `_equality`, `_comparison`, `_term` and `_factor`: an
  /// operand followed by any number of operator-operand pairs of level `lv`.
  function Level(ts: seq<Token>, d: Dialect, lv: nat, st: PState): (r: Parse<Expr>)
    requires ValidTokens(ts) && Within(ts, st) && lv < 6
    requires d == ExpressionsOnly ==> lv >= 2
    ensures Advances(ts, st, r) && Consumes(st, r) && Builds(d, st, r, lv + 1)
    decreases |ts| - st.pos, 30 - 2 * lv
  {
    match Operand(ts, d, lv, st)
    case Thrown(e, s) => Thrown(e, s)
    case Parsed(left, s) => LevelRest(ts, d, lv, left, st, s)
  }

  /// An operand of level `lv`: the next tighter level, or a unary expression
  /// below factor.
  function Operand(ts: seq<Token>, d: Dialect, lv: nat, st: PState): (r: Parse<Expr>)
    requires ValidTokens(ts) && Within(ts, st) && lv < 6
    requires d == ExpressionsOnly ==> lv >= 2
    ensures Advances(ts, st, r) && Consumes(st, r) && Builds(d, st, r, lv + 2)
    decreases |ts| - st.pos, 29 - 2 * lv
  {
    if lv == 5 then Unary(ts, d, st) else Level(ts, d, lv + 1, st)
  }

  /// The loop of a level: while an operator of the level follows, combine
  /// the expression so far with the next operand. `st0` is the state the
  /// level started from.
  function LevelRest(ts: seq<Token>, d: Dialect, lv: nat, left: Expr, ghost st0: PState, st: PState): (r: Parse<Expr>)
    requires ValidTokens(ts) && Within(ts, st) && lv < 6 && st0.pos < st.pos && st0.reported <= st.reported
    requires d == ExpressionsOnly ==> lv >= 2
    requires WellNested(left) && Strength(left) >= lv + 1
    requires d == ExpressionsOnly ==> ExprOnlyTree(left) && st.reported == st0.reported
    ensures Advances(ts, st, r) && Consumes(st0, r) && Builds(d, st0, r, lv + 1)
    decreases |ts| - st.pos, 29 - 2 * lv
  {
    if CheckAny(ts, st.pos, LevelOps(lv)) then
      var op := ts[st.pos];
      match Operand(ts, d, lv, Next(ts, st))
      case Thrown(e, s) => Thrown(e, s)
      case Parsed(right, s) =>
        NodeNested(lv, left, op, right);
        LevelRest(ts, d, lv, Node(lv, left, op, right), st0, s)
    else Parsed(left, st)
  }

  /// One turn of the loop of a level: no operator ends it; an operator
  /// followed by a failing operand throws that failure; otherwise the loop
  /// goes on with the combined expression.
  lemma LevelRestCases(ts: seq<Token>, d: Dialect, lv: nat, left: Expr, st0: PState, st: PState)
    requires ValidTokens(ts) && Within(ts, st) && lv < 6 && st0.pos < st.pos && st0.reported <= st.reported
    requires d == ExpressionsOnly ==> lv >= 2
    requires WellNested(left) && Strength(left) >= lv + 1
    requires d == ExpressionsOnly ==> ExprOnlyTree(left) && st.reported == st0.reported
    ensures !CheckAny(ts, st.pos, LevelOps(lv)) ==> LevelRest(ts, d, lv, left, st0, st) == Parsed(left, st)
    ensures CheckAny(ts, st.pos, LevelOps(lv)) && Operand(ts, d, lv, Next(ts, st)).Thrown? ==>
      LevelRest(ts, d, lv, left, st0, st) == Operand(ts, d, lv, Next(ts, st))
    ensures CheckAny(ts, st.pos, LevelOps(lv)) && Operand(ts, d, lv, Next(ts, st)).Parsed? ==>
      var o := Operand(ts, d, lv, Next(ts, st));
      && WellNested(Node(lv, left, ts[st.pos], o.value)) && Strength(Node(lv, left, ts[st.pos], o.value)) >= lv + 1
      && (d == ExpressionsOnly ==> ExprOnlyTree(Node(lv, left, ts[st.pos], o.value)) && o.st.reported == st0.reported)
      && LevelRest(ts, d, lv, left, st0, st) == LevelRest(ts, d, lv, Node(lv, left, ts[st.pos], o.value), st0, o.st)
  {
    if CheckAny(ts, st.pos, LevelOps(lv)) && Operand(ts, d, lv, Next(ts, st)).Parsed? {
      NodeNested(lv, left, ts[st.pos], Operand(ts, d, lv, Next(ts, st)).value);
    }
  }

  /// `_unary`: prefix `!` and `-` nest to the right down to a primary.
  function Unary(ts: seq<Token>, d: Dialect, st: PState): (r: Parse<Expr>)
    requires ValidTokens(ts) && Within(ts, st)
    ensures Advances(ts, st, r) && Consumes(st, r) && Builds(d, st, r, 8)
    decreases |ts| - st.pos, 18
  {
    if CheckAny(ts, st.pos, {Bang, Minus}) then
      var op := ts[st.pos];
      match Unary(ts, d, Next(ts, st))
      case Thrown(e, s) => Thrown(e, s)
      case Parsed(right, s) => Parsed(Expr.Unary(op, right), s)
    else Primary(ts, d, st)
  }

  /// The two cases of `_unary`: a prefix operator applied to the unary
  /// expression after it, or a primary.
  lemma UnaryCases(ts: seq<Token>, d: Dialect, st: PState)
    requires ValidTokens(ts) && Within(ts, st)
    ensures !CheckAny(ts, st.pos, {Bang, Minus}) ==> Unary(ts, d, st) == Primary(ts, d, st)
    ensures CheckAny(ts, st.pos, {Bang, Minus}) && Unary(ts, d, Next(ts, st)).Thrown? ==> Unary(ts, d, st) == Unary(ts, d, Next(ts, st))
    ensures CheckAny(ts, st.pos, {Bang, Minus}) && Unary(ts, d, Next(ts, st)).Parsed? ==>
      Unary(ts, d, st) == Parsed(Expr.Unary(ts[st.pos], Unary(ts, d, Next(ts, st)).value), Unary(ts, d, Next(ts, st)).st)
  {
  }

  /// `_primary`: `false`, `true`, `nil`, a number or string literal, an
  /// identifier (statement parser only) or a parenthesised expression;
  /// anything else is the error "Expect expression.".
  function Primary(ts: seq<Token>, d: Dialect, st: PState): (r: Parse<Expr>)
    requires ValidTokens(ts) && Within(ts, st)
    ensures Advances(ts, st, r) && Consumes(st, r) && Builds(d, st, r, 9)
    decreases |ts| - st.pos, 17
  {
    match Atom(ts, d, st.pos)
    case Some(e) => Parsed(e, Next(ts, st))
    case None =>
      if Check(ts, st.pos, LeftParen) then Group(ts, d, st, Next(ts, st))
      else Throw(ts, st, "Expect expression.")
  }

  /// The primaries made of the single token at `pos`.
  function Atom(ts: seq<Token>, d: Dialect, pos: nat): (r: Option<Expr>)
    requires pos < |ts|
    ensures r.Some? ==> !AtEnd(ts, pos) && WellNested(r.value) && Strength(r.value) == 9
    ensures r.Some? && d == ExpressionsOnly ==> ExprOnlyTree(r.value)
    ensures r.Some? <==>
      CheckAny(ts, pos, {FalseKw, TrueKw, NilKw, NumberTok, StringTok}) || (d == Statements && Check(ts, pos, Identifier))
  {
    var t := ts[pos];
    if Check(ts, pos, FalseKw) then Some(Literal(BoolLit(false)))
    else if Check(ts, pos, TrueKw) then Some(Literal(BoolLit(true)))
    else if Check(ts, pos, NilKw) then Some(Literal(NilLit))
    else if CheckAny(ts, pos, {NumberTok, StringTok}) then Some(Literal(t.literal))
    else if d == Statements && Check(ts, pos, Identifier) then Some(Variable(t))
    else None
  }

  /// The part of `_primary` after a `(`: an expression closed by `)`.
  function Group(ts: seq<Token>, d: Dialect, ghost st0: PState, st: PState): (r: Parse<Expr>)
    requires ValidTokens(ts) && Within(ts, st) && st0.pos < st.pos && st0.reported == st.reported
    ensures Advances(ts, st, r) && Consumes(st0, r) && Builds(d, st0, r, 9)
    decreases |ts| - st.pos, 35
  {
    match Expression(ts, d, st)
    case Thrown(e, s) => Thrown(e, s)
    case Parsed(inner, s) =>
      match Consume(ts, s, RightParen, "Expect ')' after expression.")
      case Thrown(e, s') => Thrown(e, s')
      case Parsed(_, s') => Parsed(Grouping(inner), s')
  }
}
