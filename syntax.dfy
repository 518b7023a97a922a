/// The shared vocabulary of the pipeline: token kinds, tokens, literal values
/// and the expression and statement trees that the parsers build and the
/// evaluators and printers walk.
module Syntax {
  import opened Common

  /// The closed set of token kinds (the `TokenType` table the scanner and the
  /// parsers refer to).
  datatype TokenType =
    // single-character tokens
    | LeftParen | RightParen | LeftBrace | RightBrace
    | Comma | Dot | Minus | Plus | Semicolon | Slash | Star
    // one- or two-character tokens
    | Bang | BangEqual | Equal | EqualEqual
    | Greater | GreaterEqual | Less | LessEqual
    // literals
    | Identifier | StringTok | NumberTok
    // keywords
    | AndKw | ClassKw | ElseKw | FalseKw | FunKw | ForKw | IfKw | NilKw | OrKw
    | PrintKw | ReturnKw | SuperKw | ThisKw | TrueKw | VarKw | WhileKw
    | Eof

  /// A literal value as the scanner stores it in a token and as a `Literal`
  /// expression holds it: JavaScript `null`, a boolean, a number or a string.
  datatype LiteralValue = NilLit | BoolLit(b: bool) | NumLit(r: real) | StrLit(s: string)

  datatype Token = Token(kind: TokenType, lexeme: string, literal: LiteralValue, line: nat)

  datatype Expr =
    | Literal(literal: LiteralValue)
    | Grouping(expression: Expr)
    | Unary(operator: Token, right: Expr)
    | Binary(left: Expr, operator: Token, right: Expr)
    | Logical(left: Expr, operator: Token, right: Expr)
    | Variable(name: Token)
    | Assign(name: Token, value: Expr)
    | Call(callee: Expr, paren: Token, arguments: seq<Expr>)

  /// A statement list as the parser produces it: a declaration that failed to
  /// parse leaves a `null` entry, modelled as `None`.
  type StmtList = seq<Option<Stmt>>

  datatype Stmt =
    | ExpressionStmt(expression: Expr)
    | PrintStmt(expression: Expr)
    | VarStmt(name: Token, initializer: Option<Expr>)
    | BlockStmt(statements: StmtList)
    | IfStmt(condition: Expr, thenBranch: Stmt, elseBranch: Option<Stmt>)
    | WhileStmt(condition: Expr, body: Stmt)
    | FunctionStmt(declaration: FunctionDecl)
    | ReturnStmt(value: Option<Expr>)

  datatype FunctionDecl = FunctionDecl(name: Token, parameters: seq<Token>, body: StmtList)

  // Sizes used as termination measures by the evaluators.

  function ExprSize(e: Expr): (n: nat)
    ensures n >= 1
  {
    match e
    case Literal(_) => 1
    case Grouping(x) => 1 + ExprSize(x)
    case Unary(_, x) => 1 + ExprSize(x)
    case Binary(l, _, r) => 1 + ExprSize(l) + ExprSize(r)
    case Logical(l, _, r) => 1 + ExprSize(l) + ExprSize(r)
    case Variable(_) => 1
    case Assign(_, v) => 1 + ExprSize(v)
    case Call(c, _, args) => 1 + ExprSize(c) + ExprsSize(args)
  }

  function ExprsSize(es: seq<Expr>): nat
  {
    if es == [] then 0 else ExprSize(es[0]) + ExprsSize(es[1..])
  }

  function StmtSize(s: Stmt): (n: nat)
    ensures n >= 1
    decreases s
  {
    match s
    case ExpressionStmt(e) => 1 + ExprSize(e)
    case PrintStmt(e) => 1 + ExprSize(e)
    case VarStmt(_, init) => 1 + (if init.Some? then ExprSize(init.value) else 0)
    case BlockStmt(ss) => 1 + StmtListSize(ss)
    case IfStmt(c, t, el) => 1 + ExprSize(c) + StmtSize(t) + (if el.Some? then StmtSize(el.value) else 0)
    case WhileStmt(c, b) => 1 + ExprSize(c) + StmtSize(b)
    case FunctionStmt(_) => 1
    case ReturnStmt(v) => 1 + (if v.Some? then ExprSize(v.value) else 0)
  }

  function OptStmtSize(o: Option<Stmt>): nat
    decreases o
  {
    if o.Some? then StmtSize(o.value) else 1
  }

  function StmtListSize(ss: StmtList): nat
    decreases ss
  {
    if ss == [] then 0
    else OptStmtSize(ss[0]) + StmtListSize(ss[1..])
  }

  /// An entry of a statement list is no larger than the list.
  lemma EntrySize(ss: StmtList, i: nat)
    requires i < |ss|
    ensures OptStmtSize(ss[i]) <= StmtListSize(ss)
  {
    if i > 0 {
      EntrySize(ss[1..], i - 1);
      assert ss[1..][i - 1] == ss[i];
    }
  }

  /// An argument is smaller than the argument list.
  lemma ArgumentSize(es: seq<Expr>, i: nat)
    requires i < |es|
    ensures ExprSize(es[i]) <= ExprsSize(es)
  {
    if i > 0 {
      ArgumentSize(es[1..], i - 1);
      assert es[1..][i - 1] == es[i];
    }
  }
}
