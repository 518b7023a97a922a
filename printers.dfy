/// What both expression printers share: the `toString()` of a literal
/// value, and character counting for the statements about brackets.
module Printing {
  import opened Common
  import opened Syntax

  /// `value.toString()` of a literal: booleans and strings as themselves, a
  /// number by `numeral` (JavaScript's number formatting), and `null`,
  /// which has no `toString`, as the host's `TypeError` (`None`).
  function LiteralText(l: LiteralValue, numeral: real -> string): (t: Option<string>)
    ensures t.None? <==> l.NilLit?
    ensures l.StrLit? ==> t == Some(l.s)
    ensures l.BoolLit? ==> t == Some(if l.b then "true" else "false")
    ensures l.NumLit? ==> t == Some(numeral(l.r))
  {
    match l
    case NilLit => None
    case BoolLit(b) => Some(if b then "true" else "false")
    case NumLit(r) => Some(numeral(r))
    case StrLit(s) => Some(s)
  }

  /// How many times `c` occurs in `s`.
  function Occurrences(s: string, c: char): nat
  {
    if s == [] then 0
    else (if s[0] == c then 1 else 0) + Occurrences(s[1..], c)
  }

  lemma {:induction false} OccurrencesAppend(a: string, b: string, c: char)
    ensures Occurrences(a + b, c) == Occurrences(a, c) + Occurrences(b, c)
  {
    if a == [] {
      assert a + b == b;
    } else {
      assert (a + b)[0] == a[0];
      assert (a + b)[1..] == a[1..] + b;
      OccurrencesAppend(a[1..], b, c);
    }
  }

  /// A text with no brackets in it.
  predicate Unbracketed(s: string)
  {
    '(' !in s && ')' !in s
  }

  lemma {:induction false} UnbracketedCounts(s: string)
    requires Unbracketed(s)
    ensures Occurrences(s, '(') == 0 && Occurrences(s, ')') == 0
  {
    if s != [] {
      assert s[0] in s;
      assert forall k :: 0 <= k < |s[1..]| ==> s[1..][k] == s[k + 1];
      UnbracketedCounts(s[1..]);
    }
  }

  /// Every operator lexeme and every literal text of the tree is free of
  /// brackets.
  predicate PlainTree(e: Expr, numeral: real -> string)
  {
    match e
    case Literal(l) => LiteralText(l, numeral).Some? ==> Unbracketed(LiteralText(l, numeral).value)
    case Grouping(x) => PlainTree(x, numeral)
    case Unary(op, x) => Unbracketed(op.lexeme) && PlainTree(x, numeral)
    case Binary(l, op, r) => Unbracketed(op.lexeme) && PlainTree(l, numeral) && PlainTree(r, numeral)
    case _ => true
  }

  lemma OneSize(x: Expr)
    ensures ExprsSize([x]) == ExprSize(x)
  {
    assert [x][1..] == [];
  }

  lemma PairSize(l: Expr, r: Expr)
    ensures ExprsSize([l, r]) == ExprSize(l) + ExprSize(r)
  {
    assert [l, r][1..] == [r];
    OneSize(r);
  }

  /// Brackets in `"(" + name + " " + p + ")"`: one pair more than in `p`.
  lemma CountOne(name: string, p: string, c: char)
    requires Unbracketed(name) && (c == '(' || c == ')')
    ensures Occurrences("(" + name + " " + p + ")", c) == 1 + Occurrences(p, c)
  {
    UnbracketedCounts(name);
    OccurrencesAppend("(" + name + " " + p, ")", c);
    OccurrencesAppend("(" + name + " ", p, c);
    OccurrencesAppend("(" + name, " ", c);
    OccurrencesAppend("(", name, c);
  }

  /// Brackets in `"(" + name + " " + p + " " + q + ")"`.
  lemma CountTwo(name: string, p: string, q: string, c: char)
    requires Unbracketed(name) && (c == '(' || c == ')')
    ensures Occurrences("(" + name + " " + p + " " + q + ")", c) == 1 + Occurrences(p, c) + Occurrences(q, c)
  {
    UnbracketedCounts(name);
    OccurrencesAppend("(" + name + " " + p + " " + q, ")", c);
    OccurrencesAppend("(" + name + " " + p + " ", q, c);
    OccurrencesAppend("(" + name + " " + p, " ", c);
    OccurrencesAppend("(" + name + " ", p, c);
    OccurrencesAppend("(" + name, " ", c);
    OccurrencesAppend("(", name, c);
  }

  /// The number of grouping, prefix and binary nodes.
  function OperatorNodes(e: Expr): nat
  {
    match e
    case Grouping(x) => 1 + OperatorNodes(x)
    case Unary(_, x) => 1 + OperatorNodes(x)
    case Binary(l, _, r) => 1 + OperatorNodes(l) + OperatorNodes(r)
    case _ => 0
  }
}

/// `src/AstPrinter.js`: the parenthesised prefix form of an expression.
/// Only literals, groupings, prefix and binary operators have visitors;
/// any other node makes the host throw (`None`).
module AstPrinter {
  import opened Common
  import opened Syntax
  import opened Printing

  /// `print(expr)`.
  function Rendered(e: Expr, numeral: real -> string): (s: Option<string>)
    decreases ExprSize(e), 1
  {
    match e
    case Literal(l) => LiteralText(l, numeral)
    case Grouping(x) => OneSize(x); Parenthesized("group", [x], numeral)
    case Unary(op, x) => OneSize(x); Parenthesized(op.lexeme, [x], numeral)
    case Binary(l, op, r) => PairSize(l, r); Parenthesized(op.lexeme, [l, r], numeral)
    case _ => None
  }

  /// `_parenthesize(name, ...exprs)`.
  function Parenthesized(name: string, es: seq<Expr>, numeral: real -> string): (s: Option<string>)
    decreases ExprsSize(es) + 1, 0
  {
    Continued(es, "(" + name, numeral)
  }

  /// The rest of `_parenthesize`'s loop once `str` holds the text so far:
  /// each expression adds a space and its rendering, then `)` closes.
  function Continued(es: seq<Expr>, str: string, numeral: real -> string): (s: Option<string>)
    decreases ExprsSize(es), 2
  {
    if es == [] then Some(str + ")")
    else
      match Rendered(es[0], numeral)
      case None => None
      case Some(p) => Continued(es[1..], str + " " + p, numeral)
  }

  /// `print`.
  method Print(e: Expr, numeral: real -> string) returns (s: Option<string>)
    ensures s == Rendered(e, numeral)
    decreases ExprSize(e), 1
  {
    match e
    case Literal(l) =>
      s := LiteralText(l, numeral);
    case Grouping(x) =>
      OneSize(x);
      s := Parenthesize("group", [x], numeral);
    case Unary(op, x) =>
      OneSize(x);
      s := Parenthesize(op.lexeme, [x], numeral);
    case Binary(l, op, r) =>
      PairSize(l, r);
      s := Parenthesize(op.lexeme, [l, r], numeral);
    case _ =>
      s := None;
  }

  /// `_parenthesize`: `(` and the name, then a space and the rendering of
  /// each expression in turn, then `)`.
  method Parenthesize(name: string, exprs: seq<Expr>, numeral: real -> string) returns (s: Option<string>)
    ensures s == Parenthesized(name, exprs, numeral)
    decreases ExprsSize(exprs) + 1, 0
  {
    var str := "(" + name;
    var i := 0;
    while i < |exprs|
      invariant 0 <= i <= |exprs|
      invariant Continued(exprs[i..], str, numeral) == Parenthesized(name, exprs, numeral)
    {
      ArgumentSize(exprs, i);
      assert exprs[i..][1..] == exprs[i + 1..];
      var p := Print(exprs[i], numeral);
      if p.None? {
        return None;
      }
      str := str + " " + p.value;
      i := i + 1;
    }
    str := str + ")";
    return Some(str);
  }

  // -------------------------------------------------------------------
  // The forms of the output.

  /// `_parenthesize` of one expression.
  lemma ParenthesizedOne(name: string, x: Expr, numeral: real -> string)
    ensures Parenthesized(name, [x], numeral) ==
      if Rendered(x, numeral).Some? then Some("(" + name + " " + Rendered(x, numeral).value + ")") else None
  {
    assert [x][1..] == [];
    if Rendered(x, numeral).Some? {
      var p := Rendered(x, numeral).value;
      assert Continued([x], "(" + name, numeral) == Continued([], "(" + name + " " + p, numeral);
    }
  }

  /// `_parenthesize` of two expressions.
  lemma ParenthesizedTwo(name: string, l: Expr, r: Expr, numeral: real -> string)
    ensures Parenthesized(name, [l, r], numeral) ==
      if Rendered(l, numeral).Some? && Rendered(r, numeral).Some? then
        Some("(" + name + " " + Rendered(l, numeral).value + " " + Rendered(r, numeral).value + ")")
      else None
  {
    assert [l, r][1..] == [r];
    assert [r][1..] == [];
    if Rendered(l, numeral).Some? {
      var p := Rendered(l, numeral).value;
      assert Continued([l, r], "(" + name, numeral) == Continued([r], "(" + name + " " + p, numeral);
      if Rendered(r, numeral).Some? {
        var q := Rendered(r, numeral).value;
        assert Continued([r], "(" + name + " " + p, numeral) == Continued([], "(" + name + " " + p + " " + q, numeral);
      }
    }
  }

  /// A binary node is `(op left right)`, a grouping `(group inner)` and a
  /// prefix operator `(op operand)`; a node with a part that cannot be
  /// printed cannot be printed either.
  lemma Forms(e: Expr, numeral: real -> string)
    ensures e.Binary? ==> (Rendered(e, numeral) ==
      if Rendered(e.left, numeral).Some? && Rendered(e.right, numeral).Some? then
        Some("(" + e.operator.lexeme + " " + Rendered(e.left, numeral).value + " " + Rendered(e.right, numeral).value + ")")
      else None)
    ensures e.Grouping? ==> (Rendered(e, numeral) ==
      if Rendered(e.expression, numeral).Some? then Some("(group " + Rendered(e.expression, numeral).value + ")") else None)
    ensures e.Unary? ==> (Rendered(e, numeral) ==
      if Rendered(e.right, numeral).Some? then Some("(" + e.operator.lexeme + " " + Rendered(e.right, numeral).value + ")") else None)
    ensures e.Literal? ==> Rendered(e, numeral) == LiteralText(e.literal, numeral)
  {
    match e
    case Binary(l, op, r) => ParenthesizedTwo(op.lexeme, l, r, numeral);
    case Grouping(x) =>
      ParenthesizedOne("group", x, numeral);
      if Rendered(x, numeral).Some? {
        var p := Rendered(x, numeral).value;
        assert "(" + "group" + " " + p + ")" == "(group " + p + ")";
      }
    case Unary(op, x) => ParenthesizedOne(op.lexeme, x, numeral);
    case _ =>
  }

  /// The printer adds exactly one pair of brackets per grouping, prefix or
  /// binary node: with no brackets in lexemes or literal texts, the output
  /// holds as many `(` as `)`, one per such node.
  lemma {:induction false} BracketsPerNode(e: Expr, numeral: real -> string, c: char)
    requires Rendered(e, numeral).Some? && PlainTree(e, numeral) && (c == '(' || c == ')')
    ensures Occurrences(Rendered(e, numeral).value, c) == OperatorNodes(e)
  {
    Forms(e, numeral);
    match e
    case Literal(l) =>
      UnbracketedCounts(LiteralText(l, numeral).value);
    case Grouping(x) =>
      BracketsPerNode(x, numeral, c);
      var p := Rendered(x, numeral).value;
      CountOne("group", p, c);
      assert "(" + "group" + " " + p + ")" == "(group " + p + ")";
    case Unary(op, x) =>
      BracketsPerNode(x, numeral, c);
      CountOne(op.lexeme, Rendered(x, numeral).value, c);
    case Binary(l, op, r) =>
      BracketsPerNode(l, numeral, c);
      BracketsPerNode(r, numeral, c);
      CountTwo(op.lexeme, Rendered(l, numeral).value, Rendered(r, numeral).value, c);
  }
}

/// `RpnPrinter.js`: the postfix (reverse Polish) form of an expression:
/// the operands, each followed by a space, then the operator's name.
module RpnPrinter {
  import opened Common
  import opened Syntax
  import opened Printing
  import AstPrinter

  /// `print(expr)`.
  function Rendered(e: Expr, numeral: real -> string): (s: Option<string>)
    decreases ExprSize(e), 1
  {
    match e
    case Literal(l) => LiteralText(l, numeral)
    case Grouping(x) => OneSize(x); Polished("group", [x], numeral)
    case Unary(op, x) => OneSize(x); Polished(op.lexeme, [x], numeral)
    case Binary(l, op, r) => PairSize(l, r); Polished(op.lexeme, [l, r], numeral)
    case _ => None
  }

  /// `_polishize(name, ...exprs)`.
  function Polished(name: string, es: seq<Expr>, numeral: real -> string): (s: Option<string>)
    decreases ExprsSize(es) + 1, 0
  {
    Continued(name, es, "", numeral)
  }

  /// The rest of `_polishize`'s loop once `str` holds the text so far:
  /// each expression adds its rendering and a space, then the name ends it.
  function Continued(name: string, es: seq<Expr>, str: string, numeral: real -> string): (s: Option<string>)
    decreases ExprsSize(es), 2
  {
    if es == [] then Some(str + name)
    else
      match Rendered(es[0], numeral)
      case None => None
      case Some(p) => Continued(name, es[1..], str + p + " ", numeral)
  }

  /// `print`.
  method Print(e: Expr, numeral: real -> string) returns (s: Option<string>)
    ensures s == Rendered(e, numeral)
    decreases ExprSize(e), 1
  {
    match e
    case Literal(l) =>
      s := LiteralText(l, numeral);
    case Grouping(x) =>
      OneSize(x);
      s := Polishize("group", [x], numeral);
    case Unary(op, x) =>
      OneSize(x);
      s := Polishize(op.lexeme, [x], numeral);
    case Binary(l, op, r) =>
      PairSize(l, r);
      s := Polishize(op.lexeme, [l, r], numeral);
    case _ =>
      s := None;
  }

  /// `_polishize`: the rendering of each expression followed by a space,
  /// then the name.
  method Polishize(name: string, exprs: seq<Expr>, numeral: real -> string) returns (s: Option<string>)
    ensures s == Polished(name, exprs, numeral)
    decreases ExprsSize(exprs) + 1, 0
  {
    var str := "";
    var i := 0;
    while i < |exprs|
      invariant 0 <= i <= |exprs|
      invariant Continued(name, exprs[i..], str, numeral) == Polished(name, exprs, numeral)
    {
      ArgumentSize(exprs, i);
      assert exprs[i..][1..] == exprs[i + 1..];
      var p := Print(exprs[i], numeral);
      if p.None? {
        return None;
      }
      str := str + p.value + " ";
      i := i + 1;
    }
    str := str + name;
    return Some(str);
  }

  // -------------------------------------------------------------------
  // The forms of the output.

  lemma PolishedOne(name: string, x: Expr, numeral: real -> string)
    ensures Polished(name, [x], numeral) ==
      if Rendered(x, numeral).Some? then Some(Rendered(x, numeral).value + " " + name) else None
  {
    assert [x][1..] == [];
    if Rendered(x, numeral).Some? {
      var p := Rendered(x, numeral).value;
      assert Continued(name, [x], "", numeral) == Continued(name, [], "" + p + " ", numeral);
      assert "" + p + " " == p + " ";
    }
  }

  lemma PolishedTwo(name: string, l: Expr, r: Expr, numeral: real -> string)
    ensures Polished(name, [l, r], numeral) ==
      if Rendered(l, numeral).Some? && Rendered(r, numeral).Some? then
        Some(Rendered(l, numeral).value + " " + Rendered(r, numeral).value + " " + name)
      else None
  {
    assert [l, r][1..] == [r];
    assert [r][1..] == [];
    if Rendered(l, numeral).Some? {
      var p := Rendered(l, numeral).value;
      assert Continued(name, [l, r], "", numeral) == Continued(name, [r], "" + p + " ", numeral);
      assert "" + p + " " == p + " ";
      if Rendered(r, numeral).Some? {
        var q := Rendered(r, numeral).value;
        assert Continued(name, [r], p + " ", numeral) == Continued(name, [], p + " " + q + " ", numeral);
      }
    }
  }

  /// A binary node is `left right op`, a grouping `inner group` and a
  /// prefix operator `operand op`; a node with a part that cannot be
  /// printed cannot be printed either.
  lemma Forms(e: Expr, numeral: real -> string)
    ensures e.Binary? ==> (Rendered(e, numeral) ==
      if Rendered(e.left, numeral).Some? && Rendered(e.right, numeral).Some? then
        Some(Rendered(e.left, numeral).value + " " + Rendered(e.right, numeral).value + " " + e.operator.lexeme)
      else None)
    ensures e.Grouping? ==> (Rendered(e, numeral) ==
      if Rendered(e.expression, numeral).Some? then Some(Rendered(e.expression, numeral).value + " group") else None)
    ensures e.Unary? ==> (Rendered(e, numeral) ==
      if Rendered(e.right, numeral).Some? then Some(Rendered(e.right, numeral).value + " " + e.operator.lexeme) else None)
    ensures e.Literal? ==> Rendered(e, numeral) == LiteralText(e.literal, numeral)
  {
    match e
    case Binary(l, op, r) => PolishedTwo(op.lexeme, l, r, numeral);
    case Grouping(x) =>
      PolishedOne("group", x, numeral);
      if Rendered(x, numeral).Some? {
        var p := Rendered(x, numeral).value;
        assert p + " " + "group" == p + " group";
      }
    case Unary(op, x) => PolishedOne(op.lexeme, x, numeral);
    case _ =>
  }

  /// Postfix output ends with the operator's lexeme, or with `group`.
  lemma EndsWithOperator(e: Expr, numeral: real -> string)
    requires Rendered(e, numeral).Some? && (e.Binary? || e.Unary? || e.Grouping?)
    ensures var s := Rendered(e, numeral).value;
      var name := if e.Grouping? then "group" else e.operator.lexeme;
      |name| <= |s| && s[|s| - |name|..] == name
  {
    Forms(e, numeral);
  }

  /// The postfix printer adds no brackets: with none in lexemes or literal
  /// texts, its output holds none.
  lemma {:induction false} NoBrackets(e: Expr, numeral: real -> string, c: char)
    requires Rendered(e, numeral).Some? && PlainTree(e, numeral) && (c == '(' || c == ')')
    ensures Occurrences(Rendered(e, numeral).value, c) == 0
  {
    Forms(e, numeral);
    match e
    case Literal(l) =>
      UnbracketedCounts(LiteralText(l, numeral).value);
    case Grouping(x) =>
      NoBrackets(x, numeral, c);
      var p := Rendered(x, numeral).value;
      OccurrencesAppend(p, " group", c);
      UnbracketedCounts(" group");
    case Unary(op, x) =>
      NoBrackets(x, numeral, c);
      var p := Rendered(x, numeral).value;
      OccurrencesAppend(p + " ", op.lexeme, c);
      OccurrencesAppend(p, " ", c);
      UnbracketedCounts(op.lexeme);
      UnbracketedCounts(" ");
    case Binary(l, op, r) =>
      NoBrackets(l, numeral, c);
      NoBrackets(r, numeral, c);
      var p, q := Rendered(l, numeral).value, Rendered(r, numeral).value;
      OccurrencesAppend(p + " " + q + " ", op.lexeme, c);
      OccurrencesAppend(p + " " + q, " ", c);
      OccurrencesAppend(p + " ", q, c);
      OccurrencesAppend(p, " ", c);
      UnbracketedCounts(op.lexeme);
      UnbracketedCounts(" ");
  }

  /// Both printers print the same trees, and the prefix form is longer by
  /// exactly one pair of brackets per operator node: the two are the same
  /// words in another order and with brackets added.
  lemma {:induction false} PrefixIsPostfixPlusBrackets(e: Expr, numeral: real -> string)
    ensures AstPrinter.Rendered(e, numeral).Some? <==> Rendered(e, numeral).Some?
    ensures Rendered(e, numeral).Some? ==>
      |AstPrinter.Rendered(e, numeral).value| == |Rendered(e, numeral).value| + 2 * OperatorNodes(e)
  {
    Forms(e, numeral);
    AstPrinter.Forms(e, numeral);
    match e
    case Literal(_) =>
    case Grouping(x) =>
      PrefixIsPostfixPlusBrackets(x, numeral);
    case Unary(_, x) =>
      PrefixIsPostfixPlusBrackets(x, numeral);
    case Binary(l, _, r) =>
      PrefixIsPostfixPlusBrackets(l, numeral);
      PrefixIsPostfixPlusBrackets(r, numeral);
    case _ =>
  }
}
