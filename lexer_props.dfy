/// What the scanner of Scanner.js guarantees, proved about the specification
/// `Lexer.ScanFrom` that the `Scanner` class is shown to compute.
module LexerProperties {
  import opened Common
  import opened Syntax
  import opened Lexer

  /// The characters that can start a lexeme or be skipped.
  predicate Recognized(c: char)
  {
    SingleCharKind(c).Some? || OperatorKinds(c).Some? || c == '/' || IsWhitespace(c) ||
    c == '\n' || c == '"' || IsDigit(c) || IsAlpha(c)
  }

  /// A step fails with "Unexpected character" exactly on a character that
  /// cannot start a lexeme, and reports the current line.
  lemma UnexpectedCharacterExactly(src: string, pos: nat, line: nat)
    requires pos < |src|
    ensures Step(src, pos, line).Fail? && Step(src, pos, line).error.UnexpectedCharacter?
            <==> !Recognized(src[pos])
    ensures !Recognized(src[pos]) ==> Step(src, pos, line) == Fail(UnexpectedCharacter(line))
  {
  }

  // ---------------------------------------------------------------------
  // Line counting

  lemma {:induction false} NewlinesInSplit(src: string, a: nat, b: nat, c: nat)
    requires a <= b <= c <= |src|
    ensures NewlinesIn(src, a, c) == NewlinesIn(src, a, b) + NewlinesIn(src, b, c)
    decreases c - b
  {
    if b < c {
      NewlinesInSplit(src, a, b, c - 1);
    }
  }

  lemma {:induction false} NewlinesInNone(src: string, a: nat, b: nat)
    requires a <= b <= |src|
    requires forall k :: a <= k < b ==> src[k] != '\n'
    ensures NewlinesIn(src, a, b) == 0
    decreases b
  {
    if a < b {
      NewlinesInNone(src, a, b - 1);
    }
  }

  /// A string step counts the newlines strictly between the quotes, which
  /// are all the newlines of its lexeme.
  lemma StringStepLine(src: string, pos: nat, line: nat)
    requires pos < |src| && src[pos] == '"'
    ensures var r := StringStep(src, pos, line);
            r.Emit? ==> r.line == line + NewlinesIn(src, pos, r.next)
  {
    var close := NextOccurrence(src, pos + 1, '"');
    if close < |src| {
      NewlinesInSplit(src, pos, pos + 1, close);
    }
  }

  /// The line counter after one step has grown by the newlines the step
  /// consumed: the one a `\n` step skips and those inside a string literal.
  lemma StepLine(src: string, pos: nat, line: nat)
    requires pos < |src|
    ensures var step := Step(src, pos, line);
            !step.Fail? ==> step.line == line + NewlinesIn(src, pos, step.next)
  {
    var c := src[pos];
    if SingleCharKind(c).Some? || OperatorKinds(c).Some? || c == '/' || IsWhitespace(c) || c == '\n' {
      StepLineLayout(src, pos, line);
    } else {
      StepLineLiteral(src, pos, line);
    }
  }

  lemma StepLineLayout(src: string, pos: nat, line: nat)
    requires pos < |src|
    requires var c := src[pos];
             SingleCharKind(c).Some? || OperatorKinds(c).Some? || c == '/' || IsWhitespace(c) || c == '\n'
    ensures var step := Step(src, pos, line);
            !step.Fail? ==> step.line == line + NewlinesIn(src, pos, step.next)
  {
    var c := src[pos];
    if c == '\n' {
      StepNewline(src, pos, line);
    } else if SingleCharKind(c).Some? {
      StepSingleChar(src, pos, line);
    } else if OperatorKinds(c).Some? {
      StepOperator(src, pos, line);
      NewlinesInNone(src, pos, Step(src, pos, line).next);
    } else if c == '/' {
      StepSlash(src, pos, line);
      NewlinesInNone(src, pos, Step(src, pos, line).next);
    } else {
      StepWhitespace(src, pos, line);
    }
  }

  lemma StepLineLiteral(src: string, pos: nat, line: nat)
    requires pos < |src|
    requires var c := src[pos];
             !(SingleCharKind(c).Some? || OperatorKinds(c).Some? || c == '/' || IsWhitespace(c) || c == '\n')
    ensures var step := Step(src, pos, line);
            !step.Fail? ==> step.line == line + NewlinesIn(src, pos, step.next)
  {
    var c := src[pos];
    if c == '"' {
      StepQuote(src, pos, line);
      StringStepLine(src, pos, line);
    } else if IsDigit(c) {
      StepDigit(src, pos, line);
      NumberNoNewline(src, pos);
    } else if IsAlpha(c) {
      StepAlpha(src, pos, line);
      NewlinesInNone(src, pos, IdentifierEnd(src, pos + 1));
    } else {
      UnexpectedCharacterExactly(src, pos, line);
    }
  }

  lemma NumberNoNewline(src: string, pos: nat)
    requires pos < |src| && IsDigit(src[pos])
    ensures NewlinesIn(src, pos, NumberEnd(src, pos + 1)) == 0
  {
    var d := DigitsEnd(src, pos + 1);
    NewlinesInNone(src, pos, d);
    if d + 1 < |src| && src[d] == '.' && IsDigit(src[d + 1]) {
      NewlinesInNone(src, d, DigitsEnd(src, d + 1));
      NewlinesInSplit(src, pos, d, DigitsEnd(src, d + 1));
    }
  }

  // ---------------------------------------------------------------------
  // The end of file token

  /// A successful token list ends with exactly one EOF token, on `lastLine`,
  /// with an empty lexeme and a null literal.
  predicate EndsWithEof(r: Result<seq<Token>, ScanError>, lastLine: nat)
  {
    r.Ok? ==>
      |r.value| >= 1 &&
      r.value[|r.value| - 1] == Token(Eof, "", NilLit, lastLine) &&
      forall i :: 0 <= i < |r.value| - 1 ==> r.value[i].kind != Eof
  }

  lemma {:induction false} ScanFromEndsWithEof(src: string, pos: nat, line: nat)
    requires pos <= |src|
    ensures EndsWithEof(ScanFrom(src, pos, line), line + NewlinesIn(src, pos, |src|))
    decreases |src| - pos, 1
  {
    if pos < |src| {
      StepLine(src, pos, line);
      ScanAfterEndsWithEof(src, pos, line, Step(src, pos, line));
    }
  }

  lemma {:induction false} ScanAfterEndsWithEof(src: string, pos: nat, line: nat, step: StepOutcome)
    requires pos < |src|
    requires !step.Fail? ==> pos < step.next <= |src| && step.line == line + NewlinesIn(src, pos, step.next)
    requires step.Emit? ==> step.kind != Eof
    ensures EndsWithEof(ScanAfter(src, pos, step), line + NewlinesIn(src, pos, |src|))
    decreases |src| - pos, 0
  {
    if !step.Fail? {
      ScanFromEndsWithEof(src, step.next, step.line);
      NewlinesInSplit(src, pos, step.next, |src|);
    }
  }

  // ---------------------------------------------------------------------
  // Where each lexeme comes from

  /// The `[start, current)` range each emitted token was cut from, alongside
  /// `ScanFrom`.
  ghost function LexemeSpans(src: string, pos: nat, line: nat): seq<(nat, nat)>
    requires pos <= |src|
    decreases |src| - pos, 1
  {
    if pos == |src| then [] else SpansAfter(src, pos, Step(src, pos, line))
  }

  ghost function SpansAfter(src: string, pos: nat, step: StepOutcome): seq<(nat, nat)>
    requires pos < |src|
    requires !step.Fail? ==> pos < step.next <= |src|
    decreases |src| - pos, 0
  {
    match step
    case Fail(_) => []
    case Skip(next, line') => LexemeSpans(src, next, line')
    case Emit(_, _, next, line') => [(pos, next)] + LexemeSpans(src, next, line')
  }

  /// `t` was cut from `span`, which lies after `pos`; its line is `line`
  /// plus the newlines up to the end of the span.
  ghost predicate SpanFits(src: string, pos: nat, line: nat, t: Token, span: (nat, nat))
  {
    pos <= span.0 < span.1 <= |src| &&
    t.lexeme == src[span.0..span.1] &&
    t.line == line + NewlinesIn(src, pos, span.1)
  }

  /// The tokens but EOF were cut from `spans`, which are non-empty and follow
  /// one another in the source without overlapping.
  ghost predicate SpansMatch(src: string, pos: nat, line: nat, r: Result<seq<Token>, ScanError>, spans: seq<(nat, nat)>)
  {
    r.Ok? ==>
      |spans| == |r.value| - 1 &&
      (forall i :: 0 <= i < |spans| ==> SpanFits(src, pos, line, r.value[i], spans[i])) &&
      (forall i :: 0 <= i < |spans| - 1 ==> spans[i].1 <= spans[i + 1].0)
  }

  lemma {:induction false} ScanFromLexemes(src: string, pos: nat, line: nat)
    requires pos <= |src|
    ensures SpansMatch(src, pos, line, ScanFrom(src, pos, line), LexemeSpans(src, pos, line))
    decreases |src| - pos, 1
  {
    if pos == |src| {
    } else {
      StepLine(src, pos, line);
      ScanAfterLexemes(src, pos, line, Step(src, pos, line));
    }
  }

  lemma {:induction false} ScanAfterLexemes(src: string, pos: nat, line: nat, step: StepOutcome)
    requires pos < |src|
    requires !step.Fail? ==> pos < step.next <= |src| && step.line == line + NewlinesIn(src, pos, step.next)
    ensures SpansMatch(src, pos, line, ScanAfter(src, pos, step), SpansAfter(src, pos, step))
    decreases |src| - pos, 0
  {
    if !step.Fail? {
      ScanFromLexemes(src, step.next, step.line);
      var rest := ScanFrom(src, step.next, step.line);
      var spans := LexemeSpans(src, step.next, step.line);
      SpansShift(src, pos, line, step.next, step.line, rest, spans);
      if step.Emit? {
        ScanFromEndsWithEof(src, step.next, step.line);
        if rest.Ok? && |spans| > 0 {
          assert SpanFits(src, step.next, step.line, rest.value[0], spans[0]);
        }
        SpansCons(src, pos, line, Token(step.kind, src[pos..step.next], step.literal, step.line), step.next, rest, spans);
      }
    }
  }

  /// Spans that match from `next` also match from an earlier `pos` once the
  /// line counter is adjusted by the newlines in between.
  lemma SpansShift(src: string, pos: nat, line: nat, next: nat, line': nat,
                   r: Result<seq<Token>, ScanError>, spans: seq<(nat, nat)>)
    requires pos <= next <= |src| && line' == line + NewlinesIn(src, pos, next)
    requires SpansMatch(src, next, line', r, spans)
    ensures SpansMatch(src, pos, line, r, spans)
  {
    if r.Ok? {
      forall i | 0 <= i < |spans|
        ensures SpanFits(src, pos, line, r.value[i], spans[i])
      {
        assert SpanFits(src, next, line', r.value[i], spans[i]);
        NewlinesInSplit(src, pos, next, spans[i].1);
      }
    }
  }

  /// A token cut from `[pos, next)` in front of matching spans after `next`.
  lemma SpansCons(src: string, pos: nat, line: nat, token: Token, next: nat,
                  r: Result<seq<Token>, ScanError>, spans: seq<(nat, nat)>)
    requires pos < next <= |src| && token.lexeme == src[pos..next]
    requires token.line == line + NewlinesIn(src, pos, next)
    requires SpansMatch(src, pos, line, r, spans)
    requires r.Ok? ==> |r.value| >= 1 && (|spans| > 0 ==> next <= spans[0].0)
    ensures SpansMatch(src, pos, line, Prepend([token], r), [(pos, next)] + spans)
  {
    if r.Ok? {
      var ts := [token] + r.value;
      var all := [(pos, next)] + spans;
      assert Prepend([token], r) == Ok(ts);
      forall i | 0 <= i < |all| ensures SpanFits(src, pos, line, ts[i], all[i]) {
        if i > 0 {
          assert ts[i] == r.value[i - 1] && all[i] == spans[i - 1];
        }
      }
      forall i | 0 <= i < |all| - 1 ensures all[i].1 <= all[i + 1].0 {
        assert all[i + 1] == spans[i];
        if i > 0 {
          assert all[i] == spans[i - 1];
        }
      }
    }
  }

  // ---------------------------------------------------------------------
  // What each token looks like

  /// The text of every kind whose lexeme is fixed.
  function FixedLexeme(k: TokenType): Option<string>
  {
    match k
    case LeftParen => Some("(")
    case RightParen => Some(")")
    case LeftBrace => Some("{")
    case RightBrace => Some("}")
    case Comma => Some(",")
    case Dot => Some(".")
    case Minus => Some("-")
    case Plus => Some("+")
    case Semicolon => Some(";")
    case Slash => Some("/")
    case Star => Some("*")
    case Bang => Some("!")
    case BangEqual => Some("!=")
    case Equal => Some("=")
    case EqualEqual => Some("==")
    case Greater => Some(">")
    case GreaterEqual => Some(">=")
    case Less => Some("<")
    case LessEqual => Some("<=")
    case _ => None
  }

  predicate IsIdentifierText(s: string)
  {
    |s| > 0 && IsAlpha(s[0]) && forall i :: 1 <= i < |s| ==> IsAlphaNumeric(s[i])
  }

  /// Every character of `s[lo..hi]` is a digit.
  predicate DigitsBetween(s: string, lo: nat, hi: nat)
    requires lo <= hi <= |s|
  {
    forall i :: lo <= i < hi ==> IsDigit(s[i])
  }

  /// One or more digits, then optionally a `.` and one or more digits.
  predicate IsNumberText(s: string)
  {
    var dot := NextOccurrence(s, 0, '.');
    0 < dot && DigitsBetween(s, 0, dot) &&
    (dot < |s| ==> dot + 1 < |s| && DigitsBetween(s, dot + 1, |s|))
  }

  /// The first `c` at or after `i` is at `j`.
  lemma NextOccurrenceAt(s: string, i: nat, c: char, j: nat)
    requires i <= j <= |s|
    requires forall k :: i <= k < j ==> s[k] != c
    requires j < |s| ==> s[j] == c
    ensures NextOccurrence(s, i, c) == j
    decreases j - i
  {
    if i < j {
      NextOccurrenceAt(s, i + 1, c, j);
    }
  }

  predicate IsStringText(s: string)
  {
    |s| >= 2 && s[0] == '"' && s[|s| - 1] == '"' && forall i :: 0 < i < |s| - 1 ==> s[i] != '"'
  }

  /// A token as the scanner can produce it: its kind, lexeme and literal agree.
  predicate WellFormedToken(t: Token)
  {
    match t.kind
    case Identifier => IsIdentifierText(t.lexeme) && t.lexeme !in ReservedWords && t.literal == NilLit
    case StringTok => IsStringText(t.lexeme) && t.literal == StrLit(t.lexeme[1..|t.lexeme| - 1])
    case NumberTok => IsNumberText(t.lexeme) && t.literal == NumLit(DecimalValue(t.lexeme))
    case Eof => false
    case _ =>
      t.literal == NilLit &&
      if IsKeywordKind(t.kind) then
        IsIdentifierText(t.lexeme) && t.lexeme in ReservedWords && ReservedWords[t.lexeme] == t.kind
      else FixedLexeme(t.kind) == Some(t.lexeme)
  }

  lemma SingleCharFixed(c: char)
    requires SingleCharKind(c).Some?
    ensures FixedLexeme(SingleCharKind(c).value) == Some([c])
    ensures !IsKeywordKind(SingleCharKind(c).value)
  {
  }

  lemma OperatorFixed(c: char)
    requires OperatorKinds(c).Some?
    ensures FixedLexeme(OperatorKinds(c).value.0) == Some([c])
    ensures FixedLexeme(OperatorKinds(c).value.1) == Some([c, '='])
    ensures !IsKeywordKind(OperatorKinds(c).value.0) && !IsKeywordKind(OperatorKinds(c).value.1)
  {
  }

  lemma NumberTokenWellFormed(src: string, pos: nat, line: nat)
    requires pos < |src| && IsDigit(src[pos])
    ensures var lexeme := src[pos..NumberEnd(src, pos + 1)];
            WellFormedToken(Token(NumberTok, lexeme, NumLit(DecimalValue(lexeme)), line))
  {
    var d := DigitsEnd(src, pos + 1);
    var j := NumberEnd(src, pos + 1);
    var lexeme := src[pos..j];
    NextOccurrenceAt(lexeme, 0, '.', d - pos);
  }

  lemma IdentifierTokenWellFormed(src: string, pos: nat, line: nat)
    requires pos < |src| && IsAlpha(src[pos])
    ensures var text := src[pos..IdentifierEnd(src, pos + 1)];
            WellFormedToken(Token(IdentifierKind(text), text, NilLit, line))
  {
    var text := src[pos..IdentifierEnd(src, pos + 1)];
    assert IsIdentifierText(text);
    if text in ReservedWords {
      assert IsKeywordKind(ReservedWords[text]);
    }
  }

  lemma StringTokenWellFormed(src: string, pos: nat, line: nat)
    requires pos < |src| && src[pos] == '"'
    ensures var r := StringStep(src, pos, line);
            r.Emit? ==> WellFormedToken(Token(r.kind, src[pos..r.next], r.literal, r.line))
  {
    var close := NextOccurrence(src, pos + 1, '"');
    if close < |src| {
      var lexeme := src[pos..close + 1];
      assert |lexeme| == close + 1 - pos;
      assert forall i :: 0 < i < |lexeme| - 1 ==> lexeme[i] == src[pos + i];
      assert lexeme[1..|lexeme| - 1] == src[pos + 1..close];
    }
  }

  /// The token a step emits is well formed.
  lemma StepWellFormed(src: string, pos: nat, line: nat)
    requires pos < |src|
    ensures var step := Step(src, pos, line);
            step.Emit? ==> WellFormedToken(Token(step.kind, src[pos..step.next], step.literal, step.line))
  {
    var c := src[pos];
    if SingleCharKind(c).Some? || OperatorKinds(c).Some? || c == '/' {
      StepWellFormedOperator(src, pos, line);
    } else {
      StepWellFormedLiteral(src, pos, line);
    }
  }

  lemma StepWellFormedOperator(src: string, pos: nat, line: nat)
    requires pos < |src|
    requires var c := src[pos]; SingleCharKind(c).Some? || OperatorKinds(c).Some? || c == '/'
    ensures var step := Step(src, pos, line);
            step.Emit? ==> WellFormedToken(Token(step.kind, src[pos..step.next], step.literal, step.line))
  {
    var c := src[pos];
    if SingleCharKind(c).Some? {
      StepSingleChar(src, pos, line);
      SingleCharFixed(c);
      assert src[pos..pos + 1] == [c];
    } else if OperatorKinds(c).Some? {
      StepOperator(src, pos, line);
      OperatorFixed(c);
      if NextIs(src, pos + 1, '=') {
        assert src[pos..pos + 2] == [c, '='];
      } else {
        assert src[pos..pos + 1] == [c];
      }
    } else {
      StepSlash(src, pos, line);
      assert src[pos..pos + 1] == [c];
    }
  }

  lemma StepWellFormedLiteral(src: string, pos: nat, line: nat)
    requires pos < |src|
    requires var c := src[pos]; !(SingleCharKind(c).Some? || OperatorKinds(c).Some? || c == '/')
    ensures var step := Step(src, pos, line);
            step.Emit? ==> WellFormedToken(Token(step.kind, src[pos..step.next], step.literal, step.line))
  {
    var c := src[pos];
    if c == '"' {
      StepQuote(src, pos, line);
      StringTokenWellFormed(src, pos, line);
    } else if IsDigit(c) {
      StepDigit(src, pos, line);
      NumberTokenWellFormed(src, pos, line);
    } else if IsAlpha(c) {
      StepAlpha(src, pos, line);
      IdentifierTokenWellFormed(src, pos, line);
    } else if c == '\n' {
      StepNewline(src, pos, line);
    } else if IsWhitespace(c) {
      StepWhitespace(src, pos, line);
    } else {
      UnexpectedCharacterExactly(src, pos, line);
    }
  }

  /// Every token but the last of a token list is well formed.
  predicate AllWellFormed(r: Result<seq<Token>, ScanError>)
  {
    r.Ok? ==> forall i :: 0 <= i < |r.value| - 1 ==> WellFormedToken(r.value[i])
  }

  lemma {:induction false} ScanFromWellFormed(src: string, pos: nat, line: nat)
    requires pos <= |src|
    ensures AllWellFormed(ScanFrom(src, pos, line))
    decreases |src| - pos, 1
  {
    if pos < |src| {
      StepWellFormed(src, pos, line);
      ScanAfterWellFormed(src, pos, Step(src, pos, line));
    }
  }

  lemma {:induction false} ScanAfterWellFormed(src: string, pos: nat, step: StepOutcome)
    requires pos < |src|
    requires !step.Fail? ==> pos < step.next <= |src|
    requires step.Emit? ==> WellFormedToken(Token(step.kind, src[pos..step.next], step.literal, step.line))
    ensures AllWellFormed(ScanAfter(src, pos, step))
    decreases |src| - pos, 0
  {
    if !step.Fail? {
      ScanFromWellFormed(src, step.next, step.line);
      if step.Emit? && ScanAfter(src, pos, step).Ok? {
        var ts := ScanAfter(src, pos, step).value;
        var rest := ScanFrom(src, step.next, step.line).value;
        assert ts == [Token(step.kind, src[pos..step.next], step.literal, step.line)] + rest;
        assert forall i :: 1 <= i < |ts| ==> ts[i] == rest[i - 1];
      }
    }
  }

  // ---------------------------------------------------------------------
  // Rescanning a lexeme

  /// The result of scanning a lexeme that forms the single token `t`, with
  /// the line counter ending at `line`.
  function SingleToken(t: Token, line: nat): Result<seq<Token>, ScanError>
  {
    Ok([Token(t.kind, t.lexeme, t.literal, line), Token(Eof, "", NilLit, line)])
  }

  /// A step that emits the whole of `s` leaves that token and EOF.
  lemma ScanWholeLexeme(s: string, line: nat)
    requires |s| > 0
    requires var step := Step(s, 0, line); step.Emit? && step.next == |s|
    ensures var step := Step(s, 0, line);
            ScanFrom(s, 0, line) == SingleToken(Token(step.kind, s, step.literal, 0), step.line)
  {
    var step := Step(s, 0, line);
    assert s[0..|s|] == s;
    assert ScanFrom(s, |s|, step.line) == Ok([Token(Eof, "", NilLit, step.line)]);
    var token := Token(step.kind, s, step.literal, step.line);
    assert [token] + [Token(Eof, "", NilLit, step.line)] == [token, Token(Eof, "", NilLit, step.line)];
  }

  lemma FixedLexemeScans(k: TokenType, s: string)
    requires FixedLexeme(k) == Some(s)
    ensures 1 <= |s| <= 2
    ensures |s| == 1 ==> SingleCharKind(s[0]) == Some(k) ||
                         (OperatorKinds(s[0]).Some? && OperatorKinds(s[0]).value.0 == k) ||
                         (s[0] == '/' && k == Slash)
    ensures |s| == 2 ==> SingleCharKind(s[0]).None? && s[1] == '=' &&
                         OperatorKinds(s[0]).Some? && OperatorKinds(s[0]).value.1 == k
  {
  }

  lemma RescanFixed(t: Token, line: nat)
    requires t.literal == NilLit && FixedLexeme(t.kind) == Some(t.lexeme)
    ensures ScanFrom(t.lexeme, 0, line) == SingleToken(t, line)
  {
    var s := t.lexeme;
    FixedLexemeScans(t.kind, s);
    if SingleCharKind(s[0]).Some? {
      StepSingleChar(s, 0, line);
    } else if OperatorKinds(s[0]).Some? {
      StepOperator(s, 0, line);
    } else {
      StepSlash(s, 0, line);
    }
    ScanWholeLexeme(s, line);
  }

  lemma RescanIdentifier(t: Token, line: nat)
    requires t.literal == NilLit && IsIdentifierText(t.lexeme)
    requires if t.lexeme in ReservedWords then ReservedWords[t.lexeme] == t.kind else t.kind == Identifier
    ensures ScanFrom(t.lexeme, 0, line) == SingleToken(t, line)
  {
    var s := t.lexeme;
    assert IdentifierEnd(s, 1) == |s|;
    StepAlpha(s, 0, line);
    assert s[0..|s|] == s;
    ScanWholeLexeme(s, line);
  }

  /// The digits from `i` run up to `j`.
  lemma DigitsEndAt(s: string, i: nat, j: nat)
    requires i <= j <= |s|
    requires forall k :: i <= k < j ==> IsDigit(s[k])
    requires j < |s| ==> !IsDigit(s[j])
    ensures DigitsEnd(s, i) == j
    decreases j - i
  {
    if i < j {
      DigitsEndAt(s, i + 1, j);
    }
  }

  lemma DigitsRunToEnd(s: string, i: nat)
    requires i <= |s|
    requires forall k :: i <= k < |s| ==> IsDigit(s[k])
    ensures DigitsEnd(s, i) == |s|
  {
  }

  lemma RescanNumber(t: Token, line: nat)
    requires t.kind == NumberTok && IsNumberText(t.lexeme) && t.literal == NumLit(DecimalValue(t.lexeme))
    ensures ScanFrom(t.lexeme, 0, line) == SingleToken(t, line)
  {
    var s := t.lexeme;
    var dot := NextOccurrence(s, 0, '.');
    DigitsEndAt(s, 1, dot);
    if dot < |s| {
      DigitsRunToEnd(s, dot + 1);
    }
    StepDigit(s, 0, line);
    assert s[0..|s|] == s;
    ScanWholeLexeme(s, line);
  }

  lemma RescanString(t: Token, line: nat)
    requires t.kind == StringTok && IsStringText(t.lexeme) && t.literal == StrLit(t.lexeme[1..|t.lexeme| - 1])
    ensures ScanFrom(t.lexeme, 0, line) == SingleToken(t, line + NewlinesIn(t.lexeme, 0, |t.lexeme|))
  {
    var s := t.lexeme;
    assert NextOccurrence(s, 1, '"') == |s| - 1;
    StepQuote(s, 0, line);
    StringStepLine(s, 0, line);
    ScanWholeLexeme(s, line);
  }

  /// Scanning the lexeme of a well-formed token on its own gives back that
  /// token (on the line the lexeme ends on) followed by EOF.
  lemma RescanLexeme(t: Token, line: nat)
    requires WellFormedToken(t)
    ensures ScanFrom(t.lexeme, 0, line) == SingleToken(t, line + NewlinesIn(t.lexeme, 0, |t.lexeme|))
  {
    if t.kind == StringTok {
      RescanString(t, line);
    } else {
      if t.kind == NumberTok {
        RescanNumber(t, line);
      } else if t.kind == Identifier || IsKeywordKind(t.kind) {
        RescanIdentifier(t, line);
      } else {
        RescanFixed(t, line);
      }
      NewlinesInNone(t.lexeme, 0, |t.lexeme|);
    }
  }
}
