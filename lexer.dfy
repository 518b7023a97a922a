/// The scanner of Scanner.js: a left-to-right pass over the source text with
/// `start`, `current` and `line` cursors.
///
/// The first half of the module is the specification: `Step` says what one
/// call of `_scanToken` does from a given position, and `ScanFrom` runs the
/// steps to the end of the input. The class `Scanner` below is the imperative
/// scanner with the source's fields and loops, proved to compute `ScanFrom`.
module Lexer {
  import opened Common
  import opened Syntax

  predicate IsDigit(c: char) { '0' <= c <= '9' }

  predicate IsAlpha(c: char) { ('a' <= c <= 'z') || ('A' <= c <= 'Z') || c == '_' }

  predicate IsAlphaNumeric(c: char) { IsAlpha(c) || IsDigit(c) }

  /// The keyword table, looked up by the text of an identifier.
  const ReservedWords: map<string, TokenType> :=
    map["and" := AndKw, "class" := ClassKw, "else" := ElseKw, "false" := FalseKw,
        "for" := ForKw, "fun" := FunKw, "if" := IfKw, "nil" := NilKw, "or" := OrKw,
        "print" := PrintKw, "return" := ReturnKw, "super" := SuperKw, "this" := ThisKw,
        "true" := TrueKw, "var" := VarKw, "while" := WhileKw]

  /// The kind of an identifier-shaped lexeme: its keyword kind when the text
  /// is a reserved word, IDENTIFIER otherwise.
  function IdentifierKind(text: string): (k: TokenType)
    ensures text in ReservedWords ==> k == ReservedWords[text]
    ensures text !in ReservedWords ==> k == Identifier
  {
    if text in ReservedWords then ReservedWords[text] else Identifier
  }

  /// The kinds that the keyword table can produce.
  predicate IsKeywordKind(k: TokenType)
  {
    k in {AndKw, ClassKw, ElseKw, FalseKw, ForKw, FunKw, IfKw, NilKw, OrKw,
          PrintKw, ReturnKw, SuperKw, ThisKw, TrueKw, VarKw, WhileKw}
  }

  datatype ScanError =
    | UnexpectedCharacter(line: nat)
    | UnterminatedString(line: nat)

  /// The message the scanner throws.
  function ErrorMessage(e: ScanError): string
  {
    match e
    case UnexpectedCharacter(l) => "Unexpected character on line " + NatToString(l) + "."
    case UnterminatedString(l) => "Unterminated string on line " + NatToString(l)
  }

  // ---------------------------------------------------------------------
  // Runs of characters

  /// The end of the run of digits that starts at `i`.
  function DigitsEnd(src: string, i: nat): (j: nat)
    requires i <= |src|
    ensures i <= j <= |src|
    ensures forall k :: i <= k < j ==> IsDigit(src[k])
    ensures j < |src| ==> !IsDigit(src[j])
    decreases |src| - i
  {
    if i < |src| && IsDigit(src[i]) then DigitsEnd(src, i + 1) else i
  }

  /// The end of the run of letters, digits and underscores that starts at `i`.
  function IdentifierEnd(src: string, i: nat): (j: nat)
    requires i <= |src|
    ensures i <= j <= |src|
    ensures forall k :: i <= k < j ==> IsAlphaNumeric(src[k])
    ensures j < |src| ==> !IsAlphaNumeric(src[j])
    decreases |src| - i
  {
    if i < |src| && IsAlphaNumeric(src[i]) then IdentifierEnd(src, i + 1) else i
  }

  /// The first position at or after `i` that holds `c`, or the end of input.
  function NextOccurrence(src: string, i: nat, c: char): (j: nat)
    requires i <= |src|
    ensures i <= j <= |src|
    ensures forall k :: i <= k < j ==> src[k] != c
    ensures j < |src| ==> src[j] == c
    decreases |src| - i
  {
    if i < |src| && src[i] != c then NextOccurrence(src, i + 1, c) else i
  }

  /// The end of a number literal whose integer digits start at `i`:
  /// the fraction joins only when the `.` is followed by a digit.
  function NumberEnd(src: string, i: nat): (j: nat)
    requires i <= |src|
    ensures i <= j <= |src|
  {
    var d := DigitsEnd(src, i);
    if d + 1 < |src| && src[d] == '.' && IsDigit(src[d + 1]) then DigitsEnd(src, d + 1) else d
  }

  /// The value `parseFloat` gives a lexeme made of digits with an optional
  /// fraction, as an exact rational.
  function DecimalValue(lexeme: string): real
  {
    var dot := NextOccurrence(lexeme, 0, '.');
    var whole := lexeme[..dot];
    var fraction := if dot < |lexeme| then lexeme[dot + 1..] else "";
    if (forall k :: 0 <= k < |whole| ==> IsDigit(whole[k])) &&
       (forall k :: 0 <= k < |fraction| ==> IsDigit(fraction[k]))
    then (DecimalValueOf(whole) as real) + (DecimalValueOf(fraction) as real) / (Power10(|fraction|) as real)
    else 0.0
  }

  function Power10(n: nat): (p: nat)
    ensures p >= 1
  {
    if n == 0 then 1 else 10 * Power10(n - 1)
  }

  /// The number of newline characters in `src[lo..hi]`.
  function NewlinesIn(src: string, lo: nat, hi: nat): nat
    requires lo <= hi <= |src|
    decreases hi
  {
    if lo == hi then 0
    else NewlinesIn(src, lo, hi - 1) + (if src[hi - 1] == '\n' then 1 else 0)
  }

  // ---------------------------------------------------------------------
  // One scanner step

  /// What one call of `_scanToken` does when the lexeme starts at `start`:
  /// emit a token of `kind` whose lexeme is `src[start..next]`, skip to
  /// `next`, or fail.
  datatype StepOutcome =
    | Emit(kind: TokenType, literal: LiteralValue, next: nat, line: nat)
    | Skip(next: nat, line: nat)
    | Fail(error: ScanError)

  /// `src[i] == c` when there is such a character (`_match` and `_peek`).
  predicate NextIs(src: string, i: nat, c: char)
  {
    i < |src| && src[i] == c
  }

  /// The step for a string literal whose opening quote is at `start`.
  function StringStep(src: string, start: nat, line: nat): (r: StepOutcome)
    requires start < |src|
  {
    var close := NextOccurrence(src, start + 1, '"');
    var line' := line + NewlinesIn(src, start + 1, close);
    if close == |src| then Fail(UnterminatedString(line'))
    else Emit(StringTok, StrLit(src[start + 1..close]), close + 1, line')
  }

  /// The kind of a token that is always one character long.
  function SingleCharKind(c: char): Option<TokenType>
  {
    if c == '(' then Some(LeftParen)
    else if c == ')' then Some(RightParen)
    else if c == '{' then Some(LeftBrace)
    else if c == '}' then Some(RightBrace)
    else if c == ',' then Some(Comma)
    else if c == '.' then Some(Dot)
    else if c == '-' then Some(Minus)
    else if c == '+' then Some(Plus)
    else if c == ';' then Some(Semicolon)
    else if c == '*' then Some(Star)
    else None
  }

  /// For `!`, `=`, `<` and `>`: the kind alone and the kind when followed by `=`.
  function OperatorKinds(c: char): Option<(TokenType, TokenType)>
  {
    if c == '!' then Some((Bang, BangEqual))
    else if c == '=' then Some((Equal, EqualEqual))
    else if c == '<' then Some((Less, LessEqual))
    else if c == '>' then Some((Greater, GreaterEqual))
    else None
  }

  predicate IsWhitespace(c: char) { c == ' ' || c == '\r' || c == '\t' }

  function Step(src: string, start: nat, line: nat): (r: StepOutcome)
    requires start < |src|
    ensures !r.Fail? ==> start < r.next <= |src|
    ensures r.Emit? ==> r.kind != Eof
  {
    var c := src[start];
    var i := start + 1;
    if SingleCharKind(c).Some? then Emit(SingleCharKind(c).value, NilLit, i, line)
    else if OperatorKinds(c).Some? then
      var (alone, withEqual) := OperatorKinds(c).value;
      if NextIs(src, i, '=') then Emit(withEqual, NilLit, i + 1, line) else Emit(alone, NilLit, i, line)
    else if c == '/' then
      (if NextIs(src, i, '/') then Skip(NextOccurrence(src, i + 1, '\n'), line) else Emit(Slash, NilLit, i, line))
    else if IsWhitespace(c) then Skip(i, line)
    else if c == '\n' then Skip(i, line + 1)
    else if c == '"' then StringStep(src, start, line)
    else if IsDigit(c) then
      var j := NumberEnd(src, i);
      Emit(NumberTok, NumLit(DecimalValue(src[start..j])), j, line)
    else if IsAlpha(c) then
      var j := IdentifierEnd(src, i);
      Emit(IdentifierKind(src[start..j]), NilLit, j, line)
    else Fail(UnexpectedCharacter(line))
  }

  // ---------------------------------------------------------------------
  // One step per character class

  lemma StepSingleChar(src: string, pos: nat, line: nat)
    requires pos < |src| && SingleCharKind(src[pos]).Some?
    ensures Step(src, pos, line) == Emit(SingleCharKind(src[pos]).value, NilLit, pos + 1, line)
  {
  }

  lemma StepOperator(src: string, pos: nat, line: nat)
    requires pos < |src| && OperatorKinds(src[pos]).Some?
    ensures var (alone, withEqual) := OperatorKinds(src[pos]).value;
            Step(src, pos, line) ==
              if NextIs(src, pos + 1, '=') then Emit(withEqual, NilLit, pos + 2, line)
              else Emit(alone, NilLit, pos + 1, line)
  {
  }

  lemma StepSlash(src: string, pos: nat, line: nat)
    requires pos < |src| && src[pos] == '/'
    ensures Step(src, pos, line) ==
              if NextIs(src, pos + 1, '/') then Skip(NextOccurrence(src, pos + 2, '\n'), line)
              else Emit(Slash, NilLit, pos + 1, line)
  {
  }

  lemma StepWhitespace(src: string, pos: nat, line: nat)
    requires pos < |src| && IsWhitespace(src[pos])
    ensures Step(src, pos, line) == Skip(pos + 1, line)
  {
  }

  lemma StepNewline(src: string, pos: nat, line: nat)
    requires pos < |src| && src[pos] == '\n'
    ensures Step(src, pos, line) == Skip(pos + 1, line + 1)
  {
  }

  lemma StepQuote(src: string, pos: nat, line: nat)
    requires pos < |src| && src[pos] == '"'
    ensures Step(src, pos, line) == StringStep(src, pos, line)
  {
  }

  lemma StepDigit(src: string, pos: nat, line: nat)
    requires pos < |src| && IsDigit(src[pos])
    ensures var j := NumberEnd(src, pos + 1);
            Step(src, pos, line) == Emit(NumberTok, NumLit(DecimalValue(src[pos..j])), j, line)
  {
  }

  lemma StepAlpha(src: string, pos: nat, line: nat)
    requires pos < |src| && IsAlpha(src[pos])
    ensures var j := IdentifierEnd(src, pos + 1);
            Step(src, pos, line) == Emit(IdentifierKind(src[pos..j]), NilLit, j, line)
  {
  }

  /// The token list that scanning from `pos` (with the line counter at
  /// `line`) appends, EOF included, or the error it throws.
  function ScanFrom(src: string, pos: nat, line: nat): Result<seq<Token>, ScanError>
    requires pos <= |src|
    decreases |src| - pos, 1
  {
    if pos == |src| then Ok([Token(Eof, "", NilLit, line)])
    else ScanAfter(src, pos, Step(src, pos, line))
  }

  /// The rest of the scan once the step `step` from `pos` is known.
  function ScanAfter(src: string, pos: nat, step: StepOutcome): Result<seq<Token>, ScanError>
    requires pos < |src|
    requires !step.Fail? ==> pos < step.next <= |src|
    decreases |src| - pos, 0
  {
    match step
    case Fail(e) => Err(e)
    case Skip(next, line') => ScanFrom(src, next, line')
    case Emit(kind, literal, next, line') =>
      Prepend([Token(kind, src[pos..next], literal, line')], ScanFrom(src, next, line'))
  }

  /// `scanTokens` on a fresh scanner.
  function Scan(src: string): Result<seq<Token>, ScanError>
  {
    ScanFrom(src, 0, 1)
  }

  /// Tokens already pushed, followed by whatever the rest of the scan yields.
  function Prepend(done: seq<Token>, rest: Result<seq<Token>, ScanError>): Result<seq<Token>, ScanError>
  {
    match rest
    case Ok(ts) => Ok(done + ts)
    case Err(e) => Err(e)
  }

  // ---------------------------------------------------------------------
  // The imperative scanner

  class Scanner {
    const source: string
    var tokens: seq<Token>
    var start: nat
    var current: nat
    var line: nat

    ghost predicate Valid()
      reads this
    {
      start <= current <= |source|
    }

    constructor (source: string)
      ensures Valid()
      ensures this.source == source && tokens == [] && start == 0 && current == 0 && line == 1
    {
      this.source := source;
      tokens := [];
      start := 0;
      current := 0;
      line := 1;
    }

    /// Scans the rest of the input; on success the result is every token
    /// pushed so far followed by those of the remaining input, EOF last.
    method ScanTokens() returns (r: Result<seq<Token>, ScanError>)
      requires Valid()
      modifies this
      ensures r == Prepend(old(tokens), ScanFrom(source, old(current), old(line)))
      ensures r.Ok? ==> tokens == r.value
    {
      while !IsAtEnd()
        invariant Valid()
        invariant Prepend(tokens, ScanFrom(source, current, line))
               == Prepend(old(tokens), ScanFrom(source, old(current), old(line)))
        decreases |source| - current
      {
        start := current;
        UnfoldScanFrom(source, current, line, tokens);
        var failure := ScanToken();
        if failure.Some? {
          return Err(failure.value);
        }
      }
      tokens := tokens + [Token(Eof, "", NilLit, line)];
      return Ok(tokens);
    }

    predicate IsAtEnd()
      reads this
    {
      current >= |source|
    }

    /// The scanner state after the step `step` from a token start: the
    /// error it failed with, or the cursor, line and tokens it left.
    ghost predicate Finished(step: StepOutcome, tokens0: seq<Token>, failure: Option<ScanError>)
      reads this
    {
      if step.Fail? then failure == Some(step.error)
      else
        failure.None? && current == step.next && line == step.line &&
        start <= current <= |source| && tokens == tokens0 + Emitted(source, start, step)
    }

    /// One `_scanToken` call: the effect described by `Step`.
    method ScanToken() returns (failure: Option<ScanError>)
      requires Valid() && start == current < |source|
      modifies this
      ensures Valid() && start == old(start)
      ensures Finished(Step(source, old(current), old(line)), old(tokens), failure)
    {
      var c := Advance();
      if SingleCharKind(c).Some? || OperatorKinds(c).Some? || c == '/' {
        failure := ScanOperator(c);
      } else {
        failure := ScanOther(c);
      }
    }

    /// The branches of `_scanToken` for punctuation, operators and `/`.
    method ScanOperator(c: char) returns (failure: Option<ScanError>)
      requires Valid() && current == start + 1 && current <= |source| && c == source[start]
      requires SingleCharKind(c).Some? || OperatorKinds(c).Some? || c == '/'
      modifies this`current, this`tokens
      ensures Valid() && start == old(start)
      ensures Finished(Step(source, start, line), old(tokens), failure)
    {
      ghost var step := Step(source, start, line);
      failure := None;
      var single := SingleCharKind(c);
      var operator := OperatorKinds(c);
      if single.Some? {
        StepSingleChar(source, start, line);
        AddToken(single.value, NilLit);
      } else if operator.Some? {
        StepOperator(source, start, line);
        var m := Match('=');
        AddToken(if m then operator.value.1 else operator.value.0, NilLit);
      } else {
        StepSlash(source, start, line);
        var m := Match('/');
        if m {
          SkipComment();
        } else {
          AddToken(Slash, NilLit);
        }
      }
    }

    /// The branches of `_scanToken` for layout, literals, identifiers and
    /// unexpected characters.
    method ScanOther(c: char) returns (failure: Option<ScanError>)
      requires Valid() && current == start + 1 && current <= |source| && c == source[start]
      requires !(SingleCharKind(c).Some? || OperatorKinds(c).Some? || c == '/')
      modifies this`current, this`tokens, this`line
      ensures Valid() && start == old(start)
      ensures Finished(Step(source, start, old(line)), old(tokens), failure)
    {
      failure := None;
      if IsWhitespace(c) {
        // whitespace is ignored
        StepWhitespace(source, start, line);
      } else if c == '\n' {
        StepNewline(source, start, line);
        line := line + 1;
      } else if c == '"' {
        StepQuote(source, start, line);
        failure := ScanString();
      } else {
        failure := ScanLiteral(c);
      }
    }

    /// The last branches of `_scanToken`: numbers, identifiers and
    /// keywords, and unexpected characters.
    method ScanLiteral(c: char) returns (failure: Option<ScanError>)
      requires Valid() && current == start + 1 && current <= |source| && c == source[start]
      requires !(SingleCharKind(c).Some? || OperatorKinds(c).Some? || c == '/')
      requires !IsWhitespace(c) && c != '\n' && c != '"'
      modifies this`current, this`tokens
      ensures Valid() && start == old(start)
      ensures Finished(Step(source, start, line), old(tokens), failure)
    {
      failure := None;
      if IsDigit(c) {
        StepDigit(source, start, line);
        ScanNumber();
      } else if IsAlpha(c) {
        StepAlpha(source, start, line);
        ScanIdentifier();
      } else {
        failure := Some(UnexpectedCharacter(line));
      }
    }

    /// The rest of a `//` comment, up to but not including the newline.
    method SkipComment()
      requires Valid() && current == start + 2
      modifies this`current
      ensures Valid() && current == NextOccurrence(source, start + 2, '\n')
    {
      while Peek() != '\n' && !IsAtEnd()
        invariant Valid() && start + 2 <= current <= NextOccurrence(source, start + 2, '\n')
        decreases |source| - current
      {
        var c := Advance();
      }
    }

    method Advance() returns (c: char)
      requires Valid() && current < |source|
      modifies this`current
      ensures Valid() && current == old(current) + 1 && c == source[old(current)]
    {
      c := source[current];
      current := current + 1;
    }

    /// Pushes a token whose lexeme is `source[start..current]`.
    method AddToken(kind: TokenType, literal: LiteralValue)
      requires Valid()
      modifies this`tokens
      ensures tokens == old(tokens) + [Token(kind, source[start..current], literal, line)]
    {
      var text := source[start..current];
      tokens := tokens + [Token(kind, text, literal, line)];
    }

    /// Consumes the next character when it is `expected`.
    method Match(expected: char) returns (matched: bool)
      requires Valid()
      modifies this`current
      ensures Valid()
      ensures matched == NextIs(source, old(current), expected)
      ensures current == if matched then old(current) + 1 else old(current)
    {
      if IsAtEnd() {
        return false;
      }
      if source[current] != expected {
        return false;
      }
      current := current + 1;
      return true;
    }

    /// The next character, or NUL at the end of input.
    function Peek(): (c: char)
      reads this
      ensures current < |source| ==> c == source[current]
      ensures current >= |source| ==> c == '\0'
    {
      if IsAtEnd() then '\0' else source[current]
    }

    /// The character after the next one, or NUL past the end of input.
    function PeekNext(): (c: char)
      reads this
      ensures current + 1 < |source| ==> c == source[current + 1]
      ensures current + 1 >= |source| ==> c == '\0'
    {
      if current + 1 >= |source| then '\0' else source[current + 1]
    }

    /// The rest of a string literal whose opening quote was just consumed.
    method ScanString() returns (failure: Option<ScanError>)
      requires Valid() && current == start + 1 && source[start] == '"'
      modifies this`current, this`line, this`tokens
      ensures Valid()
      ensures Finished(StringStep(source, start, old(line)), old(tokens), failure)
    {
      ghost var close := NextOccurrence(source, start + 1, '"');
      while Peek() != '"' && !IsAtEnd()
        invariant Valid() && start + 1 <= current <= close && tokens == old(tokens)
        invariant line == old(line) + NewlinesIn(source, start + 1, current)
        decreases |source| - current
      {
        if Peek() == '\n' {
          line := line + 1;
        }
        var c := Advance();
      }
      assert current == close;
      if IsAtEnd() {
        return Some(UnterminatedString(line));
      }
      // the closing quote
      var c := Advance();
      var value := source[start + 1..current - 1];
      AddToken(StringTok, StrLit(value));
      return None;
    }

    /// The rest of a number literal whose first digit was just consumed.
    method ScanNumber()
      requires Valid() && current == start + 1 && IsDigit(source[start])
      modifies this`current, this`tokens
      ensures Valid()
      ensures current == NumberEnd(source, start + 1)
      ensures tokens == old(tokens) + [Token(NumberTok, source[start..current], NumLit(DecimalValue(source[start..current])), line)]
    {
      SkipNumber();
      var text := source[start..current];
      AddToken(NumberTok, NumLit(DecimalValue(text)));
    }

    /// Consumes the digits of a number and, when a digit follows the dot,
    /// its fraction.
    method SkipNumber()
      requires Valid()
      modifies this`current
      ensures Valid() && current == NumberEnd(source, old(current))
    {
      SkipDigits();
      ghost var d := current;
      // A fraction needs a digit after the dot.
      var fraction := Peek() == '.' && IsDigit(PeekNext());
      assert fraction == (d + 1 < |source| && source[d] == '.' && IsDigit(source[d + 1]));
      if fraction {
        var c := Advance();
        SkipDigits();
      }
    }

    /// Consumes a run of digits.
    method SkipDigits()
      requires Valid()
      modifies this`current
      ensures Valid() && current == DigitsEnd(source, old(current))
    {
      while IsDigit(Peek())
        invariant Valid() && old(current) <= current <= DigitsEnd(source, old(current))
        decreases |source| - current
      {
        var c := Advance();
      }
    }

    /// The rest of an identifier or keyword whose first letter was just consumed.
    method ScanIdentifier()
      requires Valid() && current == start + 1 && IsAlpha(source[start])
      modifies this`current, this`tokens
      ensures Valid()
      ensures current == IdentifierEnd(source, start + 1)
      ensures tokens == old(tokens) + [Token(IdentifierKind(source[start..current]), source[start..current], NilLit, line)]
    {
      while IsAlphaNumeric(Peek())
        invariant Valid() && start + 1 <= current <= IdentifierEnd(source, start + 1) && tokens == old(tokens)
        decreases |source| - current
      {
        var c := Advance();
      }
      var text := source[start..current];
      var kind := if text in ReservedWords then ReservedWords[text] else Identifier;
      AddToken(kind, NilLit);
    }
  }

  /// The tokens one step pushes when the lexeme starts at `start`.
  function Emitted(src: string, start: nat, step: StepOutcome): seq<Token>
    requires start <= |src|
    requires step.Emit? ==> start <= step.next <= |src|
  {
    if step.Emit? then [Token(step.kind, src[start..step.next], step.literal, step.line)] else []
  }

  /// One step of `ScanFrom`, stated for the tokens pushed before it.
  lemma UnfoldScanFrom(src: string, pos: nat, line: nat, before: seq<Token>)
    requires pos < |src|
    ensures Step(src, pos, line).Fail? ==>
              Prepend(before, ScanFrom(src, pos, line)) == Err(Step(src, pos, line).error)
    ensures !Step(src, pos, line).Fail? ==>
              Prepend(before, ScanFrom(src, pos, line)) ==
              Prepend(before + Emitted(src, pos, Step(src, pos, line)),
                      ScanFrom(src, Step(src, pos, line).next, Step(src, pos, line).line))
  {
    var step := Step(src, pos, line);
    assert before + [] == before;
    if step.Emit? {
      var rest := ScanFrom(src, step.next, step.line);
      if rest.Ok? {
        assert before + ([Token(step.kind, src[pos..step.next], step.literal, step.line)] + rest.value)
            == (before + Emitted(src, pos, step)) + rest.value;
      }
    }
  }
}
