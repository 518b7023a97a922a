/// How the scanner treats each class of character, stated on whole scans,
/// and the keyword lookup as `Scanner.js` writes it.
module LexerCases {
  import opened Common
  import opened Syntax
  import opened Lexer

  // ---------------------------------------------------------------------
  // Character classes

  /// Space, `\r` and `\t` emit nothing.
  lemma WhitespaceSkipped(src: string, pos: nat, line: nat)
    requires pos < |src| && IsWhitespace(src[pos])
    ensures ScanFrom(src, pos, line) == ScanFrom(src, pos + 1, line)
  {
    StepWhitespace(src, pos, line);
  }

  /// A newline emits nothing and advances the line counter by one.
  lemma NewlineCounted(src: string, pos: nat, line: nat)
    requires pos < |src| && src[pos] == '\n'
    ensures ScanFrom(src, pos, line) == ScanFrom(src, pos + 1, line + 1)
  {
    StepNewline(src, pos, line);
  }

  /// `//` skips up to, not including, the next newline (or the end of input)
  /// and emits nothing.
  lemma CommentSkipped(src: string, pos: nat, line: nat)
    requires pos + 1 < |src| && src[pos] == '/' && src[pos + 1] == '/'
    ensures var stop := NextOccurrence(src, pos + 2, '\n');
            ScanFrom(src, pos, line) == ScanFrom(src, stop, line) &&
            (stop == |src| || src[stop] == '\n') &&
            forall k :: pos + 2 <= k < stop ==> src[k] != '\n'
  {
    StepSlash(src, pos, line);
  }

  /// A `/` not followed by another `/` is a SLASH token.
  lemma LoneSlash(src: string, pos: nat, line: nat)
    requires pos < |src| && src[pos] == '/' && !NextIs(src, pos + 1, '/')
    ensures ScanFrom(src, pos, line) == Prepend([Token(Slash, "/", NilLit, line)], ScanFrom(src, pos + 1, line))
  {
    StepSlash(src, pos, line);
    assert src[pos..pos + 1] == "/";
  }

  /// `!`, `=`, `<` and `>` take a following `=` into a two-character token,
  /// and are one-character tokens otherwise.
  lemma OperatorMunch(src: string, pos: nat, line: nat)
    requires pos < |src| && OperatorKinds(src[pos]).Some?
    ensures var (alone, withEqual) := OperatorKinds(src[pos]).value;
            if NextIs(src, pos + 1, '=') then
              ScanFrom(src, pos, line) ==
                Prepend([Token(withEqual, [src[pos], '='], NilLit, line)], ScanFrom(src, pos + 2, line))
            else
              ScanFrom(src, pos, line) ==
                Prepend([Token(alone, [src[pos]], NilLit, line)], ScanFrom(src, pos + 1, line))
  {
    StepOperator(src, pos, line);
    if NextIs(src, pos + 1, '=') {
      assert src[pos..pos + 2] == [src[pos], '='];
    } else {
      assert src[pos..pos + 1] == [src[pos]];
    }
  }

  /// A `"` with no closing quote after it fails the whole scan, and the line
  /// it reports is the one at the end of the input, after the newlines inside
  /// the unterminated literal.
  lemma UnterminatedStringReportsLastLine(src: string, pos: nat, line: nat)
    requires pos < |src| && src[pos] == '"'
    requires forall k :: pos < k < |src| ==> src[k] != '"'
    ensures ScanFrom(src, pos, line) == Err(UnterminatedString(line + NewlinesIn(src, pos + 1, |src|)))
  {
    StepQuote(src, pos, line);
    NextOccurrenceTo(src, pos + 1, '"');
  }

  /// With no `c` from `i` on, the next occurrence is the end of `src`.
  lemma {:induction false} NextOccurrenceTo(src: string, i: nat, c: char)
    requires i <= |src|
    requires forall k :: i <= k < |src| ==> src[k] != c
    ensures NextOccurrence(src, i, c) == |src|
    decreases |src| - i
  {
    if i < |src| {
      NextOccurrenceTo(src, i + 1, c);
    }
  }

  /// A string token's literal is the text strictly between its quotes, and
  /// the literal may span lines.
  lemma StringLiteral(src: string, pos: nat, line: nat)
    requires pos < |src| && src[pos] == '"'
    requires NextOccurrence(src, pos + 1, '"') < |src|
    ensures var close := NextOccurrence(src, pos + 1, '"');
            var line' := line + NewlinesIn(src, pos + 1, close);
            ScanFrom(src, pos, line) ==
              Prepend([Token(StringTok, src[pos..close + 1], StrLit(src[pos + 1..close]), line')],
                      ScanFrom(src, close + 1, line'))
  {
    StepQuote(src, pos, line);
  }

  /// A `.` joins a number only when a digit follows it.
  lemma NumberFraction(src: string, pos: nat, line: nat)
    requires pos < |src| && IsDigit(src[pos])
    ensures var d := DigitsEnd(src, pos + 1);
            var end := if d + 1 < |src| && src[d] == '.' && IsDigit(src[d + 1]) then DigitsEnd(src, d + 1) else d;
            ScanFrom(src, pos, line) ==
              Prepend([Token(NumberTok, src[pos..end], NumLit(DecimalValue(src[pos..end])), line)],
                      ScanFrom(src, end, line))
  {
    StepDigit(src, pos, line);
  }

  /// A maximal run of letters, digits and underscores is one token: a keyword
  /// when the run is a reserved word, an identifier otherwise.
  lemma WordMunch(src: string, pos: nat, line: nat)
    requires pos < |src| && IsAlpha(src[pos])
    ensures var end := IdentifierEnd(src, pos + 1);
            var text := src[pos..end];
            ScanFrom(src, pos, line) ==
              Prepend([Token(if text in ReservedWords then ReservedWords[text] else Identifier, text, NilLit, line)],
                      ScanFrom(src, end, line))
  {
    StepAlpha(src, pos, line);
  }

  // ---------------------------------------------------------------------
  // Keyword lookup through the prototype chain

  /// The names every plain JavaScript object inherits from `Object.prototype`.
  const ObjectPrototypeMembers: set<string> :=
    {"constructor", "hasOwnProperty", "isPrototypeOf", "propertyIsEnumerable",
     "toString", "toLocaleString", "valueOf", "__proto__",
     "__defineGetter__", "__defineSetter__", "__lookupGetter__", "__lookupSetter__"}

  /// What the keyword lookup of the scanner yields as written: the `in`
  /// operator also sees members inherited by the keyword object, whose value
  /// (a function, not a token type) becomes the token's type.
  datatype KeywordLookup = Reserved(kind: TokenType) | InheritedMember(name: string) | NotReserved

  function ReservedLookupAsWritten(text: string): (r: KeywordLookup)
    ensures r.Reserved? <==> text in ReservedWords
    ensures r.Reserved? ==> r.kind == ReservedWords[text]
    ensures r.InheritedMember? <==> text !in ReservedWords && text in ObjectPrototypeMembers
  {
    if text in ReservedWords then Reserved(ReservedWords[text])
    else if text in ObjectPrototypeMembers then InheritedMember(text)
    else NotReserved
  }

  /// `toString` is identifier text that the lookup as written does not
  /// classify as IDENTIFIER, while the intended lookup (`IdentifierKind`)
  /// does.
  lemma ToStringIsNotAnIdentifierAsWritten()
    ensures IsAlpha("toString"[0])
    ensures IdentifierEnd("toString", 1) == |"toString"|
    ensures ReservedLookupAsWritten("toString") == InheritedMember("toString")
    ensures IdentifierKind("toString") == Identifier
  {
    assert "toString" !in ReservedWords;
    assert forall k :: 1 <= k < 8 ==> IsAlphaNumeric("toString"[k]);
    WordEndAt("toString", 1);
  }

  /// A word made only of letters, digits and underscores from `i` on runs
  /// to the end.
  lemma {:induction false} WordEndAt(s: string, i: nat)
    requires i <= |s|
    requires forall k :: i <= k < |s| ==> IsAlphaNumeric(s[k])
    ensures IdentifierEnd(s, i) == |s|
    decreases |s| - i
  {
    if i < |s| {
      WordEndAt(s, i + 1);
    }
  }

  /// The corrected lookup classifies every word: a reserved word gets its
  /// keyword kind and every other word is an identifier, so the kind is
  /// always a real token type of the keyword or identifier class.
  lemma IdentifierKindClassifies(text: string)
    ensures IdentifierKind(text) == Identifier || IsKeywordKind(IdentifierKind(text))
    ensures IdentifierKind(text) == Identifier <==> text !in ReservedWords
  {
    if text in ReservedWords {
      KeywordTableKinds(text);
    }
  }

  lemma KeywordTableKinds(text: string)
    requires text in ReservedWords
    ensures IsKeywordKind(ReservedWords[text]) && ReservedWords[text] != Identifier
  {
  }
}
