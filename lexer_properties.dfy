/**
 * What the token stream of src/lexer.rs looks like, lexeme by lexeme.  Each
 * lemma describes how `Scan` treats the input at one position.
 */
module LexerProperties {
  import opened Wrappers
  import opened Lexing

  // ---------------------------------------------------------------------
  // One lexeme at a time: what `Step` does for each kind of first character
  // ---------------------------------------------------------------------

  lemma StepDot(s: string, i: nat)
    requires i < |s| && s[i] == '.'
    ensures Step(s, i) == if i + 1 < |s| && s[i + 1] == '.' then Lexeme(Some(Range), i + 2) else Lexeme(Some(Dot), i + 1)
  {
    assert Punctuation(s[i]) == None;
  }

  lemma StepEqual(s: string, i: nat)
    requires i < |s| && s[i] == '='
    ensures Step(s, i) == if i + 1 < |s| && s[i + 1] == '=' then Lexeme(Some(EqualEqual), i + 2) else Lexeme(Some(Equal), i + 1)
  {
    assert Punctuation(s[i]) == None;
  }

  lemma StepSlash(s: string, i: nat)
    requires i + 1 < |s| && s[i] == '/'
    ensures s[i + 1] == '*' ==> Step(s, i) == Lexeme(None, CommentClose(s, i + 2))
    ensures s[i + 1] == '/' ==> Step(s, i) == Lexeme(None, FindChar(s, i, '\n'))
  {
    assert Punctuation(s[i]) == None;
  }

  lemma StepString(s: string, i: nat)
    requires i < |s| && s[i] == '"'
    ensures var e := FindChar(s, i + 1, '"'); Step(s, i) == Lexeme(Some(StringLiteral(s[i + 1..e])), e + 1)
  {
    assert Punctuation(s[i]) == None;
  }

  lemma StepWord(s: string, i: nat)
    requires i < |s| && IsAlphabetic(s[i])
    ensures Step(s, i) == Lexeme(Some(KeywordOrIdentifier(s[i..IdentEnd(s, i)])), IdentEnd(s, i))
  {
    var c := s[i];
    assert !IsWhitespace(c) && Punctuation(c).None? && c != '.' && c != '/' && c != '=' && c != '"';
  }

  lemma StepNumber(s: string, i: nat)
    requires i < |s| && IsNumeric(s[i])
    ensures Step(s, i) == Lexeme(Some(Number(s[i..NumberEnd(s, i, false)])), NumberEnd(s, i, false))
  {
    assert Punctuation(s[i]) == None;
  }

  // ---------------------------------------------------------------------
  // The token stream
  // ---------------------------------------------------------------------

  /** Whitespace produces no token: scanning resumes at the next character. */
  lemma WhitespaceYieldsNothing(s: string, i: nat)
    requires i < |s| && IsWhitespace(s[i])
    ensures Scan(s, i) == Scan(s, i + 1)
  {
    ScanUnfold(s, i);
  }

  /** Input that is only whitespace from `i` on scans to the lone end marker. */
  lemma {:induction false} BlankInputScansToEOF(s: string, i: nat)
    requires i <= |s|
    requires forall k :: i <= k < |s| ==> IsWhitespace(s[k])
    ensures Scan(s, i) == [EOF]
    decreases |s| - i
  {
    if i < |s| {
      BlankInputScansToEOF(s, i + 1);
    }
  }

  /** `//` skips up to, but not including, the next newline (or to the end). */
  lemma LineCommentSkipped(s: string, i: nat)
    requires i + 1 < |s| && s[i] == '/' && s[i + 1] == '/'
    ensures var e := FindChar(s, i, '\n');
      && Scan(s, i) == Scan(s, e)
      && (e == |s| || s[e] == '\n')
      && forall k :: i <= k < e ==> s[k] != '\n'
  {
    ScanUnfold(s, i);
    StepSlash(s, i);
  }

  /** A block comment ends right after the first closing pair. */
  lemma BlockCommentSkipped(s: string, i: nat)
    requires i + 1 < |s| && s[i] == '/' && s[i + 1] == '*'
    ensures Scan(s, i) == Scan(s, CommentClose(s, i + 2))
  {
    ScanUnfold(s, i);
    StepSlash(s, i);
  }

  /** A block comment that is never closed swallows the rest of the input. */
  lemma UnterminatedBlockCommentRunsToEnd(s: string, i: nat)
    requires i + 1 < |s| && s[i] == '/' && s[i + 1] == '*'
    requires forall k :: i + 2 <= k < |s| - 1 ==> !(s[k] == '*' && s[k + 1] == '/')
    ensures Scan(s, i) == [EOF]
  {
    BlockCommentSkipped(s, i);
    assert CommentClose(s, i + 2) >= |s|;
  }

  /** `==` is one token, tried before the single `=`. */
  lemma EqualEqualIsGreedy(s: string, i: nat)
    requires i < |s| && s[i] == '='
    ensures i + 1 < |s| && s[i + 1] == '=' ==> Scan(s, i) == [EqualEqual] + Scan(s, i + 2)
    ensures !(i + 1 < |s| && s[i + 1] == '=') ==> Scan(s, i) == [Equal] + Scan(s, i + 1)
  {
    ScanUnfold(s, i);
    StepEqual(s, i);
  }

  /** `..` is one token, tried before the single `.`. */
  lemma RangeIsGreedy(s: string, i: nat)
    requires i < |s| && s[i] == '.'
    ensures i + 1 < |s| && s[i + 1] == '.' ==> Scan(s, i) == [Range] + Scan(s, i + 2)
    ensures !(i + 1 < |s| && s[i + 1] == '.') ==> Scan(s, i) == [Dot] + Scan(s, i + 1)
  {
    ScanUnfold(s, i);
    StepDot(s, i);
  }

  /**
   * A word is the maximal run of letters, digits and `_` after a letter; it
   * becomes its keyword token, or an identifier carrying exactly that text.
   */
  lemma WordToken(s: string, i: nat)
    requires i < |s| && IsAlphabetic(s[i])
    ensures var e := IdentEnd(s, i);
      && i < e
      && Scan(s, i) == [KeywordOrIdentifier(s[i..e])] + Scan(s, e)
      && (e == |s| || !IsIdentChar(s[e]))
      && (s[i..e] !in KeywordSpellings ==> KeywordOrIdentifier(s[i..e]) == Identifier(s[i..e]))
  {
    var e := IdentEnd(s, i);
    ScanUnfold(s, i);
    StepWord(s, i);
    IdentifierExactlyWhenNotKeyword(s[i..e]);
  }

  /**
   * A string literal's payload is everything after the opening quote up to
   * the next quote, and never contains a quote.
   */
  lemma StringToken(s: string, i: nat)
    requires i < |s| && s[i] == '"'
    ensures var e := FindChar(s, i + 1, '"');
      && Scan(s, i) == [StringLiteral(s[i + 1..e])] + Scan(s, e + 1)
      && '"' !in s[i + 1..e]
  {
    var e := FindChar(s, i + 1, '"');
    ScanUnfold(s, i);
    StepString(s, i);
    var payload := s[i + 1..e];
    assert forall k :: 0 <= k < |payload| ==> payload[k] == s[i + 1 + k];
  }

  /** A string that is never closed runs to the end of the input. */
  lemma UnterminatedStringRunsToEnd(s: string, i: nat)
    requires i < |s| && s[i] == '"'
    requires forall k :: i < k < |s| ==> s[k] != '"'
    ensures Scan(s, i) == [StringLiteral(s[i + 1..]), EOF]
  {
    StringToken(s, i);
    assert FindChar(s, i + 1, '"') == |s|;
    assert Scan(s, |s| + 1) == [EOF];
    assert s[i + 1..|s|] == s[i + 1..];
  }

  /** The shape of a number lexeme: one or more digits with at most one '.', starting with a digit. */
  predicate WellFormedNumber(lexeme: string)
  {
    && |lexeme| > 0
    && IsNumeric(lexeme[0])
    && (forall k :: 0 <= k < |lexeme| ==> IsNumeric(lexeme[k]) || lexeme[k] == '.')
    && (forall j, k :: 0 <= j < k < |lexeme| && lexeme[j] == '.' ==> lexeme[k] != '.')
  }

  lemma NumberToken(s: string, i: nat)
    requires i < |s| && IsNumeric(s[i])
    ensures var e := NumberEnd(s, i, false);
      && Scan(s, i) == [Number(s[i..e])] + Scan(s, e)
      && WellFormedNumber(s[i..e])
      && (e == |s| || !IsNumeric(s[e]))
  {
    var e := NumberEnd(s, i, false);
    var lexeme := s[i..e];
    ScanUnfold(s, i);
    StepNumber(s, i);
    assert forall k :: 0 <= k < |lexeme| ==> lexeme[k] == s[i + k];
  }

  /** A character the lexer does not recognise becomes one `Unknown` token. */
  lemma UnknownToken(s: string, i: nat)
    requires i < |s|
    requires !IsWhitespace(s[i]) && Punctuation(s[i]).None?
    requires s[i] !in {'.', '/', '=', '"'} && !IsAlphabetic(s[i]) && !IsNumeric(s[i])
    ensures Scan(s, i) == [Unknown(s[i])] + Scan(s, i + 1)
  {
    ScanUnfold(s, i);
  }
}
