/**
 * The lexer of src/lexer.rs: a single pass over the input characters that
 * never fails.  `Scan` is the specification of the token stream; the class
 * `Lexer` keeps the source's imperative shape (a `position` field advanced by
 * `while` loops) and is proved to produce exactly `Scan`'s output.
 *
 * Rust's Unicode classification (`is_alphabetic`, `is_numeric`) is replaced by
 * its ASCII part, and number payloads are kept as their lexeme text instead of
 * an `f64`.
 */
module Lexing {
  import opened Wrappers

  datatype Token =
    | Lock | Stract | Vault | Safe | Capability | Use | Module | Func
    | If | Else | While | For | In | Return
    | Identifier(name: string)
    | StringLiteral(text: string)
    | Number(lexeme: string)
    | LeftBrace | RightBrace | LeftParen | RightParen | LeftBracket | RightBracket
    | Equal | EqualEqual | Greater | Less | Plus | Minus | Star | Slash
    | Dot | Range | Comma | Colon
    | EOF
    | Unknown(ch: char)

  // ---------------------------------------------------------------------
  // Character classes (ASCII approximation of Rust's char methods)
  // ---------------------------------------------------------------------

  predicate IsAlphabetic(c: char) { 'a' <= c <= 'z' || 'A' <= c <= 'Z' }

  predicate IsNumeric(c: char) { '0' <= c <= '9' }

  /** What may continue an identifier: `is_alphanumeric() || c == '_'`. */
  predicate IsIdentChar(c: char) { IsAlphabetic(c) || IsNumeric(c) || c == '_' }

  predicate IsWhitespace(c: char) { c == ' ' || c == '\t' || c == '\n' || c == '\r' }

  /** The characters that always make a one-character token. */
  function Punctuation(c: char): Option<Token>
  {
    match c
    case '{' => Some(LeftBrace)
    case '}' => Some(RightBrace)
    case '(' => Some(LeftParen)
    case ')' => Some(RightParen)
    case '[' => Some(LeftBracket)
    case ']' => Some(RightBracket)
    case ',' => Some(Comma)
    case ':' => Some(Colon)
    case '+' => Some(Plus)
    case '-' => Some(Minus)
    case '*' => Some(Star)
    case '>' => Some(Greater)
    case '<' => Some(Less)
    case _ => None
  }

  // ---------------------------------------------------------------------
  // The keyword table
  // ---------------------------------------------------------------------

  /** The spelling of a keyword token; `None` for every other token. */
  function Spelling(t: Token): Option<string>
  {
    match t
    case Lock => Some("lock")
    case Stract => Some("stract")
    case Vault => Some("vault")
    case Safe => Some("safe")
    case Capability => Some("capability")
    case Use => Some("use")
    case Module => Some("module")
    case Func => Some("func")
    case If => Some("if")
    case Else => Some("else")
    case While => Some("while")
    case For => Some("for")
    case In => Some("in")
    case Return => Some("return")
    case _ => None
  }

  const KeywordSpellings: set<string> :=
    {"lock", "stract", "vault", "safe", "capability", "use", "module", "func",
     "if", "else", "while", "for", "in", "return"}

  /** Classifies the text of an identifier-shaped lexeme (lexer.rs:131-148). */
  function KeywordOrIdentifier(text: string): (t: Token)
    ensures t == Identifier(text) || Spelling(t) == Some(text)
  {
    if text == "lock" then Lock
    else if text == "stract" then Stract
    else if text == "vault" then Vault
    else if text == "safe" then Safe
    else if text == "capability" then Capability
    else if text == "use" then Use
    else if text == "module" then Module
    else if text == "func" then Func
    else if text == "if" then If
    else if text == "else" then Else
    else if text == "while" then While
    else if text == "for" then For
    else if text == "in" then In
    else if text == "return" then Return
    else Identifier(text)
  }

  /** A word is an identifier exactly when it is not in the keyword table. */
  lemma IdentifierExactlyWhenNotKeyword(text: string)
    ensures KeywordOrIdentifier(text).Identifier? <==> text !in KeywordSpellings
    ensures KeywordOrIdentifier(text).Identifier? ==> KeywordOrIdentifier(text).name == text
  {
  }

  /** Every keyword token is recognised from its own spelling. */
  lemma KeywordSpellingRoundTrip(t: Token)
    requires Spelling(t).Some?
    ensures Spelling(t).value in KeywordSpellings
    ensures KeywordOrIdentifier(Spelling(t).value) == t
  {
  }

  // ---------------------------------------------------------------------
  // Where each lexeme ends
  // ---------------------------------------------------------------------

  /** `peek_next`: the character after position `i`, or '\0' past the end. */
  function PeekAt(s: string, i: nat): (c: char)
    ensures c != '\0' ==> i + 1 < |s| && c == s[i + 1]
    ensures i + 1 < |s| ==> c == s[i + 1]
  {
    if i + 1 >= |s| then '\0' else s[i + 1]
  }

  /** The first index at or after `i` holding `c`, or `|s|` when there is none. */
  function FindChar(s: string, i: nat, c: char): (e: nat)
    requires i <= |s|
    ensures i <= e <= |s|
    ensures forall k :: i <= k < e ==> s[k] != c
    ensures e == |s| || s[e] == c
    decreases |s| - i
  {
    if i == |s| || s[i] == c then i else FindChar(s, i + 1, c)
  }

  /** The end of the maximal run of identifier characters starting at `i`. */
  function IdentEnd(s: string, i: nat): (e: nat)
    requires i <= |s|
    ensures i <= e <= |s|
    ensures forall k :: i <= k < e ==> IsIdentChar(s[k])
    ensures e == |s| || !IsIdentChar(s[e])
    decreases |s| - i
  {
    if i < |s| && IsIdentChar(s[i]) then IdentEnd(s, i + 1) else i
  }

  /**
   * The end of a number lexeme scanned from `i`, where `seenDot` records
   * whether a '.' was already taken: digits, and at most one '.'.
   */
  function NumberEnd(s: string, i: nat, seenDot: bool): (e: nat)
    requires i <= |s|
    ensures i <= e <= |s|
    ensures forall k :: i <= k < e ==> IsNumeric(s[k]) || s[k] == '.'
    ensures seenDot ==> forall k :: i <= k < e ==> s[k] != '.'
    ensures forall j, k :: i <= j < k < e && s[j] == '.' ==> s[k] != '.'
    ensures e < |s| ==> !IsNumeric(s[e])
    ensures e < |s| && s[e] == '.' && !seenDot ==> exists k :: i <= k < e && s[k] == '.'
    decreases |s| - i
  {
    if i < |s| && IsNumeric(s[i]) then NumberEnd(s, i + 1, seenDot)
    else if i < |s| && s[i] == '.' && !seenDot then NumberEnd(s, i + 1, true)
    else i
  }

  /**
   * Where a block comment whose body starts at `i` ends: just after the first
   * "*" "/" pair, or at the end of the input when there is none.
   */
  function CommentClose(s: string, i: nat): (e: nat)
    ensures i <= e
    ensures i <= |s| ==> e <= |s|
    ensures e < |s| ==> e >= i + 2 && s[e - 2] == '*' && s[e - 1] == '/'
    ensures forall k :: i <= k && k + 1 < |s| && k + 1 < e - 1 ==> !(s[k] == '*' && s[k + 1] == '/')
    decreases |s| - i
  {
    if i >= |s| then i
    else if s[i] == '*' && PeekAt(s, i) == '/' then i + 2
    else CommentClose(s, i + 1)
  }

  // ---------------------------------------------------------------------
  // The token stream
  // ---------------------------------------------------------------------

  /** One iteration of the scanning loop: the token it pushes, if any, and the new position. */
  datatype Lexeme = Lexeme(token: Option<Token>, next: nat)

  function Step(s: string, i: nat): (r: Lexeme)
    requires i < |s|
    ensures i < r.next <= |s| + 1
    ensures r.token != Some(EOF)
  {
    var c := s[i];
    if IsWhitespace(c) then Lexeme(None, i + 1)
    else if Punctuation(c).Some? then Lexeme(Punctuation(c), i + 1)
    else if c == '.' then
      if PeekAt(s, i) == '.' then Lexeme(Some(Range), i + 2) else Lexeme(Some(Dot), i + 1)
    else if c == '/' then
      if PeekAt(s, i) == '*' then Lexeme(None, CommentClose(s, i + 2))
      else if PeekAt(s, i) == '/' then Lexeme(None, FindChar(s, i, '\n'))
      else Lexeme(Some(Slash), i + 1)
    else if c == '=' then
      if PeekAt(s, i) == '=' then Lexeme(Some(EqualEqual), i + 2) else Lexeme(Some(Equal), i + 1)
    else if c == '"' then
      var e := FindChar(s, i + 1, '"');
      Lexeme(Some(StringLiteral(s[i + 1..e])), e + 1)
    else if IsAlphabetic(c) then
      var e := IdentEnd(s, i);
      Lexeme(Some(KeywordOrIdentifier(s[i..e])), e)
    else if IsNumeric(c) then
      var e := NumberEnd(s, i, false);
      Lexeme(Some(Number(s[i..e])), e)
    else Lexeme(Some(Unknown(c)), i + 1)
  }

  /**
   * The tokens produced from position `i` on.  The output always ends with
   * exactly one EOF, and each token uses up at least one character.
   */
  function Scan(s: string, i: nat): (r: seq<Token>)
    ensures 1 <= |r|
    ensures i <= |s| ==> |r| <= |s| - i + 1
    ensures r[|r| - 1] == EOF && EOF !in r[..|r| - 1]
    decreases |s| - i
  {
    if i >= |s| then [EOF]
    else
      var step := Step(s, i);
      var rest := Scan(s, step.next);
      if step.token.Some? then [step.token.value] + rest else rest
  }

  lemma ScanUnfold(s: string, i: nat)
    requires i < |s|
    ensures Scan(s, i) == (if Step(s, i).token.Some? then [Step(s, i).token.value] else []) + Scan(s, Step(s, i).next)
  {
  }

  lemma AppendAssociative<T>(a: seq<T>, b: seq<T>, c: seq<T>)
    ensures (a + b) + c == a + (b + c)
  {
  }

  /** The whole token stream of a source text (`Lexer::new(text).tokenize()`). */
  function Tokens(s: string): seq<Token>
  {
    Scan(s, 0)
  }

  // ---------------------------------------------------------------------
  // The imperative lexer
  // ---------------------------------------------------------------------

  class Lexer {
    const input: seq<char>
    var position: nat

    constructor (input: string)
      ensures this.input == input && position == 0
    {
      this.input := input;
      position := 0;
    }

    method Tokenize() returns (tokens: seq<Token>)
      modifies this
      ensures tokens == Scan(input, old(position))
      ensures position >= |input|
    {
      tokens := [];
      while position < |input|
        invariant tokens + Scan(input, position) == Scan(input, old(position))
        decreases |input| - position
      {
        ghost var before := tokens;
        ScanUnfold(input, position);
        var pushed := ScanToken();
        tokens := tokens + pushed;
        AppendAssociative(before, pushed, Scan(input, position));
      }
      tokens := tokens + [EOF];
    }

    /** One iteration of the `tokenize` loop: the tokens it pushes (none or one). */
    method ScanToken() returns (pushed: seq<Token>)
      requires position < |input|
      modifies this
      ensures position == Step(input, old(position)).next
      ensures pushed == if Step(input, old(position)).token.Some? then [Step(input, old(position)).token.value] else []
    {
      var c := input[position];
      match c {
      case ' ' | '\t' | '\n' | '\r' =>
        pushed := [];
        position := position + 1;
      case '{' | '}' | '(' | ')' | '[' | ']' =>
        pushed := [Punctuation(c).value];
        position := position + 1;
      case '.' =>
        if PeekAt(input, position) == '.' {
          position := position + 2;
          pushed := [Range];
        } else {
          pushed := [Dot];
          position := position + 1;
        }
      case ',' | ':' | '+' | '-' | '*' =>
        pushed := [Punctuation(c).value];
        position := position + 1;
      case '/' =>
        if PeekAt(input, position) == '*' {
          SkipMultilineComment();
          pushed := [];
        } else if PeekAt(input, position) == '/' {
          SkipComment();
          pushed := [];
        } else {
          pushed := [Slash];
          position := position + 1;
        }
      case '=' =>
        if PeekAt(input, position) == '=' {
          position := position + 2;
          pushed := [EqualEqual];
        } else {
          pushed := [Equal];
          position := position + 1;
        }
      case '>' | '<' =>
        pushed := [Punctuation(c).value];
        position := position + 1;
      case '"' =>
        var t := ReadString();
        pushed := [t];
      case _ =>
        if IsAlphabetic(c) {
          var t := ReadIdentifier();
          pushed := [t];
        } else if IsNumeric(c) {
          var t := ReadNumber();
          pushed := [t];
        } else {
          pushed := [Unknown(c)];
          position := position + 1;
        }
      }
    }

    method ReadIdentifier() returns (t: Token)
      requires position <= |input|
      modifies this
      ensures position == IdentEnd(input, old(position))
      ensures t == KeywordOrIdentifier(input[old(position)..position])
    {
      var start := position;
      while position < |input| && IsIdentChar(input[position])
        invariant start <= position <= |input|
        invariant IdentEnd(input, position) == IdentEnd(input, start)
        decreases |input| - position
      {
        position := position + 1;
      }
      t := KeywordOrIdentifier(input[start..position]);
    }

    method ReadString() returns (t: Token)
      requires position < |input|
      modifies this
      ensures position == FindChar(input, old(position) + 1, '"') + 1
      ensures t == StringLiteral(input[old(position) + 1..position - 1])
    {
      position := position + 1;
      var start := position;
      while position < |input| && input[position] != '"'
        invariant start <= position <= |input|
        invariant FindChar(input, position, '"') == FindChar(input, start, '"')
        decreases |input| - position
      {
        position := position + 1;
      }
      t := StringLiteral(input[start..position]);
      position := position + 1;
    }

    method ReadNumber() returns (t: Token)
      requires position <= |input|
      modifies this
      ensures position == NumberEnd(input, old(position), false)
      ensures t == Number(input[old(position)..position])
    {
      var start := position;
      var hasDot := false;
      while position < |input|
        invariant start <= position <= |input|
        invariant NumberEnd(input, position, hasDot) == NumberEnd(input, start, false)
        decreases |input| - position
      {
        var c := input[position];
        if IsNumeric(c) {
          position := position + 1;
        } else if c == '.' && !hasDot {
          hasDot := true;
          position := position + 1;
        } else {
          break;
        }
      }
      t := Number(input[start..position]);
    }

    method SkipComment()
      requires position <= |input|
      modifies this
      ensures position == FindChar(input, old(position), '\n')
    {
      while position < |input| && input[position] != '\n'
        invariant old(position) <= position <= |input|
        invariant FindChar(input, position, '\n') == FindChar(input, old(position), '\n')
        decreases |input| - position
      {
        position := position + 1;
      }
    }

    method SkipMultilineComment()
      modifies this
      ensures position == CommentClose(input, old(position) + 2)
    {
      position := position + 2;
      while position < |input|
        invariant CommentClose(input, position) == CommentClose(input, old(position) + 2)
        decreases |input| - position
      {
        if input[position] == '*' && PeekAt(input, position) == '/' {
          position := position + 2;
          return;
        }
        position := position + 1;
      }
    }
  }
}
