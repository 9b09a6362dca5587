/**
 * The older parsing methods of src/parser.rs:17-150, which sit on the same
 * `Parser` beside the current grammar.  They recognise only declarations,
 * capabilities, functions and `module`, take a declaration's value from a
 * single string token, and read only `a.b(...)` calls, whose arguments they
 * skip.  The "skip until `{`" and "skip until `)`" loops never end when the
 * token is missing; as in the statement grammar, that is `Diverges`.
 */
module LegacyParser {
  import opened Wrappers
  import opened Lexing
  import opened Ast
  import opened ParserState

  // ---------------------------------------------------------------------
  // The productions as functions
  // ---------------------------------------------------------------------

  /**
   * `parse_var_decl`: keyword, name, one skipped token (the `=`), and one
   * token that is the value if it is a string literal.
   */
  function VarDeclAt(ts: seq<Token>, p: nat, isMutable: bool, isSecure: bool): (r: Parsed<Statement>)
    requires p <= |ts|
    ensures p <= r.next <= |ts| && (p < |ts| ==> p < r.next)
  {
    var q := Next(ts, p);
    var v := Next(ts, Next(ts, q));
    var value := if At(ts, v).StringLiteral? then LiteralStr(At(ts, v).text) else LiteralStr("");
    Parsed(VarDecl(isMutable, isSecure, NameOr(At(ts, q), "Unknown"), value), Next(ts, v))
  }

  /**
   * `parse_capability`: two tokens skipped (`use` and the one after it), the
   * service name, then everything up to and including the next `}`.
   */
  function CapabilityAt(ts: seq<Token>, p: nat): (r: Parsed<Statement>)
    requires p <= |ts|
    ensures p <= r.next <= |ts| && (p < |ts| ==> p < r.next)
    ensures r.value.CapabilityUse? && r.value.serviceParams == []
  {
    var q := Next(ts, Next(ts, p));
    Parsed(CapabilityUse(NameOr(At(ts, q), "Unknown"), []), Next(ts, FirstCloseOrEnd(ts, Next(ts, q))))
  }

  /**
   * `parse_func_call_stmt`: `a`, one skipped token (the `.`), `b`, then
   * everything up to and including the next `)`.
   */
  function CallStmtAt(ts: seq<Token>, p: nat): (r: Outcome<Statement>)
    requires p <= |ts|
    ensures r.Done? ==> p < r.next <= |ts|
  {
    var m := Next(ts, Next(ts, p));
    var target := NameOr(At(ts, p), "") + "." + NameOr(At(ts, m), "");
    match FirstAt(ts, Next(ts, m), RightParen)
    case None => Diverges
    case Some(k) => Done(ExpressionStatement(FunctionCall(target, [])), k + 1)
  }

  /** One turn of the body loop of `parse_function`: `stract` declarations and calls only. */
  function BodyStatement(ts: seq<Token>, p: nat): (r: Outcome<Option<Statement>>)
    requires p <= |ts|
    ensures r.Done? ==> p <= r.next <= |ts| && (p < |ts| ==> p < r.next)
  {
    var t := At(ts, p);
    if t.Stract? then
      var d := VarDeclAt(ts, p, true, false);
      Done(Some(d.value), d.next)
    else if t.Identifier? then
      match CallStmtAt(ts, p)
      case Diverges => Diverges
      case Done(s, q) => Done(Some(s), q)
    else Done(None, Next(ts, p))
  }

  /** The body loop of `parse_function`, up to a `}` or `EOF`, then one `advance`. */
  function FunctionBody(ts: seq<Token>, acc: seq<Statement>, p: nat): (r: Outcome<seq<Statement>>)
    requires p <= |ts|
    ensures r.Done? ==> p <= r.next <= |ts| && acc <= r.value
    decreases |ts| - p
  {
    if At(ts, p).RightBrace? || At(ts, p).EOF? then Done(acc, Next(ts, p))
    else
      match BodyStatement(ts, p)
      case Diverges => Diverges
      case Done(s, q) => FunctionBody(ts, if s.Some? then acc + [s.value] else acc, q)
  }

  /** `parse_function`: name (or "Anon"), everything up to `{` skipped, then the body. */
  function FunctionAt(ts: seq<Token>, p: nat): (r: Outcome<Statement>)
    requires p <= |ts|
    ensures r.Done? ==> p < r.next <= |ts|
    ensures r.Done? ==> r.value.FunctionDecl? && r.value.params == []
  {
    var q := Next(ts, p);
    match FirstAt(ts, Next(ts, q), LeftBrace)
    case None => Diverges
    case Some(k) =>
      match FunctionBody(ts, [], k + 1)
      case Diverges => Diverges
      case Done(body, next) => Done(FunctionDecl(NameOr(At(ts, q), "Anon"), [], body), next)
  }

  /** One turn of the loop of `parse`. */
  function TopStatement(ts: seq<Token>, p: nat): (r: Outcome<Option<Statement>>)
    requires p <= |ts|
    ensures r.Done? ==> p <= r.next <= |ts| && (p < |ts| ==> p < r.next)
  {
    var t := At(ts, p);
    if t.Use? then
      var c := CapabilityAt(ts, p);
      Done(Some(c.value), c.next)
    else if t.Lock? || t.Stract? || t.Vault? then
      var d := VarDeclAt(ts, p, t.Stract?, t.Vault?);
      Done(Some(d.value), d.next)
    else if t.Func? then
      match FunctionAt(ts, p)
      case Diverges => Diverges
      case Done(s, q) => Done(Some(s), q)
    else if t.Module? then Done(None, Next(ts, Next(ts, p)))
    else Done(None, Next(ts, p))
  }

  /** The loop of `parse`: statements until the end of the tokens or the first `EOF`. */
  function TopLevel(ts: seq<Token>, acc: seq<Statement>, p: nat): (r: Outcome<seq<Statement>>)
    requires p <= |ts|
    ensures r.Done? ==> acc <= r.value && |r.value| <= |acc| + (|ts| - p)
    ensures r.Done? ==> r.next <= |ts| && (r.next == |ts| || ts[r.next].EOF?)
    decreases |ts| - p
  {
    if p == |ts| || ts[p].EOF? then Done(acc, p)
    else
      match TopStatement(ts, p)
      case Diverges => Diverges
      case Done(s, q) => TopLevel(ts, if s.Some? then acc + [s.value] else acc, q)
  }

  /**
   * The program the legacy `parse` builds from `ts`, or `None` where it would
   * not return.  A token list that is empty or opens with `EOF` is the
   * empty program, and no program has more statements than there are
   * tokens.
   */
  function ParseTokens(ts: seq<Token>): (r: Option<Program>)
    ensures (|ts| == 0 || ts[0].EOF?) ==> r == Some(Program([]))
    ensures r.Some? ==> |r.value.statements| <= |ts|
  {
    match TopLevel(ts, [], 0)
    case Diverges => None
    case Done(statements, _) => Some(Program(statements))
  }

  // ---------------------------------------------------------------------
  // One turn of each loop, for the methods' invariants
  // ---------------------------------------------------------------------

  lemma FunctionBodyStep(ts: seq<Token>, acc: seq<Statement>, p: nat)
    requires p <= |ts| && !At(ts, p).RightBrace? && !At(ts, p).EOF?
    ensures var r := BodyStatement(ts, p);
      && (r.Diverges? ==> FunctionBody(ts, acc, p).Diverges?)
      && (r.Done? ==> FunctionBody(ts, acc, p) == FunctionBody(ts, if r.value.Some? then acc + [r.value.value] else acc, r.next))
  {
  }

  lemma TopLevelStep(ts: seq<Token>, acc: seq<Statement>, p: nat)
    requires p < |ts| && !ts[p].EOF?
    ensures var r := TopStatement(ts, p);
      && (r.Diverges? ==> TopLevel(ts, acc, p).Diverges?)
      && (r.Done? ==> TopLevel(ts, acc, p) == TopLevel(ts, if r.value.Some? then acc + [r.value.value] else acc, r.next))
  {
  }

  // ---------------------------------------------------------------------
  // The parsing methods
  // ---------------------------------------------------------------------

  /** `parse_var_decl` (src/parser.rs:74-97). */
  method ParseVarDecl(ps: Parser, isMutable: bool, isSecure: bool) returns (s: Statement)
    requires ps.Valid()
    modifies ps
    ensures ps.Valid() && ps.diverged == old(ps.diverged)
    ensures Parsed(s, ps.position) == VarDeclAt(ps.tokens, old(ps.position), isMutable, isSecure)
  {
    ps.Advance();
    var name := NameOr(ps.CurrentToken(), "Unknown");
    ps.Advance();
    ps.Advance();
    var t := ps.CurrentToken();
    var value := if t.StringLiteral? then LiteralStr(t.text) else LiteralStr("");
    ps.Advance();
    s := VarDecl(isMutable, isSecure, name, value);
  }

  /** `parse_capability` (src/parser.rs:53-72). */
  method ParseCapability(ps: Parser) returns (s: Statement)
    requires ps.Valid()
    modifies ps
    ensures ps.Valid() && ps.diverged == old(ps.diverged)
    ensures Parsed(s, ps.position) == CapabilityAt(ps.tokens, old(ps.position))
  {
    ps.Advance();
    ps.Advance();
    var service := NameOr(ps.CurrentToken(), "Unknown");
    ps.Advance();
    ps.SkipToCloseOrEnd();
    ps.Advance();
    s := CapabilityUse(service, []);
  }

  /** `parse_func_call_stmt` (src/parser.rs:128-150). */
  method ParseCallStmt(ps: Parser) returns (s: Statement)
    requires ps.Valid() && !ps.diverged
    modifies ps
    ensures ps.Valid()
    ensures Agrees(CallStmtAt(ps.tokens, old(ps.position)), s, ps.position, ps.diverged)
  {
    var target := NameOr(ps.CurrentToken(), "");
    ps.Advance();
    ps.Advance();
    var member := NameOr(ps.CurrentToken(), "");
    ps.Advance();
    s := ExpressionStatement(FunctionCall(target + "." + member, []));
    ps.SkipUntil(RightParen);
    if ps.diverged {
      return;
    }
    ps.Advance();
  }

  /** One turn of the body loop of `parse_function` (src/parser.rs:115-121). */
  method ParseBodyStatement(ps: Parser) returns (s: Option<Statement>)
    requires ps.Valid() && !ps.diverged
    modifies ps
    ensures ps.Valid()
    ensures Agrees(BodyStatement(ps.tokens, old(ps.position)), s, ps.position, ps.diverged)
  {
    var t := ps.CurrentToken();
    if t.Stract? {
      var d := ParseVarDecl(ps, true, false);
      s := Some(d);
    } else if t.Identifier? {
      var d := ParseCallStmt(ps);
      s := Some(d);
    } else {
      ps.Advance();
      s := None;
    }
  }

  /** The body loop of `parse_function` and the `advance` after it (src/parser.rs:113-123). */
  method ParseFunctionBody(ps: Parser) returns (body: seq<Statement>)
    requires ps.Valid() && !ps.diverged
    modifies ps
    ensures ps.Valid()
    ensures Agrees(FunctionBody(ps.tokens, [], old(ps.position)), body, ps.position, ps.diverged)
  {
    ghost var ts := ps.tokens;
    body := [];
    while !ps.CurrentToken().RightBrace? && !ps.CurrentToken().EOF?
      invariant ps.Valid() && !ps.diverged && old(ps.position) <= ps.position
      invariant FunctionBody(ts, body, ps.position) == FunctionBody(ts, [], old(ps.position))
      decreases |ps.tokens| - ps.position
    {
      FunctionBodyStep(ts, body, ps.position);
      var s := ParseBodyStatement(ps);
      if ps.diverged {
        return;
      }
      if s.Some? {
        body := body + [s.value];
      }
    }
    ps.Advance();
  }

  /** `parse_function` (src/parser.rs:99-126). */
  method ParseFunction(ps: Parser) returns (s: Statement)
    requires ps.Valid() && !ps.diverged
    modifies ps
    ensures ps.Valid()
    ensures Agrees(FunctionAt(ps.tokens, old(ps.position)), s, ps.position, ps.diverged)
  {
    ps.Advance();
    var name := NameOr(ps.CurrentToken(), "Anon");
    ps.Advance();
    s := FunctionDecl(name, [], []);
    ps.SkipUntil(LeftBrace);
    if ps.diverged {
      return;
    }
    ps.Advance();
    var body := ParseFunctionBody(ps);
    s := FunctionDecl(name, [], body);
  }

  /** One turn of the loop of `parse` (src/parser.rs:23-47). */
  method ParseTopStatement(ps: Parser) returns (s: Option<Statement>)
    requires ps.Valid() && !ps.diverged
    modifies ps
    ensures ps.Valid()
    ensures Agrees(TopStatement(ps.tokens, old(ps.position)), s, ps.position, ps.diverged)
  {
    var t := ps.CurrentToken();
    var d: Statement;
    if t.Use? {
      d := ParseCapability(ps);
    } else if t.Lock? {
      d := ParseVarDecl(ps, false, false);
    } else if t.Stract? {
      d := ParseVarDecl(ps, true, false);
    } else if t.Vault? {
      d := ParseVarDecl(ps, false, true);
    } else if t.Func? {
      d := ParseFunction(ps);
    } else if t.Module? {
      ps.Advance();
      ps.Advance();
      return None;
    } else {
      ps.Advance();
      return None;
    }
    s := Some(d);
  }

  /**
   * `parse` (src/parser.rs:17-51), run on a fresh parser.  The result is
   * `None` exactly where the source would not return.
   */
  method Parse(tokens: seq<Token>) returns (program: Option<Program>)
    ensures program == ParseTokens(tokens)
  {
    var ps := new Parser(tokens);
    var statements: seq<Statement> := [];
    while ps.position < |ps.tokens|
      invariant ps.tokens == tokens && ps.Valid() && !ps.diverged
      invariant TopLevel(tokens, statements, ps.position) == TopLevel(tokens, [], 0)
      decreases |ps.tokens| - ps.position
    {
      if ps.tokens[ps.position].EOF? {
        break;
      }
      TopLevelStep(tokens, statements, ps.position);
      var s := ParseTopStatement(ps);
      if ps.diverged {
        return None;
      }
      if s.Some? {
        statements := statements + [s.value];
      }
    }
    return Some(Program(statements));
  }
}
