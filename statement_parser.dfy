/**
 * The statement grammar of src/parser/statement.rs.
 *
 * As for expressions, each production is a function over the tokens and a
 * position and a method that advances a `Parser` and is proved to agree
 * with it.  Some productions contain a "skip until `{`" loop that never
 * ends when no `{` follows; their functions return `Diverges` there and
 * their methods set the parser's `diverged` flag and stop.
 */
module StatementParser {
  import opened Wrappers
  import opened Lexing
  import opened Ast
  import opened ParserState
  import opened ExpressionParser

  /** A statement that always ends, as a statement-or-nothing outcome. */
  function Found(r: Parsed<Statement>): Outcome<Option<Statement>>
  {
    Done(Some(r.value), r.next)
  }

  function Lift(r: Outcome<Statement>): Outcome<Option<Statement>>
  {
    match r
    case Diverges => Diverges
    case Done(s, q) => Done(Some(s), q)
  }

  // ---------------------------------------------------------------------
  // Productions that always end
  // ---------------------------------------------------------------------

  /** `parse_var_decl`: keyword, name, one skipped token (the `=`), expression. */
  function VarDeclAt(ts: seq<Token>, p: nat, isMutable: bool, isSecure: bool): (r: Parsed<Statement>)
    requires p <= |ts|
    ensures p <= r.next <= |ts| && (p < |ts| ==> p < r.next)
  {
    var q := Next(ts, p);
    var value := Expr(ts, Next(ts, Next(ts, q)));
    Parsed(VarDecl(isMutable, isSecure, NameOr(At(ts, q), "Unknown"), value.value), value.next)
  }

  /** `parse_capability`: `use`, the service name, and a `{ ... }` body that is skipped. */
  function CapabilityAt(ts: seq<Token>, p: nat): (r: Parsed<Statement>)
    requires p <= |ts|
    ensures p <= r.next <= |ts| && (p < |ts| ==> p < r.next)
    ensures r.value.CapabilityUse? && r.value.serviceParams == []
  {
    var q := Next(ts, p);
    var afterName := Next(ts, q);
    var next := if At(ts, afterName).LeftBrace? then Next(ts, FirstCloseOrEnd(ts, afterName + 1)) else afterName;
    Parsed(CapabilityUse(NameOr(At(ts, q), "Unknown"), []), next)
  }

  /** `parse_return_statement`. */
  function ReturnAt(ts: seq<Token>, p: nat): (r: Parsed<Statement>)
    requires p <= |ts|
    ensures p <= r.next <= |ts| && (p < |ts| ==> p < r.next)
    ensures r.value.ReturnStatement?
  {
    var value := Expr(ts, Next(ts, p));
    Parsed(ReturnStatement(value.value), value.next)
  }

  /** `parse_assignment`: name, one skipped token (the `=`), expression. */
  function AssignmentAt(ts: seq<Token>, p: nat): (r: Parsed<Statement>)
    requires p <= |ts|
    ensures p <= r.next <= |ts| && (p < |ts| ==> p < r.next)
    ensures r.value.Assignment?
  {
    var value := Expr(ts, Next(ts, Next(ts, p)));
    Parsed(Assignment(NameOr(At(ts, p), "Unknown"), value.value), value.next)
  }

  /**
   * `parse_func_call_stmt`: a name with an optional `.method`, one skipped
   * token (the `(`), then the arguments up to and including the closing token.
   */
  function CallStmtAt(ts: seq<Token>, p: nat): (r: Parsed<Statement>)
    requires p <= |ts|
    ensures p <= r.next <= |ts| && (p < |ts| ==> p < r.next)
  {
    var target := QualifiedName(ts, NameOr(At(ts, p), ""), Next(ts, p));
    var args := Items(ts, Next(ts, target.next), RightParen);
    Parsed(ExpressionStatement(FunctionCall(target.value, args.value)), args.next)
  }

  /** The parameter list of `parse_function`, starting just after `(`. */
  function Params(ts: seq<Token>, p: nat): (r: Parsed<seq<string>>)
    requires p <= |ts|
    ensures p <= r.next <= |ts|
  {
    if At(ts, p).RightParen? then Parsed([], p)
    else if At(ts, p).Identifier? then ParamsTail(ts, [ts[p].name], p + 1)
    else ParamsTail(ts, [], p)
  }

  /** The loop of the parameter list that reads one more name after each comma. */
  function ParamsTail(ts: seq<Token>, acc: seq<string>, p: nat): (r: Parsed<seq<string>>)
    requires p <= |ts|
    ensures p <= r.next <= |ts| && acc <= r.value
    decreases |ts| - p
  {
    if !At(ts, p).Comma? then Parsed(acc, p)
    else if At(ts, p + 1).Identifier? then ParamsTail(ts, acc + [ts[p + 1].name], p + 2)
    else ParamsTail(ts, acc, p + 1)
  }

  // ---------------------------------------------------------------------
  // Blocks and the statements that contain them
  // ---------------------------------------------------------------------

  /** Skips to the next `{`, steps past it, then parses a block. */
  function BracedBlock(ts: seq<Token>, p: nat): (r: Outcome<seq<Statement>>)
    requires p <= |ts|
    ensures r.Done? ==> p < r.next <= |ts|
    decreases |ts| - p, 0
  {
    match FirstAt(ts, p, LeftBrace)
    case None => Diverges
    case Some(k) => BlockBody(ts, [], k + 1)
  }

  /** `parse_if_statement`. */
  function IfAt(ts: seq<Token>, p: nat): (r: Outcome<Statement>)
    requires p <= |ts|
    ensures r.Done? ==> p < r.next <= |ts| && r.value.IfStatement?
    decreases |ts| - p, 1
  {
    var condition := Expr(ts, Next(ts, p));
    match BracedBlock(ts, condition.next)
    case Diverges => Diverges
    case Done(thenBranch, q) =>
      match ElseAt(ts, q)
      case Diverges => Diverges
      case Done(elseBranch, next) => Done(IfStatement(condition.value, thenBranch, elseBranch), next)
  }

  /** The optional `else` part of `parse_if_statement`, at the token after the then-block. */
  function ElseAt(ts: seq<Token>, p: nat): (r: Outcome<ElseBranch>)
    requires p <= |ts|
    ensures r.Done? ==> p <= r.next <= |ts|
    ensures r.Done? ==> (r.value.ElseBlock? <==> At(ts, p).Else?) && (r.value.ElseBlock? ==> p < r.next)
    decreases |ts| - p, 1
  {
    if !At(ts, p).Else? then Done(NoElse, p)
    else
      match BracedBlock(ts, p + 1)
      case Diverges => Diverges
      case Done(elseBranch, next) => Done(ElseBlock(elseBranch), next)
  }

  /** `parse_while_statement`. */
  function WhileAt(ts: seq<Token>, p: nat): (r: Outcome<Statement>)
    requires p <= |ts|
    ensures r.Done? ==> p < r.next <= |ts| && r.value.WhileStatement?
    decreases |ts| - p, 1
  {
    var condition := Expr(ts, Next(ts, p));
    match BracedBlock(ts, condition.next)
    case Diverges => Diverges
    case Done(body, next) => Done(WhileStatement(condition.value, body), next)
  }

  /** `parse_for_statement`: the loop variable (or "i"), two primaries, then the block. */
  function ForAt(ts: seq<Token>, p: nat): (r: Outcome<Statement>)
    requires p <= |ts|
    ensures r.Done? ==> p < r.next <= |ts| && r.value.ForStatement?
    decreases |ts| - p, 1
  {
    var q := Next(ts, p);
    var start := Primary(ts, Next(ts, q));
    var stop := Primary(ts, start.next);
    match BracedBlock(ts, stop.next)
    case Diverges => Diverges
    case Done(body, next) => Done(ForStatement(NameOr(At(ts, q), "i"), start.value, stop.value, body), next)
  }

  /** One turn of `parse_block`'s loop: a statement, or `None` for a skipped token. */
  function BlockStatement(ts: seq<Token>, p: nat): (r: Outcome<Option<Statement>>)
    requires p <= |ts|
    ensures r.Done? ==> p <= r.next <= |ts| && (p < |ts| ==> p < r.next)
    decreases |ts| - p, 2
  {
    var t := At(ts, p);
    if t.Stract? || t.Lock? || t.Vault? then Found(VarDeclAt(ts, p, t.Stract?, t.Vault?))
    else if t.Return? then Found(ReturnAt(ts, p))
    else if t.If? then Lift(IfAt(ts, p))
    else if t.While? then Lift(WhileAt(ts, p))
    else if t.For? then Lift(ForAt(ts, p))
    else if t.Identifier? then
      if Peek(ts, p).Equal? then Found(AssignmentAt(ts, p)) else Found(CallStmtAt(ts, p))
    else Done(None, Next(ts, p))
  }

  /**
   * `parse_block`, with the statements collected so far: statements up to a
   * `}` or `EOF`, then one `advance`.
   */
  function BlockBody(ts: seq<Token>, acc: seq<Statement>, p: nat): (r: Outcome<seq<Statement>>)
    requires p <= |ts|
    ensures r.Done? ==> p <= r.next <= |ts| && (p < |ts| ==> p < r.next) && acc <= r.value
    decreases |ts| - p, 3
  {
    if At(ts, p).RightBrace? || At(ts, p).EOF? then Done(acc, Next(ts, p))
    else
      match BlockStatement(ts, p)
      case Diverges => Diverges
      case Done(s, q) => BlockBody(ts, if s.Some? then acc + [s.value] else acc, q)
  }

  /**
   * `parse_function`: name (or "Anon"), one skipped token (the `(`), the
   * parameters, two skipped tokens (the `)` and the `{`), then the block.
   */
  function FunctionAt(ts: seq<Token>, p: nat): (r: Outcome<Statement>)
    requires p <= |ts|
    ensures r.Done? ==> p <= r.next <= |ts| && (p < |ts| ==> p < r.next)
    ensures r.Done? ==> r.value.FunctionDecl?
    decreases |ts| - p, 4
  {
    var q := Next(ts, p);
    var params := Params(ts, Next(ts, Next(ts, q)));
    match BlockBody(ts, [], Next(ts, Next(ts, params.next)))
    case Diverges => Diverges
    case Done(body, next) => Done(FunctionDecl(NameOr(At(ts, q), "Anon"), params.value, body), next)
  }

  /**
   * One turn of the top-level loop of `parse`.  Besides `use`, `func` and
   * `module`, it handles the same tokens, the same way, as a block does.
   */
  function TopStatement(ts: seq<Token>, p: nat): (r: Outcome<Option<Statement>>)
    requires p <= |ts|
    ensures r.Done? ==> p <= r.next <= |ts| && (p < |ts| ==> p < r.next)
    decreases |ts| - p, 5
  {
    var t := At(ts, p);
    if t.Use? then Found(CapabilityAt(ts, p))
    else if t.Func? then Lift(FunctionAt(ts, p))
    else if t.Module? then Done(None, Next(ts, Next(ts, p)))
    else BlockStatement(ts, p)
  }

  /** The loop of `parse`: statements until the end of the tokens or the first `EOF`. */
  function TopLevel(ts: seq<Token>, acc: seq<Statement>, p: nat): (r: Outcome<seq<Statement>>)
    requires p <= |ts|
    ensures r.Done? ==> acc <= r.value && |r.value| <= |acc| + (|ts| - p)
    ensures r.Done? ==> r.next <= |ts| && (r.next == |ts| || ts[r.next].EOF?)
    decreases |ts| - p, 6
  {
    if p == |ts| || ts[p].EOF? then Done(acc, p)
    else
      match TopStatement(ts, p)
      case Diverges => Diverges
      case Done(s, q) => TopLevel(ts, if s.Some? then acc + [s.value] else acc, q)
  }

  /**
   * The program `parse` builds from `ts`, or `None` where it would
   * not return.  A token list that is empty or opens with `EOF` is the
   * empty program, and no program has more statements than there are
   * tokens.
   */
  function ParseTokens(ts: seq<Token>): (r: Option<Program>)
    ensures (|ts| == 0 || ts[0].EOF?) ==> r == Some(Program([]))
    ensures r.Some? ==> |r.value.statements| <= |ts|
  {
    match TopLevel(ts, [], 0)
    case Diverges => None
    case Done(statements, _) => Some(Program(statements))
  }

  // ---------------------------------------------------------------------
  // One turn of each loop, for the methods' invariants
  // ---------------------------------------------------------------------

  lemma BlockBodyStep(ts: seq<Token>, acc: seq<Statement>, p: nat)
    requires p <= |ts| && !At(ts, p).RightBrace? && !At(ts, p).EOF?
    ensures var r := BlockStatement(ts, p);
      && (r.Diverges? ==> BlockBody(ts, acc, p).Diverges?)
      && (r.Done? ==> BlockBody(ts, acc, p) == BlockBody(ts, if r.value.Some? then acc + [r.value.value] else acc, r.next))
  {
  }

  lemma TopLevelStep(ts: seq<Token>, acc: seq<Statement>, p: nat)
    requires p < |ts| && !ts[p].EOF?
    ensures var r := TopStatement(ts, p);
      && (r.Diverges? ==> TopLevel(ts, acc, p).Diverges?)
      && (r.Done? ==> TopLevel(ts, acc, p) == TopLevel(ts, if r.value.Some? then acc + [r.value.value] else acc, r.next))
  {
  }

  lemma ParamsTailStep(ts: seq<Token>, acc: seq<string>, p: nat)
    requires p <= |ts| && At(ts, p).Comma?
    ensures At(ts, p + 1).Identifier? ==> ParamsTail(ts, acc, p) == ParamsTail(ts, acc + [ts[p + 1].name], p + 2)
    ensures !At(ts, p + 1).Identifier? ==> ParamsTail(ts, acc, p) == ParamsTail(ts, acc, p + 1)
  {
  }

  // ---------------------------------------------------------------------
  // The parsing methods
  // ---------------------------------------------------------------------

  /** `parse_var_decl` (src/parser/statement.rs:57-65). */
  method ParseVarDecl(ps: Parser, isMutable: bool, isSecure: bool) returns (s: Statement)
    requires ps.Valid()
    modifies ps
    ensures ps.Valid() && ps.diverged == old(ps.diverged)
    ensures Parsed(s, ps.position) == VarDeclAt(ps.tokens, old(ps.position), isMutable, isSecure)
  {
    ps.Advance();
    var name := NameOr(ps.CurrentToken(), "Unknown");
    ps.Advance();
    ps.Advance();
    var value := ParseExpression(ps);
    s := VarDecl(isMutable, isSecure, name, value);
  }

  /** `parse_capability` (src/parser/statement.rs:40-55). */
  method ParseCapability(ps: Parser) returns (s: Statement)
    requires ps.Valid()
    modifies ps
    ensures ps.Valid() && ps.diverged == old(ps.diverged)
    ensures Parsed(s, ps.position) == CapabilityAt(ps.tokens, old(ps.position))
  {
    ps.Advance();
    var service := NameOr(ps.CurrentToken(), "Unknown");
    ps.Advance();
    if ps.CurrentToken().LeftBrace? {
      ps.Advance();
      ps.SkipToCloseOrEnd();
      ps.Advance();
    }
    s := CapabilityUse(service, []);
  }

  /** `parse_return_statement` (src/parser/statement.rs:147-149). */
  method ParseReturn(ps: Parser) returns (s: Statement)
    requires ps.Valid()
    modifies ps
    ensures ps.Valid() && ps.diverged == old(ps.diverged)
    ensures Parsed(s, ps.position) == ReturnAt(ps.tokens, old(ps.position))
  {
    ps.Advance();
    var value := ParseExpression(ps);
    s := ReturnStatement(value);
  }

  /** `parse_assignment` (src/parser/statement.rs:151-158). */
  method ParseAssignment(ps: Parser) returns (s: Statement)
    requires ps.Valid()
    modifies ps
    ensures ps.Valid() && ps.diverged == old(ps.diverged)
    ensures Parsed(s, ps.position) == AssignmentAt(ps.tokens, old(ps.position))
  {
    var name := NameOr(ps.CurrentToken(), "Unknown");
    ps.Advance();
    ps.Advance();
    var value := ParseExpression(ps);
    s := Assignment(name, value);
  }

  /** `parse_func_call_stmt` (src/parser/statement.rs:160-179). */
  method ParseCallStmt(ps: Parser) returns (s: Statement)
    requires ps.Valid()
    modifies ps
    ensures ps.Valid() && ps.diverged == old(ps.diverged)
    ensures Parsed(s, ps.position) == CallStmtAt(ps.tokens, old(ps.position))
  {
    var target := NameOr(ps.CurrentToken(), "");
    ps.Advance();
    target := ParseQualifiedName(ps, target);
    ps.Advance();
    var args := ParseItems(ps, RightParen);
    s := ExpressionStatement(FunctionCall(target, args));
  }

  /** The parameter list of `parse_function` (src/parser/statement.rs:73-80). */
  method ParseParams(ps: Parser) returns (params: seq<string>)
    requires ps.Valid()
    modifies ps
    ensures ps.Valid() && ps.diverged == old(ps.diverged)
    ensures Parsed(params, ps.position) == Params(ps.tokens, old(ps.position))
  {
    ghost var ts := ps.tokens;
    params := [];
    if !ps.CurrentToken().RightParen? {
      if ps.CurrentToken().Identifier? {
        params := [ps.CurrentToken().name];
        ps.Advance();
      }
      ghost var afterFirst := ps.position;
      while ps.CurrentToken().Comma?
        invariant ps.Valid() && ps.diverged == old(ps.diverged) && afterFirst <= ps.position
        invariant ParamsTail(ts, params, ps.position) == Params(ts, old(ps.position))
        decreases |ps.tokens| - ps.position
      {
        ParamsTailStep(ts, params, ps.position);
        ps.Advance();
        if ps.CurrentToken().Identifier? {
          params := params + [ps.CurrentToken().name];
          ps.Advance();
        }
      }
    }
  }

  /** The "skip until `{`" loop, the `advance` past it, and `parse_block`. */
  method ParseBracedBlock(ps: Parser) returns (body: seq<Statement>)
    requires ps.Valid() && !ps.diverged
    modifies ps
    ensures ps.Valid()
    ensures Agrees(BracedBlock(ps.tokens, old(ps.position)), body, ps.position, ps.diverged)
    decreases |ps.tokens| - ps.position, 0
  {
    body := [];
    ps.SkipUntil(LeftBrace);
    if ps.diverged {
      return;
    }
    ps.Advance();
    body := ParseBlock(ps);
  }

  /** `parse_if_statement` (src/parser/statement.rs:110-120). */
  method ParseIf(ps: Parser) returns (s: Statement)
    requires ps.Valid() && !ps.diverged
    modifies ps
    ensures ps.Valid()
    ensures Agrees(IfAt(ps.tokens, old(ps.position)), s, ps.position, ps.diverged)
    decreases |ps.tokens| - ps.position, 1
  {
    ghost var ts, p := ps.tokens, ps.position;
    ps.Advance();
    var condition := ParseExpression(ps);
    assert Parsed(condition, ps.position) == Expr(ts, Next(ts, p));
    var thenBranch := ParseBracedBlock(ps);
    s := IfStatement(condition, thenBranch, NoElse);
    if ps.diverged {
      return;
    }
    var elseBranch := ParseElse(ps);
    s := IfStatement(condition, thenBranch, elseBranch);
  }

  /** The `else` part of `parse_if_statement` (src/parser/statement.rs:115-118). */
  method ParseElse(ps: Parser) returns (elseBranch: ElseBranch)
    requires ps.Valid() && !ps.diverged
    modifies ps
    ensures ps.Valid()
    ensures Agrees(ElseAt(ps.tokens, old(ps.position)), elseBranch, ps.position, ps.diverged)
    decreases |ps.tokens| - ps.position, 1
  {
    elseBranch := NoElse;
    if ps.CurrentToken().Else? {
      ps.Advance();
      var body := ParseBracedBlock(ps);
      elseBranch := ElseBlock(body);
    }
  }

  /** `parse_while_statement` (src/parser/statement.rs:122-127). */
  method ParseWhile(ps: Parser) returns (s: Statement)
    requires ps.Valid() && !ps.diverged
    modifies ps
    ensures ps.Valid()
    ensures Agrees(WhileAt(ps.tokens, old(ps.position)), s, ps.position, ps.diverged)
    decreases |ps.tokens| - ps.position, 1
  {
    ghost var ts, p := ps.tokens, ps.position;
    ps.Advance();
    var condition := ParseExpression(ps);
    assert Parsed(condition, ps.position) == Expr(ts, Next(ts, p));
    var body := ParseBracedBlock(ps);
    s := WhileStatement(condition, body);
  }

  /** `parse_for_statement` (src/parser/statement.rs:129-145). */
  method ParseFor(ps: Parser) returns (s: Statement)
    requires ps.Valid() && !ps.diverged
    modifies ps
    ensures ps.Valid()
    ensures Agrees(ForAt(ps.tokens, old(ps.position)), s, ps.position, ps.diverged)
    decreases |ps.tokens| - ps.position, 1
  {
    ghost var ts, p := ps.tokens, ps.position;
    ps.Advance();
    var iteratorName := NameOr(ps.CurrentToken(), "i");
    ps.Advance();
    var start := ParsePrimary(ps);
    assert Parsed(start, ps.position) == Primary(ts, Next(ts, Next(ts, p)));
    var stop := ParsePrimary(ps);
    var body := ParseBracedBlock(ps);
    s := ForStatement(iteratorName, start, stop, body);
  }

  /** One turn of the loop of `parse_block` (src/parser/statement.rs:89-104). */
  method ParseBlockStatement(ps: Parser) returns (s: Option<Statement>)
    requires ps.Valid() && !ps.diverged
    modifies ps
    ensures ps.Valid()
    ensures Agrees(BlockStatement(ps.tokens, old(ps.position)), s, ps.position, ps.diverged)
    decreases |ps.tokens| - ps.position, 2
  {
    var t := ps.CurrentToken();
    var d: Statement;
    if t.Stract? || t.Lock? || t.Vault? {
      d := ParseVarDecl(ps, t.Stract?, t.Vault?);
    } else if t.Return? {
      d := ParseReturn(ps);
    } else if t.If? {
      d := ParseIf(ps);
    } else if t.While? {
      d := ParseWhile(ps);
    } else if t.For? {
      d := ParseFor(ps);
    } else if t.Identifier? {
      if ps.PeekToken().Equal? {
        d := ParseAssignment(ps);
      } else {
        d := ParseCallStmt(ps);
      }
    } else {
      ps.Advance();
      return None;
    }
    s := Some(d);
  }

  /** `parse_block` (src/parser/statement.rs:86-108). */
  method ParseBlock(ps: Parser) returns (body: seq<Statement>)
    requires ps.Valid() && !ps.diverged
    modifies ps
    ensures ps.Valid()
    ensures Agrees(BlockBody(ps.tokens, [], old(ps.position)), body, ps.position, ps.diverged)
    decreases |ps.tokens| - ps.position, 3
  {
    ghost var ts := ps.tokens;
    body := [];
    while !ps.CurrentToken().RightBrace? && !ps.CurrentToken().EOF?
      invariant ps.Valid() && !ps.diverged && old(ps.position) <= ps.position
      invariant BlockBody(ts, body, ps.position) == BlockBody(ts, [], old(ps.position))
      decreases |ps.tokens| - ps.position
    {
      BlockBodyStep(ts, body, ps.position);
      var s := ParseBlockStatement(ps);
      if ps.diverged {
        return;
      }
      if s.Some? {
        body := body + [s.value];
      }
    }
    ps.Advance();
  }

  /** `parse_function` (src/parser/statement.rs:67-84). */
  method ParseFunction(ps: Parser) returns (s: Statement)
    requires ps.Valid() && !ps.diverged
    modifies ps
    ensures ps.Valid()
    ensures Agrees(FunctionAt(ps.tokens, old(ps.position)), s, ps.position, ps.diverged)
    decreases |ps.tokens| - ps.position, 4
  {
    ghost var ts, p := ps.tokens, ps.position;
    ps.Advance();
    var name := NameOr(ps.CurrentToken(), "Anon");
    ps.Advance();
    ps.Advance();
    var params := ParseParams(ps);
    assert Parsed(params, ps.position) == Params(ts, Next(ts, Next(ts, Next(ts, p))));
    ps.Advance();
    ps.Advance();
    var body := ParseBlock(ps);
    s := FunctionDecl(name, params, body);
  }

  /** One turn of the loop of `parse` (src/parser/statement.rs:12-34). */
  method ParseTopStatement(ps: Parser) returns (s: Option<Statement>)
    requires ps.Valid() && !ps.diverged
    modifies ps
    ensures ps.Valid()
    ensures Agrees(TopStatement(ps.tokens, old(ps.position)), s, ps.position, ps.diverged)
    decreases |ps.tokens| - ps.position, 5
  {
    var t := ps.CurrentToken();
    if t.Use? {
      var d := ParseCapability(ps);
      s := Some(d);
    } else if t.Func? {
      var d := ParseFunction(ps);
      s := Some(d);
    } else if t.Module? {
      ps.Advance();
      ps.Advance();
      s := None;
    } else {
      s := ParseBlockStatement(ps);
    }
  }

  /**
   * `parse` (src/parser/statement.rs:6-38), run on a fresh parser.  The
   * result is `None` exactly where the source would not return.
   */
  method Parse(tokens: seq<Token>) returns (program: Option<Program>)
    ensures program == ParseTokens(tokens)
  {
    var ps := new Parser(tokens);
    var statements: seq<Statement> := [];
    while ps.position < |ps.tokens|
      invariant ps.tokens == tokens && ps.Valid() && !ps.diverged
      invariant TopLevel(tokens, statements, ps.position) == TopLevel(tokens, [], 0)
      decreases |ps.tokens| - ps.position
    {
      if ps.CurrentToken().EOF? {
        break;
      }
      TopLevelStep(tokens, statements, ps.position);
      var s := ParseTopStatement(ps);
      if ps.diverged {
        return None;
      }
      if s.Some? {
        statements := statements + [s.value];
      }
    }
    return Some(Program(statements));
  }
}
