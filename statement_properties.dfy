/**
 * What the statement grammar of src/parser/statement.rs builds: the
 * declaration flags, the choice between assignment and call, capability and
 * parameter lists, what a block may contain and where it ends, the `else`
 * branch, the bounds of a `for`, and the top-level loop.
 */
module StatementProperties {
  import opened Wrappers
  import opened Lexing
  import opened Ast
  import opened ParserState
  import opened ExpressionParser
  import opened StatementParser

  // ---------------------------------------------------------------------
  // Declarations, assignments and calls
  // ---------------------------------------------------------------------

  /**
   * The declaration keyword fixes the flags: `lock` is neither mutable nor
   * secure, `stract` is mutable, `vault` is secure.  The top level treats a
   * declaration exactly as a block does.
   */
  lemma DeclarationFlags(ts: seq<Token>, p: nat)
    requires p < |ts| && (ts[p].Lock? || ts[p].Stract? || ts[p].Vault?)
    ensures var r := BlockStatement(ts, p);
      && r.Done? && r.value.Some? && r.value.value.VarDecl?
      && (ts[p].Lock? ==> !r.value.value.isMutable && !r.value.value.isSecure)
      && (ts[p].Stract? ==> r.value.value.isMutable && !r.value.value.isSecure)
      && (ts[p].Vault? ==> !r.value.value.isMutable && r.value.value.isSecure)
    ensures TopStatement(ts, p) == BlockStatement(ts, p)
  {
  }

  /**
   * A leading identifier starts an assignment exactly when the next token
   * is `=`; otherwise it starts a call statement of that name.
   */
  lemma IdentifierStatement(ts: seq<Token>, p: nat)
    requires p < |ts| && ts[p].Identifier?
    ensures var r := BlockStatement(ts, p);
      && r.Done? && r.value.Some?
      && (r.value.value.Assignment? <==> Peek(ts, p).Equal?)
      && (r.value.value.Assignment? ==> r.value.value.name == ts[p].name)
      && (!r.value.value.Assignment? ==> r.value.value.ExpressionStatement? && r.value.value.expr.FunctionCall?)
    ensures TopStatement(ts, p) == BlockStatement(ts, p)
  {
  }

  /** A call statement `a.b(...)` calls the qualified name `a.b`. */
  lemma CallStatementTarget(ts: seq<Token>, p: nat, a: string, b: string)
    requires p + 2 < |ts| && ts[p] == Identifier(a) && ts[p + 1].Dot? && ts[p + 2] == Identifier(b)
    ensures var s := CallStmtAt(ts, p).value;
      s.ExpressionStatement? && s.expr.FunctionCall? && s.expr.target == a + "." + b
  {
  }

  // ---------------------------------------------------------------------
  // Capabilities
  // ---------------------------------------------------------------------

  /** `use name` with no body: the service name, no parameters, two tokens consumed. */
  lemma CapabilityWithoutBody(ts: seq<Token>, p: nat)
    requires p + 1 < |ts| && !At(ts, p + 2).LeftBrace?
    ensures CapabilityAt(ts, p) == Parsed(CapabilityUse(NameOr(ts[p + 1], "Unknown"), []), p + 2)
  {
  }

  /**
   * `use name { ... }`: the body up to the first `}` is skipped unread, and
   * the parameters are still empty.
   */
  lemma CapabilitySkipsBody(ts: seq<Token>, p: nat, close: nat)
    requires p + 2 < close < |ts| && ts[p + 2].LeftBrace? && ts[close].RightBrace?
    requires forall k :: p + 3 <= k < close ==> !ts[k].RightBrace? && !ts[k].EOF?
    ensures CapabilityAt(ts, p) == Parsed(CapabilityUse(NameOr(ts[p + 1], "Unknown"), []), close + 1)
  {
    FirstCloseOrEndAt(ts, p + 3, close);
  }

  lemma {:induction false} FirstCloseOrEndAt(ts: seq<Token>, p: nat, close: nat)
    requires p <= close < |ts| && ts[close].RightBrace?
    requires forall k :: p <= k < close ==> !ts[k].RightBrace? && !ts[k].EOF?
    ensures FirstCloseOrEnd(ts, p) == close
    decreases close - p
  {
    if p < close {
      FirstCloseOrEndAt(ts, p + 1, close);
    }
  }

  // ---------------------------------------------------------------------
  // Parameter lists
  // ---------------------------------------------------------------------

  /** The tokens `, n1 , n2 ...` that follow the first parameter name. */
  function CommaNames(ns: seq<string>): (r: seq<Token>)
    ensures |r| == 2 * |ns|
  {
    if ns == [] then [] else [Comma, Identifier(ns[0])] + CommaNames(ns[1..])
  }

  /** The tokens of a non-empty parameter list `n0 , n1 , ...`. */
  function ParamTokens(ns: seq<string>): (r: seq<Token>)
    requires ns != []
    ensures |r| == 2 * |ns| - 1
  {
    [Identifier(ns[0])] + CommaNames(ns[1..])
  }

  lemma {:induction false} ParamsTailReadsNames(ts: seq<Token>, acc: seq<string>, p: nat, ns: seq<string>)
    requires p + 2 * |ns| <= |ts| && ts[p..p + 2 * |ns|] == CommaNames(ns)
    requires !At(ts, p + 2 * |ns|).Comma?
    ensures ParamsTail(ts, acc, p) == Parsed(acc + ns, p + 2 * |ns|)
    decreases |ns|
  {
    if ns == [] {
      assert acc + ns == acc;
    } else {
      var rest := ns[1..];
      assert ts[p] == CommaNames(ns)[0] && ts[p + 1] == CommaNames(ns)[1];
      assert ts[p + 2..p + 2 + 2 * |rest|] == ts[p..p + 2 * |ns|][2..];
      ParamsTailReadsNames(ts, acc + [ns[0]], p + 2, rest);
      assert acc + [ns[0]] + rest == acc + ns;
    }
  }

  /**
   * The parameters are the comma-separated names between the parentheses,
   * in source order: reading back the tokens of a list of names gives the
   * names.
   */
  lemma ParamsInSourceOrder(ts: seq<Token>, p: nat, ns: seq<string>)
    requires ns != [] && p + |ParamTokens(ns)| < |ts|
    requires ts[p..p + |ParamTokens(ns)|] == ParamTokens(ns) && ts[p + |ParamTokens(ns)|].RightParen?
    ensures Params(ts, p) == Parsed(ns, p + |ParamTokens(ns)|)
  {
    assert ts[p] == ParamTokens(ns)[0];
    var e := p + |ParamTokens(ns)|;
    assert ts[p + 1..e] == ParamTokens(ns)[1..];
    ParamsTailReadsNames(ts, [ns[0]], p + 1, ns[1..]);
    assert [ns[0]] + ns[1..] == ns;
  }

  /** `()`: no parameters. */
  lemma NoParams(ts: seq<Token>, p: nat)
    requires p < |ts| && ts[p].RightParen?
    ensures Params(ts, p) == Parsed([], p)
  {
  }

  // ---------------------------------------------------------------------
  // Blocks
  // ---------------------------------------------------------------------

  /** `use` and `func` are not statements inside a block: the token is skipped. */
  lemma DeclarationsSkippedInBlocks(ts: seq<Token>, p: nat)
    requires p < |ts| && (ts[p].Use? || ts[p].Func? || ts[p].Module?)
    ensures BlockStatement(ts, p) == Done(None, p + 1)
  {
  }

  /** No capability or function declaration anywhere inside, at any depth of nesting. */
  predicate BlockLevel(s: Statement)
    decreases s
  {
    match s
    case CapabilityUse(_, _) => false
    case FunctionDecl(_, _, _) => false
    case IfStatement(_, thenBranch, elseBranch) =>
      && (forall k :: 0 <= k < |thenBranch| ==> BlockLevel(thenBranch[k]))
      && (elseBranch.ElseBlock? ==> forall k :: 0 <= k < |elseBranch.statements| ==> BlockLevel(elseBranch.statements[k]))
    case WhileStatement(_, body) => forall k :: 0 <= k < |body| ==> BlockLevel(body[k])
    case ForStatement(_, _, _, body) => forall k :: 0 <= k < |body| ==> BlockLevel(body[k])
    case _ => true
  }

  predicate AllBlockLevel(ss: seq<Statement>)
  {
    forall k :: 0 <= k < |ss| ==> BlockLevel(ss[k])
  }

  lemma {:induction false} BlockBodyIsBlockLevel(ts: seq<Token>, acc: seq<Statement>, p: nat)
    requires p <= |ts| && AllBlockLevel(acc)
    ensures BlockBody(ts, acc, p).Done? ==> AllBlockLevel(BlockBody(ts, acc, p).value)
    decreases |ts| - p, 3
  {
    if !At(ts, p).RightBrace? && !At(ts, p).EOF? {
      var r := BlockStatement(ts, p);
      BlockStatementIsBlockLevel(ts, p);
      if r.Done? {
        BlockBodyIsBlockLevel(ts, if r.value.Some? then acc + [r.value.value] else acc, r.next);
      }
    }
  }

  lemma {:induction false} BlockStatementIsBlockLevel(ts: seq<Token>, p: nat)
    requires p <= |ts|
    ensures var r := BlockStatement(ts, p); r.Done? && r.value.Some? ==> BlockLevel(r.value.value)
    decreases |ts| - p, 2
  {
    var t := At(ts, p);
    if t.If? {
      IfIsBlockLevel(ts, p);
    } else if t.While? {
      WhileIsBlockLevel(ts, p);
    } else if t.For? {
      ForIsBlockLevel(ts, p);
    }
  }

  lemma {:induction false} BracedBlockIsBlockLevel(ts: seq<Token>, p: nat)
    requires p <= |ts|
    ensures BracedBlock(ts, p).Done? ==> AllBlockLevel(BracedBlock(ts, p).value)
    decreases |ts| - p, 0
  {
    match FirstAt(ts, p, LeftBrace)
    case None =>
    case Some(k) => BlockBodyIsBlockLevel(ts, [], k + 1);
  }

  lemma {:induction false} IfIsBlockLevel(ts: seq<Token>, p: nat)
    requires p <= |ts|
    ensures IfAt(ts, p).Done? ==> BlockLevel(IfAt(ts, p).value)
    decreases |ts| - p, 1
  {
    var condition := Expr(ts, Next(ts, p));
    BracedBlockIsBlockLevel(ts, condition.next);
    var thenBranch := BracedBlock(ts, condition.next);
    if thenBranch.Done? {
      var q := thenBranch.next;
      if At(ts, q).Else? {
        BracedBlockIsBlockLevel(ts, q + 1);
      }
    }
  }

  lemma {:induction false} WhileIsBlockLevel(ts: seq<Token>, p: nat)
    requires p <= |ts|
    ensures WhileAt(ts, p).Done? ==> BlockLevel(WhileAt(ts, p).value)
    decreases |ts| - p, 1
  {
    BracedBlockIsBlockLevel(ts, Expr(ts, Next(ts, p)).next);
  }

  lemma {:induction false} ForIsBlockLevel(ts: seq<Token>, p: nat)
    requires p <= |ts|
    ensures ForAt(ts, p).Done? ==> BlockLevel(ForAt(ts, p).value)
    decreases |ts| - p, 1
  {
    var start := Primary(ts, Next(ts, Next(ts, p)));
    BracedBlockIsBlockLevel(ts, Primary(ts, start.next).next);
  }

  /**
   * A block ends just after its closing `}` or `EOF` token, or at the end of
   * the tokens.
   */
  lemma {:induction false} BlockEndsAfterClose(ts: seq<Token>, acc: seq<Statement>, p: nat)
    requires p < |ts|
    ensures var r := BlockBody(ts, acc, p);
      r.Done? ==> r.next == |ts| || ts[r.next - 1].RightBrace? || ts[r.next - 1].EOF?
    decreases |ts| - p
  {
    if !ts[p].RightBrace? && !ts[p].EOF? {
      BlockBodyStep(ts, acc, p);
      var r := BlockStatement(ts, p);
      if r.Done? && r.next < |ts| {
        BlockEndsAfterClose(ts, if r.value.Some? then acc + [r.value.value] else acc, r.next);
      }
    }
  }

  // ---------------------------------------------------------------------
  // if, while and for
  // ---------------------------------------------------------------------

  /**
   * An `if` has an else branch exactly when the token right after its
   * then-block is `else`.
   */
  lemma ElseBranchExactlyAfterElse(ts: seq<Token>, p: nat)
    requires p <= |ts| && IfAt(ts, p).Done?
    ensures var thenBranch := BracedBlock(ts, Expr(ts, Next(ts, p)).next);
      && thenBranch.Done?
      && IfAt(ts, p).value.thenBranch == thenBranch.value
      && (IfAt(ts, p).value.elseBranch.ElseBlock? <==> At(ts, thenBranch.next).Else?)
  {
  }

  /** With no `{` after the condition, the source's skip loop never ends. */
  lemma IfWithoutBraceDiverges(ts: seq<Token>, p: nat)
    requires p <= |ts|
    requires forall k :: Expr(ts, Next(ts, p)).next <= k < |ts| ==> !ts[k].LeftBrace?
    ensures IfAt(ts, p).Diverges? && WhileAt(ts, p).Diverges?
  {
  }

  /**
   * The bounds of a `for` are two primaries parsed one right after the
   * other, with nothing consumed between them; the loop variable defaults to `i`.
   */
  lemma ForBoundsAreConsecutivePrimaries(ts: seq<Token>, p: nat)
    requires p < |ts| && ForAt(ts, p).Done?
    ensures var s := ForAt(ts, p).value;
      var start := Primary(ts, Next(ts, p + 1));
      && s.start == start.value
      && s.stop == Primary(ts, start.next).value
      && s.iteratorName == (if At(ts, p + 1).Identifier? then ts[p + 1].name else "i")
  {
  }

  // ---------------------------------------------------------------------
  // The top level
  // ---------------------------------------------------------------------

  /** At an `EOF` token the top-level loop stops, whatever follows it. */
  lemma TopLevelStopsAtEOF(ts: seq<Token>, acc: seq<Statement>, p: nat)
    requires p < |ts| && ts[p].EOF?
    ensures TopLevel(ts, acc, p) == Done(acc, p)
  {
  }

  /** A token that starts no statement is skipped on its own. */
  lemma TopLevelSkipsUnrecognised(ts: seq<Token>, acc: seq<Statement>, p: nat)
    requires p < |ts|
    requires !ts[p].EOF? && !ts[p].Use? && !ts[p].Lock? && !ts[p].Stract? && !ts[p].Vault?
    requires !ts[p].Func? && !ts[p].Module? && !ts[p].Identifier? && !ts[p].If?
    requires !ts[p].While? && !ts[p].For? && !ts[p].Return?
    ensures TopLevel(ts, acc, p) == TopLevel(ts, acc, p + 1)
  {
    TopLevelStep(ts, acc, p);
  }

  /** `module name` is skipped: two tokens, no statement. */
  lemma ModuleSkipped(ts: seq<Token>, acc: seq<Statement>, p: nat)
    requires p + 1 < |ts| && ts[p].Module?
    ensures TopLevel(ts, acc, p) == TopLevel(ts, acc, p + 2)
  {
    TopLevelStep(ts, acc, p);
  }

  /**
   * Statements come out in source order: each completed statement is
   * appended after those before it.
   */
  lemma TopLevelAppends(ts: seq<Token>, acc: seq<Statement>, p: nat, s: Statement, q: nat)
    requires p < |ts| && !ts[p].EOF? && TopStatement(ts, p) == Done(Some(s), q)
    ensures TopLevel(ts, acc, p) == TopLevel(ts, acc + [s], q)
    ensures TopLevel(ts, acc, p).Done? ==> acc + [s] <= TopLevel(ts, acc, p).value
  {
    TopLevelStep(ts, acc, p);
  }
}
