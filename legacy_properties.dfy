/**
 * What the legacy parser of src/parser.rs builds: which tokens it
 * recognises, the declaration flags, and the restricted shapes of its
 * declarations, capabilities, calls and function bodies.
 */
module LegacyProperties {
  import opened Wrappers
  import opened Lexing
  import opened Ast
  import opened ParserState
  import opened LegacyParser

  // ---------------------------------------------------------------------
  // The top-level loop
  // ---------------------------------------------------------------------

  /** `lock`, `stract` and `vault` give the flags (false, false), (true, false) and (false, true). */
  lemma DeclarationFlags(ts: seq<Token>, p: nat)
    requires p < |ts| && (ts[p].Lock? || ts[p].Stract? || ts[p].Vault?)
    ensures var r := TopStatement(ts, p);
      && r.Done? && r.value.Some? && r.value.value.VarDecl?
      && (ts[p].Lock? ==> !r.value.value.isMutable && !r.value.value.isSecure)
      && (ts[p].Stract? ==> r.value.value.isMutable && !r.value.value.isSecure)
      && (ts[p].Vault? ==> !r.value.value.isMutable && r.value.value.isSecure)
  {
  }

  /**
   * Every token other than `use`, `lock`, `stract`, `vault`, `func`,
   * `module` and `EOF` is skipped on its own at the top level; names,
   * `if`, `while`, `for` and `return` included.
   */
  lemma OtherTokensSkipped(ts: seq<Token>, acc: seq<Statement>, p: nat)
    requires p < |ts|
    requires !ts[p].EOF? && !ts[p].Use? && !ts[p].Lock? && !ts[p].Stract? && !ts[p].Vault?
    requires !ts[p].Func? && !ts[p].Module?
    ensures TopLevel(ts, acc, p) == TopLevel(ts, acc, p + 1)
  {
    TopLevelStep(ts, acc, p);
  }

  /** At an `EOF` token the loop stops, whatever follows it. */
  lemma StopsAtEOF(ts: seq<Token>, acc: seq<Statement>, p: nat)
    requires p < |ts| && ts[p].EOF?
    ensures TopLevel(ts, acc, p) == Done(acc, p)
  {
  }

  // ---------------------------------------------------------------------
  // Single productions
  // ---------------------------------------------------------------------

  /**
   * A declaration's value is always a string literal expression: the text
   * of the string token in value position, or "" for any other token.
   */
  lemma InitializerIsLiteralString(ts: seq<Token>, p: nat, isMutable: bool, isSecure: bool)
    requires p + 3 < |ts|
    ensures var s := VarDeclAt(ts, p, isMutable, isSecure).value;
      && s.value.LiteralStr?
      && s.value.text == (if ts[p + 3].StringLiteral? then ts[p + 3].text else "")
      && VarDeclAt(ts, p, isMutable, isSecure).next == p + 4
  {
  }

  /** `x . y ( ... )`: the call of "x.y", with no arguments whatever the parentheses hold. */
  lemma CallTargetJoinsTwoNames(ts: seq<Token>, p: nat, a: string, b: string)
    requires p + 2 < |ts| && ts[p] == Identifier(a) && ts[p + 2] == Identifier(b)
    requires CallStmtAt(ts, p).Done?
    ensures CallStmtAt(ts, p).value == ExpressionStatement(FunctionCall(a + "." + b, []))
  {
  }

  /** With no `)` after the method name, the source's skip loop never ends. */
  lemma CallWithoutCloseDiverges(ts: seq<Token>, p: nat)
    requires p + 2 < |ts|
    requires forall k :: p + 3 <= k < |ts| ==> !ts[k].RightParen?
    ensures CallStmtAt(ts, p).Diverges?
  {
  }

  /** With no `{` after the function name, the source's skip loop never ends. */
  lemma FunctionWithoutBraceDiverges(ts: seq<Token>, p: nat)
    requires p + 1 < |ts|
    requires forall k :: p + 2 <= k < |ts| ==> !ts[k].LeftBrace?
    ensures FunctionAt(ts, p).Diverges?
  {
  }

  /** In a function body, every token other than `stract`, a name, `}` or `EOF` is skipped. */
  lemma BodySkipsOtherTokens(ts: seq<Token>, p: nat)
    requires p < |ts| && !ts[p].Stract? && !ts[p].Identifier?
    ensures BodyStatement(ts, p) == Done(None, p + 1)
  {
  }

  // ---------------------------------------------------------------------
  // The shapes of everything the legacy parser builds
  // ---------------------------------------------------------------------

  /** A call built by the legacy parser: a dotted target and no arguments. */
  predicate LegacyCall(e: Expression)
  {
    e.FunctionCall? && e.args == [] && '.' in e.target
  }

  /** A statement of a legacy function body: a `stract` declaration of a string, or a call. */
  predicate BodyShape(s: Statement)
  {
    || (s.VarDecl? && s.isMutable && !s.isSecure && s.value.LiteralStr?)
    || (s.ExpressionStatement? && LegacyCall(s.expr))
  }

  /**
   * A top-level statement of the legacy parser: a declaration of a string
   * (never both mutable and secure), a capability with no parameters, or a
   * function with no parameters whose body has the shape above.
   */
  predicate TopShape(s: Statement)
  {
    match s
    case VarDecl(isMutable, isSecure, _, value) => value.LiteralStr? && !(isMutable && isSecure)
    case CapabilityUse(_, serviceParams) => serviceParams == []
    case FunctionDecl(_, params, body) => params == [] && forall k :: 0 <= k < |body| ==> BodyShape(body[k])
    case _ => false
  }

  lemma {:induction false} FunctionBodyShape(ts: seq<Token>, acc: seq<Statement>, p: nat)
    requires p <= |ts| && forall k :: 0 <= k < |acc| ==> BodyShape(acc[k])
    ensures var r := FunctionBody(ts, acc, p);
      r.Done? ==> forall k :: 0 <= k < |r.value| ==> BodyShape(r.value[k])
    decreases |ts| - p
  {
    if !At(ts, p).RightBrace? && !At(ts, p).EOF? {
      var r := BodyStatement(ts, p);
      BodyStatementShape(ts, p);
      if r.Done? {
        var acc' := if r.value.Some? then acc + [r.value.value] else acc;
        assert forall k :: 0 <= k < |acc'| ==> BodyShape(acc'[k]);
        FunctionBodyShape(ts, acc', r.next);
        assert FunctionBody(ts, acc, p) == FunctionBody(ts, acc', r.next);
      }
    }
  }

  lemma BodyStatementShape(ts: seq<Token>, p: nat)
    requires p <= |ts|
    ensures var r := BodyStatement(ts, p); r.Done? && r.value.Some? ==> BodyShape(r.value.value)
  {
  }

  lemma TopStatementShape(ts: seq<Token>, p: nat)
    requires p <= |ts|
    ensures var r := TopStatement(ts, p); r.Done? && r.value.Some? ==> TopShape(r.value.value)
  {
    if At(ts, p).Func? {
      var q := Next(ts, p);
      match FirstAt(ts, Next(ts, q), LeftBrace)
      case None =>
      case Some(k) => FunctionBodyShape(ts, [], k + 1);
    }
  }

  lemma {:induction false} TopLevelShape(ts: seq<Token>, acc: seq<Statement>, p: nat)
    requires p <= |ts| && forall k :: 0 <= k < |acc| ==> TopShape(acc[k])
    ensures var r := TopLevel(ts, acc, p);
      r.Done? ==> forall k :: 0 <= k < |r.value| ==> TopShape(r.value[k])
    decreases |ts| - p
  {
    if p < |ts| && !ts[p].EOF? {
      var r := TopStatement(ts, p);
      TopStatementShape(ts, p);
      if r.Done? {
        var acc' := if r.value.Some? then acc + [r.value.value] else acc;
        assert forall k :: 0 <= k < |acc'| ==> TopShape(acc'[k]);
        TopLevelShape(ts, acc', r.next);
      }
    }
  }

  /**
   * Every statement of a program the legacy parser returns has the legacy
   * shape: string-valued declarations, parameterless capabilities and
   * functions, and function bodies of `stract` declarations and calls only.
   */
  lemma ProgramShape(ts: seq<Token>)
    requires ParseTokens(ts).Some?
    ensures forall k :: 0 <= k < |ParseTokens(ts).value.statements| ==> TopShape(ParseTokens(ts).value.statements[k])
  {
    TopLevelShape(ts, [], 0);
  }
}
