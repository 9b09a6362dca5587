/**
 * The expression grammar of src/parser/expression.rs.
 *
 * Each production is given twice: as a function from a token sequence and a
 * start position to the expression built and the position reached
 * (`Parsed`), and as a method that advances a `Parser` the way the source
 * does and is proved to agree with that function.  The functions carry the
 * loops of the source as tail recursion with an accumulator.
 *
 * Ranks in the `decreases` clauses order the productions that may call each
 * other without consuming a token.
 */
module ExpressionParser {
  import opened Wrappers
  import opened Lexing
  import opened Ast
  import opened ParserState

  /** The operators of `parse_expression`'s loop (src/parser/expression.rs:8-13). */
  function AdditiveOp(t: Token): (r: Option<string>)
    ensures r.Some? ==> !t.EOF?
  {
    if t.Plus? then Some("+")
    else if t.Minus? then Some("-")
    else if t.EqualEqual? then Some("==")
    else if t.Greater? then Some(">")
    else if t.Less? then Some("<")
    else None
  }

  /** The operators of `parse_term`'s loop (src/parser/expression.rs:22-25). */
  function MultiplicativeOp(t: Token): (r: Option<string>)
    ensures r.Some? ==> !t.EOF?
  {
    if t.Star? then Some("*")
    else if t.Slash? then Some("/")
    else None
  }

  /** A map key: the text of a string or identifier token, otherwise "Unknown". */
  function KeyText(t: Token): string
  {
    if t.StringLiteral? then t.text
    else if t.Identifier? then t.name
    else "Unknown"
  }

  // ---------------------------------------------------------------------
  // The grammar as functions
  // ---------------------------------------------------------------------

  /** `parse_expression`: a term, then any number of `op term` at the lowest level. */
  function Expr(ts: seq<Token>, p: nat): (r: Parsed<Expression>)
    requires p <= |ts|
    ensures p <= r.next <= |ts|
    ensures p < |ts| ==> p < r.next
    decreases |ts| - p, 3
  {
    var first := Term(ts, p);
    ExprTail(ts, first.value, first.next)
  }

  /** The loop of `parse_expression`, with the left operand built so far. */
  function ExprTail(ts: seq<Token>, left: Expression, p: nat): (r: Parsed<Expression>)
    requires p <= |ts|
    ensures p <= r.next <= |ts|
    decreases |ts| - p, 0
  {
    match AdditiveOp(At(ts, p))
    case None => Parsed(left, p)
    case Some(op) =>
      var right := Term(ts, p + 1);
      ExprTail(ts, BinaryOp(left, op, right.value), right.next)
  }

  /** `parse_term`: a unary, then any number of `* unary` or `/ unary`. */
  function Term(ts: seq<Token>, p: nat): (r: Parsed<Expression>)
    requires p <= |ts|
    ensures p <= r.next <= |ts|
    ensures p < |ts| ==> p < r.next
    decreases |ts| - p, 2
  {
    var first := Unary(ts, p);
    TermTail(ts, first.value, first.next)
  }

  /** The loop of `parse_term`. */
  function TermTail(ts: seq<Token>, left: Expression, p: nat): (r: Parsed<Expression>)
    requires p <= |ts|
    ensures p <= r.next <= |ts|
    decreases |ts| - p, 0
  {
    match MultiplicativeOp(At(ts, p))
    case None => Parsed(left, p)
    case Some(op) =>
      var right := Unary(ts, p + 1);
      TermTail(ts, BinaryOp(left, op, right.value), right.next)
  }

  /** `parse_unary`: `- unary` becomes `0 - unary`; anything else is a primary. */
  function Unary(ts: seq<Token>, p: nat): (r: Parsed<Expression>)
    requires p <= |ts|
    ensures p <= r.next <= |ts|
    ensures p < |ts| ==> p < r.next
    decreases |ts| - p, 1
  {
    if At(ts, p).Minus? then
      var operand := Unary(ts, p + 1);
      Parsed(BinaryOp(Zero, "-", operand.value), operand.next)
    else
      Primary(ts, p)
  }

  /** `parse_primary`. */
  function Primary(ts: seq<Token>, p: nat): (r: Parsed<Expression>)
    requires p <= |ts|
    ensures p <= r.next <= |ts|
    ensures p < |ts| ==> p < r.next
    decreases |ts| - p, 0
  {
    var t := At(ts, p);
    if t.LeftBracket? then
      var items := Items(ts, p + 1, RightBracket);
      Parsed(Array(items.value), items.next)
    else if t.LeftBrace? then
      if At(ts, p + 1).RightBrace? then Parsed(Map([]), Next(ts, p + 1))
      else
        var pairs := Pairs(ts, [], p + 1);
        Parsed(Map(pairs.value), Next(ts, pairs.next))
    else if t.StringLiteral? then Parsed(LiteralStr(t.text), p + 1)
    else if t.Number? then Parsed(LiteralNum(t.lexeme), p + 1)
    else if t.Identifier? then
      var name := QualifiedName(ts, t.name, p + 1);
      Postfix(ts, name.value, Variable(name.value), name.next)
    else Parsed(LiteralStr(""), Next(ts, p))
  }

  /**
   * A comma-separated list of expressions up to a closing token, which is
   * consumed too; `p` is just after the opening token.  Array literals and
   * call arguments share this shape (src/parser/expression.rs:47-52, 99-104).
   */
  function Items(ts: seq<Token>, p: nat, close: Token): (r: Parsed<seq<Expression>>)
    requires p <= |ts|
    ensures p <= r.next <= |ts|
    ensures p < |ts| ==> p < r.next
    decreases |ts| - p, 4
  {
    if At(ts, p) == close then Parsed([], Next(ts, p))
    else
      var first := Expr(ts, p);
      var all := ItemsTail(ts, [first.value], first.next);
      Parsed(all.value, Next(ts, all.next))
  }

  /** The loop of a list that reads one more expression after each comma. */
  function ItemsTail(ts: seq<Token>, acc: seq<Expression>, p: nat): (r: Parsed<seq<Expression>>)
    requires p <= |ts|
    ensures p <= r.next <= |ts| && acc <= r.value
    decreases |ts| - p, 0
  {
    if At(ts, p).Comma? then
      var e := Expr(ts, p + 1);
      ItemsTail(ts, acc + [e.value], e.next)
    else
      Parsed(acc, p)
  }

  /** One `key [:] value` entry of a map literal (src/parser/expression.rs:60-71). */
  function Pair(ts: seq<Token>, p: nat): (r: Parsed<(string, Expression)>)
    requires p <= |ts|
    ensures p <= r.next <= |ts|
    decreases |ts| - p, 4
  {
    var q := Next(ts, p);
    var value := Expr(ts, if At(ts, q).Colon? then q + 1 else q);
    Parsed((KeyText(At(ts, p)), value.value), value.next)
  }

  /**
   * The `loop` of a map literal (src/parser/expression.rs:59-78): a pair,
   * and another one after each `,`.
   */
  function Pairs(ts: seq<Token>, acc: seq<(string, Expression)>, p: nat): (r: Parsed<seq<(string, Expression)>>)
    requires p <= |ts|
    ensures p <= r.next <= |ts| && acc < r.value
    decreases |ts| - p, 5
  {
    var pair := Pair(ts, p);
    if At(ts, pair.next).Comma? then Pairs(ts, acc + [pair.value], pair.next + 1)
    else Parsed(acc + [pair.value], pair.next)
  }

  /** `name` or `name.method` (src/parser/expression.rs:86-92); `p` is after `name`. */
  function QualifiedName(ts: seq<Token>, name: string, p: nat): (r: Parsed<string>)
    requires p <= |ts|
    ensures p <= r.next <= |ts|
  {
    if At(ts, p).Dot? then
      var t := At(ts, p + 1);
      if t.Identifier? then Parsed(name + "." + t.name, p + 2) else Parsed(name, p + 1)
    else
      Parsed(name, p)
  }

  /**
   * The postfix loop after a name (src/parser/expression.rs:94-106): `[i]`
   * wraps the expression so far in an `Index`; `(args)` replaces it with a
   * call of `name`.
   */
  function Postfix(ts: seq<Token>, name: string, e: Expression, p: nat): (r: Parsed<Expression>)
    requires p <= |ts|
    ensures p <= r.next <= |ts|
    decreases |ts| - p, 0
  {
    if At(ts, p).LeftBracket? then
      var index := Expr(ts, p + 1);
      Postfix(ts, name, Index(e, index.value), Next(ts, index.next))
    else if At(ts, p).LeftParen? then
      var args := Items(ts, p + 1, RightParen);
      Postfix(ts, name, FunctionCall(name, args.value), args.next)
    else
      Parsed(e, p)
  }

  // ---------------------------------------------------------------------
  // One turn of each loop, for the methods' invariants
  // ---------------------------------------------------------------------

  lemma ExprTailStep(ts: seq<Token>, left: Expression, p: nat)
    requires p <= |ts| && AdditiveOp(At(ts, p)).Some?
    ensures var right := Term(ts, p + 1);
      ExprTail(ts, left, p) == ExprTail(ts, BinaryOp(left, AdditiveOp(At(ts, p)).value, right.value), right.next)
  {
  }

  lemma TermTailStep(ts: seq<Token>, left: Expression, p: nat)
    requires p <= |ts| && MultiplicativeOp(At(ts, p)).Some?
    ensures var right := Unary(ts, p + 1);
      TermTail(ts, left, p) == TermTail(ts, BinaryOp(left, MultiplicativeOp(At(ts, p)).value, right.value), right.next)
  {
  }

  lemma ItemsTailStep(ts: seq<Token>, acc: seq<Expression>, p: nat)
    requires p <= |ts| && At(ts, p).Comma?
    ensures var e := Expr(ts, p + 1);
      ItemsTail(ts, acc, p) == ItemsTail(ts, acc + [e.value], e.next)
  {
  }

  lemma PostfixIndexStep(ts: seq<Token>, name: string, e: Expression, p: nat, index: Expression, q: nat)
    requires p < |ts| && At(ts, p).LeftBracket?
    requires Parsed(index, q) == Expr(ts, p + 1)
    ensures Postfix(ts, name, e, p) == Postfix(ts, name, Index(e, index), Next(ts, q))
  {
  }

  lemma PostfixCallStep(ts: seq<Token>, name: string, e: Expression, p: nat, args: seq<Expression>, q: nat)
    requires p < |ts| && At(ts, p).LeftParen?
    requires Parsed(args, q) == Items(ts, p + 1, RightParen)
    ensures Postfix(ts, name, e, p) == Postfix(ts, name, FunctionCall(name, args), q)
  {
  }

  // ---------------------------------------------------------------------
  // The parsing methods
  // ---------------------------------------------------------------------

  /** `parse_expression` (src/parser/expression.rs:6-18). */
  method ParseExpression(ps: Parser) returns (e: Expression)
    requires ps.Valid()
    modifies ps
    ensures ps.Valid() && ps.diverged == old(ps.diverged)
    ensures Parsed(e, ps.position) == Expr(ps.tokens, old(ps.position))
    decreases |ps.tokens| - ps.position, 3
  {
    e := ParseTerm(ps);
    while AdditiveOp(ps.CurrentToken()).Some?
      invariant ps.Valid() && ps.diverged == old(ps.diverged)
      invariant old(ps.position) <= ps.position
      invariant ExprTail(ps.tokens, e, ps.position) == Expr(ps.tokens, old(ps.position))
      decreases |ps.tokens| - ps.position
    {
      var operator := AdditiveOp(ps.CurrentToken()).value;
      ExprTailStep(ps.tokens, e, ps.position);
      ps.Advance();
      var right := ParseTerm(ps);
      e := BinaryOp(e, operator, right);
    }
  }

  /** `parse_term` (src/parser/expression.rs:20-30). */
  method ParseTerm(ps: Parser) returns (e: Expression)
    requires ps.Valid()
    modifies ps
    ensures ps.Valid() && ps.diverged == old(ps.diverged)
    ensures Parsed(e, ps.position) == Term(ps.tokens, old(ps.position))
    decreases |ps.tokens| - ps.position, 2
  {
    e := ParseUnary(ps);
    while MultiplicativeOp(ps.CurrentToken()).Some?
      invariant ps.Valid() && ps.diverged == old(ps.diverged)
      invariant old(ps.position) <= ps.position
      invariant TermTail(ps.tokens, e, ps.position) == Term(ps.tokens, old(ps.position))
      decreases |ps.tokens| - ps.position
    {
      var operator := MultiplicativeOp(ps.CurrentToken()).value;
      TermTailStep(ps.tokens, e, ps.position);
      ps.Advance();
      var right := ParseUnary(ps);
      e := BinaryOp(e, operator, right);
    }
  }

  /** `parse_unary` (src/parser/expression.rs:32-42). */
  method ParseUnary(ps: Parser) returns (e: Expression)
    requires ps.Valid()
    modifies ps
    ensures ps.Valid() && ps.diverged == old(ps.diverged)
    ensures Parsed(e, ps.position) == Unary(ps.tokens, old(ps.position))
    decreases |ps.tokens| - ps.position, 1
  {
    if ps.CurrentToken().Minus? {
      ps.Advance();
      var right := ParseUnary(ps);
      return BinaryOp(Zero, "-", right);
    }
    e := ParsePrimary(ps);
  }

  /** `parse_primary` (src/parser/expression.rs:44-111). */
  method ParsePrimary(ps: Parser) returns (e: Expression)
    requires ps.Valid()
    modifies ps
    ensures ps.Valid() && ps.diverged == old(ps.diverged)
    ensures Parsed(e, ps.position) == Primary(ps.tokens, old(ps.position))
    decreases |ps.tokens| - ps.position, 0
  {
    ghost var ts, p := ps.tokens, ps.position;
    var t := ps.CurrentToken();
    if t.LeftBracket? {
      ps.Advance();
      var elements := ParseItems(ps, RightBracket);
      e := Array(elements);
    } else if t.LeftBrace? {
      ps.Advance();
      var pairs := ParseMapBody(ps);
      ps.Advance();
      e := Map(pairs);
    } else if t.StringLiteral? {
      ps.Advance();
      e := LiteralStr(t.text);
    } else if t.Number? {
      ps.Advance();
      e := LiteralNum(t.lexeme);
    } else if t.Identifier? {
      ps.Advance();
      e := ParseNameAndPostfix(ps, t.name);
    } else {
      ps.Advance();
      e := LiteralStr("");
    }
  }

  /** One entry of a map literal (src/parser/expression.rs:60-71). */
  method ParsePair(ps: Parser) returns (key: string, value: Expression)
    requires ps.Valid()
    modifies ps
    ensures ps.Valid() && ps.diverged == old(ps.diverged)
    ensures Parsed((key, value), ps.position) == Pair(ps.tokens, old(ps.position))
    decreases |ps.tokens| - ps.position, 4
  {
    key := KeyText(ps.CurrentToken());
    ps.Advance();
    if ps.CurrentToken().Colon? {
      ps.Advance();
    }
    value := ParseExpression(ps);
  }

  /**
   * The body of a map literal after `{`, up to but not including the
   * closing token (src/parser/expression.rs:58-79).
   */
  method ParseMapBody(ps: Parser) returns (pairs: seq<(string, Expression)>)
    requires ps.Valid()
    modifies ps
    ensures ps.Valid() && ps.diverged == old(ps.diverged)
    ensures At(ps.tokens, old(ps.position)).RightBrace? ==> pairs == [] && ps.position == old(ps.position)
    ensures !At(ps.tokens, old(ps.position)).RightBrace? ==>
      Parsed(pairs, ps.position) == Pairs(ps.tokens, [], old(ps.position))
    decreases |ps.tokens| - ps.position, 5
  {
    ghost var ts := ps.tokens;
    pairs := [];
    if !ps.CurrentToken().RightBrace? {
      ghost var start := ps.position;
      while true
        invariant ps.Valid() && ps.diverged == old(ps.diverged) && start <= ps.position
        invariant Pairs(ts, pairs, ps.position) == Pairs(ts, [], start)
        decreases |ps.tokens| - ps.position
      {
        ghost var p := ps.position;
        var key, value := ParsePair(ps);
        assert Parsed((key, value), ps.position) == Pair(ts, p);
        pairs := pairs + [(key, value)];
        if ps.CurrentToken().Comma? {
          ps.Advance();
        } else {
          break;
        }
      }
    }
  }

  /** A name and an optional `.method` after it (src/parser/expression.rs:86-92). */
  method ParseQualifiedName(ps: Parser, s: string) returns (name: string)
    requires ps.Valid()
    modifies ps
    ensures ps.Valid() && ps.diverged == old(ps.diverged)
    ensures Parsed(name, ps.position) == QualifiedName(ps.tokens, s, old(ps.position))
  {
    name := s;
    if ps.CurrentToken().Dot? {
      ps.Advance();
      if ps.CurrentToken().Identifier? {
        name := name + "." + ps.CurrentToken().name;
        ps.Advance();
      }
    }
  }

  /** A name, an optional `.method`, then the postfix loop (src/parser/expression.rs:85-108). */
  method ParseNameAndPostfix(ps: Parser, s: string) returns (e: Expression)
    requires ps.Valid()
    modifies ps
    ensures ps.Valid() && ps.diverged == old(ps.diverged)
    ensures var name := QualifiedName(ps.tokens, s, old(ps.position));
      Parsed(e, ps.position) == Postfix(ps.tokens, name.value, Variable(name.value), name.next)
    decreases |ps.tokens| - ps.position, 5
  {
    var name := ParseQualifiedName(ps, s);
    e := ParsePostfix(ps, name, Variable(name));
  }

  /** The postfix loop (src/parser/expression.rs:94-106). */
  method ParsePostfix(ps: Parser, name: string, e0: Expression) returns (e: Expression)
    requires ps.Valid()
    modifies ps
    ensures ps.Valid() && ps.diverged == old(ps.diverged)
    ensures Parsed(e, ps.position) == Postfix(ps.tokens, name, e0, old(ps.position))
    decreases |ps.tokens| - ps.position, 4
  {
    ghost var ts := ps.tokens;
    e := e0;
    while true
      invariant ps.Valid() && ps.diverged == old(ps.diverged) && old(ps.position) <= ps.position
      invariant Postfix(ts, name, e, ps.position) == Postfix(ts, name, e0, old(ps.position))
      decreases |ps.tokens| - ps.position
    {
      if ps.CurrentToken().LeftBracket? {
        e := ParseIndexSuffix(ps, name, e);
      } else if ps.CurrentToken().LeftParen? {
        ghost var p := ps.position;
        ps.Advance();
        assert ps.position == p + 1;
        var args := ParseItems(ps, RightParen);
        assert Parsed(args, ps.position) == Items(ts, p + 1, RightParen);
        PostfixCallStep(ts, name, e, p, args, ps.position);
        e := FunctionCall(name, args);
      } else {
        break;
      }
    }
  }

  /** One `[index]` suffix of the postfix loop (src/parser/expression.rs:95-97). */
  method ParseIndexSuffix(ps: Parser, name: string, e0: Expression) returns (e: Expression)
    requires ps.Valid() && ps.CurrentToken().LeftBracket?
    modifies ps
    ensures ps.Valid() && ps.diverged == old(ps.diverged) && old(ps.position) < ps.position
    ensures Postfix(ps.tokens, name, e, ps.position) == Postfix(ps.tokens, name, e0, old(ps.position))
    decreases |ps.tokens| - ps.position, 3
  {
    ghost var p := ps.position;
    ps.Advance();
    assert ps.position == p + 1;
    var index := ParseExpression(ps);
    assert Parsed(index, ps.position) == Expr(ps.tokens, p + 1);
    PostfixIndexStep(ps.tokens, name, e0, p, index, ps.position);
    ps.Advance();
    e := Index(e0, index);
  }

  /**
   * A list of expressions: unless the current token is the closing one,
   * an expression and then one more after each comma; then one token is
   * consumed as the closing one.
   */
  method ParseItems(ps: Parser, close: Token) returns (items: seq<Expression>)
    requires ps.Valid()
    modifies ps
    ensures ps.Valid() && ps.diverged == old(ps.diverged)
    ensures Parsed(items, ps.position) == Items(ps.tokens, old(ps.position), close)
    decreases |ps.tokens| - ps.position, 5
  {
    items := [];
    if ps.CurrentToken() != close {
      items := ParseItemList(ps);
    }
    ps.Advance();
  }

  /** The expressions of a list: one, and then one more after each comma. */
  method ParseItemList(ps: Parser) returns (items: seq<Expression>)
    requires ps.Valid()
    modifies ps
    ensures ps.Valid() && ps.diverged == old(ps.diverged)
    ensures var first := Expr(ps.tokens, old(ps.position));
      Parsed(items, ps.position) == ItemsTail(ps.tokens, [first.value], first.next)
    decreases |ps.tokens| - ps.position, 4
  {
    ghost var ts := ps.tokens;
    var first := ParseExpression(ps);
    items := [first];
    ghost var afterFirst := ps.position;
    while ps.CurrentToken().Comma?
      invariant ps.Valid() && ps.diverged == old(ps.diverged) && afterFirst <= ps.position
      invariant ItemsTail(ts, items, ps.position) == ItemsTail(ts, [first], afterFirst)
      decreases |ps.tokens| - ps.position
    {
      ItemsTailStep(ts, items, ps.position);
      ps.Advance();
      var next := ParseExpression(ps);
      items := items + [next];
    }
  }
}
