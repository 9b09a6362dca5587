/**
 * What the expression grammar of src/parser/expression.rs builds: operator
 * associativity and precedence, unary minus, list and map literals, names
 * and their postfix operators, and the fallback for an unexpected token.
 */
module ExpressionProperties {
  import opened Wrappers
  import opened Lexing
  import opened Ast
  import opened ParserState
  import opened ExpressionParser

  // ---------------------------------------------------------------------
  // Binary operators
  // ---------------------------------------------------------------------

  /**
   * `a op1 b op2 c` at the additive level groups to the left:
   * `(a op1 b) op2 c`, with `a`, `b`, `c` the terms parsed one after the other.
   */
  lemma AdditiveGroupsLeft(ts: seq<Token>, p: nat, a: Parsed<Expression>, b: Parsed<Expression>, c: Parsed<Expression>)
    requires p <= |ts|
    requires a == Term(ts, p) && AdditiveOp(At(ts, a.next)).Some?
    requires b == Term(ts, a.next + 1) && AdditiveOp(At(ts, b.next)).Some?
    requires c == Term(ts, b.next + 1) && AdditiveOp(At(ts, c.next)).None?
    ensures Expr(ts, p) == Parsed(BinaryOp(BinaryOp(a.value, AdditiveOp(At(ts, a.next)).value, b.value),
                                            AdditiveOp(At(ts, b.next)).value, c.value), c.next)
  {
    ExprTailStep(ts, a.value, a.next);
    ExprTailStep(ts, BinaryOp(a.value, AdditiveOp(At(ts, a.next)).value, b.value), b.next);
  }

  /** The same for `*` and `/`: `a op1 b op2 c` is `(a op1 b) op2 c`. */
  lemma MultiplicativeGroupsLeft(ts: seq<Token>, p: nat, a: Parsed<Expression>, b: Parsed<Expression>, c: Parsed<Expression>)
    requires p <= |ts|
    requires a == Unary(ts, p) && MultiplicativeOp(At(ts, a.next)).Some?
    requires b == Unary(ts, a.next + 1) && MultiplicativeOp(At(ts, b.next)).Some?
    requires c == Unary(ts, b.next + 1) && MultiplicativeOp(At(ts, c.next)).None?
    ensures Term(ts, p) == Parsed(BinaryOp(BinaryOp(a.value, MultiplicativeOp(At(ts, a.next)).value, b.value),
                                            MultiplicativeOp(At(ts, b.next)).value, c.value), c.next)
  {
    TermTailStep(ts, a.value, a.next);
    TermTailStep(ts, BinaryOp(a.value, MultiplicativeOp(At(ts, a.next)).value, b.value), b.next);
  }

  /** No token is both an additive and a multiplicative operator. */
  lemma OperatorLevelsDisjoint(t: Token)
    ensures AdditiveOp(t).Some? ==> MultiplicativeOp(t).None?
  {
  }

  /** A unary that is not followed by `*` or `/` is a whole term. */
  lemma UnaryIsWholeTerm(ts: seq<Token>, p: nat)
    requires p <= |ts|
    requires MultiplicativeOp(At(ts, Unary(ts, p).next)).None?
    ensures Term(ts, p) == Unary(ts, p)
  {
  }

  /** One multiplicative operator between two unaries makes the whole term. */
  lemma ProductTerm(ts: seq<Token>, p: nat, a: Parsed<Expression>, b: Parsed<Expression>)
    requires p <= |ts|
    requires a == Unary(ts, p) && MultiplicativeOp(At(ts, a.next)).Some?
    requires b == Unary(ts, a.next + 1) && MultiplicativeOp(At(ts, b.next)).None?
    ensures Term(ts, p) == Parsed(BinaryOp(a.value, MultiplicativeOp(At(ts, a.next)).value, b.value), b.next)
  {
    TermTailStep(ts, a.value, a.next);
  }

  /** One additive operator between two terms makes the whole expression. */
  lemma SumExpr(ts: seq<Token>, p: nat, a: Parsed<Expression>, b: Parsed<Expression>)
    requires p <= |ts|
    requires a == Term(ts, p) && AdditiveOp(At(ts, a.next)).Some?
    requires b == Term(ts, a.next + 1) && AdditiveOp(At(ts, b.next)).None?
    ensures Expr(ts, p) == Parsed(BinaryOp(a.value, AdditiveOp(At(ts, a.next)).value, b.value), b.next)
  {
    ExprTailStep(ts, a.value, a.next);
  }

  /** `a + b * c`: the multiplication binds tighter and becomes the right operand. */
  lemma ProductBindsTighterOnTheRight(ts: seq<Token>, p: nat, a: Parsed<Expression>, b: Parsed<Expression>, c: Parsed<Expression>)
    requires p <= |ts|
    requires a == Unary(ts, p) && AdditiveOp(At(ts, a.next)).Some?
    requires b == Unary(ts, a.next + 1) && MultiplicativeOp(At(ts, b.next)).Some?
    requires c == Unary(ts, b.next + 1)
    requires AdditiveOp(At(ts, c.next)).None? && MultiplicativeOp(At(ts, c.next)).None?
    ensures Expr(ts, p) == Parsed(BinaryOp(a.value, AdditiveOp(At(ts, a.next)).value,
                                            BinaryOp(b.value, MultiplicativeOp(At(ts, b.next)).value, c.value)), c.next)
  {
    OperatorLevelsDisjoint(At(ts, a.next));
    UnaryIsWholeTerm(ts, p);
    ProductTerm(ts, a.next + 1, b, c);
    SumExpr(ts, p, a, Term(ts, a.next + 1));
  }

  /** `a * b + c`: the product is the left operand of the addition. */
  lemma ProductBindsTighterOnTheLeft(ts: seq<Token>, p: nat, a: Parsed<Expression>, b: Parsed<Expression>, c: Parsed<Expression>)
    requires p <= |ts|
    requires a == Unary(ts, p) && MultiplicativeOp(At(ts, a.next)).Some?
    requires b == Unary(ts, a.next + 1) && AdditiveOp(At(ts, b.next)).Some?
    requires c == Unary(ts, b.next + 1)
    requires AdditiveOp(At(ts, c.next)).None? && MultiplicativeOp(At(ts, c.next)).None?
    ensures Expr(ts, p) == Parsed(BinaryOp(BinaryOp(a.value, MultiplicativeOp(At(ts, a.next)).value, b.value),
                                            AdditiveOp(At(ts, b.next)).value, c.value), c.next)
  {
    OperatorLevelsDisjoint(At(ts, b.next));
    ProductTerm(ts, p, a, b);
    UnaryIsWholeTerm(ts, b.next + 1);
    SumExpr(ts, p, Term(ts, p), c);
  }

  /**
   * `left op0 x0 op1 x1 ... opn xn` grouped to the left: the last operator
   * is the outermost one and everything before it is its left operand.
   */
  function GroupedLeft(left: Expression, ops: seq<string>, operands: seq<Expression>): (r: Expression)
    requires |ops| == |operands|
    ensures ops != [] ==> r.BinaryOp? && r.operator == ops[|ops| - 1] && r.right == operands[|ops| - 1]
    decreases |ops|
  {
    if ops == [] then left
    else BinaryOp(GroupedLeft(left, ops[..|ops| - 1], operands[..|ops| - 1]), ops[|ops| - 1], operands[|ops| - 1])
  }

  /** Grouping to the left starts by combining `left` with the first operand. */
  lemma {:induction false} GroupedLeftFront(left: Expression, ops: seq<string>, operands: seq<Expression>)
    requires |ops| == |operands| > 0
    ensures GroupedLeft(left, ops, operands) == GroupedLeft(BinaryOp(left, ops[0], operands[0]), ops[1..], operands[1..])
    decreases |ops|
  {
    var n := |ops|;
    if n > 1 {
      GroupedLeftFront(left, ops[..n - 1], operands[..n - 1]);
      assert ops[..n - 1][1..] == ops[1..][..n - 2];
      assert operands[..n - 1][1..] == operands[1..][..n - 2];
    }
  }

  /**
   * The additive operators of an expression: `ops[i]` is at `marks[i]`, and
   * the term after it, `operands[i]`, ends at `marks[i + 1]`.
   */
  ghost predicate AdditiveChain(ts: seq<Token>, marks: seq<nat>, ops: seq<string>, operands: seq<Expression>)
  {
    && |marks| == |ops| + 1 && |ops| == |operands|
    && forall i :: 0 <= i < |ops| ==>
         marks[i] < |ts| && AdditiveOp(At(ts, marks[i])) == Some(ops[i]) && Term(ts, marks[i] + 1) == Parsed(operands[i], marks[i + 1])
  }

  /** The same for the multiplicative operators of a term and the unaries after them. */
  ghost predicate MultiplicativeChain(ts: seq<Token>, marks: seq<nat>, ops: seq<string>, operands: seq<Expression>)
  {
    && |marks| == |ops| + 1 && |ops| == |operands|
    && forall i :: 0 <= i < |ops| ==>
         marks[i] < |ts| && MultiplicativeOp(At(ts, marks[i])) == Some(ops[i]) && Unary(ts, marks[i] + 1) == Parsed(operands[i], marks[i + 1])
  }

  /** A chain without its first operator is a chain. */
  lemma AdditiveChainRest(ts: seq<Token>, marks: seq<nat>, ops: seq<string>, operands: seq<Expression>)
    requires AdditiveChain(ts, marks, ops, operands) && ops != []
    ensures AdditiveChain(ts, marks[1..], ops[1..], operands[1..])
  {
    forall i | 0 <= i < |ops[1..]|
      ensures marks[1..][i] < |ts| && AdditiveOp(At(ts, marks[1..][i])) == Some(ops[1..][i])
      ensures Term(ts, marks[1..][i] + 1) == Parsed(operands[1..][i], marks[1..][i + 1])
    {
      assert marks[1..][i] == marks[i + 1] && marks[1..][i + 1] == marks[i + 2];
      assert ops[1..][i] == ops[i + 1] && operands[1..][i] == operands[i + 1];
    }
  }

  lemma MultiplicativeChainRest(ts: seq<Token>, marks: seq<nat>, ops: seq<string>, operands: seq<Expression>)
    requires MultiplicativeChain(ts, marks, ops, operands) && ops != []
    ensures MultiplicativeChain(ts, marks[1..], ops[1..], operands[1..])
  {
    forall i | 0 <= i < |ops[1..]|
      ensures marks[1..][i] < |ts| && MultiplicativeOp(At(ts, marks[1..][i])) == Some(ops[1..][i])
      ensures Unary(ts, marks[1..][i] + 1) == Parsed(operands[1..][i], marks[1..][i + 1])
    {
      assert marks[1..][i] == marks[i + 1] && marks[1..][i + 1] == marks[i + 2];
      assert ops[1..][i] == ops[i + 1] && operands[1..][i] == operands[i + 1];
    }
  }

  /** Any number of `+`/`-` operators group to the left. */
  lemma {:induction false} ExprTailGroupsLeft(ts: seq<Token>, left: Expression, marks: seq<nat>, ops: seq<string>, operands: seq<Expression>)
    requires AdditiveChain(ts, marks, ops, operands) && marks[0] <= |ts|
    requires AdditiveOp(At(ts, marks[|ops|])).None?
    ensures ExprTail(ts, left, marks[0]) == Parsed(GroupedLeft(left, ops, operands), marks[|ops|])
    decreases |ops|
  {
    if ops != [] {
      ExprTailStep(ts, left, marks[0]);
      AdditiveChainRest(ts, marks, ops, operands);
      ExprTailGroupsLeft(ts, BinaryOp(left, ops[0], operands[0]), marks[1..], ops[1..], operands[1..]);
      GroupedLeftFront(left, ops, operands);
    }
  }

  /** Any number of `*`/`/` operators group to the left. */
  lemma {:induction false} TermTailGroupsLeft(ts: seq<Token>, left: Expression, marks: seq<nat>, ops: seq<string>, operands: seq<Expression>)
    requires MultiplicativeChain(ts, marks, ops, operands) && marks[0] <= |ts|
    requires MultiplicativeOp(At(ts, marks[|ops|])).None?
    ensures TermTail(ts, left, marks[0]) == Parsed(GroupedLeft(left, ops, operands), marks[|ops|])
    decreases |ops|
  {
    if ops != [] {
      TermTailStep(ts, left, marks[0]);
      MultiplicativeChainRest(ts, marks, ops, operands);
      TermTailGroupsLeft(ts, BinaryOp(left, ops[0], operands[0]), marks[1..], ops[1..], operands[1..]);
      GroupedLeftFront(left, ops, operands);
    }
  }

  /** An expression is its first term and every additive operator after it, grouped to the left. */
  lemma SumGroupsLeft(ts: seq<Token>, p: nat, marks: seq<nat>, ops: seq<string>, operands: seq<Expression>)
    requires p <= |ts| && AdditiveChain(ts, marks, ops, operands) && marks[0] == Term(ts, p).next
    requires AdditiveOp(At(ts, marks[|ops|])).None?
    ensures Expr(ts, p) == Parsed(GroupedLeft(Term(ts, p).value, ops, operands), marks[|ops|])
  {
    ExprTailGroupsLeft(ts, Term(ts, p).value, marks, ops, operands);
  }

  /** A term is its first unary and every multiplicative operator after it, grouped to the left. */
  lemma ProductGroupsLeft(ts: seq<Token>, p: nat, marks: seq<nat>, ops: seq<string>, operands: seq<Expression>)
    requires p <= |ts| && MultiplicativeChain(ts, marks, ops, operands) && marks[0] == Unary(ts, p).next
    requires MultiplicativeOp(At(ts, marks[|ops|])).None?
    ensures Term(ts, p) == Parsed(GroupedLeft(Unary(ts, p).value, ops, operands), marks[|ops|])
  {
    TermTailGroupsLeft(ts, Unary(ts, p).value, marks, ops, operands);
  }

  // ---------------------------------------------------------------------
  // Unary minus
  // ---------------------------------------------------------------------

  /** `e` under `n` unary minus signs, each one `0 - ...`. */
  function Negated(e: Expression, n: nat): (r: Expression)
    ensures n > 0 ==> r.BinaryOp? && r.left == Zero && r.operator == "-"
  {
    if n == 0 then e else BinaryOp(Zero, "-", Negated(e, n - 1))
  }

  /** `n` minus signs in a row nest `n` subtractions from zero around the primary after them. */
  lemma {:induction false} MinusSignsNest(ts: seq<Token>, p: nat, n: nat)
    requires p + n <= |ts|
    requires forall k :: p <= k < p + n ==> ts[k].Minus?
    requires !At(ts, p + n).Minus?
    ensures Unary(ts, p) == Parsed(Negated(Primary(ts, p + n).value, n), Primary(ts, p + n).next)
    decreases n
  {
    if n > 0 {
      MinusSignsNest(ts, p + 1, n - 1);
    }
  }

  // ---------------------------------------------------------------------
  // Lists and maps
  // ---------------------------------------------------------------------

  /** `[]` is the empty array and consumes both brackets. */
  lemma EmptyArray(ts: seq<Token>, p: nat)
    requires p + 1 < |ts| && ts[p].LeftBracket? && ts[p + 1].RightBracket?
    ensures Primary(ts, p) == Parsed(Array([]), p + 2)
  {
  }

  /**
   * `marks[i]` is the position of the `i`-th comma of a list, and `es[i]`
   * the expression read after it, which ends where the next comma (or the
   * end of the list) is.
   */
  ghost predicate CommaSeparated(ts: seq<Token>, marks: seq<nat>, es: seq<Expression>)
  {
    && |marks| == |es| + 1
    && forall i :: 0 <= i < |es| ==>
         marks[i] < |ts| && ts[marks[i]].Comma? && Expr(ts, marks[i] + 1) == Parsed(es[i], marks[i + 1])
  }

  /** A list without its first comma is a list. */
  lemma CommaSeparatedRest(ts: seq<Token>, marks: seq<nat>, es: seq<Expression>)
    requires CommaSeparated(ts, marks, es) && es != []
    ensures CommaSeparated(ts, marks[1..], es[1..])
  {
    forall i | 0 <= i < |es[1..]|
      ensures marks[1..][i] < |ts| && ts[marks[1..][i]].Comma?
      ensures Expr(ts, marks[1..][i] + 1) == Parsed(es[1..][i], marks[1..][i + 1])
    {
      assert marks[1..][i] == marks[i + 1] && marks[1..][i + 1] == marks[i + 2] && es[1..][i] == es[i + 1];
    }
  }

  /**
   * The rest of a list after its first element is one expression per comma,
   * appended in source order, and stops at the first position that holds
   * no comma.
   */
  lemma {:induction false} ItemsTailReadsList(ts: seq<Token>, acc: seq<Expression>, marks: seq<nat>, es: seq<Expression>)
    requires CommaSeparated(ts, marks, es) && marks[0] <= |ts|
    requires !At(ts, marks[|es|]).Comma?
    ensures ItemsTail(ts, acc, marks[0]) == Parsed(acc + es, marks[|es|])
    decreases |es|
  {
    if es == [] {
      assert acc + es == acc;
    } else {
      ItemsTailStep(ts, acc, marks[0]);
      CommaSeparatedRest(ts, marks, es);
      ItemsTailReadsList(ts, acc + [es[0]], marks[1..], es[1..]);
      assert acc + [es[0]] + es[1..] == acc + es;
    }
  }

  /**
   * A list that does not open with its closing token is its first
   * expression followed by one expression per comma, in source order.  The
   * closing token is not checked: whatever follows the last element is
   * consumed in its place.
   */
  lemma ItemsInSourceOrder(ts: seq<Token>, p: nat, close: Token, first: Parsed<Expression>, marks: seq<nat>, es: seq<Expression>)
    requires p <= |ts| && At(ts, p) != close && first == Expr(ts, p)
    requires CommaSeparated(ts, marks, es) && marks[0] == first.next
    requires !At(ts, marks[|es|]).Comma?
    ensures Items(ts, p, close) == Parsed([first.value] + es, Next(ts, marks[|es|]))
  {
    ItemsTailReadsList(ts, [first.value], marks, es);
  }

  /** `[e0, e1, ..., en]`: an array of every element, in source order. */
  lemma ArrayElementsInSourceOrder(ts: seq<Token>, p: nat, first: Parsed<Expression>, marks: seq<nat>, es: seq<Expression>)
    requires p < |ts| && ts[p].LeftBracket? && !At(ts, p + 1).RightBracket? && first == Expr(ts, p + 1)
    requires CommaSeparated(ts, marks, es) && marks[0] == first.next
    requires !At(ts, marks[|es|]).Comma?
    ensures Primary(ts, p) == Parsed(Array([first.value] + es), Next(ts, marks[|es|]))
  {
    assert At(ts, p + 1) != RightBracket;
    ItemsInSourceOrder(ts, p + 1, RightBracket, first, marks, es);
  }

  /** `{}` is the empty map and consumes both braces. */
  lemma EmptyMap(ts: seq<Token>, p: nat)
    requires p + 1 < |ts| && ts[p].LeftBrace? && ts[p + 1].RightBrace?
    ensures Primary(ts, p) == Parsed(Map([]), p + 2)
  {
  }

  /**
   * A map entry: the key is the text of a string or identifier token and
   * "Unknown" for any other token; the `:` after it may be left out.
   */
  lemma PairShape(ts: seq<Token>, p: nat)
    requires p < |ts|
    ensures Pair(ts, p).value.0 == (if ts[p].StringLiteral? then ts[p].text
                                   else if ts[p].Identifier? then ts[p].name
                                   else "Unknown")
    ensures At(ts, p + 1).Colon? ==> Pair(ts, p) == Parsed((Pair(ts, p).value.0, Expr(ts, p + 2).value), Expr(ts, p + 2).next)
    ensures !At(ts, p + 1).Colon? ==> Pair(ts, p) == Parsed((Pair(ts, p).value.0, Expr(ts, p + 1).value), Expr(ts, p + 1).next)
  {
  }

  /**
   * The entries of a map literal that starts at `p`: `entries[i]` is read by
   * `Pair` and ends at `ends[i]`; a comma follows every entry but the last,
   * and the next entry starts right after it.
   */
  ghost predicate EntryList(ts: seq<Token>, p: nat, ends: seq<nat>, entries: seq<(string, Expression)>)
  {
    && |ends| == |entries| > 0
    && p <= |ts| && Pair(ts, p) == Parsed(entries[0], ends[0])
    && (forall i :: 0 <= i < |entries| - 1 ==>
          ends[i] < |ts| && ts[ends[i]].Comma? && Pair(ts, ends[i] + 1) == Parsed(entries[i + 1], ends[i + 1]))
    && !At(ts, ends[|entries| - 1]).Comma?
  }

  /** One entry of a map literal, and the comma after it if there is one. */
  lemma PairsStep(ts: seq<Token>, acc: seq<(string, Expression)>, p: nat, entry: (string, Expression), q: nat)
    requires p <= |ts| && Pair(ts, p) == Parsed(entry, q)
    ensures At(ts, q).Comma? ==> q < |ts| && Pairs(ts, acc, p) == Pairs(ts, acc + [entry], q + 1)
    ensures !At(ts, q).Comma? ==> Pairs(ts, acc, p) == Parsed(acc + [entry], q)
  {
  }

  /** The entries after the first one are an entry list, starting after the first comma. */
  lemma EntryListRest(ts: seq<Token>, p: nat, ends: seq<nat>, entries: seq<(string, Expression)>)
    requires EntryList(ts, p, ends, entries) && |entries| > 1
    ensures ends[0] < |ts| && EntryList(ts, ends[0] + 1, ends[1..], entries[1..])
  {
    forall i | 0 <= i < |entries[1..]| - 1
      ensures ends[1..][i] < |ts| && ts[ends[1..][i]].Comma?
      ensures Pair(ts, ends[1..][i] + 1) == Parsed(entries[1..][i + 1], ends[1..][i + 1])
    {
      assert ends[1..][i] == ends[i + 1] && ends[1..][i + 1] == ends[i + 2] && entries[1..][i + 1] == entries[i + 2];
    }
  }

  /** The map loop reads the first entry, and goes on after the comma when there are more. */
  lemma PairsFirstEntry(ts: seq<Token>, acc: seq<(string, Expression)>, p: nat, ends: seq<nat>, entries: seq<(string, Expression)>)
    requires EntryList(ts, p, ends, entries)
    ensures |entries| == 1 ==> Pairs(ts, acc, p) == Parsed(acc + entries, ends[0])
    ensures |entries| > 1 ==> ends[0] < |ts| && Pairs(ts, acc, p) == Pairs(ts, acc + [entries[0]], ends[0] + 1)
  {
    PairsStep(ts, acc, p, entries[0], ends[0]);
    if |entries| == 1 {
      assert acc + [entries[0]] == acc + entries;
    }
  }

  /** The entries are appended one per `Pair`, in source order. */
  lemma {:induction false} PairsReadsEntries(ts: seq<Token>, acc: seq<(string, Expression)>, p: nat, ends: seq<nat>,
                                             entries: seq<(string, Expression)>)
    requires EntryList(ts, p, ends, entries)
    ensures Pairs(ts, acc, p) == Parsed(acc + entries, ends[|entries| - 1])
    decreases |entries|
  {
    PairsFirstEntry(ts, acc, p, ends, entries);
    if |entries| > 1 {
      EntryListRest(ts, p, ends, entries);
      PairsReadsEntries(ts, acc + [entries[0]], ends[0] + 1, ends[1..], entries[1..]);
      assert acc + [entries[0]] + entries[1..] == acc + entries;
    }
  }

  /**
   * `{k0: v0, ..., kn: vn}`: one entry per `Pair`, in source order, with
   * nothing merged, so a repeated key stays two entries.
   */
  lemma MapEntriesInSourceOrder(ts: seq<Token>, p: nat, ends: seq<nat>, entries: seq<(string, Expression)>)
    requires p < |ts| && ts[p].LeftBrace? && !At(ts, p + 1).RightBrace?
    requires EntryList(ts, p + 1, ends, entries)
    ensures Primary(ts, p) == Parsed(Map(entries), Next(ts, ends[|entries| - 1]))
    ensures |Primary(ts, p).value.pairs| == |entries|
  {
    PairsReadsEntries(ts, [], p + 1, ends, entries);
    assert [] + entries == entries;
  }

  // ---------------------------------------------------------------------
  // Names, indexing and calls
  // ---------------------------------------------------------------------

  /** `a.b` is one variable whose name is `a`, a dot and `b`. */
  lemma QualifiedVariable(ts: seq<Token>, p: nat, a: string, b: string)
    requires p + 2 < |ts| && ts[p] == Identifier(a) && ts[p + 1].Dot? && ts[p + 2] == Identifier(b)
    requires !At(ts, p + 3).LeftBracket? && !At(ts, p + 3).LeftParen?
    ensures Primary(ts, p) == Parsed(Variable(a + "." + b), p + 3)
  {
  }

  /** A dot not followed by a name is dropped: `a.` is the variable `a`. */
  lemma DanglingDotDropped(ts: seq<Token>, p: nat, a: string)
    requires p + 1 < |ts| && ts[p] == Identifier(a) && ts[p + 1].Dot? && !At(ts, p + 2).Identifier?
    requires !At(ts, p + 2).LeftBracket? && !At(ts, p + 2).LeftParen?
    ensures Primary(ts, p) == Parsed(Variable(a), p + 2)
  {
  }

  /**
   * Once a call's `(` is reached, what was built before it is discarded:
   * the call is of the name, not of the indexed expression.
   */
  lemma CallDiscardsEarlierPostfix(ts: seq<Token>, name: string, e1: Expression, e2: Expression, p: nat)
    requires p <= |ts| && At(ts, p).LeftParen?
    ensures Postfix(ts, name, e1, p) == Postfix(ts, name, e2, p)
  {
    var args := Items(ts, p + 1, RightParen);
    PostfixCallStep(ts, name, e1, p, args.value, args.next);
    PostfixCallStep(ts, name, e2, p, args.value, args.next);
  }

  /** `f(args)[i]`: indexing after a call wraps the call. */
  lemma IndexWrapsCall(ts: seq<Token>, p: nat, f: string, args: Parsed<seq<Expression>>, i: Parsed<Expression>)
    requires p + 1 < |ts| && ts[p] == Identifier(f) && ts[p + 1].LeftParen?
    requires args == Items(ts, p + 2, RightParen) && At(ts, args.next).LeftBracket?
    requires i == Expr(ts, args.next + 1)
    requires !At(ts, Next(ts, i.next)).LeftBracket? && !At(ts, Next(ts, i.next)).LeftParen?
    ensures Primary(ts, p) == Parsed(Index(FunctionCall(f, args.value), i.value), Next(ts, i.next))
  {
    PostfixCallStep(ts, f, Variable(f), p + 1, args.value, args.next);
    PostfixIndexStep(ts, f, FunctionCall(f, args.value), args.next, i.value, i.next);
  }

  // ---------------------------------------------------------------------
  // Unexpected tokens
  // ---------------------------------------------------------------------

  /** A token that starts no expression becomes the empty string and is consumed. */
  lemma UnexpectedTokenIsEmptyString(ts: seq<Token>, p: nat)
    requires p < |ts|
    requires !ts[p].LeftBracket? && !ts[p].LeftBrace? && !ts[p].StringLiteral?
    requires !ts[p].Number? && !ts[p].Identifier? && !ts[p].Minus?
    ensures Unary(ts, p) == Parsed(LiteralStr(""), p + 1)
  {
  }

  /** At the end of the tokens an expression is the empty string and nothing is consumed. */
  lemma ExpressionAtEnd(ts: seq<Token>)
    ensures Expr(ts, |ts|) == Parsed(LiteralStr(""), |ts|)
  {
    assert Unary(ts, |ts|) == Parsed(LiteralStr(""), |ts|);
    assert Term(ts, |ts|) == Parsed(LiteralStr(""), |ts|);
  }

  // ---------------------------------------------------------------------
  // Every operator the parser builds is one of the seven it knows
  // ---------------------------------------------------------------------

  predicate AllKnown(es: seq<Expression>)
  {
    forall k :: 0 <= k < |es| ==> OperatorsKnown(es[k])
  }

  predicate AllValuesKnown(pairs: seq<(string, Expression)>)
  {
    forall k :: 0 <= k < |pairs| ==> OperatorsKnown(pairs[k].1)
  }

  lemma {:induction false} ExprKnown(ts: seq<Token>, p: nat)
    requires p <= |ts|
    ensures OperatorsKnown(Expr(ts, p).value)
    decreases |ts| - p, 3
  {
    var first := Term(ts, p);
    TermKnown(ts, p);
    ExprTailKnown(ts, first.value, first.next);
  }

  lemma {:induction false} ExprTailKnown(ts: seq<Token>, left: Expression, p: nat)
    requires p <= |ts| && OperatorsKnown(left)
    ensures OperatorsKnown(ExprTail(ts, left, p).value)
    decreases |ts| - p, 0
  {
    match AdditiveOp(At(ts, p))
    case None =>
    case Some(op) =>
      var right := Term(ts, p + 1);
      TermKnown(ts, p + 1);
      ExprTailKnown(ts, BinaryOp(left, op, right.value), right.next);
  }

  lemma {:induction false} TermKnown(ts: seq<Token>, p: nat)
    requires p <= |ts|
    ensures OperatorsKnown(Term(ts, p).value)
    decreases |ts| - p, 2
  {
    var first := Unary(ts, p);
    UnaryKnown(ts, p);
    TermTailKnown(ts, first.value, first.next);
  }

  lemma {:induction false} TermTailKnown(ts: seq<Token>, left: Expression, p: nat)
    requires p <= |ts| && OperatorsKnown(left)
    ensures OperatorsKnown(TermTail(ts, left, p).value)
    decreases |ts| - p, 0
  {
    match MultiplicativeOp(At(ts, p))
    case None =>
    case Some(op) =>
      var right := Unary(ts, p + 1);
      UnaryKnown(ts, p + 1);
      TermTailKnown(ts, BinaryOp(left, op, right.value), right.next);
  }

  lemma {:induction false} UnaryKnown(ts: seq<Token>, p: nat)
    requires p <= |ts|
    ensures OperatorsKnown(Unary(ts, p).value)
    decreases |ts| - p, 1
  {
    if At(ts, p).Minus? {
      UnaryKnown(ts, p + 1);
    } else {
      PrimaryKnown(ts, p);
    }
  }

  lemma {:induction false} PrimaryKnown(ts: seq<Token>, p: nat)
    requires p <= |ts|
    ensures OperatorsKnown(Primary(ts, p).value)
    decreases |ts| - p, 0
  {
    var t := At(ts, p);
    if t.LeftBracket? {
      ItemsKnown(ts, p + 1, RightBracket);
    } else if t.LeftBrace? {
      if !At(ts, p + 1).RightBrace? {
        PairsKnown(ts, [], p + 1);
      }
    } else if t.Identifier? {
      var name := QualifiedName(ts, t.name, p + 1);
      PostfixKnown(ts, name.value, Variable(name.value), name.next);
    }
  }

  lemma {:induction false} ItemsKnown(ts: seq<Token>, p: nat, close: Token)
    requires p <= |ts|
    ensures AllKnown(Items(ts, p, close).value)
    decreases |ts| - p, 4
  {
    if At(ts, p) != close {
      var first := Expr(ts, p);
      ExprKnown(ts, p);
      ItemsTailKnown(ts, [first.value], first.next);
    }
  }

  lemma {:induction false} ItemsTailKnown(ts: seq<Token>, acc: seq<Expression>, p: nat)
    requires p <= |ts| && AllKnown(acc)
    ensures AllKnown(ItemsTail(ts, acc, p).value)
    decreases |ts| - p, 0
  {
    if At(ts, p).Comma? {
      var e := Expr(ts, p + 1);
      ExprKnown(ts, p + 1);
      ItemsTailKnown(ts, acc + [e.value], e.next);
    }
  }

  lemma {:induction false} PairKnown(ts: seq<Token>, p: nat)
    requires p <= |ts|
    ensures OperatorsKnown(Pair(ts, p).value.1)
    decreases |ts| - p, 4
  {
    var q := Next(ts, p);
    ExprKnown(ts, if At(ts, q).Colon? then q + 1 else q);
  }

  lemma {:induction false} PairsKnown(ts: seq<Token>, acc: seq<(string, Expression)>, p: nat)
    requires p <= |ts| && AllValuesKnown(acc)
    ensures AllValuesKnown(Pairs(ts, acc, p).value)
    decreases |ts| - p, 5
  {
    var pair := Pair(ts, p);
    PairKnown(ts, p);
    if At(ts, pair.next).Comma? {
      PairsKnown(ts, acc + [pair.value], pair.next + 1);
    }
  }

  lemma {:induction false} PostfixKnown(ts: seq<Token>, name: string, e: Expression, p: nat)
    requires p <= |ts| && OperatorsKnown(e)
    ensures OperatorsKnown(Postfix(ts, name, e, p).value)
    decreases |ts| - p, 0
  {
    if At(ts, p).LeftBracket? {
      var index := Expr(ts, p + 1);
      ExprKnown(ts, p + 1);
      PostfixKnown(ts, name, Index(e, index.value), Next(ts, index.next));
    } else if At(ts, p).LeftParen? {
      var args := Items(ts, p + 1, RightParen);
      ItemsKnown(ts, p + 1, RightParen);
      PostfixKnown(ts, name, FunctionCall(name, args.value), args.next);
    }
  }
}
