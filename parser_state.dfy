/**
 * The parser's state (src/parser.rs:4-15) and its two primitives, `advance`
 * and `current_token` (src/parser.rs:152-163), together with the token
 * lookahead `peek` and the "skip ahead" loops the productions share.
 *
 * The spec functions here work on a token sequence and a position, so the
 * grammar functions of the other modules can be written over values; the
 * `Parser` class is the mutable state the parsing methods advance.
 */
module ParserState {
  import opened Wrappers
  import opened Lexing

  /** What a production built and the position it stopped at. */
  datatype Parsed<T> = Parsed(value: T, next: nat)

  /** The result of a production that may loop forever. */
  datatype Outcome<T> = Done(value: T, next: nat) | Diverges

  /** A method's result, final position and flag match the outcome `r`. */
  predicate Agrees<T(==)>(r: Outcome<T>, value: T, next: nat, diverged: bool)
  {
    if r.Diverges? then diverged else !diverged && r.value == value && r.next == next
  }

  /** The text of an identifier token, or `default` for any other token. */
  function NameOr(t: Token, default: string): (s: string)
    ensures t.Identifier? ==> s == t.name
    ensures !t.Identifier? ==> s == default
  {
    if t.Identifier? then t.name else default
  }

  /** The token at `p`, or `EOF` past the end (`current_token`). */
  function At(ts: seq<Token>, p: nat): (t: Token)
    ensures p < |ts| ==> t == ts[p]
    ensures p >= |ts| ==> t.EOF?
  {
    if p >= |ts| then EOF else ts[p]
  }

  /** The position after `advance`: one further, but never past the end. */
  function Next(ts: seq<Token>, p: nat): (q: nat)
    ensures p < |ts| ==> q == p + 1
    ensures p >= |ts| ==> q == p
  {
    if p < |ts| then p + 1 else p
  }

  /**
   * The token after the current one, or `EOF`.  The source calls `peek`
   * without defining it in any file of this model; this is the assumed
   * meaning.
   */
  function Peek(ts: seq<Token>, p: nat): (t: Token)
    ensures p + 1 < |ts| ==> t == ts[p + 1]
    ensures p + 1 >= |ts| ==> t.EOF?
  {
    At(ts, p + 1)
  }

  /**
   * Where the loop that advances while the current token is not `target` stops: the first
   * position at or after `p` holding `target`.  `None` when there is none;
   * the loop then never ends, because past the end the current token is
   * `EOF` and `advance` no longer moves.
   */
  function FirstAt(ts: seq<Token>, p: nat, target: Token): (r: Option<nat>)
    requires p <= |ts|
    ensures r.Some? ==> p <= r.value < |ts| && ts[r.value] == target
    ensures r.Some? ==> forall k :: p <= k < r.value ==> ts[k] != target
    ensures r.None? ==> forall k :: p <= k < |ts| ==> ts[k] != target
    decreases |ts| - p
  {
    if p == |ts| then None
    else if ts[p] == target then Some(p)
    else FirstAt(ts, p + 1, target)
  }

  /**
   * Where the loop that advances while the current token is neither `}` nor `EOF`
   * stops: the first position at or after `p` whose token is `}` or `EOF`
   * (the end of the sequence counts, since the current token is `EOF` there).
   */
  function FirstCloseOrEnd(ts: seq<Token>, p: nat): (e: nat)
    requires p <= |ts|
    ensures p <= e <= |ts|
    ensures At(ts, e).RightBrace? || At(ts, e).EOF?
    ensures forall k :: p <= k < e ==> !ts[k].RightBrace? && !ts[k].EOF?
    decreases |ts| - p
  {
    if p == |ts| || ts[p].RightBrace? || ts[p].EOF? then p
    else FirstCloseOrEnd(ts, p + 1)
  }

  /**
   * The parser state.  `diverged` has no counterpart in the source: it is
   * set exactly where the source would loop forever in a skip-ahead loop,
   * and the parsing methods stop working once it is set.
   */
  class Parser {
    const tokens: seq<Token>
    var position: nat
    var diverged: bool

    /** `position` never passes the end of the tokens. */
    ghost predicate Valid()
      reads this
    {
      position <= |tokens|
    }

    constructor(tokens: seq<Token>)
      ensures this.tokens == tokens && position == 0 && !diverged
      ensures Valid()
    {
      this.tokens := tokens;
      position := 0;
      diverged := false;
    }

    /** `current_token` (src/parser.rs:158-163). */
    function CurrentToken(): (t: Token)
      reads this
      ensures position < |tokens| ==> t == tokens[position]
      ensures position >= |tokens| ==> t.EOF?
    {
      At(tokens, position)
    }

    /** `peek`: the token after the current one, or `EOF`. */
    function PeekToken(): (t: Token)
      reads this
      ensures position + 1 < |tokens| ==> t == tokens[position + 1]
      ensures position + 1 >= |tokens| ==> t.EOF?
    {
      Peek(tokens, position)
    }

    /** `advance` (src/parser.rs:152-156). */
    method Advance()
      requires Valid()
      modifies this
      ensures Valid() && diverged == old(diverged)
      ensures old(position) < |tokens| ==> position == old(position) + 1
      ensures old(position) >= |tokens| ==> position == old(position)
    {
      if position < |tokens| {
        position := position + 1;
      }
    }

    /**
     * Advances while the current token is not `target`.  Where the source
     * would spin forever, this sets `diverged` instead.
     */
    method SkipUntil(target: Token)
      requires Valid() && !diverged && target != EOF
      modifies this
      ensures Valid()
      ensures var r := FirstAt(tokens, old(position), target);
        if r.None? then diverged else !diverged && position == r.value
    {
      ghost var start := position;
      while CurrentToken() != target
        invariant Valid() && !diverged && start <= position
        invariant FirstAt(tokens, position, target) == FirstAt(tokens, start, target)
        decreases |tokens| - position
      {
        if position == |tokens| {
          diverged := true;
          return;
        }
        Advance();
      }
    }

    /** Advances while the current token is neither `}` nor `EOF`. */
    method SkipToCloseOrEnd()
      requires Valid()
      modifies this
      ensures Valid() && diverged == old(diverged)
      ensures position == FirstCloseOrEnd(tokens, old(position))
    {
      ghost var start := position;
      while CurrentToken() != RightBrace && CurrentToken() != EOF
        invariant Valid() && diverged == old(diverged) && start <= position
        invariant FirstCloseOrEnd(tokens, position) == FirstCloseOrEnd(tokens, start)
        decreases |tokens| - position
      {
        Advance();
      }
    }
  }
}
