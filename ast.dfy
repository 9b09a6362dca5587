/**
 * The syntax tree built by the parsers.  src/ast.rs declares only part of
 * it; the statement and expression parsers build more variants, and this
 * module holds the union of both.  Number literals carry their lexeme text
 * (no floating point in the model).
 */
module Ast {
  import opened Wrappers

  datatype Expression =
    | LiteralStr(text: string)
    | LiteralNum(lexeme: string)
    | Variable(name: string)
    | BinaryOp(left: Expression, operator: string, right: Expression)
    | FunctionCall(target: string, args: seq<Expression>)
    | Array(elements: seq<Expression>)
    | Map(pairs: seq<(string, Expression)>)
    | Index(base: Expression, index: Expression)

  datatype Statement =
    | VarDecl(isMutable: bool, isSecure: bool, name: string, value: Expression)
    | CapabilityUse(service: string, serviceParams: seq<(string, string)>)
    | FunctionDecl(name: string, params: seq<string>, body: seq<Statement>)
    | ExpressionStatement(expr: Expression)  // `Statement::Expr`
    | Assignment(name: string, value: Expression)
    | IfStatement(condition: Expression, thenBranch: seq<Statement>, elseBranch: ElseBranch)
    | WhileStatement(condition: Expression, body: seq<Statement>)
    | ForStatement(iteratorName: string, start: Expression, stop: Expression, body: seq<Statement>)
    | ReturnStatement(value: Expression)

  /**
   * The optional else branch (`Option<Vec<Statement>>` in the source), as a
   * type of its own so that recursion over statements can descend into it.
   */
  datatype ElseBranch = NoElse | ElseBlock(statements: seq<Statement>)

  datatype Program = Program(statements: seq<Statement>)

  /** The literal `0` that unary minus subtracts from. */
  const Zero: Expression := LiteralNum("0")

  /** The seven binary operator spellings the expression parser can produce. */
  predicate IsOperator(op: string)
  {
    op in {"+", "-", "==", ">", "<", "*", "/"}
  }

  /** Every `BinaryOp` anywhere inside `e` uses one of the seven operators. */
  predicate OperatorsKnown(e: Expression)
    decreases e
  {
    match e
    case BinaryOp(l, op, r) => IsOperator(op) && OperatorsKnown(l) && OperatorsKnown(r)
    case FunctionCall(_, args) => forall a | a in args :: OperatorsKnown(a)
    case Array(elements) => forall a | a in elements :: OperatorsKnown(a)
    case Map(pairs) => forall k | 0 <= k < |pairs| :: OperatorsKnown(pairs[k].1)
    case Index(b, i) => OperatorsKnown(b) && OperatorsKnown(i)
    case _ => true
  }
}
