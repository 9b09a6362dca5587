/**
 * The tree-walking evaluator of src/interpreter.rs: one flat store from
 * names to strings, global declarations first, then the body of `main`.
 *
 * Every value is a string.  Expression evaluation is a pure function of the
 * store that also yields the lines `IO.print` writes; statements change the
 * store and append to the output, which stands for the console.  What Rust's
 * `f64` does (parsing, arithmetic, comparison, `to_string`) is the
 * `NumberModel` parameter.
 */
module Interpreting {
  import opened Wrappers
  import opened Ast
  import Values

  /**
   * Rust's `f64`, left open: `str::parse::<f64>`, `to_string`, the four
   * operators and the three comparisons, on IEEE 754 bit patterns.
   */
  datatype NumberModel = NumberModel(
    parse: string -> Option<bv64>,
    show: bv64 -> string,
    add: (bv64, bv64) -> bv64,
    sub: (bv64, bv64) -> bv64,
    mul: (bv64, bv64) -> bv64,
    div: (bv64, bv64) -> bv64,
    greater: (bv64, bv64) -> bool,
    less: (bv64, bv64) -> bool,
    equal: (bv64, bv64) -> bool)

  /** The bit pattern of 0.0. */
  const FloatZero: bv64 := 0

  const NoMainError := "Runtime Error: No 'main' function found."

  function UndeclaredError(name: string): string
  {
    "Error: Variable '" + name + "' not declared before assignment."
  }

  /** Rust's `bool::to_string`. */
  function BoolText(b: bool): (r: string)
    ensures r == "true" || r == "false"
    ensures r == "true" <==> b
  {
    if b then "true" else "false"
  }

  /** The `f64` the lexer made of a number's lexeme: its parse, or 0.0 when it does not parse. */
  function NumberValue(lexeme: string, nm: NumberModel): (bits: bv64)
    ensures nm.parse(lexeme) == Some(bits) || bits == FloatZero
    ensures nm.parse(lexeme).None? ==> bits == FloatZero
  {
    match nm.parse(lexeme)
    case Some(x) => x
    case None => FloatZero
  }

  /**
   * A binary operator on two operand strings (src/interpreter.rs:72-94):
   * on numbers, arithmetic and comparisons, and "0" for any other operator;
   * otherwise `+` concatenates, `==` compares the strings, and anything else
   * is "NaN".  So `==` always answers "true" or "false", and `>` and `<`
   * answer that or "NaN".
   */
  function Combine(l: string, op: string, right: string, nm: NumberModel): (result: string)
    ensures op == "==" ==> result in {"true", "false"}
    ensures op == ">" || op == "<" ==> result in {"true", "false", "NaN"}
    ensures op !in {"+", "-", "*", "/", ">", "<", "=="} ==> result in {"0", "NaN"}
  {
    var x, y := nm.parse(l), nm.parse(right);
    if x.Some? && y.Some? then
      if op == "+" then nm.show(nm.add(x.value, y.value))
      else if op == "-" then nm.show(nm.sub(x.value, y.value))
      else if op == "*" then nm.show(nm.mul(x.value, y.value))
      else if op == "/" then nm.show(nm.div(x.value, y.value))
      else if op == ">" then BoolText(nm.greater(x.value, y.value))
      else if op == "<" then BoolText(nm.less(x.value, y.value))
      else if op == "==" then BoolText(nm.equal(x.value, y.value))
      else "0"
    else if op == "+" then l + right
    else if op == "==" then BoolText(l == right)
    else "NaN"
  }

  // ---------------------------------------------------------------------
  // Expressions
  // ---------------------------------------------------------------------

  /**
   * The expressions the evaluator's match covers: src/ast.rs has no array,
   * map or index expressions, so `eval_expression` has no arm for them.
   */
  predicate Evaluable(e: Expression)
    decreases e
  {
    match e
    case LiteralStr(_) => true
    case LiteralNum(_) => true
    case Variable(_) => true
    case BinaryOp(l, _, r) => Evaluable(l) && Evaluable(r)
    case FunctionCall(_, args) => forall a | a in args :: Evaluable(a)
    case Array(_) => false
    case Map(_) => false
    case Index(_, _) => false
  }

  /** An expression's value, and the lines it printed on the way. */
  datatype Evaluated = Evaluated(value: string, printed: seq<string>)

  datatype EvaluatedArgs = EvaluatedArgs(values: seq<string>, printed: seq<string>)

  /** Whether evaluating `e` reaches a call of `IO.print`. */
  predicate CallsPrint(e: Expression)
    decreases e
  {
    match e
    case BinaryOp(l, _, r) => CallsPrint(l) || CallsPrint(r)
    case FunctionCall(target, _) => target == "IO.print"
    case _ => false
  }

  /**
   * `eval_expression` (src/interpreter.rs:61-104).  Only a call of
   * `IO.print` prints, and each one it reaches prints at least its own line;
   * every call evaluates to the empty string.
   */
  function Eval(vars: map<string, string>, e: Expression, nm: NumberModel): (r: Evaluated)
    requires Evaluable(e)
    ensures !CallsPrint(e) ==> r.printed == []
    ensures CallsPrint(e) ==> |r.printed| > 0
    ensures e.FunctionCall? ==> r.value == ""
    decreases e
  {
    match e
    case LiteralStr(s) => Evaluated(s, [])
    case LiteralNum(lexeme) => Evaluated(nm.show(NumberValue(lexeme, nm)), [])
    case Variable(name) => Evaluated(if name in vars then vars[name] else "undefined", [])
    case BinaryOp(l, op, r) =>
      var a := Eval(vars, l, nm);
      var b := Eval(vars, r, nm);
      Evaluated(Combine(a.value, op, b.value, nm), a.printed + b.printed)
    case FunctionCall(target, args) =>
      if target == "IO.print" then
        var vs := EvalArgs(vars, args, nm);
        Evaluated("", vs.printed + [Values.Join(vs.values, " ")])
      else Evaluated("", [])
  }

  /** The arguments of `IO.print`, evaluated left to right. */
  function EvalArgs(vars: map<string, string>, args: seq<Expression>, nm: NumberModel): (r: EvaluatedArgs)
    requires forall a | a in args :: Evaluable(a)
    ensures |r.values| == |args|
    ensures forall k :: 0 <= k < |args| ==> r.values[k] == Eval(vars, args[k], nm).value
    decreases args
  {
    if args == [] then EvaluatedArgs([], [])
    else
      var first := Eval(vars, args[0], nm);
      var rest := EvalArgs(vars, args[1..], nm);
      EvaluatedArgs([first.value] + rest.values, first.printed + rest.printed)
  }

  // ---------------------------------------------------------------------
  // Statements
  // ---------------------------------------------------------------------

  /** Every expression the statement's execution may evaluate is `Evaluable`. */
  predicate Executable(s: Statement)
    decreases s
  {
    match s
    case VarDecl(_, _, _, value) => Evaluable(value)
    case Assignment(_, value) => Evaluable(value)
    case IfStatement(condition, thenBranch, elseBranch) =>
      && Evaluable(condition)
      && AllExecutable(thenBranch)
      && (match elseBranch
          case NoElse => true
          case ElseBlock(statements) => AllExecutable(statements))
    case ExpressionStatement(expr) => Evaluable(expr)
    case FunctionDecl(_, _, body) => AllExecutable(body)
    case CapabilityUse(_, _) => true
    case WhileStatement(_, _) => true
    case ForStatement(_, _, _, _) => true
    case ReturnStatement(_) => true
  }

  predicate AllExecutable(ss: seq<Statement>)
    decreases ss
  {
    forall k | 0 <= k < |ss| :: Executable(ss[k])
  }

  /** The interpreter's state: the variable store and what has been printed. */
  datatype State = State(variables: map<string, string>, output: seq<string>)

  /**
   * `execute_statement` (src/interpreter.rs:31-59).  A statement only
   * appends to the output and never forgets a name; a declaration always
   * binds its name, and an assignment never adds one.
   */
  function Exec(st: State, s: Statement, nm: NumberModel): (r: State)
    requires Executable(s)
    ensures st.output <= r.output && st.variables.Keys <= r.variables.Keys
    ensures s.VarDecl? ==> s.name in r.variables
    ensures s.Assignment? ==> r.variables.Keys == st.variables.Keys
    decreases s
  {
    match s
    case VarDecl(_, _, name, value) =>
      var v := Eval(st.variables, value, nm);
      State(st.variables[name := v.value], st.output + v.printed)
    case Assignment(name, value) =>
      var v := Eval(st.variables, value, nm);
      if name in st.variables then State(st.variables[name := v.value], st.output + v.printed)
      else State(st.variables, st.output + v.printed + [UndeclaredError(name)])
    case IfStatement(condition, thenBranch, elseBranch) =>
      var v := Eval(st.variables, condition, nm);
      var st' := State(st.variables, st.output + v.printed);
      if v.value == "true" then ExecAll(st', thenBranch, nm)
      else (match elseBranch
            case NoElse => st'
            case ElseBlock(statements) => ExecAll(st', statements, nm))
    case ExpressionStatement(expr) =>
      State(st.variables, st.output + Eval(st.variables, expr, nm).printed)
    case _ => st
  }

  /**
   * The statements of `ss`, executed in order: the output only grows, and
   * every name declared among them is bound at the end.
   */
  function ExecAll(st: State, ss: seq<Statement>, nm: NumberModel): (r: State)
    requires AllExecutable(ss)
    ensures st.output <= r.output && st.variables.Keys <= r.variables.Keys
    ensures forall k | 0 <= k < |ss| && ss[k].VarDecl? :: ss[k].name in r.variables
    decreases ss
  {
    if ss == [] then st
    else Exec(ExecAll(st, ss[..|ss| - 1], nm), ss[|ss| - 1], nm)
  }

  // ---------------------------------------------------------------------
  // Running a program
  // ---------------------------------------------------------------------

  /**
   * `is_main_function` (src/interpreter.rs:107-112): a function declaration
   * named `main`, whatever its parameters and body.  A main function is
   * never a global declaration.
   */
  predicate IsMainFunction(s: Statement): (r: bool)
    ensures r <==> s.FunctionDecl? && s.name == "main"
    ensures r ==> !s.VarDecl?
  {
    s.FunctionDecl? && s.name == "main"
  }

  /** The top-level declarations of `ss`, in order. */
  function Globals(ss: seq<Statement>): (r: seq<Statement>)
    ensures forall k :: 0 <= k < |r| ==> r[k].VarDecl? && r[k] in ss
    ensures AllExecutable(ss) ==> AllExecutable(r)
  {
    if ss == [] then []
    else
      var last := ss[|ss| - 1];
      var front := ss[..|ss| - 1];
      assert forall s :: s in front ==> s in ss;
      Globals(front) + (if last.VarDecl? then [last] else [])
  }

  /**
   * The position of the first `main` function among `ss`, if there is one
   * (`iter().find(is_main_function)`).
   */
  function FirstMain(ss: seq<Statement>): (r: Option<nat>)
    ensures r.None? <==> forall k :: 0 <= k < |ss| ==> !IsMainFunction(ss[k])
    ensures r.Some? ==> r.value < |ss| && IsMainFunction(ss[r.value])
    ensures r.Some? ==> forall j :: 0 <= j < r.value ==> !IsMainFunction(ss[j])
  {
    if ss == [] then None
    else if IsMainFunction(ss[0]) then Some(0)
    else
      match FirstMain(ss[1..])
      case None => None
      case Some(k) => Some(k + 1)
  }

  /**
   * `run` (src/interpreter.rs:15-29).  A run only appends to the output and
   * keeps every name already bound; without a `main` its last line is the
   * error.
   */
  function RunSpec(st: State, program: Program, nm: NumberModel): (r: State)
    requires AllExecutable(program.statements)
    ensures st.output <= r.output && st.variables.Keys <= r.variables.Keys
    ensures FirstMain(program.statements).None? ==> |r.output| > 0 && r.output[|r.output| - 1] == NoMainError
  {
    var ss := program.statements;
    var declared := ExecAll(st, Globals(ss), nm);
    match FirstMain(ss)
    case Some(k) =>
      assert Executable(ss[k]);
      ExecAll(declared, ss[k].body, nm)
    case None => State(declared.variables, declared.output + [NoMainError])
  }

  /** One more statement of the top-level loop: a declaration runs, anything else is passed over. */
  lemma GlobalsStep(st: State, ss: seq<Statement>, i: nat, nm: NumberModel)
    requires i < |ss| && AllExecutable(ss)
    ensures AllExecutable(Globals(ss[..i])) && Executable(ss[i])
    ensures var before := ExecAll(st, Globals(ss[..i]), nm);
      ExecAll(st, Globals(ss[..i + 1]), nm) == if ss[i].VarDecl? then Exec(before, ss[i], nm) else before
  {
    assert forall s :: s in ss[..i] ==> s in ss;
    assert ss[..i + 1][..i] == ss[..i];
    var globals := Globals(ss[..i]);
    if ss[i].VarDecl? {
      assert (globals + [ss[i]])[..|globals|] == globals;
    } else {
      assert globals + [] == globals;
    }
  }

  // ---------------------------------------------------------------------
  // The interpreter object
  // ---------------------------------------------------------------------

  /** `Interpreter` (src/interpreter.rs:4-6), with the console it prints to. */
  class Interpreter {
    var variables: map<string, string>
    var output: seq<string>

    function Snapshot(): State
      reads this
    {
      State(variables, output)
    }

    constructor ()
      ensures variables == map[] && output == []
    {
      variables := map[];
      output := [];
    }

    method ExecuteStatement(s: Statement, nm: NumberModel)
      requires Executable(s)
      modifies this
      ensures Snapshot() == Exec(old(Snapshot()), s, nm)
      decreases s
    {
      match s
      case VarDecl(_, _, name, value) =>
        var v := Eval(variables, value, nm);
        output := output + v.printed;
        variables := variables[name := v.value];
      case Assignment(name, value) =>
        var v := Eval(variables, value, nm);
        output := output + v.printed;
        if name in variables {
          variables := variables[name := v.value];
        } else {
          output := output + [UndeclaredError(name)];
        }
      case IfStatement(condition, thenBranch, elseBranch) =>
        var v := Eval(variables, condition, nm);
        output := output + v.printed;
        if v.value == "true" {
          ExecuteBlock(thenBranch, nm);
        } else if elseBranch.ElseBlock? {
          ExecuteBlock(elseBranch.statements, nm);
        }
      case ExpressionStatement(expr) =>
        var v := Eval(variables, expr, nm);
        output := output + v.printed;
      case _ =>
    }

    /** Executes the statements of a block, one after the other. */
    method ExecuteBlock(ss: seq<Statement>, nm: NumberModel)
      requires AllExecutable(ss)
      modifies this
      ensures Snapshot() == ExecAll(old(Snapshot()), ss, nm)
      decreases ss
    {
      var i := 0;
      while i < |ss|
        invariant 0 <= i <= |ss|
        invariant Snapshot() == ExecAll(old(Snapshot()), ss[..i], nm)
      {
        assert ss[..i + 1][..i] == ss[..i];
        ExecuteStatement(ss[i], nm);
        i := i + 1;
      }
      assert ss[..|ss|] == ss;
    }

    method Run(program: Program, nm: NumberModel)
      requires AllExecutable(program.statements)
      modifies this
      ensures Snapshot() == RunSpec(old(Snapshot()), program, nm)
    {
      var ss := program.statements;
      var i := 0;
      while i < |ss|
        invariant 0 <= i <= |ss|
        invariant Snapshot() == ExecAll(old(Snapshot()), Globals(ss[..i]), nm)
      {
        GlobalsStep(old(Snapshot()), ss, i, nm);
        if ss[i].VarDecl? {
          ExecuteStatement(ss[i], nm);
        }
        i := i + 1;
      }
      assert ss[..|ss|] == ss;
      match FirstMain(ss)
      case Some(k) =>
        assert Executable(ss[k]);
        ExecuteBlock(ss[k].body, nm);
      case None =>
        output := output + [NoMainError];
    }
  }
}
