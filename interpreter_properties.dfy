/**
 * What the evaluator of src/interpreter.rs promises: the order in which a
 * program runs, the single flat store, the string semantics of the
 * operators, and that output is only ever appended.
 */
module InterpreterProperties {
  import opened Wrappers
  import opened Ast
  import opened Interpreting
  import Values

  // ---------------------------------------------------------------------
  // Sequences of statements
  // ---------------------------------------------------------------------

  /** Running `a` then `b` is running `a + b`. */
  lemma {:induction false} ExecAllAppend(st: State, a: seq<Statement>, b: seq<Statement>, nm: NumberModel)
    requires AllExecutable(a) && AllExecutable(b)
    ensures AllExecutable(a + b)
    ensures ExecAll(st, a + b, nm) == ExecAll(ExecAll(st, a, nm), b, nm)
    decreases |b|
  {
    if b == [] {
      assert a + b == a;
    } else {
      var front := b[..|b| - 1];
      assert AllExecutable(front);
      ExecAllAppend(st, a, front, nm);
      assert (a + b)[..|a + b| - 1] == a + front;
    }
  }

  /** The declarations of `a + b` are those of `a` followed by those of `b`. */
  lemma {:induction false} GlobalsAppend(a: seq<Statement>, b: seq<Statement>)
    ensures Globals(a + b) == Globals(a) + Globals(b)
    decreases |b|
  {
    if b == [] {
      assert a + b == a;
    } else {
      GlobalsAppend(a, b[..|b| - 1]);
      assert (a + b)[..|a + b| - 1] == a + b[..|b| - 1];
    }
  }

  /** Every top-level declaration is among the globals, and nothing else is. */
  lemma {:induction false} GlobalsAreTheDeclarations(ss: seq<Statement>, s: Statement)
    ensures s in Globals(ss) <==> s in ss && s.VarDecl?
    decreases |ss|
  {
    if ss != [] {
      GlobalsAreTheDeclarations(ss[..|ss| - 1], s);
      assert ss == ss[..|ss| - 1] + [ss[|ss| - 1]];
    }
  }

  // ---------------------------------------------------------------------
  // run
  // ---------------------------------------------------------------------

  /**
   * With a `main`, a run is the execution of every top-level declaration,
   * in order, followed by the body of the first `main`, as one sequence.
   */
  lemma GlobalsBeforeMain(st: State, program: Program, k: nat, nm: NumberModel)
    requires AllExecutable(program.statements)
    requires k < |program.statements| && IsMainFunction(program.statements[k])
    requires forall j :: 0 <= j < k ==> !IsMainFunction(program.statements[j])
    ensures AllExecutable(Globals(program.statements) + program.statements[k].body)
    ensures RunSpec(st, program, nm) == ExecAll(st, Globals(program.statements) + program.statements[k].body, nm)
  {
    var ss := program.statements;
    assert Executable(ss[k]);
    assert FirstMain(ss) == Some(k);
    ExecAllAppend(st, Globals(ss), ss[k].body, nm);
  }

  /** Without a `main`, only the declarations run, and the error is printed last. */
  lemma NoMainRunsNoBody(st: State, program: Program, nm: NumberModel)
    requires AllExecutable(program.statements)
    requires forall k :: 0 <= k < |program.statements| ==> !IsMainFunction(program.statements[k])
    ensures var declared := ExecAll(st, Globals(program.statements), nm);
      RunSpec(st, program, nm) == State(declared.variables, declared.output + [NoMainError])
  {
  }

  /** The first `main` is the one `FirstMain` finds. */
  lemma FirstMainIsFirst(ss: seq<Statement>, k: nat)
    requires k < |ss| && IsMainFunction(ss[k])
    requires forall j :: 0 <= j < k ==> !IsMainFunction(ss[j])
    ensures FirstMain(ss) == Some(k)
  {
  }

  /** A run depends only on the globals and on the body of the first `main`. */
  lemma RunDependsOnGlobalsAndMain(st: State, p1: Program, p2: Program, nm: NumberModel)
    requires AllExecutable(p1.statements) && AllExecutable(p2.statements)
    requires Globals(p1.statements) == Globals(p2.statements)
    requires FirstMain(p1.statements) == FirstMain(p2.statements)
    requires FirstMain(p1.statements).Some? ==>
      var k := FirstMain(p1.statements).value; p1.statements[k].body == p2.statements[k].body
    ensures RunSpec(st, p1, nm) == RunSpec(st, p2, nm)
  {
  }

  /** Statements after the first `main` that are not declarations play no part in a run. */
  lemma LaterStatementsIgnored(st: State, ss: seq<Statement>, k: nat, nm: NumberModel)
    requires AllExecutable(ss)
    requires k < |ss| && IsMainFunction(ss[k])
    requires forall j :: 0 <= j < k ==> !IsMainFunction(ss[j])
    requires forall j :: k < j < |ss| ==> !ss[j].VarDecl?
    ensures AllExecutable(ss[..k + 1])
    ensures RunSpec(st, Program(ss), nm) == RunSpec(st, Program(ss[..k + 1]), nm)
  {
    PrefixThroughMain(ss, k);
    RunDependsOnGlobalsAndMain(st, Program(ss), Program(ss[..k + 1]), nm);
  }

  /** Cutting a program after its first `main`, when no declaration follows, keeps its globals and its `main`. */
  lemma PrefixThroughMain(ss: seq<Statement>, k: nat)
    requires AllExecutable(ss)
    requires k < |ss| && IsMainFunction(ss[k])
    requires forall j :: 0 <= j < k ==> !IsMainFunction(ss[j])
    requires forall j :: k < j < |ss| ==> !ss[j].VarDecl?
    ensures AllExecutable(ss[..k + 1])
    ensures Globals(ss) == Globals(ss[..k + 1])
    ensures FirstMain(ss) == FirstMain(ss[..k + 1]) == Some(k)
    ensures ss[..k + 1][k] == ss[k]
  {
    PrefixKeepsGlobals(ss, k);
    FirstMainIsFirst(ss, k);
    FirstMainIsFirst(ss[..k + 1], k);
  }

  lemma PrefixKeepsGlobals(ss: seq<Statement>, k: nat)
    requires k < |ss|
    requires forall j :: k < j < |ss| ==> !ss[j].VarDecl?
    ensures Globals(ss) == Globals(ss[..k + 1])
  {
    var head, rest := ss[..k + 1], ss[k + 1..];
    assert ss == head + rest;
    GlobalsAppend(head, rest);
    NoGlobals(rest);
  }

  lemma NoGlobals(ss: seq<Statement>)
    requires forall j :: 0 <= j < |ss| ==> !ss[j].VarDecl?
    ensures Globals(ss) == []
  {
    if Globals(ss) != [] {
      GlobalsAreTheDeclarations(ss, Globals(ss)[0]);
    }
  }

  // ---------------------------------------------------------------------
  // execute_statement
  // ---------------------------------------------------------------------

  /**
   * A declaration binds the name in the one flat store, whether or not it
   * already had a value, whatever its `stract`/`lock`/`vault` flags; no
   * other name changes.
   */
  lemma DeclarationIgnoresFlags(st: State, m1: bool, s1: bool, m2: bool, s2: bool, name: string, value: Expression, nm: NumberModel)
    requires Evaluable(value)
    ensures Exec(st, VarDecl(m1, s1, name, value), nm) == Exec(st, VarDecl(m2, s2, name, value), nm)
    ensures var after := Exec(st, VarDecl(m1, s1, name, value), nm).variables;
      && name in after && after[name] == Eval(st.variables, value, nm).value
      && forall x :: x != name ==> (x in after <==> x in st.variables) && (x in after ==> after[x] == st.variables[x])
  {
  }

  /** Assigning to an undeclared name leaves the store alone and prints the error. */
  lemma AssignmentToUndeclaredName(st: State, name: string, value: Expression, nm: NumberModel)
    requires Evaluable(value) && name !in st.variables
    ensures var after := Exec(st, Assignment(name, value), nm);
      && after.variables == st.variables
      && after.output == st.output + Eval(st.variables, value, nm).printed + [UndeclaredError(name)]
  {
  }

  /** Assigning to a declared name replaces its value. */
  lemma AssignmentToDeclaredName(st: State, name: string, value: Expression, nm: NumberModel)
    requires Evaluable(value) && name in st.variables
    ensures var after := Exec(st, Assignment(name, value), nm);
      && after.variables == st.variables[name := Eval(st.variables, value, nm).value]
      && after.output == st.output + Eval(st.variables, value, nm).printed
  {
  }

  /** There is no mutability check: a `lock` or `vault` name can be reassigned like any other. */
  lemma LockedNamesAreReassigned(st: State, isSecure: bool, name: string, first: Expression, second: Expression, nm: NumberModel)
    requires Evaluable(first) && Evaluable(second)
    ensures var after := ExecAll(st, [VarDecl(false, isSecure, name, first), Assignment(name, second)], nm);
      var declared := Exec(st, VarDecl(false, isSecure, name, first), nm);
      name in after.variables && after.variables[name] == Eval(declared.variables, second, nm).value
  {
    var ss := [VarDecl(false, isSecure, name, first), Assignment(name, second)];
    assert ss[..1][..0] == [];
    assert ss[..1] == [ss[0]];
    var declared := Exec(st, ss[0], nm);
    assert ExecAll(st, ss[..1], nm) == declared;
    assert ExecAll(st, ss, nm) == Exec(declared, ss[1], nm);
    assert name in declared.variables;
  }

  /**
   * An `if` runs its then-branch exactly when the condition's text is
   * "true"; otherwise its else-branch, when it has one.
   */
  lemma IfChoosesBranch(st: State, condition: Expression, thenBranch: seq<Statement>, elseBranch: ElseBranch, nm: NumberModel)
    requires Executable(IfStatement(condition, thenBranch, elseBranch))
    ensures var v := Eval(st.variables, condition, nm);
      var st' := State(st.variables, st.output + v.printed);
      Exec(st, IfStatement(condition, thenBranch, elseBranch), nm) ==
        if v.value == "true" then ExecAll(st', thenBranch, nm)
        else if elseBranch.ElseBlock? then ExecAll(st', elseBranch.statements, nm)
        else st'
  {
  }

  /** Capabilities, function declarations, loops and `return` do nothing when executed. */
  lemma OtherStatementsDoNothing(st: State, s: Statement, nm: NumberModel)
    requires s.CapabilityUse? || s.FunctionDecl? || s.WhileStatement? || s.ForStatement? || s.ReturnStatement?
    requires Executable(s)
    ensures Exec(st, s, nm) == st
  {
  }

  /** A statement whose execution declares no name: no `VarDecl` in it or in the branches it may run. */
  predicate DeclarationFree(s: Statement)
    decreases s
  {
    match s
    case VarDecl(_, _, _, _) => false
    case IfStatement(_, thenBranch, elseBranch) =>
      && AllDeclarationFree(thenBranch)
      && (match elseBranch
          case NoElse => true
          case ElseBlock(statements) => AllDeclarationFree(statements))
    case _ => true
  }

  predicate AllDeclarationFree(ss: seq<Statement>)
    decreases ss
  {
    forall k | 0 <= k < |ss| :: DeclarationFree(ss[k])
  }

  /** A statement introduces a new name only through a declaration, nested ones included. */
  lemma {:induction false} ExecFrame(st: State, s: Statement, nm: NumberModel)
    requires Executable(s) && DeclarationFree(s)
    ensures Exec(st, s, nm).variables.Keys == st.variables.Keys
    decreases s
  {
    match s
    case IfStatement(condition, thenBranch, elseBranch) =>
      var v := Eval(st.variables, condition, nm);
      var st' := State(st.variables, st.output + v.printed);
      if v.value == "true" {
        ExecAllFrame(st', thenBranch, nm);
      } else if elseBranch.ElseBlock? {
        ExecAllFrame(st', elseBranch.statements, nm);
      }
    case _ =>
  }

  lemma {:induction false} ExecAllFrame(st: State, ss: seq<Statement>, nm: NumberModel)
    requires AllExecutable(ss) && AllDeclarationFree(ss)
    ensures ExecAll(st, ss, nm).variables.Keys == st.variables.Keys
    decreases ss
  {
    if ss != [] {
      var front := ss[..|ss| - 1];
      assert AllExecutable(front) && AllDeclarationFree(front);
      ExecAllFrame(st, front, nm);
      ExecFrame(ExecAll(st, front, nm), ss[|ss| - 1], nm);
    }
  }

  // ---------------------------------------------------------------------
  // eval_expression
  // ---------------------------------------------------------------------

  /** A name with no binding evaluates to "undefined". */
  lemma UnboundNameIsUndefined(vars: map<string, string>, name: string, nm: NumberModel)
    requires name !in vars
    ensures Eval(vars, Variable(name), nm) == Evaluated("undefined", [])
  {
  }

  /** When an operand is not a number, `+` concatenates the two texts. */
  lemma TextPlusConcatenates(l: string, r: string, nm: NumberModel)
    requires nm.parse(l).None? || nm.parse(r).None?
    ensures Combine(l, "+", r, nm) == l + r
  {
  }

  /** When an operand is not a number, `==` is "true" exactly when the texts are equal, and "false" otherwise. */
  lemma TextEquality(l: string, r: string, nm: NumberModel)
    requires nm.parse(l).None? || nm.parse(r).None?
    ensures Combine(l, "==", r, nm) == "true" <==> l == r
    ensures Combine(l, "==", r, nm) == "false" <==> l != r
  {
  }

  /** When an operand is not a number, every operator but `+` and `==` gives "NaN". */
  lemma TextOtherOperatorsAreNaN(l: string, op: string, r: string, nm: NumberModel)
    requires nm.parse(l).None? || nm.parse(r).None?
    requires op != "+" && op != "=="
    ensures Combine(l, op, r, nm) == "NaN"
  {
  }

  /** On two numbers, an operator the evaluator does not know gives "0". */
  lemma NumberUnknownOperatorIsZero(l: string, op: string, r: string, nm: NumberModel)
    requires nm.parse(l).Some? && nm.parse(r).Some?
    requires op !in {"+", "-", "*", "/", ">", "<", "=="}
    ensures Combine(l, op, r, nm) == "0"
  {
  }

  /** `>`, `<` and `==` on two numbers give "true" or "false", as the comparison says. */
  lemma NumberComparisonsAreBooleans(l: string, r: string, nm: NumberModel)
    requires nm.parse(l).Some? && nm.parse(r).Some?
    ensures var x, y := nm.parse(l).value, nm.parse(r).value;
      && (Combine(l, ">", r, nm) == "true" <==> nm.greater(x, y))
      && (Combine(l, "<", r, nm) == "true" <==> nm.less(x, y))
      && (Combine(l, "==", r, nm) == "true" <==> nm.equal(x, y))
      && Combine(l, ">", r, nm) in {"true", "false"}
      && Combine(l, "<", r, nm) in {"true", "false"}
      && Combine(l, "==", r, nm) in {"true", "false"}
  {
  }

  /**
   * A call evaluates to "" and prints nothing, unless it is `IO.print`,
   * whose last printed line is its arguments' values joined by spaces.
   */
  lemma CallsEvaluateToEmpty(vars: map<string, string>, target: string, args: seq<Expression>, nm: NumberModel)
    requires Evaluable(FunctionCall(target, args))
    ensures Eval(vars, FunctionCall(target, args), nm).value == ""
    ensures target != "IO.print" ==> Eval(vars, FunctionCall(target, args), nm).printed == []
    ensures target == "IO.print" ==>
      var printed := Eval(vars, FunctionCall(target, args), nm).printed;
      var values := EvalArgs(vars, args, nm).values;
      && |printed| > 0
      && printed[|printed| - 1] == Values.Join(values, " ")
      && |values| == |args|
      && forall k :: 0 <= k < |args| ==> values[k] == Eval(vars, args[k], nm).value
  {
  }

  /** `IO.print` of one plain string prints that string as one line. */
  lemma PrintOneString(vars: map<string, string>, text: string, nm: NumberModel)
    ensures Eval(vars, FunctionCall("IO.print", [LiteralStr(text)]), nm) == Evaluated("", [text])
  {
    var args := [LiteralStr(text)];
    assert args[1..] == [];
    assert EvalArgs(vars, args, nm) == EvaluatedArgs([text], []);
  }
}
