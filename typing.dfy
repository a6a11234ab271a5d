/**
 * The typing rules of the SPL type checker as functions of the scope stack
 * it runs against. Each function gives the verdict of one check together
 * with the diagnostics that check appends to the error log, in order; the
 * imperative TypeChecker class is proved to compute exactly these.
 */
module Typing {
  import opened Wrappers
  import opened Ast
  import opened SymbolTables

  /** One message of the error log. */
  datatype Diag =
    | VariableAlreadyDeclared(name: string)
    | ParameterAlreadyDeclared(name: string)
    | ProcedureAlreadyDeclared(name: string)
    | FunctionAlreadyDeclared(name: string)
    | ProcedureNotDeclared(name: string)
    | FunctionNotDeclared(name: string)
    | VariableNotDeclared(name: string)
    | VariableNotNumeric(name: string)
    | AssignRhsNotNumeric
    | InputNotNumeric
    | InvalidAtom
    | InvalidTerm
    | NegOperandNotNumeric
    | NotOperandNotBoolean
    | UnknownUnaryOperator(op: string)
    | ComparisonOperandsNotNumeric
    | BooleanOperandsNotBoolean
    | NumericOperandsNotNumeric
    | UnknownBinaryOperator(op: string)
    | IfConditionNotBoolean
    | WhileConditionNotBoolean
    | DoUntilConditionNotBoolean
    | ReturnNotNumeric

  /** The type an expression check yields and the messages it logs. */
  datatype Typed = Typed(t: Type, diags: seq<Diag>)

  /** The verdict of a check that only reads the scope stack. */
  datatype Checked = Checked(ok: bool, diags: seq<Diag>)

  /** The verdict of a check that declares names, with the stack it leaves. */
  datatype Scoped = Scoped(ok: bool, scopes: seq<Frame>, diags: seq<Diag>)

  // ------------------------------------------------------------------
  // Operator typing
  // ------------------------------------------------------------------

  predicate IsComparisonOp(op: string) { op == ">" || op == "eq" }

  predicate IsBooleanOp(op: string) { op == "or" || op == "and" }

  predicate IsNumericOp(op: string) { op == "plus" || op == "minus" || op == "mult" || op == "div" }

  /** The result type of a binary operator; UNKNOWN when the rule is violated. */
  function BinaryOpType(op: string, l: Type, r: Type): (t: Type)
    ensures t != Unknown ==> l == r && (t == Numeric <==> IsNumericOp(op))
    ensures !(IsComparisonOp(op) || IsBooleanOp(op) || IsNumericOp(op)) ==> t == Unknown
  {
    if IsComparisonOp(op) then (if l == Numeric && r == Numeric then Boolean else Unknown)
    else if IsBooleanOp(op) then (if l == Boolean && r == Boolean then Boolean else Unknown)
    else if IsNumericOp(op) then (if l == Numeric && r == Numeric then Numeric else Unknown)
    else Unknown
  }

  /** The message logged when BinaryOpType yields UNKNOWN: the operator itself
      is named exactly when it is none of the known ones. */
  function BinaryOpDiag(op: string): (d: Diag)
    ensures d == UnknownBinaryOperator(op) <==> !(IsComparisonOp(op) || IsBooleanOp(op) || IsNumericOp(op))
    ensures d == ComparisonOperandsNotNumeric <==> IsComparisonOp(op)
  {
    if IsComparisonOp(op) then ComparisonOperandsNotNumeric
    else if IsBooleanOp(op) then BooleanOperandsNotBoolean
    else if IsNumericOp(op) then NumericOperandsNotNumeric
    else UnknownBinaryOperator(op)
  }

  /** The result type of a unary operator; UNKNOWN when the rule is violated. */
  function UnaryOpType(op: string, t: Type): (r: Type)
    ensures r != Unknown ==> r == t
    ensures op != "neg" && op != "not" ==> r == Unknown
  {
    if op == "neg" then (if t == Numeric then Numeric else Unknown)
    else if op == "not" then (if t == Boolean then Boolean else Unknown)
    else Unknown
  }

  /** The message logged when UnaryOpType yields UNKNOWN: the operator itself
      is named exactly when it is neither `neg` nor `not`. */
  function UnaryOpDiag(op: string): (d: Diag)
    ensures d == UnknownUnaryOperator(op) <==> op != "neg" && op != "not"
  {
    if op == "neg" then NegOperandNotNumeric
    else if op == "not" then NotOperandNotBoolean
    else UnknownUnaryOperator(op)
  }

  /** `>` and `eq` compare numbers, `and` and `or` combine booleans, the four
      arithmetic operators combine numbers; nothing else is typed. */
  lemma BinaryOpTyping(op: string, l: Type, r: Type)
    ensures BinaryOpType(op, l, r) == Boolean <==>
      (IsComparisonOp(op) && l == Numeric && r == Numeric) || (IsBooleanOp(op) && l == Boolean && r == Boolean)
    ensures BinaryOpType(op, l, r) == Numeric <==> IsNumericOp(op) && l == Numeric && r == Numeric
    ensures BinaryOpType(op, l, r) in {Boolean, Numeric, Unknown}
    ensures l == Unknown || r == Unknown ==> BinaryOpType(op, l, r) == Unknown
  {
  }

  /** `neg` maps numbers to numbers, `not` booleans to booleans. */
  lemma UnaryOpTyping(op: string, t: Type)
    ensures UnaryOpType(op, t) == Numeric <==> op == "neg" && t == Numeric
    ensures UnaryOpType(op, t) == Boolean <==> op == "not" && t == Boolean
    ensures UnaryOpType(op, t) in {Boolean, Numeric, Unknown}
  {
  }

  // ------------------------------------------------------------------
  // Expressions
  // ------------------------------------------------------------------

  /** checkAtom: a declared variable has its declared type, a number literal is
      NUMERIC, and nothing else is an atom. */
  function AtomCheck(sc: seq<Frame>, e: Expr): (r: Typed)
    ensures r.diags != [] ==> r.t == Unknown
    ensures r.t == Numeric ==> e.Number? || (e.Var? && Declared(sc, e.name))
  {
    match e
    case Var(n) =>
      if !Declared(sc, n) then Typed(Unknown, [VariableNotDeclared(n)])
      else Typed(TypeOf(sc, n), [])
    case Number(_) => Typed(Numeric, [])
    case _ => Typed(Unknown, [InvalidAtom])
  }

  /** checkTerm: atoms, unary and binary operations; a string or a call is not a term. */
  function TermCheck(sc: seq<Frame>, e: Expr): (r: Typed)
    ensures r.diags != [] ==> r.t == Unknown
    ensures !(e.Var? || e.Number? || e.Unary? || e.Binary?) ==> r == Typed(Unknown, [InvalidTerm])
    decreases e, 1
  {
    match e
    case Var(_) => AtomCheck(sc, e)
    case Number(_) => AtomCheck(sc, e)
    case Unary(_, _) => UnaryCheck(sc, e)
    case Binary(_, _, _) => BinaryCheck(sc, e)
    case _ => Typed(Unknown, [InvalidTerm])
  }

  /** checkUnaryOp: the operand is checked first; the result is UnaryOpType's,
      and an UNKNOWN result appends the operator's message after the operand's. */
  function UnaryCheck(sc: seq<Frame>, e: Expr): (r: Typed)
    requires e.Unary?
    ensures r.diags != [] ==> r.t == Unknown
    ensures r.t == UnaryOpType(e.op, TermCheck(sc, e.operand).t)
    ensures r.t == Unknown ==> r.diags == TermCheck(sc, e.operand).diags + [UnaryOpDiag(e.op)]
    decreases e, 0
  {
    var x := TermCheck(sc, e.operand);
    var t := UnaryOpType(e.op, x.t);
    Typed(t, x.diags + if t == Unknown then [UnaryOpDiag(e.op)] else [])
  }

  /** checkBinaryOp: both operands are checked, left first, before the
      operator rule applies; the result is BinaryOpType's, and an UNKNOWN
      result appends the operator's message after the operands'. */
  function BinaryCheck(sc: seq<Frame>, e: Expr): (r: Typed)
    requires e.Binary?
    ensures r.diags != [] ==> r.t == Unknown
    ensures r.t == BinaryOpType(e.op, TermCheck(sc, e.left).t, TermCheck(sc, e.right).t)
    ensures r.t == Unknown ==>
      r.diags == TermCheck(sc, e.left).diags + TermCheck(sc, e.right).diags + [BinaryOpDiag(e.op)]
    decreases e, 0
  {
    var l := TermCheck(sc, e.left);
    var r := TermCheck(sc, e.right);
    var t := BinaryOpType(e.op, l.t, r.t);
    Typed(t, l.diags + r.diags + if t == Unknown then [BinaryOpDiag(e.op)] else [])
  }

  /** checkInput: every argument must be a NUMERIC atom; stops at the first that is not. */
  function InputCheck(sc: seq<Frame>, args: seq<Expr>): (r: Checked)
    ensures r.ok ==> r.diags == []
    ensures r.ok <==> forall i :: 0 <= i < |args| ==> AtomCheck(sc, args[i]).t == Numeric
  {
    if args == [] then Checked(true, [])
    else
      var a := AtomCheck(sc, args[0]);
      if a.t != Numeric then Checked(false, a.diags + [InputNotNumeric])
      else
        var rest := InputCheck(sc, args[1..]);
        assert forall i :: 1 <= i < |args| ==> args[1..][i - 1] == args[i];
        Checked(rest.ok, a.diags + rest.diags)
  }

  /** checkFuncCall: the name must be declared (as anything) and the arguments NUMERIC atoms. */
  function CallCheck(sc: seq<Frame>, name: string, args: seq<Expr>): (r: Typed)
    ensures r.diags != [] ==> r.t == Unknown
    ensures r.t == Numeric <==> Declared(sc, name) && InputCheck(sc, args).ok
  {
    if !Declared(sc, name) then Typed(Unknown, [FunctionNotDeclared(name)])
    else
      var i := InputCheck(sc, args);
      if !i.ok then Typed(Unknown, i.diags) else Typed(Numeric, i.diags)
  }

  /** checkExpression, the right-hand side of an assignment. A bare variable
      (through checkVar) and a string are NUMERIC without any lookup. */
  function ExprCheck(sc: seq<Frame>, e: Expr): (r: Typed)
    ensures r.diags != [] ==> r.t == Unknown
    ensures e.Var? || e.Number? || e.Str? ==> r == Typed(Numeric, [])
    decreases e, 1
  {
    match e
    case Var(_) => Typed(Numeric, [])
    case Number(_) => Typed(Numeric, [])
    case Str(_) => Typed(Numeric, [])
    case Unary(_, _) => UnaryCheck(sc, e)
    case Binary(_, _, _) => BinaryCheck(sc, e)
    case FuncCall(n, args) => CallCheck(sc, n, args)
  }

  // ------------------------------------------------------------------
  // Statements
  // ------------------------------------------------------------------

  /** checkOutput: a string is always printable, anything else must be a NUMERIC atom. */
  function OutputCheck(sc: seq<Frame>, e: Expr): (r: Checked)
    ensures r.ok ==> r.diags == []
    ensures r.ok <==> e.Str? || AtomCheck(sc, e).t == Numeric
  {
    if e.Str? then Checked(true, [])
    else
      var a := AtomCheck(sc, e);
      Checked(a.t == Numeric, a.diags)
  }

  /** checkStatement; a statement that logs a message is rejected. */
  function StmtCheck(sc: seq<Frame>, s: Stmt): (r: Checked)
    ensures r.ok ==> r.diags == []
    decreases s, 1
  {
    match s
    case Halt => Checked(true, [])
    case Print(e) => OutputCheck(sc, e)
    case ProcCall(_, _) => ProcCallCheck(sc, s)
    case Assign(_, _) => AssignCheck(sc, s)
    case If(_, _) => IfCheck(sc, s)
    case IfElse(_, _, _) => IfElseCheck(sc, s)
    case While(_, _) => WhileCheck(sc, s)
    case DoUntil(_, _) => DoUntilCheck(sc, s)
    case Return(e) => ReturnCheck(sc, e)
  }

  /** checkProcCall: the name must be declared (as anything), then checkInput. */
  function ProcCallCheck(sc: seq<Frame>, s: Stmt): (r: Checked)
    requires s.ProcCall?
    ensures r.ok ==> r.diags == []
  {
    if !Declared(sc, s.name) then Checked(false, [ProcedureNotDeclared(s.name)])
    else InputCheck(sc, s.args)
  }

  /** checkAssign: the target, then the right-hand side through checkExpression. */
  function AssignCheck(sc: seq<Frame>, s: Stmt): (r: Checked)
    requires s.Assign?
    ensures r.ok ==> r.diags == []
  {
    if !Declared(sc, s.target) then Checked(false, [VariableNotDeclared(s.target)])
    else if TypeOf(sc, s.target) != Numeric then Checked(false, [VariableNotNumeric(s.target)])
    else
      var r := ExprCheck(sc, s.expr);
      if r.t != Numeric then Checked(false, r.diags + [AssignRhsNotNumeric])
      else Checked(true, r.diags)
  }

  /** checkIf: a BOOLEAN condition, then the branch. */
  function IfCheck(sc: seq<Frame>, s: Stmt): (r: Checked)
    requires s.If?
    ensures r.ok ==> r.diags == []
    decreases s, 0
  {
    var ct := TermCheck(sc, s.cond);
    if ct.t != Boolean then Checked(false, ct.diags + [IfConditionNotBoolean])
    else
      var b := StmtListCheck(sc, s.thenBranch);
      Checked(b.ok, ct.diags + b.diags)
  }

  /** checkIfElse: a BOOLEAN condition, then both branches whatever the first gives. */
  function IfElseCheck(sc: seq<Frame>, s: Stmt): (r: Checked)
    requires s.IfElse?
    ensures r.ok ==> r.diags == []
    decreases s, 0
  {
    var ct := TermCheck(sc, s.cond);
    if ct.t != Boolean then Checked(false, ct.diags + [IfConditionNotBoolean])
    else
      var b1 := StmtListCheck(sc, s.thenBranch);
      var b2 := StmtListCheck(sc, s.elseBranch);
      Checked(b1.ok && b2.ok, ct.diags + b1.diags + b2.diags)
  }

  /** checkWhile: a BOOLEAN condition, then the body. */
  function WhileCheck(sc: seq<Frame>, s: Stmt): (r: Checked)
    requires s.While?
    ensures r.ok ==> r.diags == []
    decreases s, 0
  {
    var ct := TermCheck(sc, s.cond);
    if ct.t != Boolean then Checked(false, ct.diags + [WhileConditionNotBoolean])
    else
      var b := StmtListCheck(sc, s.body);
      Checked(b.ok, ct.diags + b.diags)
  }

  /** checkDoUntil: the condition is checked before the body. */
  function DoUntilCheck(sc: seq<Frame>, s: Stmt): (r: Checked)
    requires s.DoUntil?
    ensures r.ok ==> r.diags == []
    decreases s, 0
  {
    var ct := TermCheck(sc, s.cond);
    if ct.t != Boolean then Checked(false, ct.diags + [DoUntilConditionNotBoolean])
    else
      var b := StmtListCheck(sc, s.body);
      Checked(b.ok, ct.diags + b.diags)
  }

  /** checkReturn: the returned atom must be NUMERIC. */
  function ReturnCheck(sc: seq<Frame>, e: Expr): (r: Checked)
    ensures r.ok ==> r.diags == []
  {
    var a := AtomCheck(sc, e);
    if a.t != Numeric then Checked(false, a.diags + [ReturnNotNumeric])
    else Checked(true, a.diags)
  }

  /** checkStatementList: fails at the first rejected statement, leaving the rest unchecked. */
  function StmtListCheck(sc: seq<Frame>, ss: seq<Stmt>): (r: Checked)
    ensures r.ok ==> r.diags == []
    decreases ss
  {
    if ss == [] then Checked(true, [])
    else
      var h := StmtCheck(sc, ss[0]);
      if !h.ok then h else StmtListCheck(sc, ss[1..])
  }

  // ------------------------------------------------------------------
  // Declarations and scopes
  // ------------------------------------------------------------------

  function VarDiag(name: string, asParams: bool): Diag {
    if asParams then ParameterAlreadyDeclared(name) else VariableAlreadyDeclared(name)
  }

  function RoutineDiag(name: string, procs: bool): Diag {
    if procs then ProcedureAlreadyDeclared(name) else FunctionAlreadyDeclared(name)
  }

  /** checkVarList (asParams false) and checkParams (asParams true): declare each
      name NUMERIC in the innermost frame, stopping at the first refused one. */
  function DeclareVars(sc: seq<Frame>, names: seq<string>, asParams: bool): (r: Scoped)
    ensures |r.scopes| == |sc| && Outer(r.scopes) == Outer(sc)
    ensures r.ok ==> r.diags == []
    ensures !r.ok ==> |r.diags| == 1
    decreases names
  {
    if names == [] then Scoped(true, sc, [])
    else match Bind(sc, names[0], Numeric)
      case None => Scoped(false, sc, [VarDiag(names[0], asParams)])
      case Some(next) => DeclareVars(next, names[1..], asParams)
  }

  /** checkBody and checkMainProg: a fresh frame for the locals, then the statements;
      the frame is popped on every path, so the stack comes back unchanged. */
  function BlockCheck(sc: seq<Frame>, locals: seq<string>, stmts: seq<Stmt>): (r: Scoped)
    ensures r.scopes == sc
    ensures r.ok ==> r.diags == []
  {
    var v := DeclareVars(sc + [map[]], locals, false);
    assert Outer(sc + [map[]]) == sc;
    if !v.ok then Scoped(false, Outer(v.scopes), v.diags)
    else
      var s := StmtListCheck(v.scopes, stmts);
      Scoped(s.ok, Outer(v.scopes), v.diags + s.diags)
  }

  /** checkProcDef and checkFuncDef: a frame for the parameters around the body's
      own frame. No `return` is required of a function. */
  function RoutineCheck(sc: seq<Frame>, params: seq<string>, body: Body): (r: Scoped)
    ensures r.scopes == sc
    ensures r.ok ==> r.diags == []
  {
    var p := DeclareVars(sc + [map[]], params, true);
    assert Outer(sc + [map[]]) == sc;
    if !p.ok then Scoped(false, Outer(p.scopes), p.diags)
    else
      var b := BlockCheck(p.scopes, body.locals, body.statements);
      Scoped(b.ok, Outer(b.scopes), p.diags + b.diags)
  }

  /** The first pass of checkProgram over one kind of routine: each name must be
      undeclared in every frame, and is then declared TYPELESS. */
  function DeclareRoutines(sc: seq<Frame>, names: seq<string>, procs: bool): (r: Scoped)
    ensures |r.scopes| == |sc| && Outer(r.scopes) == Outer(sc)
    ensures r.ok ==> r.diags == []
    ensures !r.ok ==> |r.diags| == 1
    decreases names
  {
    if names == [] then Scoped(true, sc, [])
    else if Declared(sc, names[0]) then
      Scoped(false, sc, [RoutineDiag(names[0], procs)])
    else DeclareRoutines(Bind(sc, names[0], Typeless).GetOr(sc), names[1..], procs)
  }

  function ProcNames(ps: seq<ProcDef>): (r: seq<string>)
    ensures |r| == |ps| && forall i :: 0 <= i < |ps| ==> r[i] == ps[i].name
  {
    if ps == [] then [] else [ps[0].name] + ProcNames(ps[1..])
  }

  function FuncNames(fs: seq<FuncDef>): (r: seq<string>)
    ensures |r| == |fs| && forall i :: 0 <= i < |fs| ==> r[i] == fs[i].name
  {
    if fs == [] then [] else [fs[0].name] + FuncNames(fs[1..])
  }

  /** The second pass over the procedures from index `from` on, stopping at
      the first rejected one. */
  function ProcDefsCheck(sc: seq<Frame>, ps: seq<ProcDef>, from: nat): (r: Checked)
    requires from <= |ps|
    ensures r.ok ==> r.diags == []
    decreases |ps| - from
  {
    if from == |ps| then Checked(true, [])
    else
      var h := RoutineCheck(sc, ps[from].params, ps[from].body);
      if !h.ok then Checked(false, h.diags) else ProcDefsCheck(sc, ps, from + 1)
  }

  /** The second pass over the functions from index `from` on, stopping at
      the first rejected one. */
  function FuncDefsCheck(sc: seq<Frame>, fs: seq<FuncDef>, from: nat): (r: Checked)
    requires from <= |fs|
    ensures r.ok ==> r.diags == []
    decreases |fs| - from
  {
    if from == |fs| then Checked(true, [])
    else
      var h := RoutineCheck(sc, fs[from].params, fs[from].body);
      if !h.ok then Checked(false, h.diags) else FuncDefsCheck(sc, fs, from + 1)
  }

  /** The first pass of checkProgram: every procedure name, then every
      function name, must be undeclared, and is declared TYPELESS. */
  function RoutineNamesCheck(sc: seq<Frame>, p: Program): (r: Scoped)
    ensures |r.scopes| == |sc|
    ensures r.ok ==> r.diags == []
  {
    var rp := DeclareRoutines(sc, ProcNames(p.procs), true);
    if !rp.ok then rp else DeclareRoutines(rp.scopes, FuncNames(p.funcs), false)
  }

  /** The second pass of checkProgram: the procedure bodies, the function
      bodies, then the main program, stopping at the first rejected one. */
  function DefinitionsCheck(sc: seq<Frame>, p: Program): (r: Checked)
    ensures r.ok ==> r.diags == []
  {
    var pd := ProcDefsCheck(sc, p.procs, 0);
    if !pd.ok then pd
    else
      var fd := FuncDefsCheck(sc, p.funcs, 0);
      if !fd.ok then fd
      else
        var m := BlockCheck(sc, p.main.locals, p.main.statements);
        Checked(m.ok, m.diags)
  }

  /** checkProgram: globals into the innermost frame, then the two passes over
      the routines. A stage that succeeds logs nothing, so the log is that of
      the stage that fails; the bodies leave the stack as they found it. */
  function ProgramCheck(sc: seq<Frame>, p: Program): (r: Scoped)
    ensures |r.scopes| == |sc|
    ensures r.ok ==> r.diags == []
  {
    var g := DeclareVars(sc, p.globals, false);
    if !g.ok then g
    else
      var n := RoutineNamesCheck(g.scopes, p);
      if !n.ok then n
      else
        var d := DefinitionsCheck(n.scopes, p);
        Scoped(d.ok, n.scopes, d.diags)
  }

  /** typeCheck: the log is cleared, and the program is correctly typed when
      checkProgram succeeds and no message was logged. */
  function TypeCheckResult(sc: seq<Frame>, p: Program): (r: bool)
    ensures r <==> ProgramCheck(sc, p).ok
  {
    var r := ProgramCheck(sc, p);
    r.ok && r.diags == []
  }
}
