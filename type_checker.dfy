/**
 * The SPL type checker as the object the compiler drives: it owns a symbol
 * table and an error log, and each check walks one node, updating the table
 * and appending to the log as it goes. Every method is proved to agree with
 * the corresponding rule of module Typing on the table it starts from.
 */
module TypeCheckers {
  import opened Wrappers
  import opened Seqs
  import opened Ast
  import opened SymbolTables
  import opened Typing

  class TypeChecker {
    const table: SymbolTable
    var hasErrors: bool
    var errors: seq<Diag>

    /** hasErrors is set by every logged message and cleared with the log. */
    predicate Valid()
      reads this
    {
      hasErrors == (errors != [])
    }

    constructor ()
      ensures Valid() && errors == [] && fresh(table) && table.scopes == [map[]]
    {
      table := new SymbolTable();
      hasErrors := false;
      errors := [];
    }

    method AddError(d: Diag)
      requires Valid()
      modifies this
      ensures Valid() && errors == old(errors) + [d]
    {
      hasErrors := true;
      errors := errors + [d];
    }

    /** isCorrectlyTyped: no message has been logged. */
    function IsCorrectlyTyped(): (b: bool)
      requires Valid()
      reads this
      ensures b <==> errors == []
    {
      !hasErrors
    }

    /** typeCheck: clears the log (but not the symbol table) and checks the program. */
    method TypeCheck(p: Program) returns (ok: bool)
      requires Valid()
      modifies this, table
      ensures Valid()
      ensures ok == TypeCheckResult(old(table.scopes), p)
      ensures errors == ProgramCheck(old(table.scopes), p).diags
      ensures table.scopes == ProgramCheck(old(table.scopes), p).scopes
    {
      hasErrors := false;
      errors := [];
      ghost var r := ProgramCheck(table.scopes, p);
      var result := CheckProgram(p);
      assert errors == r.diags;
      ok := result && IsCorrectlyTyped();
    }

    /** checkProgram: globals, then every routine name, then the bodies, then main. */
    method CheckProgram(p: Program) returns (ok: bool)
      requires Valid()
      modifies this, table
      ensures Valid()
      ensures ok == ProgramCheck(old(table.scopes), p).ok
      ensures table.scopes == ProgramCheck(old(table.scopes), p).scopes
      ensures errors == old(errors) + ProgramCheck(old(table.scopes), p).diags
    {
      ok := CheckVarList(p.globals);
      if !ok {
        return;
      }
      assert errors == old(errors);
      ok := PredeclareRoutines(p);
      if !ok {
        return;
      }
      assert errors == old(errors);
      ok := CheckDefinitions(p);
    }

    /** The first pass of checkProgram: procedure names, then function names. */
    method PredeclareRoutines(p: Program) returns (ok: bool)
      requires Valid()
      modifies this, table
      ensures Valid()
      ensures ok == RoutineNamesCheck(old(table.scopes), p).ok
      ensures table.scopes == RoutineNamesCheck(old(table.scopes), p).scopes
      ensures errors == old(errors) + RoutineNamesCheck(old(table.scopes), p).diags
    {
      ok := Predeclare(ProcNames(p.procs), true);
      if !ok {
        return;
      }
      assert errors == old(errors);
      ok := Predeclare(FuncNames(p.funcs), false);
    }

    /** The second pass of checkProgram: procedure bodies, function bodies, main. */
    method CheckDefinitions(p: Program) returns (ok: bool)
      requires Valid()
      modifies this, table
      ensures Valid()
      ensures ok == DefinitionsCheck(old(table.scopes), p).ok
      ensures table.scopes == old(table.scopes)
      ensures errors == old(errors) + DefinitionsCheck(old(table.scopes), p).diags
    {
      ok := CheckProcDefs(p.procs);
      if !ok {
        return;
      }
      assert errors == old(errors);
      ok := CheckFuncDefs(p.funcs);
      if !ok {
        return;
      }
      assert errors == old(errors);
      ok := CheckMainProg(p.main);
    }

    /** The first pass of checkProgram over the procedure names (procs) or the
        function names: each must be undeclared everywhere, and is then declared
        TYPELESS. */
    method Predeclare(names: seq<string>, procs: bool) returns (ok: bool)
      requires Valid()
      modifies this, table
      ensures Valid()
      ensures ok == DeclareRoutines(old(table.scopes), names, procs).ok
      ensures table.scopes == DeclareRoutines(old(table.scopes), names, procs).scopes
      ensures errors == old(errors) + DeclareRoutines(old(table.scopes), names, procs).diags
    {
      ghost var r := DeclareRoutines(table.scopes, names, procs);
      ghost var e0 := errors;
      var i := 0;
      while i < |names|
        invariant 0 <= i <= |names| && Valid() && errors == e0
        invariant r == DeclareRoutines(table.scopes, names[i..], procs)
      {
        assert names[i..][0] == names[i] && names[i..][1..] == names[i + 1..];
        ghost var sc := table.scopes;
        var free := table.IsTypeLess(names[i]);
        if !free {
          assert r == Scoped(false, sc, [RoutineDiag(names[i], procs)]);
          AddError(RoutineDiag(names[i], procs));
          return false;
        }
        var _ := table.Declare(names[i], Typeless);
        assert table.scopes == Bind(sc, names[i], Typeless).GetOr(sc);
        i := i + 1;
      }
      return true;
    }

    /** The second pass over the procedures, stopping at the first rejected one. */
    method CheckProcDefs(ps: seq<ProcDef>) returns (ok: bool)
      requires Valid()
      modifies this, table
      ensures Valid()
      ensures ok == ProcDefsCheck(old(table.scopes), ps, 0).ok
      ensures table.scopes == old(table.scopes)
      ensures errors == old(errors) + ProcDefsCheck(old(table.scopes), ps, 0).diags
    {
      ghost var sc := table.scopes;
      ghost var e0 := errors;
      var i := 0;
      while i < |ps|
        invariant 0 <= i <= |ps| && Valid() && errors == e0 && table.scopes == sc
        invariant ProcDefsCheck(sc, ps, 0) == ProcDefsCheck(sc, ps, i)
      {
        ghost var h := RoutineCheck(sc, ps[i].params, ps[i].body);
        ok := CheckProcDef(ps[i]);
        assert ok == h.ok && table.scopes == sc && errors == e0 + h.diags;
        if !ok {
          assert ProcDefsCheck(sc, ps, i) == Checked(false, h.diags);
          return;
        }
        assert errors == e0;
        i := i + 1;
      }
      return true;
    }

    /** The second pass over the functions, stopping at the first rejected one. */
    method CheckFuncDefs(fs: seq<FuncDef>) returns (ok: bool)
      requires Valid()
      modifies this, table
      ensures Valid()
      ensures ok == FuncDefsCheck(old(table.scopes), fs, 0).ok
      ensures table.scopes == old(table.scopes)
      ensures errors == old(errors) + FuncDefsCheck(old(table.scopes), fs, 0).diags
    {
      ghost var sc := table.scopes;
      ghost var e0 := errors;
      var i := 0;
      while i < |fs|
        invariant 0 <= i <= |fs| && Valid() && errors == e0 && table.scopes == sc
        invariant FuncDefsCheck(sc, fs, 0) == FuncDefsCheck(sc, fs, i)
      {
        ghost var h := RoutineCheck(sc, fs[i].params, fs[i].body);
        ok := CheckFuncDef(fs[i]);
        assert ok == h.ok && table.scopes == sc && errors == e0 + h.diags;
        if !ok {
          assert FuncDefsCheck(sc, fs, i) == Checked(false, h.diags);
          return;
        }
        assert errors == e0;
        i := i + 1;
      }
      return true;
    }

    /** checkVarList: declares each variable NUMERIC in the innermost frame. */
    method CheckVarList(vars: seq<string>) returns (ok: bool)
      requires Valid()
      modifies this, table
      ensures Valid()
      ensures ok == DeclareVars(old(table.scopes), vars, false).ok
      ensures table.scopes == DeclareVars(old(table.scopes), vars, false).scopes
      ensures errors == old(errors) + DeclareVars(old(table.scopes), vars, false).diags
    {
      ok := DeclareEach(vars, false);
    }

    /** checkParams: declares each parameter NUMERIC in the innermost frame. */
    method CheckParams(params: seq<string>) returns (ok: bool)
      requires Valid()
      modifies this, table
      ensures Valid()
      ensures ok == DeclareVars(old(table.scopes), params, true).ok
      ensures table.scopes == DeclareVars(old(table.scopes), params, true).scopes
      ensures errors == old(errors) + DeclareVars(old(table.scopes), params, true).diags
    {
      ok := DeclareEach(params, true);
    }

    /** The loop shared by checkVarList and checkParams; checkVar answers
        NUMERIC for every variable, so only the declare can fail. */
    method DeclareEach(names: seq<string>, asParams: bool) returns (ok: bool)
      requires Valid()
      modifies this, table
      ensures Valid()
      ensures ok == DeclareVars(old(table.scopes), names, asParams).ok
      ensures table.scopes == DeclareVars(old(table.scopes), names, asParams).scopes
      ensures errors == old(errors) + DeclareVars(old(table.scopes), names, asParams).diags
    {
      ghost var r := DeclareVars(table.scopes, names, asParams);
      ghost var e0 := errors;
      var i := 0;
      while i < |names|
        invariant 0 <= i <= |names| && Valid() && errors == e0
        invariant r == DeclareVars(table.scopes, names[i..], asParams)
      {
        assert names[i..][0] == names[i] && names[i..][1..] == names[i + 1..];
        ghost var sc := table.scopes;
        var declared := table.Declare(names[i], Numeric);
        if !declared {
          assert r == Scoped(false, sc, [VarDiag(names[i], asParams)]);
          AddError(VarDiag(names[i], asParams));
          return false;
        }
        assert r == DeclareVars(table.scopes, names[i + 1..], asParams);
        i := i + 1;
      }
      return true;
    }

    /** checkProcDef: a parameter frame around the body, popped on every path. */
    method CheckProcDef(d: ProcDef) returns (ok: bool)
      requires Valid()
      modifies this, table
      ensures Valid()
      ensures ok == RoutineCheck(old(table.scopes), d.params, d.body).ok
      ensures table.scopes == RoutineCheck(old(table.scopes), d.params, d.body).scopes
      ensures errors == old(errors) + RoutineCheck(old(table.scopes), d.params, d.body).diags
    {
      ok := CheckRoutine(d.params, d.body);
    }

    /** checkFuncDef: as checkProcDef; no `return` is demanded of the body. */
    method CheckFuncDef(d: FuncDef) returns (ok: bool)
      requires Valid()
      modifies this, table
      ensures Valid()
      ensures ok == RoutineCheck(old(table.scopes), d.params, d.body).ok
      ensures table.scopes == RoutineCheck(old(table.scopes), d.params, d.body).scopes
      ensures errors == old(errors) + RoutineCheck(old(table.scopes), d.params, d.body).diags
    {
      ok := CheckRoutine(d.params, d.body);
    }

    method CheckRoutine(params: seq<string>, body: Body) returns (ok: bool)
      requires Valid()
      modifies this, table
      ensures Valid()
      ensures ok == RoutineCheck(old(table.scopes), params, body).ok
      ensures table.scopes == RoutineCheck(old(table.scopes), params, body).scopes
      ensures errors == old(errors) + RoutineCheck(old(table.scopes), params, body).diags
    {
      table.EnterScope();
      ok := CheckParams(params);
      if !ok {
        table.ExitScope();
        return;
      }
      ok := CheckBody(body);
      table.ExitScope();
    }

    /** checkBody: a frame for the locals, popped on every path. */
    method CheckBody(b: Body) returns (ok: bool)
      requires Valid()
      modifies this, table
      ensures Valid()
      ensures ok == BlockCheck(old(table.scopes), b.locals, b.statements).ok
      ensures table.scopes == BlockCheck(old(table.scopes), b.locals, b.statements).scopes
      ensures errors == old(errors) + BlockCheck(old(table.scopes), b.locals, b.statements).diags
    {
      ok := CheckBlock(b.locals, b.statements);
    }

    /** checkMainProg: the same discipline as checkBody. */
    method CheckMainProg(m: MainProg) returns (ok: bool)
      requires Valid()
      modifies this, table
      ensures Valid()
      ensures ok == BlockCheck(old(table.scopes), m.locals, m.statements).ok
      ensures table.scopes == BlockCheck(old(table.scopes), m.locals, m.statements).scopes
      ensures errors == old(errors) + BlockCheck(old(table.scopes), m.locals, m.statements).diags
    {
      ok := CheckBlock(m.locals, m.statements);
    }

    method CheckBlock(locals: seq<string>, stmts: seq<Stmt>) returns (ok: bool)
      requires Valid()
      modifies this, table
      ensures Valid()
      ensures ok == BlockCheck(old(table.scopes), locals, stmts).ok
      ensures table.scopes == BlockCheck(old(table.scopes), locals, stmts).scopes
      ensures errors == old(errors) + BlockCheck(old(table.scopes), locals, stmts).diags
    {
      table.EnterScope();
      ok := CheckVarList(locals);
      if !ok {
        table.ExitScope();
        return;
      }
      ok := CheckStatementList(stmts);
      table.ExitScope();
    }

    /** checkStatementList: stops at the first statement typed UNKNOWN. */
    method CheckStatementList(ss: seq<Stmt>) returns (ok: bool)
      requires Valid()
      modifies this
      ensures Valid()
      ensures ok == StmtListCheck(table.scopes, ss).ok
      ensures errors == old(errors) + StmtListCheck(table.scopes, ss).diags
      decreases ss, 2
    {
      ghost var r := StmtListCheck(table.scopes, ss);
      ghost var e0 := errors;
      var i := 0;
      while i < |ss|
        invariant 0 <= i <= |ss| && Valid() && errors == e0
        invariant r == StmtListCheck(table.scopes, ss[i..])
      {
        assert ss[i..][0] == ss[i] && ss[i..][1..] == ss[i + 1..];
        ghost var h := StmtCheck(table.scopes, ss[i]);
        var t := CheckStatement(ss[i]);
        if t == Unknown {
          assert r == h;
          return false;
        }
        assert errors == e0;
        i := i + 1;
      }
      return true;
    }

    /** checkStatement: NUMERIC for an accepted statement, UNKNOWN otherwise. */
    method CheckStatement(s: Stmt) returns (t: Type)
      requires Valid()
      modifies this
      ensures Valid()
      ensures t == (if StmtCheck(table.scopes, s).ok then Numeric else Unknown)
      ensures errors == old(errors) + StmtCheck(table.scopes, s).diags
      decreases s, 1
    {
      var ok: bool;
      match s {
        case Halt => ok := true;
        case Print(e) => ok := CheckOutput(e);
        case ProcCall(_, _) => ok := CheckProcCall(s);
        case Assign(_, _) => ok := CheckAssign(s);
        case If(_, _) => ok := CheckIf(s);
        case IfElse(_, _, _) => ok := CheckIfElse(s);
        case While(_, _) => ok := CheckWhile(s);
        case DoUntil(_, _) => ok := CheckDoUntil(s);
        case Return(e) => ok := CheckReturn(e);
      }
      t := if ok then Numeric else Unknown;
    }

    /** checkOutput: a string, or an atom typed NUMERIC; logs nothing itself. */
    method CheckOutput(e: Expr) returns (ok: bool)
      requires Valid()
      modifies this
      ensures Valid()
      ensures ok == OutputCheck(table.scopes, e).ok
      ensures errors == old(errors) + OutputCheck(table.scopes, e).diags
    {
      if e.Str? {
        return true;
      }
      var t := CheckAtom(e);
      ok := t == Numeric;
    }

    /** checkProcCall: the name must be declared, then the arguments are checked. */
    method CheckProcCall(s: Stmt) returns (ok: bool)
      requires s.ProcCall? && Valid()
      modifies this
      ensures Valid()
      ensures ok == ProcCallCheck(table.scopes, s).ok
      ensures errors == old(errors) + ProcCallCheck(table.scopes, s).diags
    {
      var declared := table.IsDeclared(s.name);
      if !declared {
        AddError(ProcedureNotDeclared(s.name));
        return false;
      }
      ok := CheckInput(s.args);
    }

    /** checkInput: every argument a NUMERIC atom, stopping at the first that is not. */
    method CheckInput(args: seq<Expr>) returns (ok: bool)
      requires Valid()
      modifies this
      ensures Valid()
      ensures ok == InputCheck(table.scopes, args).ok
      ensures errors == old(errors) + InputCheck(table.scopes, args).diags
    {
      ghost var r := InputCheck(table.scopes, args);
      ghost var e0 := errors;
      var i := 0;
      while i < |args|
        invariant 0 <= i <= |args| && Valid() && errors == e0
        invariant r == InputCheck(table.scopes, args[i..])
      {
        assert args[i..][0] == args[i] && args[i..][1..] == args[i + 1..];
        ghost var a := AtomCheck(table.scopes, args[i]);
        var t := CheckAtom(args[i]);
        if t != Numeric {
          assert r == Checked(false, a.diags + [InputNotNumeric]);
          AddError(InputNotNumeric);
          AppendAssoc(e0, a.diags, [InputNotNumeric]);
          return false;
        }
        assert errors == e0;
        i := i + 1;
      }
      return true;
    }

    /** checkAssign: a declared NUMERIC target and a NUMERIC right-hand side. */
    method CheckAssign(s: Stmt) returns (ok: bool)
      requires s.Assign? && Valid()
      modifies this
      ensures Valid()
      ensures ok == AssignCheck(table.scopes, s).ok
      ensures errors == old(errors) + AssignCheck(table.scopes, s).diags
    {
      var declared := table.IsDeclared(s.target);
      if !declared {
        AddError(VariableNotDeclared(s.target));
        return false;
      }
      var t := table.GetType(s.target);
      if t != Numeric {
        AddError(VariableNotNumeric(s.target));
        return false;
      }
      var rhs := CheckExpression(s.expr);
      if rhs != Numeric {
        AddError(AssignRhsNotNumeric);
        AppendAssoc(old(errors), ExprCheck(table.scopes, s.expr).diags, [AssignRhsNotNumeric]);
        return false;
      }
      return true;
    }

    /** checkExpression; a bare variable goes through checkVar, which looks nothing up. */
    method CheckExpression(e: Expr) returns (t: Type)
      requires Valid()
      modifies this
      ensures Valid()
      ensures t == ExprCheck(table.scopes, e).t
      ensures errors == old(errors) + ExprCheck(table.scopes, e).diags
      decreases e, 1
    {
      match e
      case Var(_) => t := Numeric;
      case Number(_) => t := Numeric;
      case Str(_) => t := Numeric;
      case Unary(_, _) => t := CheckUnaryOp(e);
      case Binary(_, _, _) => t := CheckBinaryOp(e);
      case FuncCall(_, _) => t := CheckFuncCall(e);
    }

    /** checkAtom: a declared variable's type, NUMERIC for a number, else an error. */
    method CheckAtom(e: Expr) returns (t: Type)
      requires Valid()
      modifies this
      ensures Valid()
      ensures t == AtomCheck(table.scopes, e).t
      ensures errors == old(errors) + AtomCheck(table.scopes, e).diags
    {
      if e.Var? {
        var declared := table.IsDeclared(e.name);
        if !declared {
          AddError(VariableNotDeclared(e.name));
          return Unknown;
        }
        t := table.GetType(e.name);
      } else if e.Number? {
        t := Numeric;
      } else {
        AddError(InvalidAtom);
        t := Unknown;
      }
    }

    /** checkTerm: atoms, unary and binary operations. */
    method CheckTerm(e: Expr) returns (t: Type)
      requires Valid()
      modifies this
      ensures Valid()
      ensures t == TermCheck(table.scopes, e).t
      ensures errors == old(errors) + TermCheck(table.scopes, e).diags
      decreases e, 1
    {
      match e
      case Var(_) => t := CheckAtom(e);
      case Number(_) => t := CheckAtom(e);
      case Unary(_, _) => t := CheckUnaryOp(e);
      case Binary(_, _, _) => t := CheckBinaryOp(e);
      case _ =>
        AddError(InvalidTerm);
        t := Unknown;
    }

    /** checkUnaryOp: the operand is checked first, then the operator's rule
        (UnaryOpType, with UnaryOpDiag as the message when it fails). */
    method CheckUnaryOp(e: Expr) returns (t: Type)
      requires e.Unary? && Valid()
      modifies this
      ensures Valid()
      ensures t == UnaryCheck(table.scopes, e).t
      ensures errors == old(errors) + UnaryCheck(table.scopes, e).diags
      decreases e, 0
    {
      var operand := CheckTerm(e.operand);
      t := UnaryOpType(e.op, operand);
      if t == Unknown {
        AddError(UnaryOpDiag(e.op));
        AppendAssoc(old(errors), TermCheck(table.scopes, e.operand).diags, [UnaryOpDiag(e.op)]);
      }
    }

    /** checkBinaryOp: both operands, left first, then the operator's rule
        (BinaryOpType, with BinaryOpDiag as the message when it fails). */
    method CheckBinaryOp(e: Expr) returns (t: Type)
      requires e.Binary? && Valid()
      modifies this
      ensures Valid()
      ensures t == BinaryCheck(table.scopes, e).t
      ensures errors == old(errors) + BinaryCheck(table.scopes, e).diags
      decreases e, 0
    {
      ghost var ld := TermCheck(table.scopes, e.left).diags;
      ghost var rd := TermCheck(table.scopes, e.right).diags;
      var l := CheckTerm(e.left);
      var r := CheckTerm(e.right);
      AppendAssoc(old(errors), ld, rd);
      t := BinaryOpType(e.op, l, r);
      if t == Unknown {
        AddError(BinaryOpDiag(e.op));
        AppendAssoc(old(errors), ld + rd, [BinaryOpDiag(e.op)]);
      }
    }

    /** checkFuncCall: the name must be declared and the arguments NUMERIC atoms. */
    method CheckFuncCall(e: Expr) returns (t: Type)
      requires e.FuncCall? && Valid()
      modifies this
      ensures Valid()
      ensures t == CallCheck(table.scopes, e.name, e.args).t
      ensures errors == old(errors) + CallCheck(table.scopes, e.name, e.args).diags
    {
      var declared := table.IsDeclared(e.name);
      if !declared {
        AddError(FunctionNotDeclared(e.name));
        return Unknown;
      }
      var ok := CheckInput(e.args);
      if !ok {
        return Unknown;
      }
      return Numeric;
    }

    /** checkIf: a BOOLEAN condition, then the branch. */
    method CheckIf(s: Stmt) returns (ok: bool)
      requires s.If? && Valid()
      modifies this
      ensures Valid()
      ensures ok == IfCheck(table.scopes, s).ok
      ensures errors == old(errors) + IfCheck(table.scopes, s).diags
      decreases s, 0
    {
      var c := CheckTerm(s.cond);
      if c != Boolean {
        AddError(IfConditionNotBoolean);
        AppendAssoc(old(errors), TermCheck(table.scopes, s.cond).diags, [IfConditionNotBoolean]);
        return false;
      }
      ok := CheckStatementList(s.thenBranch);
      AppendAssoc(old(errors), TermCheck(table.scopes, s.cond).diags, StmtListCheck(table.scopes, s.thenBranch).diags);
    }

    /** checkIfElse: a BOOLEAN condition, then both branches, even after a failure. */
    method CheckIfElse(s: Stmt) returns (ok: bool)
      requires s.IfElse? && Valid()
      modifies this
      ensures Valid()
      ensures ok == IfElseCheck(table.scopes, s).ok
      ensures errors == old(errors) + IfElseCheck(table.scopes, s).diags
      decreases s, 0
    {
      ghost var cd := TermCheck(table.scopes, s.cond).diags;
      var c := CheckTerm(s.cond);
      if c != Boolean {
        AddError(IfConditionNotBoolean);
        AppendAssoc(old(errors), cd, [IfConditionNotBoolean]);
        return false;
      }
      ghost var d1 := StmtListCheck(table.scopes, s.thenBranch).diags;
      ghost var d2 := StmtListCheck(table.scopes, s.elseBranch).diags;
      var thenOk := CheckStatementList(s.thenBranch);
      var elseOk := CheckStatementList(s.elseBranch);
      ok := thenOk && elseOk;
      AppendAssoc(old(errors), cd, d1);
      AppendAssoc(old(errors), cd + d1, d2);
    }

    /** checkWhile: a BOOLEAN condition, then the body. */
    method CheckWhile(s: Stmt) returns (ok: bool)
      requires s.While? && Valid()
      modifies this
      ensures Valid()
      ensures ok == WhileCheck(table.scopes, s).ok
      ensures errors == old(errors) + WhileCheck(table.scopes, s).diags
      decreases s, 0
    {
      var c := CheckTerm(s.cond);
      if c != Boolean {
        AddError(WhileConditionNotBoolean);
        AppendAssoc(old(errors), TermCheck(table.scopes, s.cond).diags, [WhileConditionNotBoolean]);
        return false;
      }
      ok := CheckStatementList(s.body);
      AppendAssoc(old(errors), TermCheck(table.scopes, s.cond).diags, StmtListCheck(table.scopes, s.body).diags);
    }

    /** checkDoUntil: the condition is checked before the body. */
    method CheckDoUntil(s: Stmt) returns (ok: bool)
      requires s.DoUntil? && Valid()
      modifies this
      ensures Valid()
      ensures ok == DoUntilCheck(table.scopes, s).ok
      ensures errors == old(errors) + DoUntilCheck(table.scopes, s).diags
      decreases s, 0
    {
      var c := CheckTerm(s.cond);
      if c != Boolean {
        AddError(DoUntilConditionNotBoolean);
        AppendAssoc(old(errors), TermCheck(table.scopes, s.cond).diags, [DoUntilConditionNotBoolean]);
        return false;
      }
      ok := CheckStatementList(s.body);
      AppendAssoc(old(errors), TermCheck(table.scopes, s.cond).diags, StmtListCheck(table.scopes, s.body).diags);
    }

    /** checkReturn: the returned atom must be NUMERIC. */
    method CheckReturn(e: Expr) returns (ok: bool)
      requires Valid()
      modifies this
      ensures Valid()
      ensures ok == ReturnCheck(table.scopes, e).ok
      ensures errors == old(errors) + ReturnCheck(table.scopes, e).diags
    {
      var t := CheckAtom(e);
      if t != Numeric {
        AddError(ReturnNotNumeric);
        AppendAssoc(old(errors), AtomCheck(table.scopes, e).diags, [ReturnNotNumeric]);
        return false;
      }
      return true;
    }
  }
}
