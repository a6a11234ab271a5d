/**
 * The emitter as the program runs it: two counters that only ever grow and
 * an output stream that only ever grows, driven by one procedure per node
 * kind. Every procedure is proved to append exactly the lines the matching
 * function of module Codegen describes and to advance the counters exactly
 * as far as that function says, so everything proved about those functions
 * holds of what the emitter prints.
 */
module Generators {
  import opened Wrappers
  import opened Seqs
  import opened Ast
  import opened Codegen
  import opened CodegenProperties

  class Generator {
    /** The next temporary number (`temp_counter`). */
    var tempCounter: nat
    /** The next label number (`label_counter`). */
    var labelCounter: nat
    /** The lines written to standard output so far, in order. */
    var out: seq<Instr>

    /** The state of a fresh process: both counters at zero, nothing written. */
    constructor ()
      ensures tempCounter == 0 && labelCounter == 0 && out == []
    {
      tempCounter := 0;
      labelCounter := 0;
      out := [];
    }

    /** newTemp: the name of the current counter, which then moves on. */
    method NewTemp() returns (name: string)
      modifies this
      ensures name == TempName(old(tempCounter)) && tempCounter == old(tempCounter) + 1
      ensures labelCounter == old(labelCounter) && out == old(out)
    {
      name := TempName(tempCounter);
      tempCounter := tempCounter + 1;
    }

    /** newLabel: the current label number, after which the counter moves on. */
    method NewLabel() returns (id: nat)
      modifies this
      ensures id == old(labelCounter) && labelCounter == old(labelCounter) + 1
      ensures tempCounter == old(tempCounter) && out == old(out)
    {
      id := labelCounter;
      labelCounter := labelCounter + 1;
    }

    /** Writing one line to the output stream. */
    method Emit(i: Instr)
      modifies this
      ensures out == old(out) + [i]
      ensures tempCounter == old(tempCounter) && labelCounter == old(labelCounter)
    {
      out := out + [i];
    }

    // ----------------------------------------------------------------
    // Expressions
    // ----------------------------------------------------------------

    method GenerateVar(e: Expr) returns (val: string)
      requires e.Var?
      ensures ExprCode(e, tempCounter) == Value([], val, tempCounter)
    {
      val := e.name;
    }

    method GenerateNumber(e: Expr) returns (val: string)
      requires e.Number?
      modifies this
      ensures out == old(out) + ExprCode(e, old(tempCounter)).code
      ensures val == ExprCode(e, old(tempCounter)).val && tempCounter == ExprCode(e, old(tempCounter)).temps
      ensures labelCounter == old(labelCounter)
    {
      val := NewTemp();
      Emit(LoadNumber(val, e.value));
    }

    method GenerateString(e: Expr) returns (val: string)
      requires e.Str?
      modifies this
      ensures out == old(out) + ExprCode(e, old(tempCounter)).code
      ensures val == ExprCode(e, old(tempCounter)).val && tempCounter == ExprCode(e, old(tempCounter)).temps
      ensures labelCounter == old(labelCounter)
    {
      val := NewTemp();
      Emit(LoadString(val, e.value));
    }

    method GenerateUnaryOp(e: Expr) returns (val: string)
      requires e.Unary?
      modifies this
      ensures out == old(out) + ExprCode(e, old(tempCounter)).code
      ensures val == ExprCode(e, old(tempCounter)).val && tempCounter == ExprCode(e, old(tempCounter)).temps
      ensures labelCounter == old(labelCounter)
      decreases e, 0
    {
      ghost var out0 := out;
      var operand := GenerateExpr(e.operand);
      val := NewTemp();
      Emit(ApplyUnary(val, e.op, operand));
      AppendAssoc(out0, ExprCode(e.operand, old(tempCounter)).code, [ApplyUnary(val, e.op, operand)]);
    }

    method GenerateBinaryOp(e: Expr) returns (val: string)
      requires e.Binary?
      modifies this
      ensures out == old(out) + ExprCode(e, old(tempCounter)).code
      ensures val == ExprCode(e, old(tempCounter)).val && tempCounter == ExprCode(e, old(tempCounter)).temps
      ensures labelCounter == old(labelCounter)
      decreases e, 0
    {
      ghost var out0 := out;
      ghost var a := ExprCode(e.left, tempCounter);
      var leftVal := GenerateExpr(e.left);
      var rightVal := GenerateExpr(e.right);
      val := NewTemp();
      Emit(ApplyBinary(val, leftVal, e.op, rightVal));
      AppendAssoc3(out0, a.code, ExprCode(e.right, a.temps).code, [ApplyBinary(val, leftVal, e.op, rightVal)]);
    }

    method GenerateFuncCall(e: Expr) returns (val: string)
      requires e.FuncCall?
      modifies this
      ensures out == old(out) + ExprCode(e, old(tempCounter)).code
      ensures val == ExprCode(e, old(tempCounter)).val && tempCounter == ExprCode(e, old(tempCounter)).temps
      ensures labelCounter == old(labelCounter)
      decreases e, 0
    {
      ghost var t0 := tempCounter;
      ghost var out0 := out;
      var i := 0;
      while i < |e.args|
        invariant 0 <= i <= |e.args|
        invariant out == out0 + ArgsCode(e.args[..i], t0).code && tempCounter == ArgsCode(e.args[..i], t0).temps
        invariant labelCounter == old(labelCounter)
      {
        var v := GenerateExpr(e.args[i]);
        Emit(Param(v));
        ArgsStep(e.args, i, t0, out0);
        i := i + 1;
      }
      assert e.args[..i] == e.args;
      val := NewTemp();
      Emit(CallFunction(val, e.name, |e.args|));
    }

    /** generateExpr: dispatch on the kind of expression. */
    method GenerateExpr(e: Expr) returns (val: string)
      modifies this
      ensures out == old(out) + ExprCode(e, old(tempCounter)).code
      ensures val == ExprCode(e, old(tempCounter)).val && tempCounter == ExprCode(e, old(tempCounter)).temps
      ensures labelCounter == old(labelCounter)
      decreases e, 1
    {
      match e
      case Var(_) =>
        val := GenerateVar(e);
      case Number(_) =>
        val := GenerateNumber(e);
      case Str(_) =>
        val := GenerateString(e);
      case Unary(_, _) =>
        val := GenerateUnaryOp(e);
      case Binary(_, _, _) =>
        val := GenerateBinaryOp(e);
      case FuncCall(_, _) =>
        val := GenerateFuncCall(e);
    }

    // ----------------------------------------------------------------
    // Statements
    // ----------------------------------------------------------------

    method GenerateAssign(s: Stmt)
      requires s.Assign?
      modifies this
      ensures out == old(out) + StmtCode(s, old(tempCounter), old(labelCounter)).code
      ensures tempCounter == StmtCode(s, old(tempCounter), old(labelCounter)).temps
      ensures labelCounter == StmtCode(s, old(tempCounter), old(labelCounter)).labels
    {
      ghost var out0 := out;
      var rhs := GenerateExpr(s.expr);
      Emit(Copy(s.target, rhs));
      AppendAssoc(out0, ExprCode(s.expr, old(tempCounter)).code, [Copy(s.target, rhs)]);
    }

    method GeneratePrint(s: Stmt)
      requires s.Print?
      modifies this
      ensures out == old(out) + StmtCode(s, old(tempCounter), old(labelCounter)).code
      ensures tempCounter == StmtCode(s, old(tempCounter), old(labelCounter)).temps
      ensures labelCounter == StmtCode(s, old(tempCounter), old(labelCounter)).labels
    {
      ghost var out0 := out;
      var val := GenerateExpr(s.expr);
      Emit(Output(val));
      AppendAssoc(out0, ExprCode(s.expr, old(tempCounter)).code, [Output(val)]);
    }

    method GenerateProcCall(s: Stmt)
      requires s.ProcCall?
      modifies this
      ensures out == old(out) + StmtCode(s, old(tempCounter), old(labelCounter)).code
      ensures tempCounter == StmtCode(s, old(tempCounter), old(labelCounter)).temps
      ensures labelCounter == StmtCode(s, old(tempCounter), old(labelCounter)).labels
    {
      ghost var t0 := tempCounter;
      ghost var out0 := out;
      var i := 0;
      while i < |s.args|
        invariant 0 <= i <= |s.args|
        invariant out == out0 + ArgsCode(s.args[..i], t0).code && tempCounter == ArgsCode(s.args[..i], t0).temps
        invariant labelCounter == old(labelCounter)
      {
        var v := GenerateExpr(s.args[i]);
        Emit(Param(v));
        ArgsStep(s.args, i, t0, out0);
        i := i + 1;
      }
      assert s.args[..i] == s.args;
      Emit(CallProcedure(s.name, |s.args|));
    }

    method GenerateIf(s: Stmt)
      requires s.If?
      modifies this
      ensures out == old(out) + StmtCode(s, old(tempCounter), old(labelCounter)).code
      ensures tempCounter == StmtCode(s, old(tempCounter), old(labelCounter)).temps
      ensures labelCounter == StmtCode(s, old(tempCounter), old(labelCounter)).labels
      decreases s, 0
    {
      ghost var out0 := out;
      ghost var l := labelCounter;
      ghost var a := ExprCode(s.cond, tempCounter);
      ghost var b := StmtsCode(s.thenBranch, a.temps, l + 2);
      ghost var head := a.code + [IfGoto(a.val, l), Goto(l + 1), Label(l)];
      assert StmtCode(s, tempCounter, l) == Emitted(head + b.code + [Label(l + 1)], b.temps, b.labels);
      var cond := GenerateExpr(s.cond);
      var lTrue := NewLabel();
      var lEnd := NewLabel();
      Emit(IfGoto(cond, lTrue));
      Emit(Goto(lEnd));
      Emit(Label(lTrue));
      assert out == out0 + head;
      GenerateStatements(s.thenBranch);
      Emit(Label(lEnd));
      AppendAssoc3(out0, head, b.code, [Label(lEnd)]);
    }

    method GenerateIfElse(s: Stmt)
      requires s.IfElse?
      modifies this
      ensures out == old(out) + StmtCode(s, old(tempCounter), old(labelCounter)).code
      ensures tempCounter == StmtCode(s, old(tempCounter), old(labelCounter)).temps
      ensures labelCounter == StmtCode(s, old(tempCounter), old(labelCounter)).labels
      decreases s, 0
    {
      ghost var out0 := out;
      ghost var l := labelCounter;
      ghost var a, b1, b2 := IfElseShape(s, tempCounter, l);
      ghost var head := a.code + [IfGoto(a.val, l), Goto(l + 1), Label(l)];
      var cond := GenerateExpr(s.cond);
      var lThen := NewLabel();
      var lElse := NewLabel();
      var lEnd := NewLabel();
      assert lThen == l && lElse == l + 1 && lEnd == l + 2 && tempCounter == a.temps;
      Emit(IfGoto(cond, lThen));
      Emit(Goto(lElse));
      Emit(Label(lThen));
      assert out == out0 + head;
      GenerateStatements(s.thenBranch);
      assert tempCounter == b1.temps && labelCounter == b1.labels;
      Emit(Goto(lEnd));
      Emit(Label(lElse));
      GenerateStatements(s.elseBranch);
      Emit(Label(lEnd));
      ElseGlue(out0, head, b1.code, Goto(lEnd), Label(lElse), b2.code, Label(lEnd));
    }

    method GenerateWhile(s: Stmt)
      requires s.While?
      modifies this
      ensures out == old(out) + StmtCode(s, old(tempCounter), old(labelCounter)).code
      ensures tempCounter == StmtCode(s, old(tempCounter), old(labelCounter)).temps
      ensures labelCounter == StmtCode(s, old(tempCounter), old(labelCounter)).labels
      decreases s, 0
    {
      ghost var out0 := out;
      ghost var l := labelCounter;
      ghost var a := ExprCode(s.cond, tempCounter);
      ghost var b := StmtsCode(s.body, a.temps, l + 2);
      ghost var head := [Label(l)] + a.code + [IfFalseGoto(a.val, l + 1)];
      assert StmtCode(s, tempCounter, l) == Emitted(head + b.code + [Goto(l), Label(l + 1)], b.temps, b.labels);
      var lBegin := NewLabel();
      var lEnd := NewLabel();
      Emit(Label(lBegin));
      var cond := GenerateExpr(s.cond);
      Emit(IfFalseGoto(cond, lEnd));
      assert out == out0 + head by {
        AppendAssoc3(out0, [Label(lBegin)], a.code, [IfFalseGoto(cond, lEnd)]);
      }
      GenerateStatements(s.body);
      Emit(Goto(lBegin));
      Emit(Label(lEnd));
      assert out == out0 + (head + b.code + [Goto(lBegin), Label(lEnd)]) by {
        AppendAssoc3(out0, head, b.code, [Goto(lBegin)]);
        AppendAssoc(out0, head + b.code + [Goto(lBegin)], [Label(lEnd)]);
        AppendAssoc(head + b.code, [Goto(lBegin)], [Label(lEnd)]);
      }
    }

    method GenerateDoUntil(s: Stmt)
      requires s.DoUntil?
      modifies this
      ensures out == old(out) + StmtCode(s, old(tempCounter), old(labelCounter)).code
      ensures tempCounter == StmtCode(s, old(tempCounter), old(labelCounter)).temps
      ensures labelCounter == StmtCode(s, old(tempCounter), old(labelCounter)).labels
      decreases s, 0
    {
      ghost var out0 := out;
      ghost var l := labelCounter;
      ghost var b := StmtsCode(s.body, tempCounter, l + 1);
      ghost var a := ExprCode(s.cond, b.temps);
      assert StmtCode(s, tempCounter, l) == Emitted([Label(l)] + b.code + a.code + [IfFalseGoto(a.val, l)], a.temps, b.labels);
      var lBegin := NewLabel();
      Emit(Label(lBegin));
      GenerateStatements(s.body);
      var cond := GenerateExpr(s.cond);
      Emit(IfFalseGoto(cond, lBegin));
      AppendAssoc3(out0, [Label(lBegin)], b.code, a.code);
      AppendAssoc(out0, [Label(lBegin)] + b.code + a.code, [IfFalseGoto(cond, lBegin)]);
    }

    method GenerateReturn(s: Stmt)
      requires s.Return?
      modifies this
      ensures out == old(out) + StmtCode(s, old(tempCounter), old(labelCounter)).code
      ensures tempCounter == StmtCode(s, old(tempCounter), old(labelCounter)).temps
      ensures labelCounter == StmtCode(s, old(tempCounter), old(labelCounter)).labels
    {
      ghost var out0 := out;
      var val := GenerateExpr(s.expr);
      Emit(Ret(val));
      AppendAssoc(out0, ExprCode(s.expr, old(tempCounter)).code, [Ret(val)]);
    }

    method GenerateHalt(s: Stmt)
      requires s.Halt?
      modifies this
      ensures out == old(out) + StmtCode(s, old(tempCounter), old(labelCounter)).code
      ensures tempCounter == StmtCode(s, old(tempCounter), old(labelCounter)).temps
      ensures labelCounter == StmtCode(s, old(tempCounter), old(labelCounter)).labels
    {
      Emit(Stop);
    }

    /** generateStmt: dispatch on the kind of statement. */
    method GenerateStmt(s: Stmt)
      modifies this
      ensures out == old(out) + StmtCode(s, old(tempCounter), old(labelCounter)).code
      ensures tempCounter == StmtCode(s, old(tempCounter), old(labelCounter)).temps
      ensures labelCounter == StmtCode(s, old(tempCounter), old(labelCounter)).labels
      decreases s, 1
    {
      match s
      case Assign(_, _) =>
        GenerateAssign(s);
      case Print(_) =>
        GeneratePrint(s);
      case ProcCall(_, _) =>
        GenerateProcCall(s);
      case If(_, _) =>
        GenerateIf(s);
      case IfElse(_, _, _) =>
        GenerateIfElse(s);
      case While(_, _) =>
        GenerateWhile(s);
      case DoUntil(_, _) =>
        GenerateDoUntil(s);
      case Return(_) =>
        GenerateReturn(s);
      case Halt =>
        GenerateHalt(s);
    }

    /** generateStatements: each statement in list order. */
    method GenerateStatements(ss: seq<Stmt>)
      modifies this
      ensures out == old(out) + StmtsCode(ss, old(tempCounter), old(labelCounter)).code
      ensures tempCounter == StmtsCode(ss, old(tempCounter), old(labelCounter)).temps
      ensures labelCounter == StmtsCode(ss, old(tempCounter), old(labelCounter)).labels
      decreases ss, 2
    {
      ghost var t0 := tempCounter;
      ghost var l0 := labelCounter;
      ghost var out0 := out;
      var i := 0;
      while i < |ss|
        invariant 0 <= i <= |ss|
        invariant out == out0 + StmtsCode(ss[..i], t0, l0).code
        invariant tempCounter == StmtsCode(ss[..i], t0, l0).temps && labelCounter == StmtsCode(ss[..i], t0, l0).labels
      {
        GenerateStmt(ss[i]);
        StmtsStep(ss, i, t0, l0, out0);
        i := i + 1;
      }
      assert ss[..i] == ss;
    }

    // ----------------------------------------------------------------
    // Declarations and the program
    // ----------------------------------------------------------------

    /** generateBody: a comment, one `decl` per local, the statements, a comment. */
    method GenerateBody(b: Body)
      modifies this
      ensures out == old(out) + BodyCode(b, old(tempCounter), old(labelCounter)).code
      ensures tempCounter == BodyCode(b, old(tempCounter), old(labelCounter)).temps
      ensures labelCounter == BodyCode(b, old(tempCounter), old(labelCounter)).labels
    {
      ghost var out0 := out;
      Emit(BodyBegin);
      var i := 0;
      while i < |b.locals|
        invariant 0 <= i <= |b.locals|
        invariant out == out0 + [BodyBegin] + Decls(b.locals[..i])
        invariant tempCounter == old(tempCounter) && labelCounter == old(labelCounter)
      {
        Emit(Decl(b.locals[i]));
        DeclsStep(b.locals, i);
        AppendAssoc(out0 + [BodyBegin], Decls(b.locals[..i]), [Decl(b.locals[i])]);
        i := i + 1;
      }
      assert b.locals[..i] == b.locals;
      GenerateStatements(b.statements);
      Emit(BodyEnd);
      AppendAssoc4(out0, [BodyBegin], Decls(b.locals), StmtsCode(b.statements, old(tempCounter), old(labelCounter)).code, [BodyEnd]);
    }

    /** generateProcDef: the header, one `param` per formal, the body, the trailer. */
    method GenerateProcDef(d: ProcDef)
      modifies this
      ensures out == old(out) + ProcDefCode(d, old(tempCounter), old(labelCounter)).code
      ensures tempCounter == ProcDefCode(d, old(tempCounter), old(labelCounter)).temps
      ensures labelCounter == ProcDefCode(d, old(tempCounter), old(labelCounter)).labels
    {
      ghost var out0 := out;
      Emit(ProcHeader(d.name));
      var i := 0;
      while i < |d.params|
        invariant 0 <= i <= |d.params|
        invariant out == out0 + [ProcHeader(d.name)] + FormalParams(d.params[..i])
        invariant tempCounter == old(tempCounter) && labelCounter == old(labelCounter)
      {
        Emit(FormalParam(d.params[i]));
        FormalParamsStep(d.params, i);
        AppendAssoc(out0 + [ProcHeader(d.name)], FormalParams(d.params[..i]), [FormalParam(d.params[i])]);
        i := i + 1;
      }
      assert d.params[..i] == d.params;
      GenerateBody(d.body);
      Emit(EndProc);
      AppendAssoc4(out0, [ProcHeader(d.name)], FormalParams(d.params), BodyCode(d.body, old(tempCounter), old(labelCounter)).code, [EndProc]);
    }

    /** generateFuncDef: as a procedure, with the function header and trailer. */
    method GenerateFuncDef(d: FuncDef)
      modifies this
      ensures out == old(out) + FuncDefCode(d, old(tempCounter), old(labelCounter)).code
      ensures tempCounter == FuncDefCode(d, old(tempCounter), old(labelCounter)).temps
      ensures labelCounter == FuncDefCode(d, old(tempCounter), old(labelCounter)).labels
    {
      ghost var out0 := out;
      Emit(FuncHeader(d.name));
      var i := 0;
      while i < |d.params|
        invariant 0 <= i <= |d.params|
        invariant out == out0 + [FuncHeader(d.name)] + FormalParams(d.params[..i])
        invariant tempCounter == old(tempCounter) && labelCounter == old(labelCounter)
      {
        Emit(FormalParam(d.params[i]));
        FormalParamsStep(d.params, i);
        AppendAssoc(out0 + [FuncHeader(d.name)], FormalParams(d.params[..i]), [FormalParam(d.params[i])]);
        i := i + 1;
      }
      assert d.params[..i] == d.params;
      GenerateBody(d.body);
      Emit(EndFunc);
      AppendAssoc4(out0, [FuncHeader(d.name)], FormalParams(d.params), BodyCode(d.body, old(tempCounter), old(labelCounter)).code, [EndFunc]);
    }

    /** generateMain: the header, one `decl` per local, the statements, the trailer. */
    method GenerateMain(m: MainProg)
      modifies this
      ensures out == old(out) + MainCode(m, old(tempCounter), old(labelCounter)).code
      ensures tempCounter == MainCode(m, old(tempCounter), old(labelCounter)).temps
      ensures labelCounter == MainCode(m, old(tempCounter), old(labelCounter)).labels
    {
      ghost var out0 := out;
      Emit(MainHeader);
      var i := 0;
      while i < |m.locals|
        invariant 0 <= i <= |m.locals|
        invariant out == out0 + [MainHeader] + Decls(m.locals[..i])
        invariant tempCounter == old(tempCounter) && labelCounter == old(labelCounter)
      {
        Emit(Decl(m.locals[i]));
        DeclsStep(m.locals, i);
        AppendAssoc(out0 + [MainHeader], Decls(m.locals[..i]), [Decl(m.locals[i])]);
        i := i + 1;
      }
      assert m.locals[..i] == m.locals;
      GenerateStatements(m.statements);
      Emit(EndMain);
      AppendAssoc4(out0, [MainHeader], Decls(m.locals), StmtsCode(m.statements, old(tempCounter), old(labelCounter)).code, [EndMain]);
    }

    /** The `global` loop of generateProgram. */
    method GenerateGlobals(names: seq<string>)
      modifies this
      ensures out == old(out) + Globals(names)
      ensures tempCounter == old(tempCounter) && labelCounter == old(labelCounter)
    {
      ghost var out0 := out;
      var i := 0;
      while i < |names|
        invariant 0 <= i <= |names|
        invariant out == out0 + Globals(names[..i])
        invariant tempCounter == old(tempCounter) && labelCounter == old(labelCounter)
      {
        Emit(Global(names[i]));
        GlobalsStep(names, i);
        AppendAssoc(out0, Globals(names[..i]), [Global(names[i])]);
        i := i + 1;
      }
      assert names[..i] == names;
    }

    /** The procedure loop of generateProgram. */
    method GenerateProcDefs(ps: seq<ProcDef>)
      modifies this
      ensures out == old(out) + ProcDefsCode(ps, old(tempCounter), old(labelCounter)).code
      ensures tempCounter == ProcDefsCode(ps, old(tempCounter), old(labelCounter)).temps
      ensures labelCounter == ProcDefsCode(ps, old(tempCounter), old(labelCounter)).labels
    {
      ghost var t0 := tempCounter;
      ghost var l0 := labelCounter;
      ghost var out0 := out;
      var i := 0;
      while i < |ps|
        invariant 0 <= i <= |ps|
        invariant out == out0 + ProcDefsCode(ps[..i], t0, l0).code
        invariant tempCounter == ProcDefsCode(ps[..i], t0, l0).temps
        invariant labelCounter == ProcDefsCode(ps[..i], t0, l0).labels
      {
        GenerateProcDef(ps[i]);
        ProcDefsStep(ps, i, t0, l0, out0);
        i := i + 1;
      }
      assert ps[..i] == ps;
    }

    /** The function loop of generateProgram. */
    method GenerateFuncDefs(fs: seq<FuncDef>)
      modifies this
      ensures out == old(out) + FuncDefsCode(fs, old(tempCounter), old(labelCounter)).code
      ensures tempCounter == FuncDefsCode(fs, old(tempCounter), old(labelCounter)).temps
      ensures labelCounter == FuncDefsCode(fs, old(tempCounter), old(labelCounter)).labels
    {
      ghost var t0 := tempCounter;
      ghost var l0 := labelCounter;
      ghost var out0 := out;
      var i := 0;
      while i < |fs|
        invariant 0 <= i <= |fs|
        invariant out == out0 + FuncDefsCode(fs[..i], t0, l0).code
        invariant tempCounter == FuncDefsCode(fs[..i], t0, l0).temps
        invariant labelCounter == FuncDefsCode(fs[..i], t0, l0).labels
      {
        GenerateFuncDef(fs[i]);
        FuncDefsStep(fs, i, t0, l0, out0);
        i := i + 1;
      }
      assert fs[..i] == fs;
    }

    /** generateProgram: globals, procedures, functions and main, between two comments. */
    method GenerateProgram(p: Program)
      modifies this
      ensures out == old(out) + ProgramCode(p, old(tempCounter), old(labelCounter)).code
      ensures tempCounter == ProgramCode(p, old(tempCounter), old(labelCounter)).temps
      ensures labelCounter == ProgramCode(p, old(tempCounter), old(labelCounter)).labels
    {
      ghost var out0 := out;
      ghost var pc := ProcDefsCode(p.procs, tempCounter, labelCounter);
      ghost var fc := FuncDefsCode(p.funcs, pc.temps, pc.labels);
      ghost var mc := MainCode(p.main, fc.temps, fc.labels);
      ghost var hd := [ProgramStart] + Globals(p.globals);
      assert ProgramCode(p, tempCounter, labelCounter) ==
             Emitted(hd + pc.code + fc.code + mc.code + [ProgramEnd], mc.temps, mc.labels);
      Emit(ProgramStart);
      GenerateGlobals(p.globals);
      AppendAssoc(out0, [ProgramStart], Globals(p.globals));
      GenerateProcDefs(p.procs);
      GenerateFuncDefs(p.funcs);
      GenerateMain(p.main);
      Emit(ProgramEnd);
      ProgramGlue(out0, hd, pc.code, fc.code, mc.code, ProgramEnd);
    }

    /** generateIntermediateCode: the whole program. */
    method GenerateIntermediateCode(root: Program)
      modifies this
      ensures out == old(out) + ProgramCode(root, old(tempCounter), old(labelCounter)).code
      ensures tempCounter == ProgramCode(root, old(tempCounter), old(labelCounter)).temps
      ensures labelCounter == ProgramCode(root, old(tempCounter), old(labelCounter)).labels
    {
      GenerateProgram(root);
    }
  }

  /**
   * One run of the emitter in a fresh process. What it prints is the code of
   * ProgramCode from zero counters, and so: every temporary is assigned once,
   * in the order t0, t1, ...; every label used is placed exactly once; every
   * jump goes to a placed label; and the `param` lines of calls are all
   * consumed by the calls that follow them.
   */
  method Translate(root: Program) returns (code: seq<Instr>)
    ensures code == ProgramCode(root, 0, 0).code
    ensures Distinct(TempDefs(code))
    ensures TempDefs(code) == TempSeq(0, ProgramCode(root, 0, 0).temps)
    ensures forall k: nat :: LabelCount(code, k) == (if k < ProgramCode(root, 0, 0).labels then 1 else 0)
    ensures forall k: nat :: JumpsTo(code, k) ==> LabelCount(code, k) == 1
    ensures ParamStack(code, []) == Some([])
  {
    var g := new Generator();
    g.GenerateIntermediateCode(root);
    code := g.out;
    ProgramWellFormed(root);
  }

  /** The template of an if-else, with its three pieces named. */
  lemma IfElseShape(s: Stmt, t: nat, l: nat) returns (a: Value, b1: Emitted, b2: Emitted)
    requires s.IfElse?
    ensures a == ExprCode(s.cond, t) && b1 == StmtsCode(s.thenBranch, a.temps, l + 3)
    ensures b2 == StmtsCode(s.elseBranch, b1.temps, b1.labels)
    ensures StmtCode(s, t, l) == Emitted(a.code + [IfGoto(a.val, l), Goto(l + 1), Label(l)] + b1.code +
                                         [Goto(l + 2), Label(l + 1)] + b2.code + [Label(l + 2)], b2.temps, b2.labels)
  {
    a := ExprCode(s.cond, t);
    b1 := StmtsCode(s.thenBranch, a.temps, l + 3);
    b2 := StmtsCode(s.elseBranch, b1.temps, b1.labels);
  }

  /** The output of an if-else, from the jump to the then-branch onwards, in one piece. */
  lemma ElseGlue(o: seq<Instr>, head: seq<Instr>, b1: seq<Instr>, g: Instr, e: Instr, b2: seq<Instr>, z: Instr)
    ensures o + head + b1 + [g] + [e] + b2 + [z] == o + (head + b1 + [g, e] + b2 + [z])
  {
    assert [g] + [e] == [g, e];
  }

  /** One more turn of the argument loop. */
  lemma ArgsStep(args: seq<Expr>, i: nat, t0: nat, out0: seq<Instr>)
    requires i < |args|
    ensures ArgsCode(args[..i + 1], t0).temps == ExprCode(args[i], ArgsCode(args[..i], t0).temps).temps
    ensures out0 + ArgsCode(args[..i], t0).code + ExprCode(args[i], ArgsCode(args[..i], t0).temps).code +
            [Param(ExprCode(args[i], ArgsCode(args[..i], t0).temps).val)] == out0 + ArgsCode(args[..i + 1], t0).code
  {
    var p := ArgsCode(args[..i], t0);
    var a := ExprCode(args[i], p.temps);
    assert args[..i + 1][..i] == args[..i];
    assert ArgsCode(args[..i + 1], t0).code == p.code + a.code + [Param(a.val)];
    AppendAssoc3(out0, p.code, a.code, [Param(a.val)]);
  }

  /** One more turn of a `decl` loop. */
  lemma DeclsStep(names: seq<string>, i: nat)
    requires i < |names|
    ensures Decls(names[..i + 1]) == Decls(names[..i]) + [Decl(names[i])]
  {
    assert names[..i + 1][..i] == names[..i];
  }

  /** One more turn of a `param` loop of a definition. */
  lemma FormalParamsStep(names: seq<string>, i: nat)
    requires i < |names|
    ensures FormalParams(names[..i + 1]) == FormalParams(names[..i]) + [FormalParam(names[i])]
  {
    assert names[..i + 1][..i] == names[..i];
  }

  /** One more turn of the `global` loop. */
  lemma GlobalsStep(names: seq<string>, i: nat)
    requires i < |names|
    ensures Globals(names[..i + 1]) == Globals(names[..i]) + [Global(names[i])]
  {
    assert names[..i + 1][..i] == names[..i];
  }

  /** One more turn of the procedure loop. */
  lemma ProcDefsStep(ps: seq<ProcDef>, i: nat, t0: nat, l0: nat, o: seq<Instr>)
    requires i < |ps|
    ensures var p := ProcDefsCode(ps[..i], t0, l0);
            var d := ProcDefCode(ps[i], p.temps, p.labels);
            ProcDefsCode(ps[..i + 1], t0, l0) == Emitted(p.code + d.code, d.temps, d.labels) &&
            o + p.code + d.code == o + ProcDefsCode(ps[..i + 1], t0, l0).code
  {
    var p := ProcDefsCode(ps[..i], t0, l0);
    assert ps[..i + 1][..i] == ps[..i];
    AppendAssoc(o, p.code, ProcDefCode(ps[i], p.temps, p.labels).code);
  }

  /** One more turn of the function loop. */
  lemma FuncDefsStep(fs: seq<FuncDef>, i: nat, t0: nat, l0: nat, o: seq<Instr>)
    requires i < |fs|
    ensures var p := FuncDefsCode(fs[..i], t0, l0);
            var d := FuncDefCode(fs[i], p.temps, p.labels);
            FuncDefsCode(fs[..i + 1], t0, l0) == Emitted(p.code + d.code, d.temps, d.labels) &&
            o + p.code + d.code == o + FuncDefsCode(fs[..i + 1], t0, l0).code
  {
    var p := FuncDefsCode(fs[..i], t0, l0);
    assert fs[..i + 1][..i] == fs[..i];
    AppendAssoc(o, p.code, FuncDefCode(fs[i], p.temps, p.labels).code);
  }

  /** The pieces of generateProgram's output, in one piece. */
  lemma ProgramGlue(o: seq<Instr>, head: seq<Instr>, pc: seq<Instr>, fc: seq<Instr>, mc: seq<Instr>, z: Instr)
    ensures o + head + pc + fc + mc + [z] == o + (head + pc + fc + mc + [z])
  {
  }

  /** One more turn of the statement loop. */
  lemma StmtsStep(ss: seq<Stmt>, i: nat, t0: nat, l0: nat, out0: seq<Instr>)
    requires i < |ss|
    ensures var p := StmtsCode(ss[..i], t0, l0);
            var s := StmtCode(ss[i], p.temps, p.labels);
            StmtsCode(ss[..i + 1], t0, l0) == Emitted(p.code + s.code, s.temps, s.labels) &&
            out0 + p.code + s.code == out0 + StmtsCode(ss[..i + 1], t0, l0).code
  {
    var p := StmtsCode(ss[..i], t0, l0);
    assert ss[..i + 1][..i] == ss[..i];
    AppendAssoc(out0, p.code, StmtCode(ss[i], p.temps, p.labels).code);
  }
}
