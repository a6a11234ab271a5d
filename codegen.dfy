/**
 * The three-address code the SPL intermediate-code emitter writes, and what
 * it writes for every node as a function of the two counters it starts
 * from: the next temporary number and the next label number. Each function
 * returns the emitted lines together with the counters it leaves behind; the
 * imperative Generator is proved to emit exactly these lines.
 */
module Codegen {
  import opened Text
  import opened Ast

  /** One emitted line. Labels are kept by number; `LabelName` renders them. */
  datatype Instr =
    | LoadNumber(dest: string, literal: string)
    | LoadString(dest: string, literal: string)
    | ApplyUnary(dest: string, op: string, arg: string)
    | ApplyBinary(dest: string, left: string, op: string, right: string)
    | Param(arg: string)
    | CallFunction(dest: string, name: string, argc: nat)
    | CallProcedure(name: string, argc: nat)
    | Copy(dest: string, src: string)
    | Output(arg: string)
    | IfGoto(cond: string, target: nat)
    | IfFalseGoto(cond: string, target: nat)
    | Goto(target: nat)
    | Label(id: nat)
    | Ret(arg: string)
    | Stop
    | BodyBegin
    | BodyEnd
    | Decl(name: string)
    | FormalParam(name: string)
    | ProcHeader(name: string)
    | EndProc
    | FuncHeader(name: string)
    | EndFunc
    | MainHeader
    | EndMain
    | Global(name: string)
    | ProgramStart
    | ProgramEnd

  /** newTemp: the prefix `t` and the counter in decimal. */
  function TempName(n: nat): (r: string)
    ensures |r| >= 2 && r[0] == 't' && AllDigits(r[1..])
  {
    "t" + NatToString(n)
  }

  /** newLabel: the prefix `L` and the counter in decimal. */
  function LabelName(n: nat): (r: string)
    ensures |r| >= 2 && r[0] == 'L' && AllDigits(r[1..])
  {
    "L" + NatToString(n)
  }

  /** The text of a line as it appears on the output stream. */
  function Render(i: Instr): string {
    match i
    case LoadNumber(d, v) => d + " = " + v
    case LoadString(d, v) => d + " = \"" + v + "\""
    case ApplyUnary(d, op, a) => d + " = " + op + " " + a
    case ApplyBinary(d, l, op, r) => d + " = " + l + " " + op + " " + r
    case Param(a) => "param " + a
    case CallFunction(d, n, c) => d + " = call " + n + ", " + NatToString(c)
    case CallProcedure(n, c) => "call " + n + ", " + NatToString(c)
    case Copy(d, s) => d + " = " + s
    case Output(a) => "print " + a
    case IfGoto(c, l) => "if " + c + " goto " + LabelName(l)
    case IfFalseGoto(c, l) => "ifFalse " + c + " goto " + LabelName(l)
    case Goto(l) => "goto " + LabelName(l)
    case Label(l) => LabelName(l) + ":"
    case Ret(a) => "return " + a
    case Stop => "halt"
    case BodyBegin => "# Body begin"
    case BodyEnd => "# Body end"
    case Decl(n) => "decl " + n
    case FormalParam(n) => "param " + n
    case ProcHeader(n) => "proc " + n + ":"
    case EndProc => "endproc"
    case FuncHeader(n) => "func " + n + ":"
    case EndFunc => "endfunc"
    case MainHeader => "main:"
    case EndMain => "endmain"
    case Global(n) => "global " + n
    case ProgramStart => "# Program Start"
    case ProgramEnd => "# Program End"
  }

  /** What an expression emits, the name holding its value, and the next temporary. */
  datatype Value = Value(code: seq<Instr>, val: string, temps: nat)

  /** What an argument list emits, the value of each argument, and the next temporary. */
  datatype Args = Args(code: seq<Instr>, vals: seq<string>, temps: nat)

  /** What a statement or a list emits, and the next temporary and label. */
  datatype Emitted = Emitted(code: seq<Instr>, temps: nat, labels: nat)

  // ------------------------------------------------------------------
  // Expressions
  // ------------------------------------------------------------------

  /** generateExpr: a variable is its own value and emits nothing; a literal
      is loaded into a fresh temporary; an operation evaluates its operands
      left to right and puts its result in a fresh temporary; a call passes
      its arguments and receives its result in a fresh temporary. */
  function ExprCode(e: Expr, t: nat): (r: Value)
    ensures r.temps >= t
    decreases e
  {
    match e
    case Var(n) => Value([], n, t)
    case Number(v) => Value([LoadNumber(TempName(t), v)], TempName(t), t + 1)
    case Str(v) => Value([LoadString(TempName(t), v)], TempName(t), t + 1)
    case Unary(op, x) =>
      var a := ExprCode(x, t);
      Value(a.code + [ApplyUnary(TempName(a.temps), op, a.val)], TempName(a.temps), a.temps + 1)
    case Binary(x, op, y) =>
      var a := ExprCode(x, t);
      var b := ExprCode(y, a.temps);
      Value(a.code + b.code + [ApplyBinary(TempName(b.temps), a.val, op, b.val)], TempName(b.temps), b.temps + 1)
    case FuncCall(n, args) =>
      var c := ArgsCode(args, t);
      Value(c.code + [CallFunction(TempName(c.temps), n, |args|)], TempName(c.temps), c.temps + 1)
  }

  /** The argument loop of generateFuncCall and generateProcCall: each argument
      is evaluated and passed with a `param` line, in order. */
  function ArgsCode(args: seq<Expr>, t: nat): (r: Args)
    ensures r.temps >= t && |r.vals| == |args|
    decreases args
  {
    if args == [] then Args([], [], t)
    else
      var p := ArgsCode(args[..|args| - 1], t);
      var a := ExprCode(args[|args| - 1], p.temps);
      Args(p.code + a.code + [Param(a.val)], p.vals + [a.val], a.temps)
  }

  // ------------------------------------------------------------------
  // Statements
  // ------------------------------------------------------------------

  /** generateStmt, with the fixed template of each control statement. */
  function StmtCode(s: Stmt, t: nat, l: nat): (r: Emitted)
    ensures r.temps >= t && r.labels >= l
    decreases s
  {
    match s
    case Assign(x, e) =>
      var a := ExprCode(e, t);
      Emitted(a.code + [Copy(x, a.val)], a.temps, l)
    case Print(e) =>
      var a := ExprCode(e, t);
      Emitted(a.code + [Output(a.val)], a.temps, l)
    case ProcCall(n, args) =>
      var c := ArgsCode(args, t);
      Emitted(c.code + [CallProcedure(n, |args|)], c.temps, l)
    case If(c, th) =>
      // labels l (then) and l + 1 (end)
      var a := ExprCode(c, t);
      var b := StmtsCode(th, a.temps, l + 2);
      Emitted(a.code + [IfGoto(a.val, l), Goto(l + 1), Label(l)] + b.code + [Label(l + 1)], b.temps, b.labels)
    case IfElse(c, th, el) =>
      // labels l (then), l + 1 (else) and l + 2 (end)
      var a := ExprCode(c, t);
      var b1 := StmtsCode(th, a.temps, l + 3);
      var b2 := StmtsCode(el, b1.temps, b1.labels);
      Emitted(a.code + [IfGoto(a.val, l), Goto(l + 1), Label(l)] + b1.code + [Goto(l + 2), Label(l + 1)] +
              b2.code + [Label(l + 2)], b2.temps, b2.labels)
    case While(c, body) =>
      // labels l (begin) and l + 1 (end); the condition follows the begin label
      var a := ExprCode(c, t);
      var b := StmtsCode(body, a.temps, l + 2);
      Emitted([Label(l)] + a.code + [IfFalseGoto(a.val, l + 1)] + b.code + [Goto(l), Label(l + 1)], b.temps, b.labels)
    case DoUntil(body, c) =>
      // label l (begin); the body precedes the condition
      var b := StmtsCode(body, t, l + 1);
      var a := ExprCode(c, b.temps);
      Emitted([Label(l)] + b.code + a.code + [IfFalseGoto(a.val, l)], a.temps, b.labels)
    case Return(e) =>
      var a := ExprCode(e, t);
      Emitted(a.code + [Ret(a.val)], a.temps, l)
    case Halt => Emitted([Stop], t, l)
  }

  /** generateStatements: the statements in list order. */
  function StmtsCode(ss: seq<Stmt>, t: nat, l: nat): (r: Emitted)
    ensures r.temps >= t && r.labels >= l
    decreases ss
  {
    if ss == [] then Emitted([], t, l)
    else
      var p := StmtsCode(ss[..|ss| - 1], t, l);
      var s := StmtCode(ss[|ss| - 1], p.temps, p.labels);
      Emitted(p.code + s.code, s.temps, s.labels)
  }

  // ------------------------------------------------------------------
  // Declarations and the program
  // ------------------------------------------------------------------

  /** One `decl` line per local, in order. */
  function Decls(names: seq<string>): (r: seq<Instr>)
    ensures |r| == |names| && forall i :: 0 <= i < |names| ==> r[i] == Decl(names[i])
  {
    if names == [] then [] else Decls(names[..|names| - 1]) + [Decl(names[|names| - 1])]
  }

  /** One `param` line per formal parameter, in order. */
  function FormalParams(names: seq<string>): (r: seq<Instr>)
    ensures |r| == |names| && forall i :: 0 <= i < |names| ==> r[i] == FormalParam(names[i])
  {
    if names == [] then [] else FormalParams(names[..|names| - 1]) + [FormalParam(names[|names| - 1])]
  }

  /** One `global` line per global variable, in order. */
  function Globals(names: seq<string>): (r: seq<Instr>)
    ensures |r| == |names| && forall i :: 0 <= i < |names| ==> r[i] == Global(names[i])
  {
    if names == [] then [] else Globals(names[..|names| - 1]) + [Global(names[|names| - 1])]
  }

  /** generateBody: the locals, then the statements, between two comments. */
  function BodyCode(b: Body, t: nat, l: nat): (r: Emitted)
    ensures r.temps >= t && r.labels >= l
  {
    var s := StmtsCode(b.statements, t, l);
    Emitted([BodyBegin] + Decls(b.locals) + s.code + [BodyEnd], s.temps, s.labels)
  }

  /** generateProcDef: header, parameters, body, trailer. */
  function ProcDefCode(d: ProcDef, t: nat, l: nat): (r: Emitted)
    ensures r.temps >= t && r.labels >= l
  {
    var b := BodyCode(d.body, t, l);
    Emitted([ProcHeader(d.name)] + FormalParams(d.params) + b.code + [EndProc], b.temps, b.labels)
  }

  /** generateFuncDef: as a procedure, with the function header and trailer. */
  function FuncDefCode(d: FuncDef, t: nat, l: nat): (r: Emitted)
    ensures r.temps >= t && r.labels >= l
  {
    var b := BodyCode(d.body, t, l);
    Emitted([FuncHeader(d.name)] + FormalParams(d.params) + b.code + [EndFunc], b.temps, b.labels)
  }

  /** generateMain: header, locals, statements, trailer. */
  function MainCode(m: MainProg, t: nat, l: nat): (r: Emitted)
    ensures r.temps >= t && r.labels >= l
  {
    var s := StmtsCode(m.statements, t, l);
    Emitted([MainHeader] + Decls(m.locals) + s.code + [EndMain], s.temps, s.labels)
  }

  /** The procedure loop of generateProgram. */
  function ProcDefsCode(ps: seq<ProcDef>, t: nat, l: nat): (r: Emitted)
    ensures r.temps >= t && r.labels >= l
  {
    if ps == [] then Emitted([], t, l)
    else
      var p := ProcDefsCode(ps[..|ps| - 1], t, l);
      var d := ProcDefCode(ps[|ps| - 1], p.temps, p.labels);
      Emitted(p.code + d.code, d.temps, d.labels)
  }

  /** The function loop of generateProgram. */
  function FuncDefsCode(fs: seq<FuncDef>, t: nat, l: nat): (r: Emitted)
    ensures r.temps >= t && r.labels >= l
  {
    if fs == [] then Emitted([], t, l)
    else
      var p := FuncDefsCode(fs[..|fs| - 1], t, l);
      var d := FuncDefCode(fs[|fs| - 1], p.temps, p.labels);
      Emitted(p.code + d.code, d.temps, d.labels)
  }

  /** generateProgram: globals, procedures, functions, main, between two comments. */
  function ProgramCode(p: Program, t: nat, l: nat): (r: Emitted)
    ensures r.temps >= t && r.labels >= l
  {
    var pc := ProcDefsCode(p.procs, t, l);
    var fc := FuncDefsCode(p.funcs, pc.temps, pc.labels);
    var mc := MainCode(p.main, fc.temps, fc.labels);
    Emitted([ProgramStart] + Globals(p.globals) + pc.code + fc.code + mc.code + [ProgramEnd], mc.temps, mc.labels)
  }
}
