/**
 * The SPL abstract syntax tree, the lexical validators for identifiers,
 * number constants and string literals, and the checkNames traversal that
 * runs the validators over a tree.
 *
 * Every AstNodeList becomes a `seq`; a null list is the empty sequence
 * (every consumer treats the two alike). Operators stay strings, as in the
 * tree the parser builds, so that an unexpected operator can be represented.
 */
module Ast {
  import opened Text
  import opened Wrappers

  datatype Expr =
    | Var(name: string)
    | Number(value: string)
    | Str(value: string)
    | Unary(op: string, operand: Expr)
    | Binary(left: Expr, op: string, right: Expr)
    | FuncCall(name: string, args: seq<Expr>)

  datatype Stmt =
    | Halt
    | Print(expr: Expr)
    | ProcCall(name: string, args: seq<Expr>)
    | Assign(target: string, expr: Expr)
    | If(cond: Expr, thenBranch: seq<Stmt>)
    | IfElse(cond: Expr, thenBranch: seq<Stmt>, elseBranch: seq<Stmt>)
    | While(cond: Expr, body: seq<Stmt>)
    | DoUntil(body: seq<Stmt>, cond: Expr)
    | Return(expr: Expr)

  datatype Body = Body(locals: seq<string>, statements: seq<Stmt>)

  datatype ProcDef = ProcDef(name: string, params: seq<string>, body: Body)

  datatype FuncDef = FuncDef(name: string, params: seq<string>, body: Body)

  datatype MainProg = MainProg(locals: seq<string>, statements: seq<Stmt>)

  datatype Program = Program(globals: seq<string>, procs: seq<ProcDef>, funcs: seq<FuncDef>, main: MainProg)

  // ------------------------------------------------------------------
  // Lexical validators
  // ------------------------------------------------------------------

  const ReservedKeywords: set<string> := {
    "glob", "proc", "func", "main", "return", "local", "var", "halt", "print",
    "while", "do", "until", "if", "else",
    "neg", "not", "eq", ">", "or", "and", "plus", "minus", "mult", "div"
  }

  /** The message a validator writes to the error stream when it rejects its argument. */
  datatype NameError =
    | ReservedWord(name: string)
    | MalformedIdentifier(name: string)
    | MalformedNumber(value: string)
    | StringTooLong(value: string)
    | MalformedString(value: string)

  /** `[a-z0-9]*`, matched left to right. */
  function MatchLowerOrDigitStar(s: string): (m: bool)
    ensures m <==> forall i :: 0 <= i < |s| ==> IsLower(s[i]) || IsDigit(s[i])
  {
    s == [] || ((IsLower(s[0]) || IsDigit(s[0])) && MatchLowerOrDigitStar(s[1..]))
  }

  /** `[0-9]*`, matched left to right. */
  function MatchDigitStar(s: string): (m: bool)
    ensures m <==> AllDigits(s)
  {
    s == [] || (IsDigit(s[0]) && MatchDigitStar(s[1..]))
  }

  /** `[A-Za-z0-9]{0,k}`, matched left to right. */
  function MatchAlnumUpTo(s: string, k: nat): (m: bool)
    ensures m <==> |s| <= k && forall i :: 0 <= i < |s| ==> IsAlnum(s[i])
  {
    s == [] || (k > 0 && IsAlnum(s[0]) && MatchAlnumUpTo(s[1..], k - 1))
  }

  /** The anchored pattern `^[a-z][a-z0-9]*$`. */
  predicate IdentPattern(s: string) {
    |s| >= 1 && IsLower(s[0]) && MatchLowerOrDigitStar(s[1..])
  }

  /** The anchored pattern `^(0|[1-9][0-9]*)$`. */
  predicate NumberPattern(s: string) {
    s == "0" || (|s| >= 1 && '1' <= s[0] <= '9' && MatchDigitStar(s[1..]))
  }

  /** The anchored pattern `^[A-Za-z0-9]{0,15}$`. */
  predicate StringPattern(s: string) {
    MatchAlnumUpTo(s, 15)
  }

  /** What checkIdentifier reports: the reserved-word test comes before the
      pattern, and a rejection names the rejected text. */
  function IdentifierError(name: string): (r: Option<NameError>)
    ensures r == Some(ReservedWord(name)) <==> name in ReservedKeywords
    ensures r.Some? ==> r == Some(ReservedWord(name)) || r == Some(MalformedIdentifier(name))
    ensures |name| == 0 ==> r == Some(MalformedIdentifier(name))
  {
    if name in ReservedKeywords then Some(ReservedWord(name))
    else if !IdentPattern(name) then Some(MalformedIdentifier(name))
    else None
  }

  /** What checkNumber reports: one message naming the rejected text; a lone
      zero is accepted and any other leading zero is rejected. */
  function NumberError(value: string): (r: Option<NameError>)
    ensures r.Some? ==> r == Some(MalformedNumber(value))
    ensures value == "0" ==> r.None?
    ensures |value| >= 2 && value[0] == '0' ==> r.Some?
  {
    if !NumberPattern(value) then Some(MalformedNumber(value)) else None
  }

  /** What checkString reports: the length test comes before the pattern, so
      an overlong literal is reported as such whatever its characters; the
      empty literal is accepted. */
  function StringError(value: string): (r: Option<NameError>)
    ensures |value| > 15 ==> r == Some(StringTooLong(value))
    ensures r.Some? && |value| <= 15 ==> r == Some(MalformedString(value))
    ensures value == [] ==> r.None?
  {
    if |value| > 15 then Some(StringTooLong(value))
    else if !StringPattern(value) then Some(MalformedString(value))
    else None
  }

  predicate CheckIdentifier(name: string) { IdentifierError(name).None? }

  predicate CheckNumber(value: string) { NumberError(value).None? }

  predicate CheckString(value: string) { StringError(value).None? }

  /** No reserved word is a valid identifier. */
  lemma ReservedWordsRejected(w: string)
    requires w in ReservedKeywords
    ensures !CheckIdentifier(w) && IdentifierError(w) == Some(ReservedWord(w))
  {
  }

  /** checkIdentifier accepts exactly the non-reserved words made of a lower-case
      letter followed by lower-case letters and digits. */
  lemma IdentifierCharacterisation(s: string)
    ensures CheckIdentifier(s) <==>
      s !in ReservedKeywords && |s| >= 1 && IsLower(s[0]) &&
      forall i :: 1 <= i < |s| ==> IsLower(s[i]) || IsDigit(s[i])
  {
    if |s| >= 1 {
      assert forall i :: 1 <= i < |s| ==> s[1..][i - 1] == s[i];
    }
  }

  /** checkNumber accepts "0" and the non-empty digit strings that do not start with '0'. */
  lemma NumberCharacterisation(s: string)
    ensures CheckNumber(s) <==> s == "0" || (|s| >= 1 && AllDigits(s) && s[0] != '0')
  {
    if |s| >= 1 {
      assert forall i :: 1 <= i < |s| ==> s[1..][i - 1] == s[i];
    }
  }

  /** Every rendering of a non-negative counter passes checkNumber ... */
  lemma RenderedNumbersAccepted(n: nat)
    ensures CheckNumber(NatToString(n))
  {
    NumberCharacterisation(NatToString(n));
  }

  /** ... and every accepted number constant is the rendering of its own value,
      so checkNumber accepts exactly the canonical decimal forms. */
  lemma AcceptedNumbersCanonical(s: string)
    requires CheckNumber(s)
    ensures AllDigits(s) && NatToString(ParseDigits(s)) == s
  {
    NumberCharacterisation(s);
    NatToStringParse(s);
  }

  /** checkString accepts exactly the strings of 0 to 15 ASCII letters and digits;
      its explicit length test never changes the verdict of the pattern. */
  lemma StringCharacterisation(s: string)
    ensures CheckString(s) <==> |s| <= 15 && forall i :: 0 <= i < |s| ==> IsAlnum(s[i])
    ensures CheckString(s) == StringPattern(s)
    ensures |s| > 15 ==> StringError(s) == Some(StringTooLong(s))
  {
  }

  // ------------------------------------------------------------------
  // checkNames: the validators run over a tree, in visiting order
  // ------------------------------------------------------------------

  /** One validator call made by checkNames. */
  datatype NameCheck = IdentCheck(name: string) | NumberCheck(value: string) | StringCheck(value: string)

  function Verdict(c: NameCheck): Option<NameError> {
    match c
    case IdentCheck(n) => IdentifierError(n)
    case NumberCheck(v) => NumberError(v)
    case StringCheck(v) => StringError(v)
  }

  /** The messages a sequence of validator calls writes, in order. */
  function Reports(cs: seq<NameCheck>): (r: seq<NameError>)
    ensures |r| <= |cs|
  {
    if cs == [] then []
    else
      var rest := Reports(cs[1..]);
      match Verdict(cs[0])
      case Some(e) => [e] + rest
      case None => rest
  }

  // The names a tree carries, each valid for its kind: the property the
  // checkNames walk is meant to establish, stated without the walk.

  predicate IdentsValid(names: seq<string>) {
    forall i :: 0 <= i < |names| ==> CheckIdentifier(names[i])
  }

  predicate ExprNamesValid(e: Expr) {
    match e
    case Var(n) => CheckIdentifier(n)
    case Number(v) => CheckNumber(v)
    case Str(v) => CheckString(v)
    case Unary(_, x) => ExprNamesValid(x)
    case Binary(l, _, r) => ExprNamesValid(l) && ExprNamesValid(r)
    case FuncCall(n, args) => CheckIdentifier(n) && forall i :: 0 <= i < |args| ==> ExprNamesValid(args[i])
  }

  predicate StmtNamesValid(s: Stmt) {
    match s
    case Halt => true
    case Print(e) => ExprNamesValid(e)
    case ProcCall(n, args) => CheckIdentifier(n) && forall i :: 0 <= i < |args| ==> ExprNamesValid(args[i])
    case Assign(x, e) => CheckIdentifier(x) && ExprNamesValid(e)
    case If(c, t) => ExprNamesValid(c) && forall i :: 0 <= i < |t| ==> StmtNamesValid(t[i])
    case IfElse(c, t, f) =>
      ExprNamesValid(c) && (forall i :: 0 <= i < |t| ==> StmtNamesValid(t[i])) &&
      forall i :: 0 <= i < |f| ==> StmtNamesValid(f[i])
    case While(c, b) => ExprNamesValid(c) && forall i :: 0 <= i < |b| ==> StmtNamesValid(b[i])
    case DoUntil(b, c) => ExprNamesValid(c) && forall i :: 0 <= i < |b| ==> StmtNamesValid(b[i])
    case Return(e) => ExprNamesValid(e)
  }

  predicate BlockNamesValid(locals: seq<string>, ss: seq<Stmt>) {
    IdentsValid(locals) && forall i :: 0 <= i < |ss| ==> StmtNamesValid(ss[i])
  }

  predicate RoutineNamesValid(name: string, params: seq<string>, b: Body) {
    CheckIdentifier(name) && IdentsValid(params) && BlockNamesValid(b.locals, b.statements)
  }

  predicate ProcNamesValid(d: ProcDef) {
    RoutineNamesValid(d.name, d.params, d.body)
  }

  predicate FuncNamesValid(d: FuncDef) {
    RoutineNamesValid(d.name, d.params, d.body)
  }

  predicate ProgramNamesValid(p: Program) {
    IdentsValid(p.globals) &&
    (forall i :: 0 <= i < |p.procs| ==> ProcNamesValid(p.procs[i])) &&
    (forall i :: 0 <= i < |p.funcs| ==> FuncNamesValid(p.funcs[i])) &&
    BlockNamesValid(p.main.locals, p.main.statements)
  }

  /** The messages of a list of checks are silent exactly when those of both halves are. */
  lemma SilentAppend(a: seq<NameCheck>, b: seq<NameCheck>)
    ensures Reports(a + b) == [] <==> Reports(a) == [] && Reports(b) == []
  {
    ReportsAppend(a, b);
  }

  /** The checks of a list of variables: silent exactly when every name is a valid identifier. */
  function VarChecks(names: seq<string>): (r: seq<NameCheck>)
    ensures |r| == |names| && forall i :: 0 <= i < |names| ==> r[i] == IdentCheck(names[i])
    ensures Reports(r) == [] <==> IdentsValid(names)
  {
    if names == [] then []
    else
      var rest := VarChecks(names[1..]);
      SilentAppend([IdentCheck(names[0])], rest);
      assert forall i :: 1 <= i < |names| ==> names[1..][i - 1] == names[i];
      [IdentCheck(names[0])] + rest
  }

  /** checkNames on an expression: silent exactly when every name in it is valid. */
  function ExprChecks(e: Expr): (r: seq<NameCheck>)
    ensures Reports(r) == [] <==> ExprNamesValid(e)
    decreases e, 1
  {
    match e
    case Var(n) => [IdentCheck(n)]
    case Number(v) => [NumberCheck(v)]
    case Str(v) => [StringCheck(v)]
    case Unary(_, x) => ExprChecks(x)
    case Binary(l, _, r) =>
      SilentAppend(ExprChecks(l), ExprChecks(r));
      ExprChecks(l) + ExprChecks(r)
    case FuncCall(n, args) =>
      SilentAppend([IdentCheck(n)], ArgChecks(args));
      [IdentCheck(n)] + ArgChecks(args)
  }

  /** checkNames on an argument list: silent exactly when every argument is. */
  function ArgChecks(args: seq<Expr>): (r: seq<NameCheck>)
    ensures Reports(r) == [] <==> forall i :: 0 <= i < |args| ==> ExprNamesValid(args[i])
    decreases args, 0
  {
    if args == [] then []
    else
      var rest := ArgChecks(args[1..]);
      SilentAppend(ExprChecks(args[0]), rest);
      assert forall i :: 1 <= i < |args| ==> args[1..][i - 1] == args[i];
      ExprChecks(args[0]) + rest
  }

  /** checkNames on a statement: silent exactly when every name in it is valid. */
  function StmtChecks(s: Stmt): (r: seq<NameCheck>)
    ensures Reports(r) == [] <==> StmtNamesValid(s)
    decreases s, 1
  {
    match s
    case Halt => []
    case Print(e) => ExprChecks(e)
    case ProcCall(n, args) =>
      SilentAppend([IdentCheck(n)], ArgChecks(args));
      [IdentCheck(n)] + ArgChecks(args)
    case Assign(x, e) =>
      SilentAppend([IdentCheck(x)], ExprChecks(e));
      [IdentCheck(x)] + ExprChecks(e)
    case If(c, t) =>
      SilentAppend(ExprChecks(c), StmtListChecks(t));
      ExprChecks(c) + StmtListChecks(t)
    case IfElse(c, t, f) =>
      SilentAppend(ExprChecks(c), StmtListChecks(t));
      SilentAppend(ExprChecks(c) + StmtListChecks(t), StmtListChecks(f));
      ExprChecks(c) + StmtListChecks(t) + StmtListChecks(f)
    case While(c, b) =>
      SilentAppend(ExprChecks(c), StmtListChecks(b));
      ExprChecks(c) + StmtListChecks(b)
    case DoUntil(b, c) =>
      SilentAppend(StmtListChecks(b), ExprChecks(c));
      StmtListChecks(b) + ExprChecks(c)
    case Return(e) => ExprChecks(e)
  }

  /** checkNames on a statement list: silent exactly when every statement is. */
  function StmtListChecks(ss: seq<Stmt>): (r: seq<NameCheck>)
    ensures Reports(r) == [] <==> forall i :: 0 <= i < |ss| ==> StmtNamesValid(ss[i])
    decreases ss, 0
  {
    if ss == [] then []
    else
      var rest := StmtListChecks(ss[1..]);
      SilentAppend(StmtChecks(ss[0]), rest);
      assert forall i :: 1 <= i < |ss| ==> ss[1..][i - 1] == ss[i];
      StmtChecks(ss[0]) + rest
  }

  /** A body validates its locals, then its statements. */
  function BodyChecks(b: Body): (r: seq<NameCheck>)
    ensures Reports(r) == Reports(VarChecks(b.locals)) + Reports(StmtListChecks(b.statements))
    ensures Reports(r) == [] <==> BlockNamesValid(b.locals, b.statements)
  {
    ReportsAppend(VarChecks(b.locals), StmtListChecks(b.statements));
    VarChecks(b.locals) + StmtListChecks(b.statements)
  }

  /** A procedure validates its own name, then its parameters, then its body. */
  function ProcDefChecks(p: ProcDef): (r: seq<NameCheck>)
    ensures Reports(r) == Reports([IdentCheck(p.name)]) + Reports(VarChecks(p.params)) + Reports(BodyChecks(p.body))
    ensures Reports(r) == [] <==> ProcNamesValid(p)
  {
    RoutineReports(p.name, p.params, p.body)
  }

  /** A function validates its own name, then its parameters, then its body. */
  function FuncDefChecks(f: FuncDef): (r: seq<NameCheck>)
    ensures Reports(r) == Reports([IdentCheck(f.name)]) + Reports(VarChecks(f.params)) + Reports(BodyChecks(f.body))
    ensures Reports(r) == [] <==> FuncNamesValid(f)
  {
    RoutineReports(f.name, f.params, f.body)
  }

  /** The checks of a procedure or function definition, shared by both kinds. */
  function RoutineReports(name: string, params: seq<string>, b: Body): (r: seq<NameCheck>)
    ensures Reports(r) == Reports([IdentCheck(name)]) + Reports(VarChecks(params)) + Reports(BodyChecks(b))
    ensures Reports(r) == [] <==> RoutineNamesValid(name, params, b)
  {
    ReportsAppend([IdentCheck(name)], VarChecks(params));
    ReportsAppend([IdentCheck(name)] + VarChecks(params), BodyChecks(b));
    [IdentCheck(name)] + VarChecks(params) + BodyChecks(b)
  }

  lemma AllProcsValidCons(ps: seq<ProcDef>)
    requires ps != []
    ensures (forall i :: 0 <= i < |ps| ==> ProcNamesValid(ps[i])) <==>
      ProcNamesValid(ps[0]) && forall i :: 0 <= i < |ps[1..]| ==> ProcNamesValid(ps[1..][i])
  {
    assert forall i :: 1 <= i < |ps| ==> ps[1..][i - 1] == ps[i];
  }

  lemma AllFuncsValidCons(fs: seq<FuncDef>)
    requires fs != []
    ensures (forall i :: 0 <= i < |fs| ==> FuncNamesValid(fs[i])) <==>
      FuncNamesValid(fs[0]) && forall i :: 0 <= i < |fs[1..]| ==> FuncNamesValid(fs[1..][i])
  {
    assert forall i :: 1 <= i < |fs| ==> fs[1..][i - 1] == fs[i];
  }

  /** checkNames on the procedure list: silent exactly when every procedure is. */
  function ProcListChecks(ps: seq<ProcDef>): (r: seq<NameCheck>)
    ensures Reports(r) == [] <==> forall i :: 0 <= i < |ps| ==> ProcNamesValid(ps[i])
  {
    if ps == [] then []
    else
      var rest := ProcListChecks(ps[1..]);
      SilentAppend(ProcDefChecks(ps[0]), rest);
      AllProcsValidCons(ps);
      ProcDefChecks(ps[0]) + rest
  }

  /** checkNames on the function list: silent exactly when every function is. */
  function FuncListChecks(fs: seq<FuncDef>): (r: seq<NameCheck>)
    ensures Reports(r) == [] <==> forall i :: 0 <= i < |fs| ==> FuncNamesValid(fs[i])
  {
    if fs == [] then []
    else
      var rest := FuncListChecks(fs[1..]);
      SilentAppend(FuncDefChecks(fs[0]), rest);
      AllFuncsValidCons(fs);
      FuncDefChecks(fs[0]) + rest
  }

  // The list walks visit their elements in list order: the checks of a
  // concatenation are those of the first part followed by those of the second.

  lemma {:induction false} ArgChecksAppend(a: seq<Expr>, b: seq<Expr>)
    ensures ArgChecks(a + b) == ArgChecks(a) + ArgChecks(b)
  {
    if a != [] {
      assert (a + b)[0] == a[0] && (a + b)[1..] == a[1..] + b;
      ArgChecksAppend(a[1..], b);
    } else {
      assert a + b == b;
    }
  }

  lemma {:induction false} StmtListChecksAppend(a: seq<Stmt>, b: seq<Stmt>)
    ensures StmtListChecks(a + b) == StmtListChecks(a) + StmtListChecks(b)
  {
    if a != [] {
      assert (a + b)[0] == a[0] && (a + b)[1..] == a[1..] + b;
      StmtListChecksAppend(a[1..], b);
    } else {
      assert a + b == b;
    }
  }

  lemma {:induction false} ProcListChecksAppend(a: seq<ProcDef>, b: seq<ProcDef>)
    ensures ProcListChecks(a + b) == ProcListChecks(a) + ProcListChecks(b)
  {
    if a != [] {
      assert (a + b)[0] == a[0] && (a + b)[1..] == a[1..] + b;
      ProcListChecksAppend(a[1..], b);
    } else {
      assert a + b == b;
    }
  }

  lemma {:induction false} FuncListChecksAppend(a: seq<FuncDef>, b: seq<FuncDef>)
    ensures FuncListChecks(a + b) == FuncListChecks(a) + FuncListChecks(b)
  {
    if a != [] {
      assert (a + b)[0] == a[0] && (a + b)[1..] == a[1..] + b;
      FuncListChecksAppend(a[1..], b);
    } else {
      assert a + b == b;
    }
  }

  /** The main block validates its locals, then its statements. */
  function MainChecks(m: MainProg): (r: seq<NameCheck>)
    ensures Reports(r) == Reports(VarChecks(m.locals)) + Reports(StmtListChecks(m.statements))
    ensures Reports(r) == [] <==> BlockNamesValid(m.locals, m.statements)
  {
    ReportsAppend(VarChecks(m.locals), StmtListChecks(m.statements));
    VarChecks(m.locals) + StmtListChecks(m.statements)
  }

  /** checkNames on a program: globals, procedures, functions, then main, in that
      order; it is silent exactly when every name in the program is valid. */
  function ProgramChecks(p: Program): (r: seq<NameCheck>)
    ensures Reports(r) == Reports(VarChecks(p.globals)) + Reports(ProcListChecks(p.procs)) +
                          Reports(FuncListChecks(p.funcs)) + Reports(MainChecks(p.main))
    ensures Reports(r) == [] <==> ProgramNamesValid(p)
  {
    var g := VarChecks(p.globals);
    var ps := ProcListChecks(p.procs);
    var fs := FuncListChecks(p.funcs);
    var m := MainChecks(p.main);
    ReportsAppend(g, ps);
    ReportsAppend(g + ps, fs);
    ReportsAppend(g + ps + fs, m);
    g + ps + fs + m
  }

  /** The messages of two consecutive visits are those of each, in visiting order. */
  lemma {:induction false} ReportsAppend(a: seq<NameCheck>, b: seq<NameCheck>)
    ensures Reports(a + b) == Reports(a) + Reports(b)
  {
    if a != [] {
      assert (a + b)[0] == a[0] && (a + b)[1..] == a[1..] + b;
      ReportsAppend(a[1..], b);
      match Verdict(a[0])
      case Some(e) =>
        assert [e] + (Reports(a[1..]) + Reports(b)) == ([e] + Reports(a[1..])) + Reports(b);
      case None =>
    } else {
      assert a + b == b;
    }
  }

  /** checkNames is silent exactly when every validator it calls accepts. */
  lemma {:induction false} SilentIffAllAccepted(cs: seq<NameCheck>)
    ensures Reports(cs) == [] <==> forall i :: 0 <= i < |cs| ==> Verdict(cs[i]).None?
  {
    if cs != [] {
      SilentIffAllAccepted(cs[1..]);
      assert forall i :: 1 <= i < |cs| ==> cs[1..][i - 1] == cs[i];
    }
  }

  /** Each report names the offending text of a validator call that was made. */
  lemma {:induction false} ReportsComeFromChecks(cs: seq<NameCheck>, k: nat)
    requires k < |Reports(cs)|
    ensures exists i :: 0 <= i < |cs| && Verdict(cs[i]) == Some(Reports(cs)[k])
  {
    var rest := Reports(cs[1..]);
    match Verdict(cs[0])
    case Some(e) =>
      if k > 0 {
        ReportsComeFromChecks(cs[1..], k - 1);
        var i :| 0 <= i < |cs[1..]| && Verdict(cs[1..][i]) == Some(rest[k - 1]);
        assert Verdict(cs[i + 1]) == Some(Reports(cs)[k]);
      } else {
        assert Verdict(cs[0]) == Some(Reports(cs)[k]);
      }
    case None =>
      ReportsComeFromChecks(cs[1..], k);
      var i :| 0 <= i < |cs[1..]| && Verdict(cs[1..][i]) == Some(rest[k]);
      assert Verdict(cs[i + 1]) == Some(Reports(cs)[k]);
  }
}
