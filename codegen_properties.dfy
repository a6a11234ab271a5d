/**
 * What the emitted code guarantees: every temporary is assigned exactly once,
 * in allocation order; every label is defined exactly once and every jump
 * targets a label defined by the same statement; each call receives exactly
 * the values of its arguments through its `param` lines; and the counters
 * make every name the emitter invents fresh.
 */
module CodegenProperties {
  import opened Wrappers
  import opened Seqs
  import opened Text
  import opened Ast
  import opened Codegen

  // ------------------------------------------------------------------
  // Views of an instruction sequence
  // ------------------------------------------------------------------

  /** The temporaries a line assigns. */
  function TempsDefinedBy(i: Instr): seq<string> {
    match i
    case LoadNumber(d, _) => [d]
    case LoadString(d, _) => [d]
    case ApplyUnary(d, _, _) => [d]
    case ApplyBinary(d, _, _, _) => [d]
    case CallFunction(d, _, _) => [d]
    case _ => []
  }

  /** The temporaries the code assigns, in order. */
  function TempDefs(code: seq<Instr>): seq<string> {
    if code == [] then [] else TempsDefinedBy(code[0]) + TempDefs(code[1..])
  }

  /** A line that neither defines a label nor jumps. */
  predicate QuietLine(i: Instr) {
    !i.Label? && !i.Goto? && !i.IfGoto? && !i.IfFalseGoto?
  }

  /** No line of the code defines a label or jumps. */
  predicate Quiet(code: seq<Instr>) {
    code == [] || (QuietLine(code[0]) && Quiet(code[1..]))
  }

  /** Whether a line defines label k. */
  function LineLabel(i: Instr, k: nat): nat {
    if i == Label(k) then 1 else 0
  }

  /** How many lines of the code define label k. */
  function LabelCount(code: seq<Instr>, k: nat): nat {
    if code == [] then 0 else LineLabel(code[0], k) + LabelCount(code[1..], k)
  }

  /** Whether a line may jump to label k. */
  predicate JumpLine(i: Instr, k: nat) {
    match i
    case Goto(j) => j == k
    case IfGoto(_, j) => j == k
    case IfFalseGoto(_, j) => j == k
    case _ => false
  }

  /** Whether some line of the code may jump to label k. */
  predicate JumpsTo(code: seq<Instr>, k: nat) {
    code != [] && (JumpLine(code[0], k) || JumpsTo(code[1..], k))
  }

  /** The pending `param` values after one line: a `param` pushes its value and
      a call with n arguments takes the last n; None when a call finds fewer. */
  function ParamStep(i: Instr, st: seq<string>): Option<seq<string>> {
    match i
    case Param(a) => Some(st + [a])
    case CallFunction(_, _, n) => if n <= |st| then Some(st[..|st| - n]) else None
    case CallProcedure(_, n) => if n <= |st| then Some(st[..|st| - n]) else None
    case _ => Some(st)
  }

  /** The pending `param` values after the code, read straight through. */
  function ParamStack(code: seq<Instr>, st: seq<string>): Option<seq<string>>
    decreases code
  {
    if code == [] then Some(st)
    else match ParamStep(code[0], st)
      case None => None
      case Some(next) => ParamStack(code[1..], next)
  }

  /** The temporaries numbered t up to (not including) m, in order. */
  function TempSeq(t: nat, m: nat): (r: seq<string>)
    requires t <= m
    ensures |r| == m - t
    decreases m - t
  {
    if m == t then [] else TempSeq(t, m - 1) + [TempName(m - 1)]
  }

  /** The code assigns exactly the temporaries t..m-1, once each and in that
      order, and neither defines nor jumps to a label. */
  predicate AssignsTemps(code: seq<Instr>, t: nat, m: nat) {
    t <= m && TempDefs(code) == TempSeq(t, m) && Quiet(code)
  }

  /** The code defines each label numbered l..n-1 exactly once and no other,
      and jumps only to those labels. */
  ghost predicate LabelsNumbered(code: seq<Instr>, l: nat, n: nat) {
    l <= n && forall k: nat :: LabelCount(code, k) == (if l <= k < n then 1 else 0) && (JumpsTo(code, k) ==> l <= k < n)
  }

  /** The code assigns exactly the temporaries t..m-1, once each and in that
      order, and its labels are l..n-1. */
  ghost predicate WellNumbered(code: seq<Instr>, t: nat, m: nat, l: nat, n: nat) {
    t <= m && TempDefs(code) == TempSeq(t, m) && LabelsNumbered(code, l, n)
  }

  /** Whatever `param` values are pending, the code leaves them as it found them. */
  ghost predicate Balanced(code: seq<Instr>) {
    forall st :: ParamStack(code, st) == Some(st)
  }

  // ------------------------------------------------------------------
  // The views distribute over concatenation
  // ------------------------------------------------------------------

  lemma {:induction false} TempsAppend(a: seq<Instr>, b: seq<Instr>)
    ensures TempDefs(a + b) == TempDefs(a) + TempDefs(b)
    ensures Quiet(a + b) == (Quiet(a) && Quiet(b))
    decreases a
  {
    if a != [] {
      assert (a + b)[0] == a[0] && (a + b)[1..] == a[1..] + b;
      TempsAppend(a[1..], b);
      AppendAssoc(TempsDefinedBy(a[0]), TempDefs(a[1..]), TempDefs(b));
    } else {
      assert a + b == b;
    }
  }

  lemma {:induction false} LabelsAppend(a: seq<Instr>, b: seq<Instr>, k: nat)
    ensures LabelCount(a + b, k) == LabelCount(a, k) + LabelCount(b, k)
    ensures JumpsTo(a + b, k) == (JumpsTo(a, k) || JumpsTo(b, k))
    decreases a
  {
    if a != [] {
      assert (a + b)[0] == a[0] && (a + b)[1..] == a[1..] + b;
      LabelsAppend(a[1..], b, k);
    } else {
      assert a + b == b;
    }
  }

  /** Code that is quiet defines and targets no label. */
  lemma {:induction false} QuietUnlabelled(code: seq<Instr>, k: nat)
    requires Quiet(code)
    ensures LabelCount(code, k) == 0 && !JumpsTo(code, k)
    decreases code
  {
    if code != [] {
      QuietUnlabelled(code[1..], k);
    }
  }

  lemma TempsOne(i: Instr)
    ensures TempDefs([i]) == TempsDefinedBy(i) && Quiet([i]) == QuietLine(i)
  {
    assert [i][1..] == [];
  }

  lemma LabelsOne(i: Instr, k: nat)
    ensures LabelCount([i], k) == LineLabel(i, k) && JumpsTo([i], k) == JumpLine(i, k)
  {
    assert [i][1..] == [];
  }

  lemma Temps2(x: Instr, y: Instr)
    ensures TempDefs([x, y]) == TempsDefinedBy(x) + TempsDefinedBy(y)
  {
    assert [x, y] == [x] + [y];
    TempsAppend([x], [y]);
    TempsOne(x);
    TempsOne(y);
  }

  lemma Labels2(x: Instr, y: Instr, k: nat)
    ensures LabelCount([x, y], k) == LineLabel(x, k) + LineLabel(y, k)
    ensures JumpsTo([x, y], k) == (JumpLine(x, k) || JumpLine(y, k))
  {
    assert [x, y] == [x] + [y];
    LabelsAppend([x], [y], k);
    LabelsOne(x, k);
    LabelsOne(y, k);
  }

  lemma Temps3(x: Instr, y: Instr, z: Instr)
    ensures TempDefs([x, y, z]) == TempsDefinedBy(x) + TempsDefinedBy(y) + TempsDefinedBy(z)
  {
    assert [x, y, z] == [x, y] + [z];
    TempsAppend([x, y], [z]);
    Temps2(x, y);
    TempsOne(z);
  }

  lemma Labels3(x: Instr, y: Instr, z: Instr, k: nat)
    ensures LabelCount([x, y, z], k) == LineLabel(x, k) + LineLabel(y, k) + LineLabel(z, k)
    ensures JumpsTo([x, y, z], k) == (JumpLine(x, k) || JumpLine(y, k) || JumpLine(z, k))
  {
    assert [x, y, z] == [x, y] + [z];
    LabelsAppend([x, y], [z], k);
    Labels2(x, y, k);
    LabelsOne(z, k);
  }

  lemma {:induction false} ParamStackAppend(a: seq<Instr>, b: seq<Instr>, st: seq<string>)
    ensures ParamStack(a + b, st) ==
      match ParamStack(a, st) case None => None case Some(mid) => ParamStack(b, mid)
    decreases a
  {
    if a != [] {
      assert (a + b)[0] == a[0] && (a + b)[1..] == a[1..] + b;
      match ParamStep(a[0], st)
      case None =>
      case Some(next) => ParamStackAppend(a[1..], b, next);
    } else {
      assert a + b == b;
    }
  }

  // ------------------------------------------------------------------
  // Fresh names
  // ------------------------------------------------------------------

  /** newTemp never answers the same name twice. */
  lemma TempNamesDistinct(i: nat, j: nat)
    ensures TempName(i) == TempName(j) <==> i == j
  {
    if TempName(i) == TempName(j) {
      assert TempName(i)[1..] == NatToString(i) && TempName(j)[1..] == NatToString(j);
      NatToStringInjective(i, j);
    }
  }

  /** newLabel never answers the same name twice. */
  lemma LabelNamesDistinct(i: nat, j: nat)
    ensures LabelName(i) == LabelName(j) <==> i == j
  {
    if LabelName(i) == LabelName(j) {
      assert LabelName(i)[1..] == NatToString(i) && LabelName(j)[1..] == NatToString(j);
      NatToStringInjective(i, j);
    }
  }

  /** The label lines printed for two labels are the same line exactly when
      the labels are the same, so every label line on the output is unique. */
  lemma RenderedLabelsDistinct(i: nat, j: nat)
    ensures Render(Label(i)) == Render(Label(j)) <==> i == j
  {
    LabelNamesDistinct(i, j);
    if Render(Label(i)) == Render(Label(j)) {
      var a, b := Render(Label(i)), Render(Label(j));
      assert a[..|a| - 1] == LabelName(i) && b[..|b| - 1] == LabelName(j);
    }
  }

  /** An actual argument and a formal parameter print as the same line: the
      balance of `param` lines holds over instructions, and on the printed text
      only when the lines after a `proc` or `func` header are read as the
      routine's formals. */
  lemma ParamLinesLookAlike(n: string)
    ensures Render(FormalParam(n)) == Render(Param(n))
    ensures Render(Param(n))[..6] == "param "
  {
  }

  /** A temporary's name is a legal SPL identifier, so a program variable
      spelled like one (`t0`) shares its name: the emitter does not keep the
      two apart. A label's name starts with a capital and is no identifier. */
  lemma TempNameIsIdentifier(n: nat)
    ensures CheckIdentifier(TempName(n))
    ensures !CheckIdentifier(LabelName(n))
  {
    var s := TempName(n);
    forall i | 1 <= i < |s|
      ensures IsLower(s[i]) || IsDigit(s[i])
    {
      assert s[i] == s[1..][i - 1];
    }
    assert IsDigit(s[1]) by {
      assert s[1] == s[1..][0];
    }
    assert s !in ReservedKeywords;
    IdentifierCharacterisation(s);
    IdentifierCharacterisation(LabelName(n));
  }

  /** Entry i of TempSeq(t, m) is temporary t + i. */
  lemma {:induction false} TempSeqAt(t: nat, m: nat)
    requires t <= m
    ensures forall i :: 0 <= i < m - t ==> TempSeq(t, m)[i] == TempName(t + i)
    decreases m - t
  {
    if m > t {
      TempSeqAt(t, m - 1);
    }
  }

  lemma TempSeqAppend(t: nat, m: nat, n: nat)
    requires t <= m <= n
    ensures TempSeq(t, m) + TempSeq(m, n) == TempSeq(t, n)
  {
    TempSeqAt(t, m);
    TempSeqAt(m, n);
    TempSeqAt(t, n);
    var a := TempSeq(t, m) + TempSeq(m, n);
    assert forall i :: 0 <= i < |a| ==> a[i] == TempName(t + i);
  }

  lemma TempSeqSnoc(t: nat, m: nat)
    requires t <= m
    ensures TempSeq(t, m + 1) == TempSeq(t, m) + [TempName(m)]
  {
  }

  /** The temporaries of a run of allocations are pairwise distinct. */
  lemma TempSeqDistinct(t: nat, m: nat)
    requires t <= m
    ensures Distinct(TempSeq(t, m))
  {
    var r := TempSeq(t, m);
    TempSeqAt(t, m);
    forall i, j | 0 <= i < j < |r|
      ensures r[i] != r[j]
    {
      TempNamesDistinct(t + i, t + j);
    }
  }

  // ------------------------------------------------------------------
  // Composing the facts
  // ------------------------------------------------------------------

  /** Code that assigned the temporaries t..m-1 and then assigns temporary m
      with a line that is no label or jump assigns t..m. */
  lemma DefineNext(code: seq<Instr>, i: Instr, t: nat, m: nat)
    requires AssignsTemps(code, t, m)
    requires TempsDefinedBy(i) == [TempName(m)] && QuietLine(i)
    ensures AssignsTemps(code + [i], t, m + 1)
  {
    TempsAppend(code, [i]);
    TempsOne(i);
    TempSeqSnoc(t, m);
  }

  /** A line that assigns nothing and is no label or jump keeps the
      temporaries as they were. */
  lemma PassiveNext(code: seq<Instr>, i: Instr, t: nat, m: nat)
    requires AssignsTemps(code, t, m)
    requires TempsDefinedBy(i) == [] && QuietLine(i)
    ensures AssignsTemps(code + [i], t, m)
  {
    TempsAppend(code, [i]);
    TempsOne(i);
  }

  /** Two runs of consecutive temporaries make one. */
  lemma AssignsTempsAppend(a: seq<Instr>, b: seq<Instr>, t: nat, m: nat, n: nat)
    requires AssignsTemps(a, t, m) && AssignsTemps(b, m, n)
    ensures AssignsTemps(a + b, t, n)
  {
    TempsAppend(a, b);
    TempSeqAppend(t, m, n);
  }

  /** Code that assigns temporaries and has no labels is numbered with an
      empty label range. */
  lemma AssignsNumbered(code: seq<Instr>, t: nat, m: nat, l: nat)
    requires AssignsTemps(code, t, m)
    ensures WellNumbered(code, t, m, l, l)
  {
    forall k: nat
      ensures LabelCount(code, k) == 0 && !JumpsTo(code, k)
    {
      QuietUnlabelled(code, k);
    }
  }

  /** Statements laid out one after the other number their temporaries and
      labels consecutively. */
  lemma NumberedAppend(a: seq<Instr>, b: seq<Instr>, t: nat, m: nat, n: nat, l: nat, k: nat, j: nat)
    requires WellNumbered(a, t, m, l, k) && WellNumbered(b, m, n, k, j)
    ensures WellNumbered(a + b, t, n, l, j)
  {
    TempsAppend(a, b);
    TempSeqAppend(t, m, n);
    forall x: nat
      ensures LabelCount(a + b, x) == (if l <= x < j then 1 else 0) && (JumpsTo(a + b, x) ==> l <= x < j)
    {
      LabelsAppend(a, b, x);
    }
  }

  lemma BalancedAppend(a: seq<Instr>, b: seq<Instr>)
    requires Balanced(a) && Balanced(b)
    ensures Balanced(a + b)
  {
    forall st: seq<string> {
      ParamStackAppend(a, b, st);
    }
  }

  /** A line that neither passes a value nor calls keeps the pending values. */
  lemma BalancedLine(i: Instr)
    requires !i.Param? && !i.CallFunction? && !i.CallProcedure?
    ensures Balanced([i])
  {
    assert [i][1..] == [];
    forall st: seq<string>
      ensures ParamStack([i], st) == Some(st)
    {
      assert ParamStep(i, st) == Some(st);
    }
  }

  // ------------------------------------------------------------------
  // Expressions
  // ------------------------------------------------------------------

  /** An expression assigns exactly the temporaries it allocates, each once
      and in allocation order, and neither defines nor jumps to a label. */
  lemma {:induction false} ExprTemps(e: Expr, t: nat)
    ensures AssignsTemps(ExprCode(e, t).code, t, ExprCode(e, t).temps)
    decreases e
  {
    match e
    case Var(n) =>
      assert ExprCode(e, t) == Value([], n, t);
    case Number(v) =>
      FirstTemp(LoadNumber(TempName(t), v), t);
    case Str(v) =>
      FirstTemp(LoadString(TempName(t), v), t);
    case Unary(op, x) =>
      var a := ExprCode(x, t);
      ExprTemps(x, t);
      DefineNext(a.code, ApplyUnary(TempName(a.temps), op, a.val), t, a.temps);
    case Binary(x, op, y) =>
      var a := ExprCode(x, t);
      ExprTemps(x, t);
      ExprTemps(y, a.temps);
      BinaryTemps(a, ExprCode(y, a.temps), op, t);
    case FuncCall(n, args) =>
      var c := ArgsCode(args, t);
      ArgsTemps(args, t);
      DefineNext(c.code, CallFunction(TempName(c.temps), n, |args|), t, c.temps);
  }

  /** generateNumber and generateString: one line into a fresh temporary. */
  lemma FirstTemp(i: Instr, t: nat)
    requires TempsDefinedBy(i) == [TempName(t)] && QuietLine(i)
    ensures AssignsTemps([i], t, t + 1)
  {
    PlainNumbered([], t, 0);
    DefineNext([], i, t, t);
    assert [] + [i] == [i];
  }

  /** generateBinaryOp: left operand, right operand, one line into a fresh temporary. */
  lemma BinaryTemps(a: Value, b: Value, op: string, t: nat)
    requires AssignsTemps(a.code, t, a.temps) && AssignsTemps(b.code, a.temps, b.temps)
    ensures AssignsTemps(a.code + b.code + [ApplyBinary(TempName(b.temps), a.val, op, b.val)], t, b.temps + 1)
  {
    AssignsTempsAppend(a.code, b.code, t, a.temps, b.temps);
    DefineNext(a.code + b.code, ApplyBinary(TempName(b.temps), a.val, op, b.val), t, b.temps);
  }

  /** The same for an argument list, whose `param` lines assign nothing. */
  lemma {:induction false} ArgsTemps(args: seq<Expr>, t: nat)
    ensures AssignsTemps(ArgsCode(args, t).code, t, ArgsCode(args, t).temps)
    decreases args
  {
    if args != [] {
      var p := ArgsCode(args[..|args| - 1], t);
      var a := ExprCode(args[|args| - 1], p.temps);
      ArgsTemps(args[..|args| - 1], t);
      ExprTemps(args[|args| - 1], p.temps);
      AssignsTempsAppend(p.code, a.code, t, p.temps, a.temps);
      PassiveNext(p.code + a.code, Param(a.val), t, a.temps);
    }
  }

  /** generateVar emits nothing and answers the variable; every other
      expression answers the temporary it allocated last. */
  lemma ExprValue(e: Expr, t: nat)
    ensures e.Var? ==> ExprCode(e, t) == Value([], e.name, t)
    ensures !e.Var? ==> ExprCode(e, t).temps > t && ExprCode(e, t).val == TempName(ExprCode(e, t).temps - 1)
  {
  }

  /** An expression leaves the pending `param` values as it found them. */
  lemma {:induction false} ExprBalanced(e: Expr, t: nat, st: seq<string>)
    ensures ParamStack(ExprCode(e, t).code, st) == Some(st)
    decreases e
  {
    match e
    case Var(_) =>
    case Number(_) =>
    case Str(_) =>
    case Unary(op, x) =>
      var a := ExprCode(x, t);
      ExprBalanced(x, t, st);
      ParamStackAppend(a.code, [ApplyUnary(TempName(a.temps), op, a.val)], st);
    case Binary(x, op, y) =>
      var a := ExprCode(x, t);
      var b := ExprCode(y, a.temps);
      ExprBalanced(x, t, st);
      ExprBalanced(y, a.temps, st);
      ParamStackAppend(a.code, b.code, st);
      ParamStackAppend(a.code + b.code, [ApplyBinary(TempName(b.temps), a.val, op, b.val)], st);
    case FuncCall(n, args) =>
      var c := ArgsCode(args, t);
      ArgsPassValues(args, t, st);
      ParamStackAppend(c.code, [CallFunction(TempName(c.temps), n, |args|)], st);
      assert (st + c.vals)[..|st + c.vals| - |args|] == st;
  }

  /** The argument loop leaves exactly one pending `param` value per argument,
      the argument values in order, so the call line that follows (whose count
      is the number of arguments) takes exactly those. */
  lemma {:induction false} ArgsPassValues(args: seq<Expr>, t: nat, st: seq<string>)
    ensures ParamStack(ArgsCode(args, t).code, st) == Some(st + ArgsCode(args, t).vals)
    decreases args
  {
    if args == [] {
      assert st + [] == st;
    } else {
      var p := ArgsCode(args[..|args| - 1], t);
      var a := ExprCode(args[|args| - 1], p.temps);
      ArgsPassValues(args[..|args| - 1], t, st);
      ExprBalanced(args[|args| - 1], p.temps, st + p.vals);
      ParamStackAppend(p.code, a.code, st);
      ParamStackAppend(p.code + a.code, [Param(a.val)], st);
      AppendAssoc(st, p.vals, [a.val]);
    }
  }

  lemma ExprBalancedAll(e: Expr, t: nat)
    ensures Balanced(ExprCode(e, t).code)
  {
    forall st: seq<string> {
      ExprBalanced(e, t, st);
    }
  }

  // ------------------------------------------------------------------
  // The control templates
  // ------------------------------------------------------------------

  /** Layout pieces that assign no temporary do not show in the order of
      temporaries. */
  lemma TempsSkip4(c: seq<Instr>, h: seq<Instr>, b: seq<Instr>, e: seq<Instr>)
    requires TempDefs(h) == [] && TempDefs(e) == []
    ensures TempDefs(c + h + b + e) == TempDefs(c) + TempDefs(b)
  {
    TempsAppend(c, h);
    TempsAppend(c + h, b);
    TempsAppend(c + h + b, e);
  }

  lemma TempsSkip5(h: seq<Instr>, c: seq<Instr>, j: seq<Instr>, b: seq<Instr>, e: seq<Instr>)
    requires TempDefs(h) == [] && TempDefs(j) == [] && TempDefs(e) == []
    ensures TempDefs(h + c + j + b + e) == TempDefs(c) + TempDefs(b)
  {
    TempsAppend(h, c);
    assert TempDefs(h + c) == TempDefs(c);
    TempsSkip4(h + c, j, b, e);
  }

  lemma TempsSkip6(c: seq<Instr>, h: seq<Instr>, b1: seq<Instr>, m: seq<Instr>, b2: seq<Instr>, e: seq<Instr>)
    requires TempDefs(h) == [] && TempDefs(m) == [] && TempDefs(e) == []
    ensures TempDefs(c + h + b1 + m + b2 + e) == TempDefs(c) + TempDefs(b1) + TempDefs(b2)
  {
    TempsSkip4(c, h, b1, m);
    TempsAppend(c + h + b1 + m, b2);
    TempsAppend(c + h + b1 + m + b2, e);
  }

  lemma TempsSkipEnds(h: seq<Instr>, b: seq<Instr>, c: seq<Instr>, j: seq<Instr>)
    requires TempDefs(h) == [] && TempDefs(j) == []
    ensures TempDefs(h + b + c + j) == TempDefs(b) + TempDefs(c)
  {
    TempsAppend(h, b);
    TempsAppend(h + b, c);
    TempsAppend(h + b + c, j);
    assert [] + TempDefs(b) == TempDefs(b);
  }

  /** The label counts and jumps of a layout are those of its pieces. */
  lemma Labels4(a: seq<Instr>, b: seq<Instr>, c: seq<Instr>, d: seq<Instr>, k: nat)
    ensures LabelCount(a + b + c + d, k) == LabelCount(a, k) + LabelCount(b, k) + LabelCount(c, k) + LabelCount(d, k)
    ensures JumpsTo(a + b + c + d, k) == (JumpsTo(a, k) || JumpsTo(b, k) || JumpsTo(c, k) || JumpsTo(d, k))
  {
    LabelsAppend(a, b, k);
    LabelsAppend(a + b, c, k);
    LabelsAppend(a + b + c, d, k);
  }

  lemma Labels5(a: seq<Instr>, b: seq<Instr>, c: seq<Instr>, d: seq<Instr>, e: seq<Instr>, k: nat)
    ensures LabelCount(a + b + c + d + e, k) ==
            LabelCount(a, k) + LabelCount(b, k) + LabelCount(c, k) + LabelCount(d, k) + LabelCount(e, k)
    ensures JumpsTo(a + b + c + d + e, k) ==
            (JumpsTo(a, k) || JumpsTo(b, k) || JumpsTo(c, k) || JumpsTo(d, k) || JumpsTo(e, k))
  {
    Labels4(a, b, c, d, k);
    LabelsAppend(a + b + c + d, e, k);
  }

  lemma Labels6(a: seq<Instr>, b: seq<Instr>, c: seq<Instr>, d: seq<Instr>, e: seq<Instr>, f: seq<Instr>, k: nat)
    ensures LabelCount(a + b + c + d + e + f, k) ==
            LabelCount(a, k) + LabelCount(b, k) + LabelCount(c, k) + LabelCount(d, k) + LabelCount(e, k) + LabelCount(f, k)
    ensures JumpsTo(a + b + c + d + e + f, k) ==
            (JumpsTo(a, k) || JumpsTo(b, k) || JumpsTo(c, k) || JumpsTo(d, k) || JumpsTo(e, k) || JumpsTo(f, k))
  {
    Labels5(a, b, c, d, e, k);
    LabelsAppend(a + b + c + d + e, f, k);
  }

  /** The layout of generateIf: the condition, `if c goto Ltrue`, `goto Lend`,
      `Ltrue:`, the branch, `Lend:`, with Ltrue = l and Lend = l + 1. */
  lemma IfNumbered(a: Value, b: Emitted, t: nat, l: nat)
    requires AssignsTemps(a.code, t, a.temps)
    requires WellNumbered(b.code, a.temps, b.temps, l + 2, b.labels)
    ensures WellNumbered(a.code + [IfGoto(a.val, l), Goto(l + 1), Label(l)] + b.code + [Label(l + 1)],
                         t, b.temps, l, b.labels)
  {
    var code := a.code + [IfGoto(a.val, l), Goto(l + 1), Label(l)] + b.code + [Label(l + 1)];
    IfTemps(a.code, b.code, a.val, l);
    TempSeqAppend(t, a.temps, b.temps);
    forall k: nat
      ensures LabelCount(code, k) == (if l <= k < b.labels then 1 else 0) && (JumpsTo(code, k) ==> l <= k < b.labels)
    {
      IfLabels(a.code, b.code, a.val, l, k);
    }
  }

  lemma IfTemps(c: seq<Instr>, b: seq<Instr>, v: string, l: nat)
    ensures TempDefs(c + [IfGoto(v, l), Goto(l + 1), Label(l)] + b + [Label(l + 1)]) == TempDefs(c) + TempDefs(b)
  {
    Temps3(IfGoto(v, l), Goto(l + 1), Label(l));
    TempsOne(Label(l + 1));
    TempsSkip4(c, [IfGoto(v, l), Goto(l + 1), Label(l)], b, [Label(l + 1)]);
  }

  lemma IfLabels(c: seq<Instr>, b: seq<Instr>, v: string, l: nat, k: nat)
    requires Quiet(c)
    ensures LabelCount(c + [IfGoto(v, l), Goto(l + 1), Label(l)] + b + [Label(l + 1)], k) ==
            LabelCount(b, k) + (if k == l || k == l + 1 then 1 else 0)
    ensures JumpsTo(c + [IfGoto(v, l), Goto(l + 1), Label(l)] + b + [Label(l + 1)], k) ==
            (JumpsTo(b, k) || k == l || k == l + 1)
  {
    QuietUnlabelled(c, k);
    Labels3(IfGoto(v, l), Goto(l + 1), Label(l), k);
    LabelsOne(Label(l + 1), k);
    Labels4(c, [IfGoto(v, l), Goto(l + 1), Label(l)], b, [Label(l + 1)], k);
  }

  /** The layout of generateIfElse: labels Lthen = l, Lelse = l + 1 and
      Lend = l + 2; the then-branch lies between `Lthen:` and `goto Lend`,
      the else-branch between `Lelse:` and `Lend:`. */
  lemma IfElseNumbered(a: Value, b1: Emitted, b2: Emitted, t: nat, l: nat)
    requires AssignsTemps(a.code, t, a.temps)
    requires WellNumbered(b1.code, a.temps, b1.temps, l + 3, b1.labels)
    requires WellNumbered(b2.code, b1.temps, b2.temps, b1.labels, b2.labels)
    ensures WellNumbered(a.code + [IfGoto(a.val, l), Goto(l + 1), Label(l)] + b1.code + [Goto(l + 2), Label(l + 1)] +
                         b2.code + [Label(l + 2)], t, b2.temps, l, b2.labels)
  {
    IfElseTemps(a.code, b1.code, b2.code, a.val, l);
    TempSeqAppend(t, a.temps, b1.temps);
    TempSeqAppend(t, b1.temps, b2.temps);
    IfElseLabelsNumbered(a.code, b1.code, b2.code, a.val, l, b1.labels, b2.labels);
  }

  lemma IfElseLabelsNumbered(c: seq<Instr>, b1: seq<Instr>, b2: seq<Instr>, v: string, l: nat, n1: nat, n2: nat)
    requires Quiet(c) && LabelsNumbered(b1, l + 3, n1) && LabelsNumbered(b2, n1, n2)
    ensures LabelsNumbered(c + [IfGoto(v, l), Goto(l + 1), Label(l)] + b1 + [Goto(l + 2), Label(l + 1)] + b2 + [Label(l + 2)],
                           l, n2)
  {
    var code := c + [IfGoto(v, l), Goto(l + 1), Label(l)] + b1 + [Goto(l + 2), Label(l + 1)] + b2 + [Label(l + 2)];
    forall k: nat
      ensures LabelCount(code, k) == (if l <= k < n2 then 1 else 0) && (JumpsTo(code, k) ==> l <= k < n2)
    {
      IfElseLabels(c, b1, b2, v, l, l + 1, l + 2, k);
    }
  }

  lemma IfElseTemps(c: seq<Instr>, b1: seq<Instr>, b2: seq<Instr>, v: string, l: nat)
    ensures TempDefs(c + [IfGoto(v, l), Goto(l + 1), Label(l)] + b1 + [Goto(l + 2), Label(l + 1)] + b2 + [Label(l + 2)]) ==
            TempDefs(c) + TempDefs(b1) + TempDefs(b2)
  {
    Temps3(IfGoto(v, l), Goto(l + 1), Label(l));
    Temps2(Goto(l + 2), Label(l + 1));
    TempsOne(Label(l + 2));
    TempsSkip6(c, [IfGoto(v, l), Goto(l + 1), Label(l)], b1, [Goto(l + 2), Label(l + 1)], b2, [Label(l + 2)]);
  }

  lemma IfElseLabels(c: seq<Instr>, b1: seq<Instr>, b2: seq<Instr>, v: string, l: nat, l1: nat, l2: nat, k: nat)
    requires Quiet(c) && l1 == l + 1 && l2 == l + 2
    ensures LabelCount(c + [IfGoto(v, l), Goto(l1), Label(l)] + b1 + [Goto(l2), Label(l1)] + b2 + [Label(l2)], k) ==
            LabelCount(b1, k) + LabelCount(b2, k) + (if l <= k <= l2 then 1 else 0)
    ensures JumpsTo(c + [IfGoto(v, l), Goto(l1), Label(l)] + b1 + [Goto(l2), Label(l1)] + b2 + [Label(l2)], k) ==
            (JumpsTo(b1, k) || JumpsTo(b2, k) || l <= k <= l2)
  {
    var front := c + [IfGoto(v, l), Goto(l1), Label(l)] + b1 + [Goto(l2), Label(l1)];
    IfElseFront(c, b1, v, l, l1, l2, k);
    LabelLine(l2, k);
    LabelsAppend(front, b2, k);
    LabelsAppend(front + b2, [Label(l2)], k);
  }

  /** The condition, the then-branch and the else label of generateIfElse. */
  lemma IfElseFront(c: seq<Instr>, b1: seq<Instr>, v: string, l: nat, l1: nat, l2: nat, k: nat)
    requires Quiet(c) && l1 == l + 1 && l2 == l + 2
    ensures LabelCount(c + [IfGoto(v, l), Goto(l1), Label(l)] + b1 + [Goto(l2), Label(l1)], k) ==
            LabelCount(b1, k) + (if k == l || k == l1 then 1 else 0)
    ensures JumpsTo(c + [IfGoto(v, l), Goto(l1), Label(l)] + b1 + [Goto(l2), Label(l1)], k) ==
            (JumpsTo(b1, k) || l <= k <= l2)
  {
    QuietUnlabelled(c, k);
    IfHead(v, l, k);
    ElseJoin(l, k);
    Labels4(c, [IfGoto(v, l), Goto(l1), Label(l)], b1, [Goto(l2), Label(l1)], k);
  }

  /** `L:` defines L and jumps nowhere. */
  lemma LabelLine(n: nat, k: nat)
    ensures LabelCount([Label(n)], k) == (if k == n then 1 else 0) && !JumpsTo([Label(n)], k)
  {
    LabelsOne(Label(n), k);
  }

  /** `if c goto L`, `goto L+1`, `L:` defines L and jumps to L and L + 1. */
  lemma IfHead(v: string, l: nat, k: nat)
    ensures LabelCount([IfGoto(v, l), Goto(l + 1), Label(l)], k) == (if k == l then 1 else 0)
    ensures JumpsTo([IfGoto(v, l), Goto(l + 1), Label(l)], k) == (k == l || k == l + 1)
  {
    Labels3(IfGoto(v, l), Goto(l + 1), Label(l), k);
  }

  /** `goto L+2`, `L+1:` between the branches of an if-else. */
  lemma ElseJoin(l: nat, k: nat)
    ensures LabelCount([Goto(l + 2), Label(l + 1)], k) == (if k == l + 1 then 1 else 0)
    ensures JumpsTo([Goto(l + 2), Label(l + 1)], k) == (k == l + 2)
  {
    Labels2(Goto(l + 2), Label(l + 1), k);
  }

  /** The layout of generateWhile: `Lbegin:` (l) before the condition,
      `ifFalse c goto Lend` (l + 1), the body, `goto Lbegin`, `Lend:`. */
  lemma WhileNumbered(a: Value, b: Emitted, t: nat, l: nat)
    requires AssignsTemps(a.code, t, a.temps)
    requires WellNumbered(b.code, a.temps, b.temps, l + 2, b.labels)
    ensures WellNumbered([Label(l)] + a.code + [IfFalseGoto(a.val, l + 1)] + b.code + [Goto(l), Label(l + 1)],
                         t, b.temps, l, b.labels)
  {
    var code := [Label(l)] + a.code + [IfFalseGoto(a.val, l + 1)] + b.code + [Goto(l), Label(l + 1)];
    WhileTemps(a.code, b.code, a.val, l);
    TempSeqAppend(t, a.temps, b.temps);
    forall k: nat
      ensures LabelCount(code, k) == (if l <= k < b.labels then 1 else 0) && (JumpsTo(code, k) ==> l <= k < b.labels)
    {
      WhileLabels(a.code, b.code, a.val, l, k);
    }
  }

  lemma WhileTemps(c: seq<Instr>, b: seq<Instr>, v: string, l: nat)
    ensures TempDefs([Label(l)] + c + [IfFalseGoto(v, l + 1)] + b + [Goto(l), Label(l + 1)]) == TempDefs(c) + TempDefs(b)
  {
    TempsOne(Label(l));
    TempsOne(IfFalseGoto(v, l + 1));
    Temps2(Goto(l), Label(l + 1));
    TempsSkip5([Label(l)], c, [IfFalseGoto(v, l + 1)], b, [Goto(l), Label(l + 1)]);
  }

  lemma WhileLabels(c: seq<Instr>, b: seq<Instr>, v: string, l: nat, k: nat)
    requires Quiet(c)
    ensures LabelCount([Label(l)] + c + [IfFalseGoto(v, l + 1)] + b + [Goto(l), Label(l + 1)], k) ==
            LabelCount(b, k) + (if k == l || k == l + 1 then 1 else 0)
    ensures JumpsTo([Label(l)] + c + [IfFalseGoto(v, l + 1)] + b + [Goto(l), Label(l + 1)], k) ==
            (JumpsTo(b, k) || k == l || k == l + 1)
  {
    QuietUnlabelled(c, k);
    LabelsOne(Label(l), k);
    LabelsOne(IfFalseGoto(v, l + 1), k);
    Labels2(Goto(l), Label(l + 1), k);
    Labels5([Label(l)], c, [IfFalseGoto(v, l + 1)], b, [Goto(l), Label(l + 1)], k);
  }

  /** The layout of generateDoUntil: `Lbegin:` (l), the body, then the
      condition and `ifFalse c goto Lbegin`. */
  lemma DoUntilNumbered(b: Emitted, a: Value, t: nat, l: nat)
    requires WellNumbered(b.code, t, b.temps, l + 1, b.labels)
    requires AssignsTemps(a.code, b.temps, a.temps)
    ensures WellNumbered([Label(l)] + b.code + a.code + [IfFalseGoto(a.val, l)], t, a.temps, l, b.labels)
  {
    var h := [Label(l)];
    var j := [IfFalseGoto(a.val, l)];
    var code := h + b.code + a.code + j;
    TempsOne(Label(l));
    TempsOne(IfFalseGoto(a.val, l));
    TempsSkipEnds(h, b.code, a.code, j);
    TempSeqAppend(t, b.temps, a.temps);
    forall k: nat
      ensures LabelCount(code, k) == (if l <= k < b.labels then 1 else 0) && (JumpsTo(code, k) ==> l <= k < b.labels)
    {
      QuietUnlabelled(a.code, k);
      LabelsOne(Label(l), k);
      LabelsOne(IfFalseGoto(a.val, l), k);
      Labels4(h, b.code, a.code, j, k);
    }
  }

  // ------------------------------------------------------------------
  // Statements
  // ------------------------------------------------------------------

  /** An expression followed by one line that uses its value, as generateAssign,
      generatePrint and generateReturn lay them out. */
  lemma SimpleNumbered(a: Value, i: Instr, t: nat, l: nat)
    requires AssignsTemps(a.code, t, a.temps)
    requires TempsDefinedBy(i) == [] && QuietLine(i)
    ensures WellNumbered(a.code + [i], t, a.temps, l, l)
  {
    PassiveNext(a.code, i, t, a.temps);
    AssignsNumbered(a.code + [i], t, a.temps, l);
  }

  /** A statement assigns exactly the temporaries it allocates, once each and
      in allocation order, defines each label it allocates exactly once, and
      jumps only to those labels. */
  lemma {:induction false} StmtNumbered(s: Stmt, t: nat, l: nat)
    ensures WellNumbered(StmtCode(s, t, l).code, t, StmtCode(s, t, l).temps, l, StmtCode(s, t, l).labels)
    decreases s
  {
    match s
    case Assign(x, e) =>
      ExprTemps(e, t);
      SimpleNumbered(ExprCode(e, t), Copy(x, ExprCode(e, t).val), t, l);
    case Print(e) =>
      ExprTemps(e, t);
      SimpleNumbered(ExprCode(e, t), Output(ExprCode(e, t).val), t, l);
    case ProcCall(n, args) =>
      var c := ArgsCode(args, t);
      ArgsTemps(args, t);
      SimpleNumbered(Value(c.code, "", c.temps), CallProcedure(n, |args|), t, l);
    case If(c, th) =>
      var a := ExprCode(c, t);
      ExprTemps(c, t);
      StmtsNumbered(th, a.temps, l + 2);
      IfNumbered(a, StmtsCode(th, a.temps, l + 2), t, l);
    case IfElse(c, th, el) =>
      var a := ExprCode(c, t);
      var b1 := StmtsCode(th, a.temps, l + 3);
      ExprTemps(c, t);
      StmtsNumbered(th, a.temps, l + 3);
      StmtsNumbered(el, b1.temps, b1.labels);
      IfElseNumbered(a, b1, StmtsCode(el, b1.temps, b1.labels), t, l);
    case While(c, body) =>
      var a := ExprCode(c, t);
      ExprTemps(c, t);
      StmtsNumbered(body, a.temps, l + 2);
      WhileNumbered(a, StmtsCode(body, a.temps, l + 2), t, l);
    case DoUntil(body, c) =>
      var b := StmtsCode(body, t, l + 1);
      StmtsNumbered(body, t, l + 1);
      ExprTemps(c, b.temps);
      DoUntilNumbered(b, ExprCode(c, b.temps), t, l);
    case Return(e) =>
      ExprTemps(e, t);
      SimpleNumbered(ExprCode(e, t), Ret(ExprCode(e, t).val), t, l);
    case Halt =>
      SimpleNumbered(Value([], "", t), Stop, t, l);
  }

  /** The same for a statement list, whose statements take consecutive
      temporaries and labels. */
  lemma {:induction false} StmtsNumbered(ss: seq<Stmt>, t: nat, l: nat)
    ensures WellNumbered(StmtsCode(ss, t, l).code, t, StmtsCode(ss, t, l).temps, l, StmtsCode(ss, t, l).labels)
    decreases ss
  {
    if ss == [] {
      AssignsNumbered([], t, t, l);
    } else {
      var p := StmtsCode(ss[..|ss| - 1], t, l);
      var s := StmtCode(ss[|ss| - 1], p.temps, p.labels);
      StmtsNumbered(ss[..|ss| - 1], t, l);
      StmtNumbered(ss[|ss| - 1], p.temps, p.labels);
      NumberedAppend(p.code, s.code, t, p.temps, s.temps, l, p.labels, s.labels);
    }
  }

  // ------------------------------------------------------------------
  // Passing values to calls
  // ------------------------------------------------------------------

  /** No line of the code passes a value or calls. */
  predicate NoCalls(code: seq<Instr>) {
    forall i :: 0 <= i < |code| ==> !code[i].Param? && !code[i].CallFunction? && !code[i].CallProcedure?
  }

  lemma {:induction false} NoCallsBalanced(code: seq<Instr>)
    requires NoCalls(code)
    ensures Balanced(code)
    decreases code
  {
    if code != [] {
      NoCallsBalanced(code[1..]);
      BalancedLine(code[0]);
      BalancedAppend([code[0]], code[1..]);
      assert [code[0]] + code[1..] == code;
    }
  }

  lemma Balanced4(a: seq<Instr>, b: seq<Instr>, c: seq<Instr>, d: seq<Instr>)
    requires Balanced(a) && Balanced(b) && Balanced(c) && Balanced(d)
    ensures Balanced(a + b + c + d)
  {
    BalancedAppend(a, b);
    BalancedAppend(a + b, c);
    BalancedAppend(a + b + c, d);
  }

  lemma Balanced6(a: seq<Instr>, b: seq<Instr>, c: seq<Instr>, d: seq<Instr>, e: seq<Instr>, f: seq<Instr>)
    requires Balanced(a) && Balanced(b) && Balanced(c) && Balanced(d) && Balanced(e) && Balanced(f)
    ensures Balanced(a + b + c + d + e + f)
  {
    Balanced4(a, b, c, d);
    BalancedAppend(a + b + c + d, e);
    BalancedAppend(a + b + c + d + e, f);
  }

  /** A statement leaves the pending `param` values as it found them: each
      call consumes exactly the values its own arguments pushed. */
  lemma {:induction false} StmtBalanced(s: Stmt, t: nat, l: nat)
    ensures Balanced(StmtCode(s, t, l).code)
    decreases s
  {
    match s
    case Assign(x, e) =>
      ExprBalancedAll(e, t);
      BalancedLine(Copy(x, ExprCode(e, t).val));
      BalancedAppend(ExprCode(e, t).code, [Copy(x, ExprCode(e, t).val)]);
    case Print(e) =>
      ExprBalancedAll(e, t);
      BalancedLine(Output(ExprCode(e, t).val));
      BalancedAppend(ExprCode(e, t).code, [Output(ExprCode(e, t).val)]);
    case ProcCall(n, args) =>
      var c := ArgsCode(args, t);
      forall st: seq<string>
        ensures ParamStack(c.code + [CallProcedure(n, |args|)], st) == Some(st)
      {
        ArgsPassValues(args, t, st);
        ParamStackAppend(c.code, [CallProcedure(n, |args|)], st);
        assert [CallProcedure(n, |args|)][1..] == [];
        assert (st + c.vals)[..|st + c.vals| - |args|] == st;
      }
    case If(c, th) =>
      var a := ExprCode(c, t);
      ExprBalancedAll(c, t);
      StmtsBalanced(th, a.temps, l + 2);
      NoCallsBalanced([IfGoto(a.val, l), Goto(l + 1), Label(l)]);
      NoCallsBalanced([Label(l + 1)]);
      Balanced4(a.code, [IfGoto(a.val, l), Goto(l + 1), Label(l)], StmtsCode(th, a.temps, l + 2).code, [Label(l + 1)]);
    case IfElse(c, th, el) =>
      var a := ExprCode(c, t);
      var b1 := StmtsCode(th, a.temps, l + 3);
      ExprBalancedAll(c, t);
      StmtsBalanced(th, a.temps, l + 3);
      StmtsBalanced(el, b1.temps, b1.labels);
      NoCallsBalanced([IfGoto(a.val, l), Goto(l + 1), Label(l)]);
      NoCallsBalanced([Goto(l + 2), Label(l + 1)]);
      NoCallsBalanced([Label(l + 2)]);
      Balanced6(a.code, [IfGoto(a.val, l), Goto(l + 1), Label(l)], b1.code, [Goto(l + 2), Label(l + 1)],
                StmtsCode(el, b1.temps, b1.labels).code, [Label(l + 2)]);
    case While(c, body) =>
      var a := ExprCode(c, t);
      ExprBalancedAll(c, t);
      StmtsBalanced(body, a.temps, l + 2);
      NoCallsBalanced([Label(l)]);
      NoCallsBalanced([IfFalseGoto(a.val, l + 1)]);
      NoCallsBalanced([Goto(l), Label(l + 1)]);
      Balanced4([Label(l)], a.code, [IfFalseGoto(a.val, l + 1)], StmtsCode(body, a.temps, l + 2).code);
      BalancedAppend([Label(l)] + a.code + [IfFalseGoto(a.val, l + 1)] + StmtsCode(body, a.temps, l + 2).code,
                     [Goto(l), Label(l + 1)]);
    case DoUntil(body, c) =>
      var b := StmtsCode(body, t, l + 1);
      StmtsBalanced(body, t, l + 1);
      ExprBalancedAll(c, b.temps);
      NoCallsBalanced([Label(l)]);
      NoCallsBalanced([IfFalseGoto(ExprCode(c, b.temps).val, l)]);
      Balanced4([Label(l)], b.code, ExprCode(c, b.temps).code, [IfFalseGoto(ExprCode(c, b.temps).val, l)]);
    case Return(e) =>
      ExprBalancedAll(e, t);
      BalancedLine(Ret(ExprCode(e, t).val));
      BalancedAppend(ExprCode(e, t).code, [Ret(ExprCode(e, t).val)]);
    case Halt =>
      BalancedLine(Stop);
  }

  lemma {:induction false} StmtsBalanced(ss: seq<Stmt>, t: nat, l: nat)
    ensures Balanced(StmtsCode(ss, t, l).code)
    decreases ss
  {
    if ss == [] {
      NoCallsBalanced([]);
    } else {
      var p := StmtsCode(ss[..|ss| - 1], t, l);
      StmtsBalanced(ss[..|ss| - 1], t, l);
      StmtBalanced(ss[|ss| - 1], p.temps, p.labels);
      BalancedAppend(p.code, StmtCode(ss[|ss| - 1], p.temps, p.labels).code);
    }
  }

  // ------------------------------------------------------------------
  // Bodies, definitions and the program
  // ------------------------------------------------------------------

  /** A declaration, header, trailer or comment line: it assigns no
      temporary, defines and targets no label, and neither passes a value
      nor calls. */
  predicate PlainLine(i: Instr) {
    TempsDefinedBy(i) == [] && QuietLine(i) && !i.Param? && !i.CallFunction? && !i.CallProcedure?
  }

  predicate PlainLines(code: seq<Instr>) {
    forall i :: 0 <= i < |code| ==> PlainLine(code[i])
  }

  lemma {:induction false} PlainNumbered(code: seq<Instr>, t: nat, l: nat)
    requires PlainLines(code)
    ensures WellNumbered(code, t, t, l, l) && Balanced(code)
    decreases code
  {
    if code == [] {
      AssignsNumbered([], t, t, l);
    } else {
      PlainNumbered(code[1..], t, l);
      SimpleNumbered(Value([], "", t), code[0], t, l);
      assert [] + [code[0]] == [code[0]];
      NumberedAppend([code[0]], code[1..], t, t, t, l, l, l);
      assert [code[0]] + code[1..] == code;
    }
    NoCallsBalanced(code);
  }

  /** Header and declaration lines around numbered code leave it numbered. */
  lemma Wrapped(p: seq<Instr>, code: seq<Instr>, q: seq<Instr>, t: nat, m: nat, l: nat, n: nat)
    requires PlainLines(p) && PlainLines(q)
    requires WellNumbered(code, t, m, l, n) && Balanced(code)
    ensures WellNumbered(p + code + q, t, m, l, n) && Balanced(p + code + q)
  {
    PlainNumbered(p, t, l);
    PlainNumbered(q, m, n);
    NumberedAppend(p, code, t, t, m, l, l, n);
    NumberedAppend(p + code, q, t, m, m, l, n, n);
    BalancedAppend(p, code);
    BalancedAppend(p + code, q);
  }

  lemma HeaderPlain(h: Instr, lines: seq<Instr>)
    requires PlainLine(h) && PlainLines(lines)
    ensures PlainLines([h] + lines)
  {
    assert forall i :: 1 <= i < |lines| + 1 ==> ([h] + lines)[i] == lines[i - 1];
  }

  /** The opening lines of a body, a procedure, a function, the main
      program and the program are plain. */
  lemma BodyHeadPlain(locals: seq<string>)
    ensures PlainLines([BodyBegin] + Decls(locals))
  {
    HeaderPlain(BodyBegin, Decls(locals));
  }

  lemma ProcHeadPlain(name: string, params: seq<string>)
    ensures PlainLines([ProcHeader(name)] + FormalParams(params))
  {
    HeaderPlain(ProcHeader(name), FormalParams(params));
  }

  lemma FuncHeadPlain(name: string, params: seq<string>)
    ensures PlainLines([FuncHeader(name)] + FormalParams(params))
  {
    HeaderPlain(FuncHeader(name), FormalParams(params));
  }

  lemma MainHeadPlain(locals: seq<string>)
    ensures PlainLines([MainHeader] + Decls(locals))
  {
    HeaderPlain(MainHeader, Decls(locals));
  }

  lemma ProgramHeadPlain(globals: seq<string>)
    ensures PlainLines([ProgramStart] + Globals(globals))
  {
    HeaderPlain(ProgramStart, Globals(globals));
  }

  /** generateBody keeps the numbering of its statements. */
  lemma BodyNumbered(b: Body, t: nat, l: nat)
    ensures WellNumbered(BodyCode(b, t, l).code, t, BodyCode(b, t, l).temps, l, BodyCode(b, t, l).labels)
    ensures Balanced(BodyCode(b, t, l).code)
  {
    var s := StmtsCode(b.statements, t, l);
    StmtsNumbered(b.statements, t, l);
    StmtsBalanced(b.statements, t, l);
    BodyHeadPlain(b.locals);
    Wrapped([BodyBegin] + Decls(b.locals), s.code, [BodyEnd], t, s.temps, l, s.labels);
  }

  /** generateProcDef keeps the numbering of its body. */
  lemma ProcDefNumbered(d: ProcDef, t: nat, l: nat)
    ensures WellNumbered(ProcDefCode(d, t, l).code, t, ProcDefCode(d, t, l).temps, l, ProcDefCode(d, t, l).labels)
    ensures Balanced(ProcDefCode(d, t, l).code)
  {
    var b := BodyCode(d.body, t, l);
    BodyNumbered(d.body, t, l);
    ProcHeadPlain(d.name, d.params);
    Wrapped([ProcHeader(d.name)] + FormalParams(d.params), b.code, [EndProc], t, b.temps, l, b.labels);
  }

  /** generateFuncDef keeps the numbering of its body. */
  lemma FuncDefNumbered(d: FuncDef, t: nat, l: nat)
    ensures WellNumbered(FuncDefCode(d, t, l).code, t, FuncDefCode(d, t, l).temps, l, FuncDefCode(d, t, l).labels)
    ensures Balanced(FuncDefCode(d, t, l).code)
  {
    var b := BodyCode(d.body, t, l);
    BodyNumbered(d.body, t, l);
    FuncHeadPlain(d.name, d.params);
    Wrapped([FuncHeader(d.name)] + FormalParams(d.params), b.code, [EndFunc], t, b.temps, l, b.labels);
  }

  /** generateMain keeps the numbering of its statements. */
  lemma MainNumbered(m: MainProg, t: nat, l: nat)
    ensures WellNumbered(MainCode(m, t, l).code, t, MainCode(m, t, l).temps, l, MainCode(m, t, l).labels)
    ensures Balanced(MainCode(m, t, l).code)
  {
    var s := StmtsCode(m.statements, t, l);
    StmtsNumbered(m.statements, t, l);
    StmtsBalanced(m.statements, t, l);
    MainHeadPlain(m.locals);
    Wrapped([MainHeader] + Decls(m.locals), s.code, [EndMain], t, s.temps, l, s.labels);
  }

  lemma {:induction false} ProcDefsNumbered(ps: seq<ProcDef>, t: nat, l: nat)
    ensures WellNumbered(ProcDefsCode(ps, t, l).code, t, ProcDefsCode(ps, t, l).temps, l, ProcDefsCode(ps, t, l).labels)
    ensures Balanced(ProcDefsCode(ps, t, l).code)
    decreases ps
  {
    if ps == [] {
      PlainNumbered([], t, l);
    } else {
      var p := ProcDefsCode(ps[..|ps| - 1], t, l);
      var d := ProcDefCode(ps[|ps| - 1], p.temps, p.labels);
      ProcDefsNumbered(ps[..|ps| - 1], t, l);
      ProcDefNumbered(ps[|ps| - 1], p.temps, p.labels);
      NumberedAppend(p.code, d.code, t, p.temps, d.temps, l, p.labels, d.labels);
      BalancedAppend(p.code, d.code);
    }
  }

  lemma {:induction false} FuncDefsNumbered(fs: seq<FuncDef>, t: nat, l: nat)
    ensures WellNumbered(FuncDefsCode(fs, t, l).code, t, FuncDefsCode(fs, t, l).temps, l, FuncDefsCode(fs, t, l).labels)
    ensures Balanced(FuncDefsCode(fs, t, l).code)
    decreases fs
  {
    if fs == [] {
      PlainNumbered([], t, l);
    } else {
      var p := FuncDefsCode(fs[..|fs| - 1], t, l);
      var d := FuncDefCode(fs[|fs| - 1], p.temps, p.labels);
      FuncDefsNumbered(fs[..|fs| - 1], t, l);
      FuncDefNumbered(fs[|fs| - 1], p.temps, p.labels);
      NumberedAppend(p.code, d.code, t, p.temps, d.temps, l, p.labels, d.labels);
      BalancedAppend(p.code, d.code);
    }
  }

  /** Four consecutively numbered sections make one. */
  lemma Sections(a: seq<Instr>, b: seq<Instr>, c: seq<Instr>, d: seq<Instr>,
                 t0: nat, t1: nat, t2: nat, t3: nat, t4: nat, l0: nat, l1: nat, l2: nat, l3: nat, l4: nat)
    requires WellNumbered(a, t0, t1, l0, l1) && Balanced(a)
    requires WellNumbered(b, t1, t2, l1, l2) && Balanced(b)
    requires WellNumbered(c, t2, t3, l2, l3) && Balanced(c)
    requires WellNumbered(d, t3, t4, l3, l4) && Balanced(d)
    ensures WellNumbered(a + b + c + d, t0, t4, l0, l4) && Balanced(a + b + c + d)
  {
    NumberedAppend(a, b, t0, t1, t2, l0, l1, l2);
    NumberedAppend(a + b, c, t0, t2, t3, l0, l2, l3);
    NumberedAppend(a + b + c, d, t0, t3, t4, l0, l3, l4);
    Balanced4(a, b, c, d);
  }

  /** generateProgram keeps the numbering of its parts. */
  lemma ProgramNumbered(p: Program, t: nat, l: nat)
    ensures WellNumbered(ProgramCode(p, t, l).code, t, ProgramCode(p, t, l).temps, l, ProgramCode(p, t, l).labels)
    ensures Balanced(ProgramCode(p, t, l).code)
  {
    var pc := ProcDefsCode(p.procs, t, l);
    var fc := FuncDefsCode(p.funcs, pc.temps, pc.labels);
    ProcDefsNumbered(p.procs, t, l);
    FuncDefsNumbered(p.funcs, pc.temps, pc.labels);
    MainNumbered(p.main, fc.temps, fc.labels);
    ProgramHeadPlain(p.globals);
    ProgramLayout([ProgramStart] + Globals(p.globals), pc, fc, MainCode(p.main, fc.temps, fc.labels), t, l);
  }

  lemma ProgramLayout(head: seq<Instr>, pc: Emitted, fc: Emitted, mc: Emitted, t: nat, l: nat)
    requires PlainLines(head)
    requires WellNumbered(pc.code, t, pc.temps, l, pc.labels) && Balanced(pc.code)
    requires WellNumbered(fc.code, pc.temps, fc.temps, pc.labels, fc.labels) && Balanced(fc.code)
    requires WellNumbered(mc.code, fc.temps, mc.temps, fc.labels, mc.labels) && Balanced(mc.code)
    ensures WellNumbered(head + pc.code + fc.code + mc.code + [ProgramEnd], t, mc.temps, l, mc.labels)
    ensures Balanced(head + pc.code + fc.code + mc.code + [ProgramEnd])
  {
    PlainNumbered(head, t, l);
    Sections(head, pc.code, fc.code, mc.code, t, t, pc.temps, fc.temps, mc.temps, l, l, pc.labels, fc.labels, mc.labels);
    PlainNumbered([ProgramEnd], mc.temps, mc.labels);
    NumberedAppend(head + pc.code + fc.code + mc.code, [ProgramEnd], t, mc.temps, mc.temps, l, mc.labels, mc.labels);
    BalancedAppend(head + pc.code + fc.code + mc.code, [ProgramEnd]);
  }

  /**
   * The translation of a whole program, both counters starting at zero as
   * the static counters do: the temporaries t0, t1, ... are each assigned
   * exactly once, in order; each label L0 .. Ln-1 the translation allocates
   * is defined exactly once, and every jump lands on one of them; and every
   * call consumes exactly the `param` values pushed for it, none left over.
   */
  lemma ProgramWellFormed(p: Program)
    ensures Distinct(TempDefs(ProgramCode(p, 0, 0).code))
    ensures TempDefs(ProgramCode(p, 0, 0).code) == TempSeq(0, ProgramCode(p, 0, 0).temps)
    ensures forall k: nat :: LabelCount(ProgramCode(p, 0, 0).code, k) == (if k < ProgramCode(p, 0, 0).labels then 1 else 0)
    ensures forall k: nat :: JumpsTo(ProgramCode(p, 0, 0).code, k) ==> LabelCount(ProgramCode(p, 0, 0).code, k) == 1
    ensures ParamStack(ProgramCode(p, 0, 0).code, []) == Some([])
  {
    var r := ProgramCode(p, 0, 0);
    ProgramNumbered(p, 0, 0);
    TempSeqDistinct(0, r.temps);
  }
}
