/**
 * What the typing rules promise: how declarations succeed and fail, that
 * scopes are restored, how statement lists fail fast, and the rules for
 * assignments, returns, calls and output, including the checker's quirks.
 */
module TypingProperties {
  import opened Wrappers
  import opened Ast
  import opened SymbolTables
  import opened Typing
  import opened Seqs

  /** The innermost frame after binding every name to one type. */
  function BindAllIn(f: Frame, names: seq<string>, t: Type): Frame {
    f + map x | x in names :: t
  }

  /** Every name bound in some frame of the stack. */
  function Names(sc: seq<Frame>): (r: set<string>)
    ensures forall x :: x in r <==> Declared(sc, x)
  {
    set i, x | 0 <= i < |sc| && x in sc[i] :: x
  }

  // ------------------------------------------------------------------
  // Declarations
  // ------------------------------------------------------------------

  /** The names can all be declared: pairwise distinct and none taken. */
  predicate Fresh(taken: set<string>, names: seq<string>) {
    Distinct(names) && forall i :: 0 <= i < |names| ==> names[i] !in taken
  }

  /** names[k] is the first name that is taken or repeats an earlier one. */
  predicate FirstClash(taken: set<string>, names: seq<string>, k: int) {
    0 <= k < |names| && (names[k] in taken || names[k] in names[..k]) &&
    forall i :: 0 <= i < k ==> names[i] !in taken && names[i] !in names[..i]
  }

  lemma FreshCons(taken: set<string>, names: seq<string>)
    requires names != []
    ensures Fresh(taken, names) <==> names[0] !in taken && Fresh(taken + {names[0]}, names[1..])
  {
    var tail := names[1..];
    assert forall i :: 1 <= i < |names| ==> names[i] == tail[i - 1];
    if names[0] !in taken && Fresh(taken + {names[0]}, tail) {
      forall i, j | 0 <= i < j < |names|
        ensures names[i] != names[j]
      {
        assert names[j] == tail[j - 1];
        if i > 0 {
          assert names[i] == tail[i - 1];
        }
      }
    }
  }

  lemma FirstClashCons(taken: set<string>, names: seq<string>, k: int)
    requires names != [] && names[0] !in taken
    requires FirstClash(taken + {names[0]}, names[1..], k)
    ensures FirstClash(taken, names, k + 1)
  {
    var tail := names[1..];
    assert forall i :: 1 <= i <= |names| ==> names[..i] == [names[0]] + tail[..i - 1];
    assert names[k + 1] == tail[k];
    forall i | 0 <= i < k + 1
      ensures names[i] !in taken && names[i] !in names[..i]
    {
      if i > 0 {
        assert names[i] == tail[i - 1];
      }
    }
  }

  lemma FreshAppend(taken: set<string>, later: set<string>, a: seq<string>, b: seq<string>)
    requires Fresh(taken, a) && Fresh(later, b)
    requires taken <= later && forall i :: 0 <= i < |a| ==> a[i] in later
    ensures Fresh(taken, a + b)
  {
    var ab := a + b;
    forall i, j | 0 <= i < j < |ab|
      ensures ab[i] != ab[j]
    {
      if j >= |a| {
        assert ab[j] == b[j - |a|];
        if i >= |a| {
          assert ab[i] == b[i - |a|];
        }
      }
    }
  }

  lemma BindAllInCons(f: Frame, names: seq<string>, t: Type)
    requires names != []
    ensures BindAllIn(f[names[0] := t], names[1..], t) == BindAllIn(f, names, t)
  {
    var a := BindAllIn(f[names[0] := t], names[1..], t);
    var b := BindAllIn(f, names, t);
    assert forall x :: x in names <==> x == names[0] || x in names[1..];
    assert a.Keys == b.Keys;
  }

  /** checkVarList and checkParams succeed exactly when the names are pairwise
      distinct and none is already in the innermost frame; the innermost frame
      then binds every name NUMERIC and outer frames are untouched. Otherwise
      the single message names the first name that is refused. */
  lemma {:induction false} DeclareVarsSpec(sc: seq<Frame>, names: seq<string>, asParams: bool)
    requires sc != []
    ensures var r := DeclareVars(sc, names, asParams);
      r.ok <==> Fresh(sc[|sc| - 1].Keys, names)
    ensures var r := DeclareVars(sc, names, asParams);
      r.ok ==> r.scopes == Outer(sc) + [BindAllIn(sc[|sc| - 1], names, Numeric)]
    ensures var r := DeclareVars(sc, names, asParams);
      !r.ok ==> exists k :: FirstClash(sc[|sc| - 1].Keys, names, k) && r.diags == [VarDiag(names[k], asParams)]
    decreases names
  {
    var last := sc[|sc| - 1];
    if names == [] {
      assert BindAllIn(last, names, Numeric) == last;
      assert sc == Outer(sc) + [last];
    } else if names[0] in last {
      assert FirstClash(last.Keys, names, 0) by {
        assert names[..0] == [];
      }
    } else {
      var next := Bind(sc, names[0], Numeric).value;
      DeclareVarsSpec(next, names[1..], asParams);
      assert next[|next| - 1] == last[names[0] := Numeric];
      assert next[|next| - 1].Keys == last.Keys + {names[0]};
      FreshCons(last.Keys, names);
      BindAllInCons(last, names, Numeric);
      var r := DeclareVars(next, names[1..], asParams);
      if !r.ok {
        var k :| FirstClash(last.Keys + {names[0]}, names[1..], k) && r.diags == [VarDiag(names[1..][k], asParams)];
        FirstClashCons(last.Keys, names, k);
      }
    }
  }

  /** The first pass of checkProgram succeeds exactly when the routine names are
      pairwise distinct and none is declared in any frame; each name then
      resolves to TYPELESS and every other name as before. Otherwise the
      single message names the first clashing routine. */
  lemma {:induction false} DeclareRoutinesSpec(sc: seq<Frame>, names: seq<string>, procs: bool)
    requires sc != []
    ensures var r := DeclareRoutines(sc, names, procs);
      r.ok <==> Fresh(Names(sc), names)
    ensures var r := DeclareRoutines(sc, names, procs);
      r.ok ==> forall x :: Lookup(r.scopes, x) == if x in names then Some(Typeless) else Lookup(sc, x)
    ensures var r := DeclareRoutines(sc, names, procs);
      !r.ok ==> exists k :: FirstClash(Names(sc), names, k) && r.diags == [RoutineDiag(names[k], procs)]
    decreases names
  {
    if names == [] {
    } else if Declared(sc, names[0]) {
      assert FirstClash(Names(sc), names, 0) by {
        assert names[..0] == [];
      }
    } else {
      var n0 := names[0];
      var next := Bind(sc, n0, Typeless).value;
      forall x
        ensures Lookup(next, x) == if x == n0 then Some(Typeless) else Lookup(sc, x)
      {
        BindResolves(sc, n0, Typeless, x);
      }
      assert Names(next) == Names(sc) + {n0};
      DeclareRoutinesSpec(next, names[1..], procs);
      FreshCons(Names(sc), names);
      var r := DeclareRoutines(next, names[1..], procs);
      if r.ok {
        assert forall x :: x in names <==> x == n0 || x in names[1..];
      } else {
        var k :| FirstClash(Names(next), names[1..], k) && r.diags == [RoutineDiag(names[1..][k], procs)];
        FirstClashCons(Names(sc), names, k);
      }
    }
  }

  /** checkProgram rejects a procedure or function whose name is already taken,
      by a global, by an earlier routine or by one of the other kind, with one
      message and before any body is checked. */
  lemma RoutineClashRejected(sc: seq<Frame>, p: Program)
    requires sc != [] && DeclareVars(sc, p.globals, false).ok
    requires !Fresh(Names(DeclareVars(sc, p.globals, false).scopes), ProcNames(p.procs) + FuncNames(p.funcs))
    ensures var r := ProgramCheck(sc, p);
      !r.ok && |r.diags| == 1 && (r.diags[0].ProcedureAlreadyDeclared? || r.diags[0].FunctionAlreadyDeclared?)
  {
    RoutineNamesClash(DeclareVars(sc, p.globals, false).scopes, p);
  }

  /** The first pass refuses exactly the programs whose routine names are
      not fresh, with a single message. */
  lemma RoutineNamesClash(sc: seq<Frame>, p: Program)
    requires sc != [] && !Fresh(Names(sc), ProcNames(p.procs) + FuncNames(p.funcs))
    ensures var r := RoutineNamesCheck(sc, p);
      !r.ok && |r.diags| == 1 && (r.diags[0].ProcedureAlreadyDeclared? || r.diags[0].FunctionAlreadyDeclared?)
  {
    var ps := ProcNames(p.procs);
    var fs := FuncNames(p.funcs);
    DeclareRoutinesSpec(sc, ps, true);
    var rp := DeclareRoutines(sc, ps, true);
    if rp.ok {
      DeclareRoutinesSpec(rp.scopes, fs, false);
      var rf := DeclareRoutines(rp.scopes, fs, false);
      if rf.ok {
        forall x | x in Names(sc) || x in ps
          ensures x in Names(rp.scopes)
        {
          assert Declared(rp.scopes, x);
        }
        FreshAppend(Names(sc), Names(rp.scopes), ps, fs);
        assert false;
      }
    }
  }


  /** In particular a global and a procedure may not share a name: the message
      names that procedure or an earlier clashing one. */
  lemma GlobalProcedureClash(sc: seq<Frame>, p: Program, i: nat, j: nat)
    requires sc != [] && DeclareVars(sc, p.globals, false).ok
    requires i < |p.globals| && j < |p.procs| && p.globals[i] == p.procs[j].name
    ensures !ProgramCheck(sc, p).ok
    ensures exists k :: 0 <= k <= j && ProgramCheck(sc, p).diags == [ProcedureAlreadyDeclared(p.procs[k].name)]
  {
    var g := DeclareVars(sc, p.globals, false);
    DeclareVarsSpec(sc, p.globals, false);
    var ps := ProcNames(p.procs);
    assert p.globals[i] in g.scopes[|sc| - 1];
    assert Declared(g.scopes, ps[j]);
    DeclareRoutinesSpec(g.scopes, ps, true);
    var rp := DeclareRoutines(g.scopes, ps, true);
    var k :| FirstClash(Names(g.scopes), ps, k) && rp.diags == [RoutineDiag(ps[k], true)];
    assert k <= j;
  }

  // ------------------------------------------------------------------
  // Scopes
  // ------------------------------------------------------------------

  /** checkBody, checkMainProg, checkProcDef and checkFuncDef pop what they push,
      whether they succeed or fail, so the stack depth is what it was. */
  lemma ScopesRestored(sc: seq<Frame>, params: seq<string>, body: Body)
    ensures |BlockCheck(sc, body.locals, body.statements).scopes| == |sc|
    ensures |RoutineCheck(sc, params, body).scopes| == |sc|
    ensures forall x :: Lookup(RoutineCheck(sc, params, body).scopes, x) == Lookup(sc, x)
  {
  }

  /** Parameters and locals live in two different frames, so a local may
      reuse a parameter's name; two equal parameter names are refused. */
  lemma LocalShadowsParameter(sc: seq<Frame>, x: string)
    ensures RoutineCheck(sc, [x], Body([x], [])).ok
    ensures RoutineCheck(sc, [x, x], Body([], [])) == Scoped(false, sc, [ParameterAlreadyDeclared(x)])
  {
    var p := DeclareVars(sc + [map[]], [x], true);
    DeclareVarsSpec(sc + [map[]], [x], true);
    DeclareVarsSpec(p.scopes + [map[]], [x], false);
    var q := DeclareVars(sc + [map[]], [x, x], true);
    DeclareVarsSpec(sc + [map[]], [x, x], true);
    assert !Distinct([x, x]);
    assert q.scopes[..|q.scopes| - 1] == sc;
  }

  /** A function body needs no `return`: a routine with distinct parameters and
      distinct locals and no statements at all is accepted. */
  lemma RoutineWithoutReturnAccepted(sc: seq<Frame>, params: seq<string>, locals: seq<string>)
    requires Distinct(params) && Distinct(locals)
    ensures RoutineCheck(sc, params, Body(locals, [])).ok
    ensures FuncDefsCheck(sc, [FuncDef("f", params, Body(locals, []))], 0).ok
  {
    var p := DeclareVars(sc + [map[]], params, true);
    DeclareVarsSpec(sc + [map[]], params, true);
    DeclareVarsSpec(p.scopes + [map[]], locals, false);
  }

  // ------------------------------------------------------------------
  // Statement lists
  // ------------------------------------------------------------------

  /** checkStatementList accepts exactly the lists whose statements are all
      accepted; when one is rejected, the log holds that statement's messages
      only: earlier ones logged none and later ones are never checked. */
  lemma {:induction false} StmtListFailFast(sc: seq<Frame>, ss: seq<Stmt>, k: nat)
    ensures StmtListCheck(sc, ss).ok <==> forall i :: 0 <= i < |ss| ==> StmtCheck(sc, ss[i]).ok
    ensures k < |ss| && !StmtCheck(sc, ss[k]).ok && (forall i :: 0 <= i < k ==> StmtCheck(sc, ss[i]).ok) ==>
      StmtListCheck(sc, ss) == Checked(false, StmtCheck(sc, ss[k]).diags)
    decreases ss
  {
    if ss != [] {
      StmtListFailFast(sc, ss[1..], if k == 0 then 0 else k - 1);
      assert forall i :: 1 <= i < |ss| ==> ss[1..][i - 1] == ss[i];
    }
  }

  /** checkIfElse, unlike a statement list, checks the else branch even when the
      then branch fails: its messages follow the then branch's in the log. */
  lemma IfElseChecksBothBranches(sc: seq<Frame>, c: Expr, th: seq<Stmt>, el: seq<Stmt>)
    requires TermCheck(sc, c).t == Boolean
    ensures StmtCheck(sc, IfElse(c, th, el)).ok <==> StmtListCheck(sc, th).ok && StmtListCheck(sc, el).ok
    ensures StmtCheck(sc, IfElse(c, th, el)).diags == StmtListCheck(sc, th).diags + StmtListCheck(sc, el).diags
  {
    var b1, b2 := StmtListCheck(sc, th), StmtListCheck(sc, el);
    assert TermCheck(sc, c).diags == [];
    assert IfElseCheck(sc, IfElse(c, th, el)) == Checked(b1.ok && b2.ok, [] + b1.diags + b2.diags);
    assert StmtCheck(sc, IfElse(c, th, el)) == IfElseCheck(sc, IfElse(c, th, el));
  }

  /** A conditional or loop whose condition is not BOOLEAN is rejected without
      its branches or body being checked. */
  lemma NonBooleanConditionRejected(sc: seq<Frame>, c: Expr, body: seq<Stmt>, alt: seq<Stmt>)
    requires TermCheck(sc, c).t != Boolean
    ensures StmtCheck(sc, If(c, body)) == Checked(false, TermCheck(sc, c).diags + [IfConditionNotBoolean])
    ensures StmtCheck(sc, IfElse(c, body, alt)) == Checked(false, TermCheck(sc, c).diags + [IfConditionNotBoolean])
    ensures StmtCheck(sc, While(c, body)) == Checked(false, TermCheck(sc, c).diags + [WhileConditionNotBoolean])
    ensures StmtCheck(sc, DoUntil(body, c)) == Checked(false, TermCheck(sc, c).diags + [DoUntilConditionNotBoolean])
  {
    var d := TermCheck(sc, c).diags;
    assert StmtCheck(sc, If(c, body)) == Checked(false, d + [IfConditionNotBoolean]) by {
      assert StmtCheck(sc, If(c, body)) == IfCheck(sc, If(c, body));
    }
    assert StmtCheck(sc, IfElse(c, body, alt)) == Checked(false, d + [IfConditionNotBoolean]) by {
      assert StmtCheck(sc, IfElse(c, body, alt)) == IfElseCheck(sc, IfElse(c, body, alt));
    }
    assert StmtCheck(sc, While(c, body)) == Checked(false, d + [WhileConditionNotBoolean]) by {
      assert StmtCheck(sc, While(c, body)) == WhileCheck(sc, While(c, body));
    }
    assert StmtCheck(sc, DoUntil(body, c)) == Checked(false, d + [DoUntilConditionNotBoolean]) by {
      assert StmtCheck(sc, DoUntil(body, c)) == DoUntilCheck(sc, DoUntil(body, c));
    }
  }

  /** With a BOOLEAN condition, `if`, `while` and `do … until` pass exactly
      when their body does, and log exactly the body's messages. */
  lemma BooleanConditionRule(sc: seq<Frame>, c: Expr, body: seq<Stmt>)
    requires TermCheck(sc, c).t == Boolean
    ensures StmtCheck(sc, If(c, body)) == StmtListCheck(sc, body)
    ensures StmtCheck(sc, While(c, body)) == StmtListCheck(sc, body)
    ensures StmtCheck(sc, DoUntil(body, c)) == StmtListCheck(sc, body)
  {
    var b := StmtListCheck(sc, body);
    assert TermCheck(sc, c).diags == [];
    assert StmtCheck(sc, If(c, body)) == b by {
      assert StmtCheck(sc, If(c, body)) == IfCheck(sc, If(c, body));
    }
    assert StmtCheck(sc, While(c, body)) == b by {
      assert StmtCheck(sc, While(c, body)) == WhileCheck(sc, While(c, body));
    }
    assert StmtCheck(sc, DoUntil(body, c)) == b by {
      assert StmtCheck(sc, DoUntil(body, c)) == DoUntilCheck(sc, DoUntil(body, c));
    }
  }

  // ------------------------------------------------------------------
  // The second pass of checkProgram
  // ------------------------------------------------------------------


  /** A procedure loop that passes has passed every definition it reached. */
  lemma {:induction false} ProcDefsPassedEach(sc: seq<Frame>, ps: seq<ProcDef>, from: nat, i: nat)
    requires from <= i < |ps|
    requires ProcDefsCheck(sc, ps, from).ok
    ensures RoutineCheck(sc, ps[i].params, ps[i].body).ok
    decreases i - from
  {
    var h := RoutineCheck(sc, ps[from].params, ps[from].body);
    assert ProcDefsCheck(sc, ps, from) == if !h.ok then Checked(false, h.diags) else ProcDefsCheck(sc, ps, from + 1);
    if from < i {
      ProcDefsPassedEach(sc, ps, from + 1, i);
    }
  }

  /** A procedure loop whose every definition passes passes. */
  lemma {:induction false} ProcDefsPassWhenEach(sc: seq<Frame>, ps: seq<ProcDef>, from: nat)
    requires from <= |ps|
    requires forall i :: from <= i < |ps| ==> RoutineCheck(sc, ps[i].params, ps[i].body).ok
    ensures ProcDefsCheck(sc, ps, from).ok
    decreases |ps| - from
  {
    if from < |ps| {
      var h := RoutineCheck(sc, ps[from].params, ps[from].body);
      assert ProcDefsCheck(sc, ps, from) == if !h.ok then Checked(false, h.diags) else ProcDefsCheck(sc, ps, from + 1);
      assert h.ok;
      ProcDefsPassWhenEach(sc, ps, from + 1);
    }
  }

  /** The procedure loop of the second pass checks every definition against the
      same stack (each check restores it) and passes exactly when every
      definition from `from` on does. */
  lemma ProcDefsAllPass(sc: seq<Frame>, ps: seq<ProcDef>, from: nat)
    requires from <= |ps|
    ensures ProcDefsCheck(sc, ps, from).ok <==>
      forall i :: from <= i < |ps| ==> RoutineCheck(sc, ps[i].params, ps[i].body).ok
  {
    if ProcDefsCheck(sc, ps, from).ok {
      forall i | from <= i < |ps|
        ensures RoutineCheck(sc, ps[i].params, ps[i].body).ok
      {
        ProcDefsPassedEach(sc, ps, from, i);
      }
    }
    if forall i :: from <= i < |ps| ==> RoutineCheck(sc, ps[i].params, ps[i].body).ok {
      ProcDefsPassWhenEach(sc, ps, from);
    }
  }

  /** The procedure loop stops at the first rejected definition, and its
      messages are the loop's. */
  lemma {:induction false} ProcDefsFailFast(sc: seq<Frame>, ps: seq<ProcDef>, from: nat, k: nat)
    requires from <= k < |ps|
    requires !RoutineCheck(sc, ps[k].params, ps[k].body).ok
    requires forall i :: from <= i < k ==> RoutineCheck(sc, ps[i].params, ps[i].body).ok
    ensures ProcDefsCheck(sc, ps, from) == Checked(false, RoutineCheck(sc, ps[k].params, ps[k].body).diags)
    decreases k - from
  {
    var h := RoutineCheck(sc, ps[from].params, ps[from].body);
    assert ProcDefsCheck(sc, ps, from) == if !h.ok then Checked(false, h.diags) else ProcDefsCheck(sc, ps, from + 1);
    if from < k {
      ProcDefsFailFast(sc, ps, from + 1, k);
    }
  }


  /** A function loop that passes has passed every definition it reached. */
  lemma {:induction false} FuncDefsPassedEach(sc: seq<Frame>, fs: seq<FuncDef>, from: nat, i: nat)
    requires from <= i < |fs|
    requires FuncDefsCheck(sc, fs, from).ok
    ensures RoutineCheck(sc, fs[i].params, fs[i].body).ok
    decreases i - from
  {
    var h := RoutineCheck(sc, fs[from].params, fs[from].body);
    assert FuncDefsCheck(sc, fs, from) == if !h.ok then Checked(false, h.diags) else FuncDefsCheck(sc, fs, from + 1);
    if from < i {
      FuncDefsPassedEach(sc, fs, from + 1, i);
    }
  }

  /** A function loop whose every definition passes passes. */
  lemma {:induction false} FuncDefsPassWhenEach(sc: seq<Frame>, fs: seq<FuncDef>, from: nat)
    requires from <= |fs|
    requires forall i :: from <= i < |fs| ==> RoutineCheck(sc, fs[i].params, fs[i].body).ok
    ensures FuncDefsCheck(sc, fs, from).ok
    decreases |fs| - from
  {
    if from < |fs| {
      var h := RoutineCheck(sc, fs[from].params, fs[from].body);
      assert FuncDefsCheck(sc, fs, from) == if !h.ok then Checked(false, h.diags) else FuncDefsCheck(sc, fs, from + 1);
      assert h.ok;
      FuncDefsPassWhenEach(sc, fs, from + 1);
    }
  }

  /** The function loop of the second pass checks every definition against the
      same stack (each check restores it) and passes exactly when every
      definition from `from` on does. */
  lemma FuncDefsAllPass(sc: seq<Frame>, fs: seq<FuncDef>, from: nat)
    requires from <= |fs|
    ensures FuncDefsCheck(sc, fs, from).ok <==>
      forall i :: from <= i < |fs| ==> RoutineCheck(sc, fs[i].params, fs[i].body).ok
  {
    if FuncDefsCheck(sc, fs, from).ok {
      forall i | from <= i < |fs|
        ensures RoutineCheck(sc, fs[i].params, fs[i].body).ok
      {
        FuncDefsPassedEach(sc, fs, from, i);
      }
    }
    if forall i :: from <= i < |fs| ==> RoutineCheck(sc, fs[i].params, fs[i].body).ok {
      FuncDefsPassWhenEach(sc, fs, from);
    }
  }

  /** The function loop stops at the first rejected definition, and its
      messages are the loop's. */
  lemma {:induction false} FuncDefsFailFast(sc: seq<Frame>, fs: seq<FuncDef>, from: nat, k: nat)
    requires from <= k < |fs|
    requires !RoutineCheck(sc, fs[k].params, fs[k].body).ok
    requires forall i :: from <= i < k ==> RoutineCheck(sc, fs[i].params, fs[i].body).ok
    ensures FuncDefsCheck(sc, fs, from) == Checked(false, RoutineCheck(sc, fs[k].params, fs[k].body).diags)
    decreases k - from
  {
    var h := RoutineCheck(sc, fs[from].params, fs[from].body);
    assert FuncDefsCheck(sc, fs, from) == if !h.ok then Checked(false, h.diags) else FuncDefsCheck(sc, fs, from + 1);
    if from < k {
      FuncDefsFailFast(sc, fs, from + 1, k);
    }
  }

  /** The second pass passes exactly when every procedure, every function and
      `main` pass; the first rejected procedure ends it before any function is
      checked, and a rejected function ends it before `main` is. */
  lemma DefinitionsRule(sc: seq<Frame>, p: Program, k: nat)
    ensures DefinitionsCheck(sc, p).ok <==>
      (forall i :: 0 <= i < |p.procs| ==> RoutineCheck(sc, p.procs[i].params, p.procs[i].body).ok) &&
      (forall i :: 0 <= i < |p.funcs| ==> RoutineCheck(sc, p.funcs[i].params, p.funcs[i].body).ok) &&
      BlockCheck(sc, p.main.locals, p.main.statements).ok
    ensures (k < |p.procs| && !RoutineCheck(sc, p.procs[k].params, p.procs[k].body).ok &&
             forall i :: 0 <= i < k ==> RoutineCheck(sc, p.procs[i].params, p.procs[i].body).ok) ==>
      DefinitionsCheck(sc, p) == Checked(false, RoutineCheck(sc, p.procs[k].params, p.procs[k].body).diags)
    ensures ((forall i :: 0 <= i < |p.procs| ==> RoutineCheck(sc, p.procs[i].params, p.procs[i].body).ok) &&
             k < |p.funcs| && !RoutineCheck(sc, p.funcs[k].params, p.funcs[k].body).ok &&
             forall i :: 0 <= i < k ==> RoutineCheck(sc, p.funcs[i].params, p.funcs[i].body).ok) ==>
      DefinitionsCheck(sc, p) == Checked(false, RoutineCheck(sc, p.funcs[k].params, p.funcs[k].body).diags)
  {
    var pd, fd := ProcDefsCheck(sc, p.procs, 0), FuncDefsCheck(sc, p.funcs, 0);
    var m := BlockCheck(sc, p.main.locals, p.main.statements);
    assert DefinitionsCheck(sc, p) == if !pd.ok then pd else if !fd.ok then fd else Checked(m.ok, m.diags);
    ProcDefsAllPass(sc, p.procs, 0);
    FuncDefsAllPass(sc, p.funcs, 0);
    if k < |p.procs| && !RoutineCheck(sc, p.procs[k].params, p.procs[k].body).ok &&
       forall i :: 0 <= i < k ==> RoutineCheck(sc, p.procs[i].params, p.procs[i].body).ok
    {
      ProcDefsFailFast(sc, p.procs, 0, k);
    }
    if k < |p.funcs| && !RoutineCheck(sc, p.funcs[k].params, p.funcs[k].body).ok &&
       forall i :: 0 <= i < k ==> RoutineCheck(sc, p.funcs[i].params, p.funcs[i].body).ok
    {
      FuncDefsFailFast(sc, p.funcs, 0, k);
    }
  }

  // ------------------------------------------------------------------
  // Statement rules
  // ------------------------------------------------------------------

  /** `return` accepts a declared NUMERIC variable or a number literal only;
      any other expression is not an atom and is rejected with two messages. */
  lemma ReturnRule(sc: seq<Frame>, e: Expr)
    ensures StmtCheck(sc, Return(e)).ok <==>
      e.Number? || (e.Var? && Declared(sc, e.name) && TypeOf(sc, e.name) == Numeric)
    ensures !e.Var? && !e.Number? ==> StmtCheck(sc, Return(e)) == Checked(false, [InvalidAtom, ReturnNotNumeric])
  {
  }

  /** An assignment needs a declared NUMERIC target, so a TYPELESS routine name
      is refused, and a NUMERIC right-hand side. */
  lemma AssignRule(sc: seq<Frame>, x: string, e: Expr)
    ensures StmtCheck(sc, Assign(x, e)).ok <==>
      Declared(sc, x) && TypeOf(sc, x) == Numeric && ExprCheck(sc, e).t == Numeric
    ensures Declared(sc, x) && TypeOf(sc, x) == Typeless ==>
      StmtCheck(sc, Assign(x, e)) == Checked(false, [VariableNotNumeric(x)])
  {
  }

  /** checkExpression does no lookup for a bare variable or a string: both are
      NUMERIC, so copying an undeclared variable or a string is accepted. */
  lemma AssignCopiesWithoutLookup(sc: seq<Frame>, x: string, y: string, s: string)
    requires Declared(sc, x) && TypeOf(sc, x) == Numeric && !Declared(sc, y)
    ensures StmtCheck(sc, Assign(x, Var(y))).ok
    ensures StmtCheck(sc, Assign(x, Str(s))).ok
    ensures !StmtCheck(sc, Assign(x, Unary("neg", Var(y)))).ok
  {
    assert TermCheck(sc, Var(y)).t == Unknown;
    assert UnaryCheck(sc, Unary("neg", Var(y))).t == Unknown;
  }

  /** A procedure call only needs its name declared as something: a NUMERIC
      variable can be called like a procedure. */
  lemma ProcCallRule(sc: seq<Frame>, n: string, args: seq<Expr>)
    ensures StmtCheck(sc, ProcCall(n, args)).ok <==>
      Declared(sc, n) && forall i :: 0 <= i < |args| ==> AtomCheck(sc, args[i]).t == Numeric
    ensures Declared(sc, n) && TypeOf(sc, n) == Numeric ==> StmtCheck(sc, ProcCall(n, [])).ok
  {
  }

  /** Printing a routine name is rejected, yet checkOutput logs nothing for it,
      so checkProgram can fail with an empty log. */
  lemma PrintOfRoutineNameSilent(sc: seq<Frame>, n: string)
    requires Declared(sc, n) && TypeOf(sc, n) == Typeless
    ensures StmtCheck(sc, Print(Var(n))) == Checked(false, [])
    ensures StmtListCheck(sc, [Print(Var(n)), Halt]) == Checked(false, [])
  {
  }

  /** A whole program that prints the name of its procedure is rejected with
      an empty log: typeCheck fails and no message says why. */
  lemma ProgramPrintingRoutineNameSilent()
    ensures var p := Program([], [ProcDef("p", [], Body([], []))], [], MainProg([], [Print(Var("p"))]));
      var r := ProgramCheck([map[]], p);
      !r.ok && r.diags == [] && !TypeCheckResult([map[]], p)
  {
    var p := Program([], [ProcDef("p", [], Body([], []))], [], MainProg([], [Print(Var("p"))]));
    var sc1: seq<Frame> := [map["p" := Typeless]];
    assert ProcNames(p.procs) == ["p"];
    assert FuncNames(p.funcs) == [];
    assert !Declared([map[]], "p");
    assert Bind([map[]], "p", Typeless) == Some(sc1);
    assert RoutineNamesCheck([map[]], p) == Scoped(true, sc1, []);
    assert RoutineCheck(sc1, [], Body([], [])).ok;
    assert ProcDefsCheck(sc1, p.procs, 0).ok;
    var inner := sc1 + [map[]];
    assert Lookup(inner, "p") == Some(Typeless) by {
      assert Innermost(inner, "p") == 0;
    }
    PrintOfRoutineNameSilent(inner, "p");
    assert StmtListCheck(inner, p.main.statements) == Checked(false, []);
    assert BlockCheck(sc1, [], p.main.statements) == Scoped(false, sc1, []);
  }

  /** typeCheck's verdict is checkProgram's: success never logs a message. */
  lemma TypeCheckIsProgramCheck(sc: seq<Frame>, p: Program)
    ensures TypeCheckResult(sc, p) == ProgramCheck(sc, p).ok
  {
  }
}
