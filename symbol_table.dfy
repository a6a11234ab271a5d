/**
 * The checker's scoped symbol table: a stack of name-to-type frames, the
 * first frame outermost (global) and the last frame innermost.
 */
module SymbolTables {
  import opened Wrappers

  /** The classifications of the type checker. COMPARISON classifies operators
      and is never stored for a name; TYPELESS marks procedure and function
      names; UNKNOWN is the result of a failed check. */
  datatype Type = Numeric | Boolean | Comparison | Typeless | Unknown

  type Frame = map<string, Type>

  /** The index of the innermost frame that binds the name, or -1. */
  function Innermost(scopes: seq<Frame>, name: string): (k: int)
    ensures -1 <= k < |scopes|
    ensures k >= 0 ==> name in scopes[k]
    ensures forall j :: k < j < |scopes| ==> name !in scopes[j]
  {
    if scopes == [] then -1
    else if name in scopes[|scopes| - 1] then |scopes| - 1
    else Innermost(scopes[..|scopes| - 1], name)
  }

  /** What a name resolves to: its binding in the innermost frame that binds it. */
  function Lookup(scopes: seq<Frame>, name: string): (r: Option<Type>)
    ensures r.None? <==> forall i :: 0 <= i < |scopes| ==> name !in scopes[i]
    ensures r.Some? ==>
      exists i :: 0 <= i < |scopes| && name in scopes[i] && scopes[i][name] == r.value &&
        forall j :: i < j < |scopes| ==> name !in scopes[j]
  {
    var k := Innermost(scopes, name);
    if k < 0 then None else Some(scopes[k][name])
  }

  predicate Declared(scopes: seq<Frame>, name: string) {
    Lookup(scopes, name).Some?
  }

  /** The answer of getType: the resolved binding, or UNKNOWN. */
  function TypeOf(scopes: seq<Frame>, name: string): Type {
    Lookup(scopes, name).GetOr(Unknown)
  }

  /** The stack without its innermost frame (the stack itself when empty). */
  function Outer(scopes: seq<Frame>): seq<Frame> {
    if scopes == [] then [] else scopes[..|scopes| - 1]
  }

  /** The stack after a successful declare, or None when declare refuses:
      no frame at all, or the name already bound in the innermost frame. */
  function Bind(scopes: seq<Frame>, name: string, t: Type): (r: Option<seq<Frame>>)
    ensures r.None? <==> scopes == [] || name in scopes[|scopes| - 1]
    ensures r.Some? ==> |r.value| == |scopes| && Outer(r.value) == Outer(scopes)
  {
    if scopes == [] || name in scopes[|scopes| - 1] then None
    else Some(Outer(scopes) + [scopes[|scopes| - 1][name := t]])
  }

  /** A successful declare changes the innermost frame only, and only at the
      declared name: that name now resolves to the new type, every other name
      resolves as before. */
  lemma BindResolves(scopes: seq<Frame>, name: string, t: Type, other: string)
    requires Bind(scopes, name, t).Some?
    ensures var s := Bind(scopes, name, t).value;
      |s| == |scopes| && Outer(s) == Outer(scopes) &&
      Lookup(s, name) == Some(t) &&
      (other != name ==> Lookup(s, other) == Lookup(scopes, other))
  {
    var s := Bind(scopes, name, t).value;
    assert s[..|s| - 1] == Outer(scopes);
  }

  /** Declaring a name bound in any outer frame, but not in the innermost one,
      succeeds: the new binding shadows the outer one, which stays in place
      and resolves again once the innermost frame is dropped. */
  lemma ShadowingSucceeds(scopes: seq<Frame>, name: string, t: Type, i: int)
    requires 0 <= i < |scopes| - 1 && name in scopes[i] && name !in scopes[|scopes| - 1]
    ensures Bind(scopes, name, t).Some?
    ensures TypeOf(Bind(scopes, name, t).value, name) == t
    ensures name in Bind(scopes, name, t).value[i] && Bind(scopes, name, t).value[i][name] == scopes[i][name]
    ensures Lookup(Outer(Bind(scopes, name, t).value), name) == Lookup(Outer(scopes), name)
    ensures Declared(Outer(scopes), name)
  {
    BindResolves(scopes, name, t, name);
    var s := Bind(scopes, name, t).value;
    assert s[i] == Outer(s)[i] == Outer(scopes)[i] == scopes[i];
    assert name in Outer(scopes)[i];
  }

  class SymbolTable {
    var scopes: seq<Frame>

    /** A new table holds the global frame only. */
    constructor ()
      ensures scopes == [map[]]
    {
      scopes := [map[]];
    }

    method EnterScope()
      modifies this
      ensures scopes == old(scopes) + [map[]]
    {
      scopes := scopes + [map[]];
    }

    /** Pops the innermost frame; a no-op on an empty stack. */
    method ExitScope()
      modifies this
      ensures scopes == Outer(old(scopes))
      ensures |scopes| == if old(scopes) == [] then 0 else |old(scopes)| - 1
    {
      if scopes != [] {
        scopes := scopes[..|scopes| - 1];
      }
    }

    /** Binds the name in the innermost frame unless that frame already has it. */
    method Declare(name: string, t: Type) returns (ok: bool)
      modifies this
      ensures ok <==> old(scopes) != [] && name !in old(scopes)[|old(scopes)| - 1]
      ensures !ok ==> scopes == old(scopes)
      ensures ok ==> (|scopes| == |old(scopes)| && Outer(scopes) == Outer(old(scopes)) &&
                      scopes[|scopes| - 1] == old(scopes)[|old(scopes)| - 1][name := t])
      ensures Bind(old(scopes), name, t) == if ok then Some(scopes) else None
    {
      if scopes == [] {
        return false;
      }
      var inner := scopes[|scopes| - 1];
      if name in inner {
        return false;
      }
      scopes := scopes[..|scopes| - 1] + [inner[name := t]];
      ok := true;
    }

    /** Searches from the innermost frame outwards. */
    method IsDeclared(name: string) returns (b: bool)
      ensures b <==> exists i :: 0 <= i < |scopes| && name in scopes[i]
      ensures b == Declared(scopes, name)
    {
      var i := |scopes|;
      while i > 0
        invariant 0 <= i <= |scopes|
        invariant forall j :: i <= j < |scopes| ==> name !in scopes[j]
      {
        if name in scopes[i - 1] {
          return true;
        }
        i := i - 1;
      }
      return false;
    }

    /** The binding in the innermost frame that has the name, else UNKNOWN. */
    method GetType(name: string) returns (t: Type)
      ensures (forall i :: 0 <= i < |scopes| ==> name !in scopes[i]) ==> t == Unknown
      ensures forall i ::
        (0 <= i < |scopes| && name in scopes[i] && forall j :: i < j < |scopes| ==> name !in scopes[j])
        ==> t == scopes[i][name]
      ensures t == TypeOf(scopes, name)
    {
      var i := |scopes|;
      while i > 0
        invariant 0 <= i <= |scopes|
        invariant forall j :: i <= j < |scopes| ==> name !in scopes[j]
      {
        if name in scopes[i - 1] {
          return scopes[i - 1][name];
        }
        i := i - 1;
      }
      return Unknown;
    }

    /** True exactly when no frame has the name. */
    method IsTypeLess(name: string) returns (b: bool)
      ensures b <==> forall i :: 0 <= i < |scopes| ==> name !in scopes[i]
      ensures b == !Declared(scopes, name)
    {
      var d := IsDeclared(name);
      b := !d;
    }
  }
}
