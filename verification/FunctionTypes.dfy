/**
  Keys of types and the emission order of function types
  (compiler/src/codegen.cpp:546-557, 4257-4315).
 */
module FunctionTypes {
  import opened Decimals
  import opened FirTypes
  import opened Wrappers

  function KindNumber(k: Kind): nat {
    match k
    case Invalid => 0
    case Void => 1
    case Never => 2
    case I8 => 3
    case I16 => 4
    case I32 => 5
    case I64 => 6
    case U8 => 7
    case U16 => 8
    case U32 => 9
    case U64 => 10
    case Isize => 11
    case Usize => 12
    case F32 => 13
    case F64 => 14
    case Bool => 15
    case String => 16
    case Raw => 17
    case RawConst => 18
    case Array => 19
    case Slice => 20
    case Own => 21
    case View => 22
    case Edit => 23
    case Parameter => 24
    case Struct => 25
    case Enum => 26
    case Contract => 27
    case Function => 28
    case Task => 29
    case Channel => 30
    case Sender => 31
    case Receiver => 32
  }

  lemma KindNumberInjective(a: Kind, b: Kind)
    requires KindNumber(a) == KindNumber(b)
    ensures a == b
  {
  }

  // ---------- type keys ----------

  function TypeKey(t: Type): string
    decreases t
  {
    Decimal(KindNumber(t.kind)) + ":" + Decimal(t.declaration)
    + if t.arguments == [] then "" else "<" + ArgumentKeys(t.arguments) + ">"
  }

  function ArgumentKeys(ts: seq<Type>): string
    decreases ts
  {
    if ts == [] then "" else TypeKey(ts[0]) + ";" + ArgumentKeys(ts[1..])
  }

  predicate EndsKey(rest: string) {
    rest == [] || rest[0] == ';'
  }

  /** What follows the two numbers of a key. */
  function Tail(t: Type, rest: string): string {
    if t.arguments == [] then rest else "<" + (ArgumentKeys(t.arguments) + (">" + rest))
  }

  lemma KeyParts(t: Type, rest: string)
    ensures TypeKey(t) + rest
            == Decimal(KindNumber(t.kind)) + (":" + (Decimal(t.declaration) + Tail(t, rest)))
  {
  }

  /** Where a key ends, and of which type it is, can be read off any text it starts. */
  lemma {:induction false} KeyDecodes(a: Type, b: Type, r: string, s: string)
    requires TypeKey(a) + r == TypeKey(b) + s && EndsKey(r) && EndsKey(s)
    ensures a == b && r == s
    decreases a
  {
    hide TypeKey, Decimal, ArgumentKeys;
    KeyParts(a, r);
    KeyParts(b, s);
    var x := ":" + (Decimal(a.declaration) + Tail(a, r));
    var y := ":" + (Decimal(b.declaration) + Tail(b, s));
    assert x[0] == ':' && y[0] == ':';
    DecimalDelimited(KindNumber(a.kind), KindNumber(b.kind), x, y);
    KindNumberInjective(a.kind, b.kind);
    assert x[1..] == Decimal(a.declaration) + Tail(a, r);
    assert y[1..] == Decimal(b.declaration) + Tail(b, s);
    DecimalDelimited(a.declaration, b.declaration, Tail(a, r), Tail(b, s));
    TailDecodes(a, b, r, s);
  }

  lemma {:induction false} TailDecodes(a: Type, b: Type, r: string, s: string)
    requires Tail(a, r) == Tail(b, s) && EndsKey(r) && EndsKey(s)
    ensures a.arguments == b.arguments && r == s
    decreases a, 0
  {
    hide TypeKey, ArgumentKeys;
    if a.arguments != [] && b.arguments != [] {
      var x, y := ArgumentKeys(a.arguments) + (">" + r), ArgumentKeys(b.arguments) + (">" + s);
      assert Tail(a, r)[1..] == x && Tail(b, s)[1..] == y;
      ArgumentsDecode(a.arguments, b.arguments, r, s);
    }
  }

  lemma {:induction false} ArgumentsDecode(ts: seq<Type>, us: seq<Type>, r: string, s: string)
    requires ArgumentKeys(ts) + (">" + r) == ArgumentKeys(us) + (">" + s)
    ensures ts == us && r == s
    decreases ts
  {
    hide TypeKey;
    var x, y := ArgumentKeys(ts) + (">" + r), ArgumentKeys(us) + (">" + s);
    ArgumentsStart(ts, ">" + r);
    ArgumentsStart(us, ">" + s);
    if ts == [] {
      assert x[1..] == r && y[1..] == s;
    } else {
      var p, q := ArgumentKeys(ts[1..]) + (">" + r), ArgumentKeys(us[1..]) + (">" + s);
      assert x == TypeKey(ts[0]) + (";" + p) && y == TypeKey(us[0]) + (";" + q);
      KeyDecodes(ts[0], us[0], ";" + p, ";" + q);
      assert (";" + p)[1..] == p && (";" + q)[1..] == q;
      ArgumentsDecode(ts[1..], us[1..], r, s);
      assert ts == [ts[0]] + ts[1..] && us == [us[0]] + us[1..];
    }
  }

  lemma KeyStartsWithDigit(t: Type)
    ensures TypeKey(t) != [] && IsDigit(TypeKey(t)[0])
  {
    DecimalIsDigits(KindNumber(t.kind));
  }

  /** A list of argument keys is empty exactly when no digit comes first. */
  lemma ArgumentsStart(ts: seq<Type>, rest: string)
    requires rest != [] && !IsDigit(rest[0])
    ensures IsDigit((ArgumentKeys(ts) + rest)[0]) <==> ts != []
  {
    if ts != [] {
      KeyStartsWithDigit(ts[0]);
      assert (ArgumentKeys(ts) + rest)[0] == TypeKey(ts[0])[0];
    }
  }

  /** Different types have different keys. */
  lemma TypeKeyInjective(a: Type, b: Type)
    ensures TypeKey(a) == TypeKey(b) <==> a == b
  {
    hide TypeKey;
    if TypeKey(a) == TypeKey(b) {
      assert TypeKey(a) + "" == TypeKey(b) + "";
      KeyDecodes(a, b, "", "");
    }
  }

  // ---------- collecting function types ----------

  /** The function types written inside a type, itself included. */
  function FunctionsIn(t: Type): set<Type>
    decreases t
  {
    (if t.kind == Function then {t} else {}) + FunctionsInAll(t.arguments)
  }

  function FunctionsInAll(ts: seq<Type>): set<Type>
    decreases ts
  {
    if ts == [] then {} else FunctionsIn(ts[0]) + FunctionsInAll(ts[1..])
  }

  lemma {:induction false} FunctionsInAppend(ts: seq<Type>, t: Type)
    ensures FunctionsInAll(ts + [t]) == FunctionsInAll(ts) + FunctionsIn(t)
    decreases |ts|
  {
    if ts == [] {
      assert ts + [t] == [t];
    } else {
      assert (ts + [t])[1..] == ts[1..] + [t];
      FunctionsInAppend(ts[1..], t);
    }
  }

  lemma {:induction false} FunctionsInNested(t: Type, f: Type)
    requires f in FunctionsIn(t)
    ensures FunctionsIn(f) <= FunctionsIn(t)
    decreases t
  {
    if f != t {
      FunctionsInAllNested(t.arguments, f);
    }
  }

  lemma {:induction false} FunctionsInAllNested(ts: seq<Type>, f: Type)
    requires f in FunctionsInAll(ts)
    ensures FunctionsIn(f) <= FunctionsInAll(ts)
    decreases ts
  {
    if f in FunctionsIn(ts[0]) {
      FunctionsInNested(ts[0], f);
    } else {
      FunctionsInAllNested(ts[1..], f);
    }
  }

  /** A table of types under their own keys. */
  predicate Keyed(found: map<string, Type>) {
    forall k | k in found :: k == TypeKey(found[k])
  }

  /** The table holds these types, each once. */
  ghost predicate Holds(found: map<string, Type>, types: set<Type>) {
    Keyed(found) && forall t: Type :: TypeKey(t) in found <==> t in types
  }

  lemma HoldsInsert(found: map<string, Type>, types: set<Type>, t: Type)
    requires Holds(found, types)
    ensures Holds(if TypeKey(t) in found then found else found[TypeKey(t) := t], types + {t})
  {
    hide TypeKey;
    forall u: Type ensures TypeKey(u) == TypeKey(t) <==> u == t {
      TypeKeyInjective(u, t);
    }
  }

  /** Adds the function types inside a type to the table, without repeating any. */
  method CollectFunctionType(t: Type, before: map<string, Type>, ghost types: set<Type>)
    returns (found: map<string, Type>)
    requires Holds(before, types)
    ensures Holds(found, types + FunctionsIn(t))
    decreases t
  {
    hide Holds, TypeKey;
    found := before;
    ghost var held := types;
    if t.kind == Function {
      HoldsInsert(found, held, t);
      if TypeKey(t) !in found {
        found := found[TypeKey(t) := t];
      }
      held := held + {t};
    }
    ghost var start := held;
    var i := 0;
    while i < |t.arguments|
      invariant 0 <= i <= |t.arguments|
      invariant held == start + FunctionsInAll(t.arguments[..i])
      invariant Holds(found, held)
    {
      assert t.arguments[..i + 1] == t.arguments[..i] + [t.arguments[i]];
      FunctionsInAppend(t.arguments[..i], t.arguments[i]);
      found := CollectFunctionType(t.arguments[i], found, held);
      held := held + FunctionsIn(t.arguments[i]);
      i := i + 1;
    }
    assert t.arguments[..i] == t.arguments;
    assert held == types + FunctionsIn(t);
  }

  /** The table for all types of a program. */
  method CollectFunctionTypes(ts: seq<Type>) returns (found: map<string, Type>)
    ensures Holds(found, FunctionsInAll(ts))
  {
    hide TypeKey;
    found := map[];
    var i := 0;
    while i < |ts|
      invariant 0 <= i <= |ts|
      invariant Holds(found, FunctionsInAll(ts[..i]))
    {
      assert ts[..i + 1] == ts[..i] + [ts[i]];
      FunctionsInAppend(ts[..i], ts[i]);
      found := CollectFunctionType(ts[i], found, FunctionsInAll(ts[..i]));
      i := i + 1;
    }
    assert ts[..i] == ts;
  }

  // ---------- ordering them ----------

  function Size(t: Type): nat
    decreases t
  {
    1 + SizeAll(t.arguments)
  }

  function SizeAll(ts: seq<Type>): nat
    decreases ts
  {
    if ts == [] then 0 else Size(ts[0]) + SizeAll(ts[1..])
  }

  /** The function types reached from a type without passing through another one. */
  function Dependencies(t: Type): set<Type>
    decreases t
  {
    DependenciesAll(t.arguments)
  }

  function DependenciesAll(ts: seq<Type>): set<Type>
    decreases ts
  {
    if ts == [] then {}
    else
      (if ts[0].kind == Function then {ts[0]} else Dependencies(ts[0]))
      + DependenciesAll(ts[1..])
  }

  lemma {:induction false} DependenciesAreSmaller(t: Type, d: Type)
    requires d in Dependencies(t)
    ensures Size(d) < Size(t) && d.kind == Function && d in FunctionsInAll(t.arguments)
    decreases t
  {
    DependenciesAllAreSmaller(t.arguments, d);
  }

  lemma {:induction false} DependenciesAllAreSmaller(ts: seq<Type>, d: Type)
    requires d in DependenciesAll(ts)
    ensures Size(d) <= SizeAll(ts) && d.kind == Function && d in FunctionsInAll(ts)
    decreases ts
  {
    if ts[0].kind == Function && d == ts[0] {
    } else if ts[0].kind != Function && d in Dependencies(ts[0]) {
      DependenciesAreSmaller(ts[0], d);
    } else {
      DependenciesAllAreSmaller(ts[1..], d);
    }
  }

  lemma {:induction false} DependenciesAppend(ts: seq<Type>, t: Type)
    ensures DependenciesAll(ts + [t])
            == DependenciesAll(ts) + if t.kind == Function then {t} else Dependencies(t)
    decreases |ts|
  {
    if ts == [] {
      assert ts + [t] == [t];
    } else {
      assert (ts + [t])[1..] == ts[1..] + [t];
      DependenciesAppend(ts[1..], t);
    }
  }

  /** Every listed function type comes after the listed ones it is written with. */
  predicate NestedFirst(ts: seq<Type>, listed: set<Type>) {
    forall i, d | 0 <= i < |ts| && d in Dependencies(ts[i]) && d in listed :: d in ts[..i]
  }

  /** The listed types are those that are done, behind what they are written with. */
  ghost predicate Progress(types: seq<Type>, state: seq<nat>, ordered: seq<Type>) {
    && |state| == |types|
    && (forall i :: 0 <= i < |types| ==>
          state[i] <= DONE && (state[i] == DONE <==> types[i] in ordered))
    && (forall t | t in ordered :: t in types)
    && Distinct(ordered)
    && NestedFirst(ordered, set t | t in types)
  }

  lemma ProgressFacts(types: seq<Type>, state: seq<nat>, ordered: seq<Type>)
    requires Progress(types, state, ordered)
    ensures |state| == |types| && Distinct(ordered) && NestedFirst(ordered, set t | t in types)
    ensures forall i :: 0 <= i < |types| ==>
              state[i] <= DONE && (state[i] == DONE <==> types[i] in ordered)
    ensures forall t | t in ordered :: t in types
  {
  }

  lemma Activate(types: seq<Type>, state: seq<nat>, ordered: seq<Type>, index: nat)
    requires Progress(types, state, ordered) && index < |types| && state[index] == UNSEEN
    ensures Progress(types, state[index := ACTIVE], ordered)
  {
    hide NestedFirst;
  }

  lemma Finish(types: seq<Type>, state: seq<nat>, ordered: seq<Type>, index: nat)
    requires Progress(types, state, ordered) && index < |types| && state[index] == ACTIVE
    requires Distinct(types)
    requires forall i :: 0 <= i < |types| && types[i] in Dependencies(types[index]) ==>
               state[i] == DONE
    ensures Progress(types, state[index := DONE], ordered + [types[index]])
  {
    hide Dependencies;
    var listed := set t | t in types;
    var all := ordered + [types[index]];
    forall i, d | 0 <= i < |all| && d in Dependencies(all[i]) && d in listed
      ensures d in all[..i]
    {
      if i < |ordered| {
        assert all[..i] == ordered[..i];
      } else {
        assert all[..i] == ordered;
        var k :| 0 <= k < |types| && types[k] == d;
      }
    }
  }

  class Orderer {
    const types: seq<Type>
    const indexes: map<string, nat>
    const state: array<nat>
    var ordered: seq<Type>

    /** `types` are the values of the table, each once. */
    constructor (types: seq<Type>)
      requires Distinct(types) && forall i :: 0 <= i < |types| ==> types[i].kind == Function
      ensures this.types == types && ordered == [] && fresh(state)
      ensures Valid() && forall i :: 0 <= i < state.Length ==> state[i] == UNSEEN
    {
      this.types := types;
      var keys: map<string, nat> := map[];
      hide TypeKey;
      var i := 0;
      while i < |types|
        invariant 0 <= i <= |types|
        invariant forall k | k in keys :: keys[k] < i && k == TypeKey(types[keys[k]])
        invariant forall j :: 0 <= j < i ==>
                    TypeKey(types[j]) in keys && keys[TypeKey(types[j])] == j
      {
        forall j | 0 <= j < i ensures TypeKey(types[j]) != TypeKey(types[i]) {
          TypeKeyInjective(types[j], types[i]);
        }
        keys := keys[TypeKey(types[i]) := i];
        i := i + 1;
      }
      indexes := keys;
      state := new nat[|types|](i => UNSEEN);
      ordered := [];
    }

    /** Keys lead back to the index of their type. */
    ghost predicate Table() {
      && Distinct(types)
      && (forall k | k in indexes :: indexes[k] < |types| && k == TypeKey(types[indexes[k]]))
      && (forall j :: 0 <= j < |types| ==>
            types[j].kind == Function
            && TypeKey(types[j]) in indexes && indexes[TypeKey(types[j])] == j)
    }

    ghost predicate Valid()
      reads this, state
    {
      Table() && Progress(types, state[..], ordered)
    }

    /** The table indexes of the function types a type is written with. */
    method CollectDependencies(t: Type) returns (r: set<nat>)
      requires Table()
      ensures forall i: nat :: i in r <==> i < |types| && types[i] in Dependencies(t)
      decreases t
    {
      hide TypeKey;
      r := {};
      var k := 0;
      while k < |t.arguments|
        invariant 0 <= k <= |t.arguments|
        invariant forall i: nat ::
                    i in r <==> i < |types| && types[i] in DependenciesAll(t.arguments[..k])
      {
        var argument := t.arguments[k];
        assert t.arguments[..k + 1] == t.arguments[..k] + [argument];
        DependenciesAppend(t.arguments[..k], argument);
        if argument.kind == Function {
          KeyFinds(argument);
          if TypeKey(argument) in indexes {
            r := r + {indexes[TypeKey(argument)]};
          }
        } else {
          var nested := CollectDependencies(argument);
          r := r + nested;
        }
        k := k + 1;
      }
      assert t.arguments[..k] == t.arguments;
    }

    lemma TableIsDistinct()
      requires Table()
      ensures Distinct(types)
    {
    }

    /** A key is in the table exactly when its type is, at the type's own index. */
    lemma KeyFinds(t: Type)
      requires Table()
      ensures TypeKey(t) in indexes <==> t in types
      ensures TypeKey(t) in indexes ==>
                indexes[TypeKey(t)] < |types| && types[indexes[TypeKey(t)]] == t
      ensures forall i :: 0 <= i < |types| && types[i] == t ==>
                TypeKey(t) in indexes && indexes[TypeKey(t)] == i
    {
      hide TypeKey;
      if TypeKey(t) in indexes {
        TypeKeyInjective(t, types[indexes[TypeKey(t)]]);
      }
    }

    /**
      Lists a type behind everything it is written with. The types being visited are larger, so
      the emitter's abort for a recursive function type is never reached.
     */
    method Visit(index: nat)
      requires Valid() && index < |types|
      requires forall i :: 0 <= i < |types| && state[i] == ACTIVE ==>
                 Size(types[index]) < Size(types[i])
      modifies this`ordered, state
      ensures Valid() && state[index] == DONE && old(ordered) <= ordered
      ensures forall i :: 0 <= i < |types| ==>
                (state[i] == ACTIVE <==> old(state[i]) == ACTIVE)
                && (old(state[i]) == DONE ==> state[i] == DONE)
      decreases Size(types[index])
    {
      hide TypeKey, Dependencies, Size, Progress, Table;
      ProgressFacts(types, state[..], ordered);
      if state[index] == DONE {
        return;
      }
      if state[index] == ACTIVE {
        assert false;
      }
      ghost var before := state[..];
      Activate(types, before, ordered, index);
      state[index] := ACTIVE;
      assert state[..] == before[index := ACTIVE];
      var dependencies := CollectDependencies(types[index]);
      ghost var all := dependencies;
      while dependencies != {}
        invariant Valid() && old(ordered) <= ordered && dependencies <= all
        invariant |state[..]| == |types|
        invariant forall i :: 0 <= i < |types| ==>
                    (state[i] == ACTIVE <==> i == index || before[i] == ACTIVE)
                    && (before[i] == DONE ==> state[i] == DONE)
        invariant forall i | i in all - dependencies :: state[i] == DONE
      {
        var d :| d in dependencies;
        DependenciesAreSmaller(types[index], types[d]);
        Visit(d);
        ProgressFacts(types, state[..], ordered);
        dependencies := dependencies - {d};
      }
      ghost var after := state[..];
      TableIsDistinct();
      Finish(types, after, ordered, index);
      state[index] := DONE;
      assert state[..] == after[index := DONE];
      ordered := ordered + [types[index]];
    }

    /** Lists every type of the table once, nested function types first. */
    method Order() returns (result: seq<Type>)
      requires Valid() && forall i :: 0 <= i < state.Length ==> state[i] == UNSEEN
      modifies this`ordered, state
      ensures Distinct(result) && forall t :: t in result <==> t in types
      ensures NestedFirst(result, set t | t in types)
    {
      hide TypeKey, Dependencies, Size, NestedFirst, Progress, Table;
      ProgressFacts(types, state[..], ordered);
      var index := 0;
      while index < |types|
        invariant 0 <= index <= |types| && Valid() && |state[..]| == |types|
        invariant forall i :: 0 <= i < |types| ==> state[i] != ACTIVE
        invariant forall i :: 0 <= i < index ==> state[i] == DONE
      {
        Visit(index);
        ProgressFacts(types, state[..], ordered);
        index := index + 1;
      }
      ProgressFacts(types, state[..], ordered);
      forall t | t in types ensures t in ordered {
        var i :| 0 <= i < |types| && types[i] == t;
        assert state[i] == DONE;
      }
      result := ordered;
    }
  }

  // ---------- nested to any depth ----------

  lemma {:induction false} ThroughDependency(ts: seq<Type>, f: Type) returns (d: Type)
    requires f in FunctionsInAll(ts)
    ensures d in DependenciesAll(ts) && (f == d || f in FunctionsInAll(d.arguments))
    decreases ts
  {
    if f !in FunctionsIn(ts[0]) {
      d := ThroughDependency(ts[1..], f);
    } else if ts[0].kind == Function {
      d := ts[0];
    } else {
      d := ThroughDependency(ts[0].arguments, f);
    }
  }

  /** In an order of all function types of some types, whatever is nested at any depth is first. */
  lemma {:induction false} DeeplyNestedFirst(ts: seq<Type>, order: seq<Type>, i: nat, f: Type)
    requires forall t :: t in order <==> t in FunctionsInAll(ts)
    requires NestedFirst(order, FunctionsInAll(ts)) && i < |order|
    requires f in FunctionsInAll(order[i].arguments)
    ensures f in order[..i]
    decreases i
  {
    hide FunctionsInAll;
    var t := order[i];
    assert t in order;
    var d := ThroughDependency(t.arguments, f);
    DependenciesAreSmaller(t, d);
    FunctionsInAllNested(ts, t);
    assert d in FunctionsIn(t) && d in order[..i];
    var j: nat :| j < i && order[j] == d;
    if f != d {
      DeeplyNestedFirst(ts, order, j, f);
      assert order[..i][..j] == order[..j];
    }
  }
}
