/**
  Monomorphization of generic functions, structs and enums
  (compiler/src/codegen.cpp:535-544, 956-1096, 1187-1431): a memoised instantiation that
  reserves a placeholder for an instance before it rewrites the body that may refer to it.

  Memo keys are pairs of a declaration and its concrete type arguments. Contracts,
  default-method specialisation and the unwrapping of read parameters are not modelled.
 */
module Monomorphizer {
  import opened Wrappers
  import opened FirTypes

  // ---------- source programs and their instances ----------

  datatype Expression =
    | Constant(number: int)
    | Local(index: nat)
    | Describe(t: Type, depth: nat)
    | Construct(t: Type, variant: Option<nat>, operands: seq<Expression>)
    | Add(left: Expression, right: Expression)
    | If(condition: Expression, left: Expression, right: Expression)
    | Call(callee: nat, typeArguments: seq<Type>, operands: seq<Expression>)
    | FunctionValue(callee: nat, typeArguments: seq<Type>)
    | Closure(callee: nat, operands: seq<Expression>)
    | Invoke(target: Expression, operands: seq<Expression>)
    | Match(t: Type, scrutinee: Expression, arms: seq<Expression>)

  /** `types` are those of the locals, with the parameters, and then those of all expressions. */
  datatype FirFunction = FirFunction(types: seq<Type>, returnType: Type, body: Expression)

  /** A struct or an enum, in a source program or as an instance. */
  datatype Declaration =
    | FirStruct(name: nat, fields: seq<Type>, dropFunction: Option<nat>)
    | FirEnum(name: nat, builtin: bool, payloads: seq<Option<Type>>)

  type StructDeclaration = d: Declaration | d.FirStruct? witness FirStruct(0, [], None)

  type EnumDeclaration = d: Declaration | d.FirEnum? witness FirEnum(0, false, [])

  datatype Source = Source(structs: seq<StructDeclaration>, enums: seq<EnumDeclaration>,
                           functions: seq<FirFunction>)

  datatype Key = Key(callee: nat, arguments: seq<Type>)

  /** The memo maps: `structs_` and `enums_`, whose keys differ in kind, and `functions_`. */
  datatype Tables = Tables(types: map<Type, nat>, functions: map<Key, nat>)

  const INVALID := Type(Invalid, 0, [])

  const VOID := Type(Void, 0, [])

  predicate IsDeclared(t: Type) {
    t.kind in {Struct, Enum}
  }

  function DeclarationOf(src: Source, t: Type): Option<Declaration> {
    if t.kind == Struct && t.declaration < |src.structs| then Some(src.structs[t.declaration])
    else if t.kind == Enum && t.declaration < |src.enums| then Some(src.enums[t.declaration])
    else None
  }

  function Substitute(t: Type, env: seq<Type>): Type
    decreases t
  {
    if t.kind == Parameter then
      if t.declaration < |env| then env[t.declaration] else INVALID
    else t.(arguments := SubstituteAll(t.arguments, env))
  }

  function SubstituteAll(ts: seq<Type>, env: seq<Type>): (r: seq<Type>)
    ensures |r| == |ts|
    decreases ts
  {
    if ts == [] then [] else [Substitute(ts[0], env)] + SubstituteAll(ts[1..], env)
  }

  /** A payload of an instance: a builtin enum has none where its source gets `void`. */
  function SubstitutePayload(builtin: bool, payload: Option<Type>, env: seq<Type>): Option<Type> {
    if payload.None? then None
    else
      var t := Substitute(payload.value, env);
      if builtin && t == VOID then None else Some(t)
  }

  function SubstitutePayloads(builtin: bool, payloads: seq<Option<Type>>, env: seq<Type>)
    : (r: seq<Option<Type>>)
    ensures |r| == |payloads|
    ensures forall i :: 0 <= i < |r| ==> r[i] == SubstitutePayload(builtin, payloads[i], env)
  {
    if payloads == [] then []
    else
      [SubstitutePayload(builtin, payloads[0], env)]
      + SubstitutePayloads(builtin, payloads[1..], env)
  }

  predicate IsWrapper(t: Type) {
    t.kind in {Own, View, Edit, Array, Slice, Raw, RawConst, Task, Channel, Sender, Receiver}
  }

  predicate IsUnresolved(t: Type) {
    t.kind in {Parameter, Invalid, Contract}
  }

  // ---------- what an instance looks like, given the memo maps ----------

  predicate Imaged(tb: Tables, t: Type)
    decreases t
  {
    if IsUnresolved(t) then false
    else if t.kind == Function then ImagedAll(tb, t.arguments)
    else if IsWrapper(t) then |t.arguments| == 1 && ImagedAll(tb, t.arguments)
    else IsDeclared(t) ==> t in tb.types
  }

  predicate ImagedAll(tb: Tables, ts: seq<Type>)
    decreases ts
  {
    ts != [] ==> Imaged(tb, ts[0]) && ImagedAll(tb, ts[1..])
  }

  function Image(tb: Tables, t: Type): Type
    requires Imaged(tb, t)
    decreases t
  {
    if t.kind == Function then
      Type(Function, if IsCFunction(t) then C_FUNCTION_QUALIFIER else 0,
           ImageAll(tb, t.arguments))
    else if IsWrapper(t) then Type(t.kind, t.declaration, ImageAll(tb, t.arguments))
    else if IsDeclared(t) then Type(t.kind, tb.types[t], [])
    else t
  }

  function ImageAll(tb: Tables, ts: seq<Type>): (r: seq<Type>)
    requires ImagedAll(tb, ts)
    ensures |r| == |ts|
    decreases ts
  {
    if ts == [] then [] else [Image(tb, ts[0])] + ImageAll(tb, ts[1..])
  }

  predicate PayloadsImaged(tb: Tables, payloads: seq<Option<Type>>) {
    payloads != [] ==>
      (payloads[0].Some? ==> Imaged(tb, payloads[0].value)) && PayloadsImaged(tb, payloads[1..])
  }

  function PayloadImages(tb: Tables, payloads: seq<Option<Type>>): (r: seq<Option<Type>>)
    requires PayloadsImaged(tb, payloads)
    ensures |r| == |payloads|
  {
    if payloads == [] then []
    else
      [if payloads[0].None? then None else Some(Image(tb, payloads[0].value))]
      + PayloadImages(tb, payloads[1..])
  }

  predicate Covered(tb: Tables, e: Expression, env: seq<Type>)
    decreases e
  {
    match e
    case Constant(_) => true
    case Local(_) => true
    case Describe(t, _) => Imaged(tb, Substitute(t, env))
    case Construct(t, _, operands) =>
      Imaged(tb, Substitute(t, env)) && CoveredAll(tb, operands, env)
    case Add(left, right) => Covered(tb, left, env) && Covered(tb, right, env)
    case If(condition, left, right) =>
      Covered(tb, condition, env) && Covered(tb, left, env) && Covered(tb, right, env)
    case Call(callee, typeArguments, operands) =>
      Key(callee, SubstituteAll(typeArguments, env)) in tb.functions
      && CoveredAll(tb, operands, env)
    case FunctionValue(callee, typeArguments) =>
      Key(callee, SubstituteAll(typeArguments, env)) in tb.functions
    case Closure(callee, operands) =>
      Key(callee, env) in tb.functions && CoveredAll(tb, operands, env)
    case Invoke(target, operands) => Covered(tb, target, env) && CoveredAll(tb, operands, env)
    case Match(t, scrutinee, arms) =>
      Imaged(tb, Substitute(t, env)) && Covered(tb, scrutinee, env) && CoveredAll(tb, arms, env)
  }

  predicate CoveredAll(tb: Tables, es: seq<Expression>, env: seq<Type>)
    decreases es
  {
    es != [] ==> Covered(tb, es[0], env) && CoveredAll(tb, es[1..], env)
  }

  function Rewrite(tb: Tables, e: Expression, env: seq<Type>): Expression
    requires Covered(tb, e, env)
    decreases e
  {
    match e
    case Constant(_) => e
    case Local(_) => e
    case Describe(t, depth) => Describe(Image(tb, Substitute(t, env)), depth)
    case Construct(t, variant, operands) =>
      Construct(Image(tb, Substitute(t, env)), variant, RewriteAll(tb, operands, env))
    case Add(left, right) => Add(Rewrite(tb, left, env), Rewrite(tb, right, env))
    case If(condition, left, right) =>
      If(Rewrite(tb, condition, env), Rewrite(tb, left, env), Rewrite(tb, right, env))
    case Call(callee, typeArguments, operands) =>
      Call(tb.functions[Key(callee, SubstituteAll(typeArguments, env))], [],
           RewriteAll(tb, operands, env))
    case FunctionValue(callee, typeArguments) =>
      FunctionValue(tb.functions[Key(callee, SubstituteAll(typeArguments, env))], [])
    case Closure(callee, operands) =>
      Closure(tb.functions[Key(callee, env)], RewriteAll(tb, operands, env))
    case Invoke(target, operands) =>
      Invoke(Rewrite(tb, target, env), RewriteAll(tb, operands, env))
    case Match(t, scrutinee, arms) =>
      Match(Image(tb, Substitute(t, env)), Rewrite(tb, scrutinee, env), RewriteAll(tb, arms, env))
  }

  function RewriteAll(tb: Tables, es: seq<Expression>, env: seq<Type>): (r: seq<Expression>)
    requires CoveredAll(tb, es, env)
    ensures |r| == |es|
    decreases es
  {
    if es == [] then [] else [Rewrite(tb, es[0], env)] + RewriteAll(tb, es[1..], env)
  }

  predicate CoveredFunction(tb: Tables, f: FirFunction, env: seq<Type>) {
    && Imaged(tb, Substitute(f.returnType, env))
    && ImagedAll(tb, SubstituteAll(f.types, env))
    && Covered(tb, f.body, env)
  }

  function FunctionInstance(tb: Tables, f: FirFunction, env: seq<Type>): FirFunction
    requires CoveredFunction(tb, f, env)
  {
    FirFunction(ImageAll(tb, SubstituteAll(f.types, env)),
                Image(tb, Substitute(f.returnType, env)),
                Rewrite(tb, f.body, env))
  }

  predicate CoveredDeclaration(tb: Tables, d: Declaration, env: seq<Type>) {
    match d
    case FirStruct(_, fields, drop) =>
      ImagedAll(tb, SubstituteAll(fields, env))
      && (drop.Some? ==> Key(drop.value, env) in tb.functions)
    case FirEnum(_, builtin, payloads) =>
      PayloadsImaged(tb, SubstitutePayloads(builtin, payloads, env))
  }

  function DeclarationInstance(tb: Tables, d: Declaration, env: seq<Type>): Declaration
    requires CoveredDeclaration(tb, d, env)
  {
    match d
    case FirStruct(name, fields, drop) =>
      FirStruct(name, ImageAll(tb, SubstituteAll(fields, env)),
                if drop.None? then None else Some(tb.functions[Key(drop.value, env)]))
    case FirEnum(name, builtin, payloads) =>
      FirEnum(name, builtin, PayloadImages(tb, SubstitutePayloads(builtin, payloads, env)))
  }

  // ---------- the state of an instantiation ----------

  /** The definitions of one kind: the keys in order of reservation, and the slots. */
  datatype Column = Column(keys: seq<Type>, slots: seq<Option<Declaration>>)

  /** The memo maps and all slots: `None` is a placeholder. */
  datatype State = State(ids: map<Type, nat>, structs: Column, enums: Column,
                         functionIds: map<Key, nat>, functionKeys: seq<Key>,
                         functions: seq<Option<FirFunction>>)
  {
    function Maps(): Tables {
      Tables(ids, functionIds)
    }

    function Of(kind: Kind): Column {
      if kind == Enum then enums else structs
    }

    function With(kind: Kind, c: Column): State {
      if kind == Enum then this.(enums := c) else this.(structs := c)
    }
  }

  /** What stands in the slot of an id of a kind. */
  function At(st: State, kind: Kind, id: nat): Option<Declaration> {
    var c := st.Of(kind);
    if kind in {Struct, Enum} && id < |c.slots| then c.slots[id] else None
  }

  /** Ids and keys of one kind correspond one to one. */
  predicate ColumnIndexed(ids: map<Type, nat>, kind: Kind, c: Column) {
    && |c.keys| == |c.slots|
    && (forall i :: 0 <= i < |c.keys| ==>
          c.keys[i].kind == kind && c.keys[i] in ids && ids[c.keys[i]] == i)
    && (forall t :: t in ids && t.kind == kind ==>
          ids[t] < |c.keys| && c.keys[ids[t]] == t)
  }

  predicate FunctionsIndexed(ids: map<Key, nat>, keys: seq<Key>,
                             functions: seq<Option<FirFunction>>)
  {
    && |keys| == |functions|
    && (forall i :: 0 <= i < |keys| ==> keys[i] in ids && ids[keys[i]] == i)
    && (forall k :: k in ids ==> ids[k] < |keys| && keys[ids[k]] == k)
  }

  /** Ids and keys correspond one to one. */
  predicate Indexed(st: State) {
    && ColumnIndexed(st.ids, Struct, st.structs) && ColumnIndexed(st.ids, Enum, st.enums)
    && (forall t :: t in st.ids ==> IsDeclared(t))
    && FunctionsIndexed(st.functionIds, st.functionKeys, st.functions)
    && |st.functionIds| <= FUNCTION_LIMIT
  }

  /** The slot of a type holds the instance of its declaration. */
  predicate TypeFilled(src: Source, st: State, t: Type)
    requires t in st.ids
  {
    var declared := DeclarationOf(src, t);
    && declared.Some? && CoveredDeclaration(st.Maps(), declared.value, t.arguments)
    && At(st, t.kind, st.ids[t])
       == Some(DeclarationInstance(st.Maps(), declared.value, t.arguments))
  }

  predicate FunctionFilled(src: Source, st: State, i: nat)
    requires i < |st.functions| && i < |st.functionKeys| && st.functions[i].Some?
  {
    var k := st.functionKeys[i];
    && k.callee < |src.functions|
    && CoveredFunction(st.Maps(), src.functions[k.callee], k.arguments)
    && st.functions[i].value == FunctionInstance(st.Maps(), src.functions[k.callee], k.arguments)
  }

  /** Exactly what is open is still a placeholder; every other slot holds its instance. */
  predicate Valid(src: Source, st: State, ot: set<Type>, of: set<nat>) {
    && Indexed(st)
    && (forall t :: t in st.ids ==>
          if At(st, t.kind, st.ids[t]).None? then t in ot else TypeFilled(src, st, t))
    && (forall i :: 0 <= i < |st.functions| ==>
          if st.functions[i].None? then i in of else FunctionFilled(src, st, i))
  }

  /** A finished instantiation: every reserved placeholder is filled. */
  predicate Complete(src: Source, st: State) {
    Valid(src, st, {}, {})
  }

  /** Later states only add keys; the slots of older ids stay as they are. */
  predicate Grows(a: State, b: State) {
    && (forall t :: t in a.ids ==>
          t in b.ids && b.ids[t] == a.ids[t]
          && At(b, t.kind, b.ids[t]) == At(a, t.kind, a.ids[t]))
    && (forall k :: k in a.functionIds ==>
          k in b.functionIds && b.functionIds[k] == a.functionIds[k])
    && |a.functions| <= |b.functions|
    && (forall i :: 0 <= i < |a.functions| ==> b.functions[i] == a.functions[i])
  }

  // ---------- growing maps keep images ----------

  predicate MapsGrow(a: Tables, b: Tables) {
    && (forall t :: t in a.types ==> t in b.types && b.types[t] == a.types[t])
    && (forall k :: k in a.functions ==> k in b.functions && b.functions[k] == a.functions[k])
  }

  lemma {:induction false} ImageGrows(a: Tables, b: Tables, t: Type)
    requires MapsGrow(a, b) && Imaged(a, t)
    ensures Imaged(b, t) && Image(b, t) == Image(a, t)
    decreases t
  {
    if t.kind == Function || IsWrapper(t) {
      ImageAllGrows(a, b, t.arguments);
    }
  }

  lemma {:induction false} ImageAllGrows(a: Tables, b: Tables, ts: seq<Type>)
    requires MapsGrow(a, b) && ImagedAll(a, ts)
    ensures ImagedAll(b, ts) && ImageAll(b, ts) == ImageAll(a, ts)
    decreases ts
  {
    if ts != [] {
      ImageGrows(a, b, ts[0]);
      ImageAllGrows(a, b, ts[1..]);
    }
  }

  lemma {:induction false} PayloadImagesGrow(a: Tables, b: Tables, payloads: seq<Option<Type>>)
    requires MapsGrow(a, b) && PayloadsImaged(a, payloads)
    ensures PayloadsImaged(b, payloads) && PayloadImages(b, payloads) == PayloadImages(a, payloads)
  {
    if payloads != [] {
      if payloads[0].Some? {
        ImageGrows(a, b, payloads[0].value);
      }
      PayloadImagesGrow(a, b, payloads[1..]);
    }
  }

  lemma {:induction false} RewriteGrows(a: Tables, b: Tables, e: Expression, env: seq<Type>)
    requires MapsGrow(a, b) && Covered(a, e, env)
    ensures Covered(b, e, env) && Rewrite(b, e, env) == Rewrite(a, e, env)
    decreases e
  {
    match e
    case Constant(_) =>
    case Local(_) =>
    case Describe(t, _) => ImageGrows(a, b, Substitute(t, env));
    case Construct(t, _, operands) =>
      ImageGrows(a, b, Substitute(t, env));
      RewriteAllGrows(a, b, operands, env);
    case Add(left, right) =>
      RewriteGrows(a, b, left, env);
      RewriteGrows(a, b, right, env);
    case If(condition, left, right) =>
      RewriteGrows(a, b, condition, env);
      RewriteGrows(a, b, left, env);
      RewriteGrows(a, b, right, env);
    case Call(_, _, operands) => RewriteAllGrows(a, b, operands, env);
    case FunctionValue(_, _) =>
    case Closure(_, operands) => RewriteAllGrows(a, b, operands, env);
    case Invoke(target, operands) =>
      RewriteGrows(a, b, target, env);
      RewriteAllGrows(a, b, operands, env);
    case Match(t, scrutinee, arms) =>
      ImageGrows(a, b, Substitute(t, env));
      RewriteGrows(a, b, scrutinee, env);
      RewriteAllGrows(a, b, arms, env);
  }

  lemma {:induction false} RewriteAllGrows(a: Tables, b: Tables, es: seq<Expression>,
                                           env: seq<Type>)
    requires MapsGrow(a, b) && CoveredAll(a, es, env)
    ensures CoveredAll(b, es, env) && RewriteAll(b, es, env) == RewriteAll(a, es, env)
    decreases es
  {
    if es != [] {
      RewriteGrows(a, b, es[0], env);
      RewriteAllGrows(a, b, es[1..], env);
    }
  }

  lemma DeclarationGrows(a: Tables, b: Tables, d: Declaration, env: seq<Type>)
    requires MapsGrow(a, b) && CoveredDeclaration(a, d, env)
    ensures CoveredDeclaration(b, d, env)
    ensures DeclarationInstance(b, d, env) == DeclarationInstance(a, d, env)
  {
    match d
    case FirStruct(_, fields, _) => ImageAllGrows(a, b, SubstituteAll(fields, env));
    case FirEnum(_, builtin, payloads) =>
      PayloadImagesGrow(a, b, SubstitutePayloads(builtin, payloads, env));
  }

  lemma TypeStaysFilled(src: Source, a: State, b: State, t: Type)
    requires t in a.ids && t in b.ids && TypeFilled(src, a, t)
    requires At(b, t.kind, b.ids[t]) == At(a, t.kind, a.ids[t])
    requires MapsGrow(a.Maps(), b.Maps())
    ensures TypeFilled(src, b, t)
  {
    hide DeclarationInstance, CoveredDeclaration, At;
    DeclarationGrows(a.Maps(), b.Maps(), DeclarationOf(src, t).value, t.arguments);
  }

  lemma FunctionStaysFilled(src: Source, a: State, b: State, i: nat)
    requires i < |a.functions| && i < |a.functionKeys|
    requires i < |b.functions| && i < |b.functionKeys|
    requires a.functions[i].Some? && b.functions[i] == a.functions[i]
    requires b.functionKeys[i] == a.functionKeys[i]
    requires MapsGrow(a.Maps(), b.Maps()) && FunctionFilled(src, a, i)
    ensures FunctionFilled(src, b, i)
  {
    var k := a.functionKeys[i];
    var f := src.functions[k.callee];
    ImageGrows(a.Maps(), b.Maps(), Substitute(f.returnType, k.arguments));
    ImageAllGrows(a.Maps(), b.Maps(), SubstituteAll(f.types, k.arguments));
    RewriteGrows(a.Maps(), b.Maps(), f.body, k.arguments);
  }

  // ---------- reserving and filling a slot ----------

  /** The memo entry and the placeholder of a new type. */
  function ReserveType(st: State, t: Type): State {
    var c := st.Of(t.kind);
    st.(ids := st.ids[t := |c.slots|]).With(t.kind, Column(c.keys + [t], c.slots + [None]))
  }

  lemma ColumnReserved(ids: map<Type, nat>, kind: Kind, c: Column, t: Type)
    requires ColumnIndexed(ids, kind, c) && t !in ids && t.kind == kind
    ensures ColumnIndexed(ids[t := |c.slots|], kind, Column(c.keys + [t], c.slots + [None]))
  {
  }

  lemma ColumnUntouched(ids: map<Type, nat>, kind: Kind, c: Column, t: Type, id: nat)
    requires ColumnIndexed(ids, kind, c) && t !in ids && t.kind != kind
    ensures ColumnIndexed(ids[t := id], kind, c)
  {
  }

  lemma ReserveTypeAt(st: State, t: Type, u: Type)
    requires Indexed(st) && t !in st.ids && IsDeclared(t) && u in st.ids
    ensures At(ReserveType(st, t), u.kind, st.ids[u]) == At(st, u.kind, st.ids[u])
  {
    hide FunctionsIndexed;
  }

  lemma ReserveTypeIndexed(st: State, t: Type)
    requires Indexed(st) && t !in st.ids && IsDeclared(t)
    ensures Indexed(ReserveType(st, t))
    ensures At(ReserveType(st, t), t.kind, |st.Of(t.kind).slots|) == None
  {
    hide FunctionsIndexed, ColumnIndexed;
    var id, other := |st.Of(t.kind).slots|, if t.kind == Struct then Enum else Struct;
    ColumnReserved(st.ids, t.kind, st.Of(t.kind), t);
    ColumnUntouched(st.ids, other, st.Of(other), t, id);
  }

  lemma ReserveTypeGrows(st: State, t: Type)
    requires Indexed(st) && t !in st.ids && IsDeclared(t)
    ensures Grows(st, ReserveType(st, t)) && MapsGrow(st.Maps(), ReserveType(st, t).Maps())
  {
    hide FunctionsIndexed, ColumnIndexed, At;
    forall u | u in st.ids
      ensures At(ReserveType(st, t), u.kind, st.ids[u]) == At(st, u.kind, st.ids[u])
    {
      ReserveTypeAt(st, t, u);
    }
  }

  lemma ReserveTypeValid(src: Source, st: State, t: Type, ot: set<Type>, of: set<nat>)
    requires Valid(src, st, ot, of) && t !in st.ids && IsDeclared(t)
    ensures Valid(src, ReserveType(st, t), ot + {t}, of)
    ensures Grows(st, ReserveType(st, t))
  {
    hide TypeFilled, FunctionFilled, ColumnIndexed, Grows, At, MapsGrow;
    var b := ReserveType(st, t);
    ReserveTypeIndexed(st, t);
    ReserveTypeGrows(st, t);
    forall u | u in st.ids
      ensures u in b.ids && At(b, u.kind, b.ids[u]) == At(st, u.kind, st.ids[u])
      ensures At(st, u.kind, st.ids[u]).Some? ==> TypeFilled(src, b, u)
    {
      GrowsAt(st, b, u);
      if At(st, u.kind, st.ids[u]).Some? {
        TypeStaysFilled(src, st, b, u);
      }
    }
    forall i | 0 <= i < |st.functions| && st.functions[i].Some? ensures FunctionFilled(src, b, i) {
      FunctionStaysFilled(src, st, b, i);
    }
  }

  lemma GrowsAt(a: State, b: State, t: Type)
    requires Grows(a, b) && t in a.ids
    ensures t in b.ids && At(b, t.kind, b.ids[t]) == At(a, t.kind, a.ids[t])
  {
  }

  function ReserveFunction(st: State, k: Key): State {
    st.(functionIds := st.functionIds[k := |st.functions|],
        functionKeys := st.functionKeys + [k], functions := st.functions + [None])
  }

  lemma ReserveFunctionIndexed(st: State, k: Key)
    requires Indexed(st) && k !in st.functionIds && |st.functionIds| < FUNCTION_LIMIT
    ensures Indexed(ReserveFunction(st, k))
  {
    hide ColumnIndexed;
  }

  lemma ReserveFunctionGrows(st: State, k: Key)
    requires Indexed(st) && k !in st.functionIds
    ensures Grows(st, ReserveFunction(st, k)) && MapsGrow(st.Maps(), ReserveFunction(st, k).Maps())
  {
    hide At, ColumnIndexed;
    forall t | t in st.ids
      ensures At(ReserveFunction(st, k), t.kind, st.ids[t]) == At(st, t.kind, st.ids[t])
    {
      SameColumns(st, ReserveFunction(st, k), t.kind, st.ids[t]);
    }
  }

  lemma KeysMatchFunctions(st: State)
    requires Indexed(st)
    ensures |st.functionKeys| == |st.functions|
  {
    hide ColumnIndexed;
  }

  lemma ReserveFunctionValid(src: Source, st: State, k: Key, ot: set<Type>, of: set<nat>)
    requires Valid(src, st, ot, of) && k !in st.functionIds
    requires |st.functionIds| < FUNCTION_LIMIT
    ensures Valid(src, ReserveFunction(st, k), ot, of + {|st.functions|})
    ensures Grows(st, ReserveFunction(st, k))
  {
    hide TypeFilled, FunctionFilled, At, ColumnIndexed;
    ReserveFunctionIndexed(st, k);
    ReserveFunctionGrows(st, k);
    KeysMatchFunctions(st);
    hide Indexed, Grows, MapsGrow;
    var b := ReserveFunction(st, k);
    forall t | t in st.ids ensures At(b, t.kind, b.ids[t]) == At(st, t.kind, st.ids[t]) {
      SameColumns(st, b, t.kind, st.ids[t]);
    }
    forall t | t in st.ids && At(st, t.kind, st.ids[t]).Some? ensures TypeFilled(src, b, t) {
      TypeStaysFilled(src, st, b, t);
    }
    forall i | 0 <= i < |st.functions| && st.functions[i].Some? ensures FunctionFilled(src, b, i) {
      FunctionStaysFilled(src, st, b, i);
    }
  }

  lemma SameColumns(a: State, b: State, kind: Kind, id: nat)
    requires a.structs == b.structs && a.enums == b.enums
    ensures At(a, kind, id) == At(b, kind, id)
  {
  }

  /** Writes the slot of a type. */
  function FillType(st: State, t: Type, d: Declaration): State
    requires Indexed(st) && t in st.ids
  {
    var c := st.Of(t.kind);
    st.With(t.kind, c.(slots := c.slots[st.ids[t] := Some(d)]))
  }

  lemma IdIdentifies(st: State, t: Type, u: Type)
    requires Indexed(st) && t in st.ids && u in st.ids && t.kind == u.kind
    ensures st.ids[t] < |st.Of(t.kind).slots| && (st.ids[t] == st.ids[u] ==> t == u)
    ensures IsDeclared(t)
  {
    hide FunctionsIndexed;
  }

  lemma FillTypeAt(st: State, t: Type, d: Declaration, u: Type)
    requires Indexed(st) && t in st.ids && u in st.ids
    ensures At(FillType(st, t, d), u.kind, st.ids[u])
            == if u == t then Some(d) else At(st, u.kind, st.ids[u])
  {
    IdIdentifies(st, t, t);
    IdIdentifies(st, u, u);
    if t.kind == u.kind {
      IdIdentifies(st, t, u);
    }
    hide Indexed;
    var r := FillType(st, t, d);
    assert u.kind != t.kind ==> r.Of(u.kind) == st.Of(u.kind);
    assert r.Of(t.kind).slots == st.Of(t.kind).slots[st.ids[t] := Some(d)];
  }

  lemma FillTypeIndexed(st: State, t: Type, d: Declaration)
    requires Indexed(st) && t in st.ids
    ensures Indexed(FillType(st, t, d))
  {
    hide FunctionsIndexed;
  }

  lemma FillTypeValid(src: Source, st: State, t: Type, ot: set<Type>, of: set<nat>)
    requires Valid(src, st, ot + {t}, of) && t in st.ids && DeclarationOf(src, t).Some?
    requires CoveredDeclaration(st.Maps(), DeclarationOf(src, t).value, t.arguments)
    ensures var d := DeclarationInstance(st.Maps(), DeclarationOf(src, t).value, t.arguments);
            Valid(src, FillType(st, t, d), ot, of)
  {
    hide At, ColumnIndexed, CoveredDeclaration, DeclarationInstance, CoveredFunction,
      FunctionInstance;
    var d := DeclarationInstance(st.Maps(), DeclarationOf(src, t).value, t.arguments);
    var b := FillType(st, t, d);
    FillTypeIndexed(st, t, d);
    assert b.Maps() == st.Maps();
    forall u | u in b.ids
      ensures if At(b, u.kind, b.ids[u]).None? then u in ot else TypeFilled(src, b, u)
    {
      FillTypeAt(st, t, d, u);
    }
    forall i | 0 <= i < |b.functions| && b.functions[i].Some? ensures FunctionFilled(src, b, i) {
      assert FunctionFilled(src, st, i);
    }
  }

  lemma FillFunctionValid(src: Source, st: State, i: nat, ot: set<Type>, of: set<nat>)
    requires Valid(src, st, ot, of + {i}) && i < |st.functions|
    requires var k := st.functionKeys[i];
             k.callee < |src.functions|
             && CoveredFunction(st.Maps(), src.functions[k.callee], k.arguments)
    ensures var k := st.functionKeys[i];
            Valid(src, st.(functions := st.functions[i := Some(FunctionInstance(st.Maps(),
                             src.functions[k.callee], k.arguments))]), ot, of)
  {
    hide At, ColumnIndexed, CoveredDeclaration, DeclarationInstance;
    var k := st.functionKeys[i];
    var b := st.(functions := st.functions[i := Some(FunctionInstance(st.Maps(),
                                                 src.functions[k.callee], k.arguments))]);
    assert b.Maps() == st.Maps();
    forall t | t in b.ids
      ensures if At(b, t.kind, b.ids[t]).None? then t in ot else TypeFilled(src, b, t)
    {
      SameColumns(st, b, t.kind, st.ids[t]);
    }
    forall j | 0 <= j < |b.functions| && b.functions[j].Some? ensures FunctionFilled(src, b, j) {
      if j != i {
        assert FunctionFilled(src, st, j);
      }
    }
  }

  lemma {:induction false} ImageAllPointwise(tb: Tables, ts: seq<Type>, rs: seq<Type>)
    requires |ts| == |rs|
    requires forall i :: 0 <= i < |ts| ==> Imaged(tb, ts[i]) && rs[i] == Image(tb, ts[i])
    ensures ImagedAll(tb, ts) && rs == ImageAll(tb, ts)
  {
    if ts != [] {
      ImageAllPointwise(tb, ts[1..], rs[1..]);
    }
  }

  predicate IsPayloadImage(tb: Tables, payload: Option<Type>, r: Option<Type>) {
    if payload.None? then r.None?
    else Imaged(tb, payload.value) && r == Some(Image(tb, payload.value))
  }

  lemma PayloadImageGrows(a: Tables, b: Tables, payload: Option<Type>, r: Option<Type>)
    requires MapsGrow(a, b) && IsPayloadImage(a, payload, r)
    ensures IsPayloadImage(b, payload, r)
  {
    if payload.Some? {
      ImageGrows(a, b, payload.value);
    }
  }

  predicate PayloadsSoFar(tb: Tables, payloads: seq<Option<Type>>, rs: seq<Option<Type>>) {
    && |rs| <= |payloads|
    && forall i :: 0 <= i < |rs| ==> IsPayloadImage(tb, payloads[i], rs[i])
  }

  lemma PayloadsNext(a: Tables, b: Tables, payloads: seq<Option<Type>>, rs: seq<Option<Type>>,
                     r: Option<Type>)
    requires MapsGrow(a, b) && PayloadsSoFar(a, payloads, rs)
    requires |rs| < |payloads| && IsPayloadImage(b, payloads[|rs|], r)
    ensures PayloadsSoFar(b, payloads, rs + [r])
  {
    hide IsPayloadImage, MapsGrow;
    forall i | 0 <= i < |rs| ensures IsPayloadImage(b, payloads[i], rs[i]) {
      PayloadImageGrows(a, b, payloads[i], rs[i]);
    }
  }

  lemma {:induction false} PayloadImagesPointwise(tb: Tables, payloads: seq<Option<Type>>,
                                                  rs: seq<Option<Type>>)
    requires |payloads| == |rs|
    requires PayloadsSoFar(tb, payloads, rs)
    ensures PayloadsImaged(tb, payloads) && rs == PayloadImages(tb, payloads)
  {
    if payloads != [] {
      assert IsPayloadImage(tb, payloads[0], rs[0]);
      PayloadImagesPointwise(tb, payloads[1..], rs[1..]);
    }
  }

  lemma {:induction false} RewriteAllPointwise(tb: Tables, es: seq<Expression>, env: seq<Type>,
                                               rs: seq<Expression>)
    requires |es| == |rs|
    requires forall i :: 0 <= i < |es| ==>
               Covered(tb, es[i], env) && rs[i] == Rewrite(tb, es[i], env)
    ensures CoveredAll(tb, es, env) && rs == RewriteAll(tb, es, env)
  {
    if es != [] {
      RewriteAllPointwise(tb, es[1..], env, rs[1..]);
    }
  }

  lemma NoPayloads(tb: Tables, payloads: seq<Option<Type>>)
    ensures PayloadsSoFar(tb, payloads, [])
  {
  }

  lemma PayloadsStep(start: State, a: State, b: State, payloads: seq<Option<Type>>,
                     rs: seq<Option<Type>>, r: Option<Type>)
    requires Grows(start, a) && Grows(a, b) && PayloadsSoFar(a.Maps(), payloads, rs)
    requires |rs| < |payloads| && IsPayloadImage(b.Maps(), payloads[|rs|], r)
    ensures Grows(start, b) && PayloadsSoFar(b.Maps(), payloads, rs + [r])
  {
    hide Grows, PayloadsSoFar, IsPayloadImage;
    GrowsThrough(start, a, b);
    PayloadsNext(a.Maps(), b.Maps(), payloads, rs, r);
  }

  lemma GrowsKeepsKeys(a: State, b: State)
    requires Grows(a, b)
    ensures MapsGrow(a.Maps(), b.Maps())
  {
  }

  lemma GrowsReflexive(a: State)
    ensures Grows(a, a)
  {
  }

  lemma GrowsTransitive(a: State, b: State, c: State)
    requires Grows(a, b) && Grows(b, c)
    ensures Grows(a, c)
  {
  }

  lemma GrowsThrough(a: State, b: State, c: State)
    requires Grows(a, b) && Grows(b, c)
    ensures Grows(a, c) && MapsGrow(b.Maps(), c.Maps())
  {
  }

  lemma GrowsKeeps(a: State, b: State)
    requires Indexed(a) && Indexed(b) && Grows(a, b)
    ensures MapsGrow(a.Maps(), b.Maps())
    ensures forall i :: 0 <= i < |a.functionKeys| ==>
              i < |b.functionKeys| && b.functionKeys[i] == a.functionKeys[i]
  {
    hide ColumnIndexed, At;
  }

  lemma TypeImage(tb: Tables, t: Type)
    requires IsDeclared(t) && t in tb.types
    ensures Imaged(tb, t) && Image(tb, t) == Type(t.kind, tb.types[t], [])
  {
  }

  /** From the reservation of a type, through its parts, to its slot. */
  lemma CloseType(src: Source, before: State, filled: State, t: Type, d: Declaration,
                  ot: set<Type>, of: set<nat>)
    requires Valid(src, before, ot, of) && t !in before.ids
    requires IsDeclared(t) && DeclarationOf(src, t).Some?
    requires Grows(ReserveType(before, t), filled) && Valid(src, filled, ot + {t}, of)
    requires var declared := DeclarationOf(src, t).value;
             && CoveredDeclaration(filled.Maps(), declared, t.arguments)
             && d == DeclarationInstance(filled.Maps(), declared, t.arguments)
    ensures var id := |before.Of(t.kind).slots|;
            && Indexed(filled) && t in filled.ids && filled.ids[t] == id
            && id < |filled.Of(t.kind).slots|
            && var after := FillType(filled, t, d);
               Valid(src, after, ot, of) && Grows(before, after)
               && Imaged(after.Maps(), t) && Image(after.Maps(), t) == Type(t.kind, id, [])
  {
    hide Valid, Indexed, Grows, Imaged, Image, CoveredDeclaration, DeclarationInstance, At;
    ValidIsIndexed(src, before, ot, of);
    ValidIsIndexed(src, filled, ot + {t}, of);
    ReserveTypeIndexed(before, t);
    GrowsAt(ReserveType(before, t), filled, t);
    FillGrows(before, filled, t, d);
    FillTypeValid(src, filled, t, ot, of);
    TypeImage(filled.Maps(), t);
  }

  /** The reserved id stays, and writing its slot disturbs nothing older. */
  lemma FillGrows(before: State, filled: State, t: Type, d: Declaration)
    requires Indexed(before) && Indexed(filled) && t !in before.ids && IsDeclared(t)
    requires Grows(ReserveType(before, t), filled)
    ensures t in filled.ids && filled.ids[t] == |before.Of(t.kind).slots|
    ensures |before.Of(t.kind).slots| < |filled.Of(t.kind).slots|
    ensures Grows(before, FillType(filled, t, d))
  {
    hide Indexed, At, FillType, ReserveType;
    var reserved := ReserveType(before, t);
    ReserveTypeGrows(before, t);
    GrowsTransitive(before, reserved, filled);
    ReservedId(before, t);
    forall u | u in before.ids
      ensures At(FillType(filled, t, d), u.kind, filled.ids[u])
              == At(before, u.kind, before.ids[u])
    {
      FillTypeAt(filled, t, d, u);
    }
    FillKeeps(filled, t, d);
    IdInColumn(filled, t);
  }

  lemma IdInColumn(st: State, t: Type)
    requires Indexed(st) && t in st.ids
    ensures st.ids[t] < |st.Of(t.kind).slots|
  {
    hide FunctionsIndexed;
  }

  lemma ReservedId(before: State, t: Type)
    ensures t in ReserveType(before, t).ids
    ensures ReserveType(before, t).ids[t] == |before.Of(t.kind).slots|
  {
  }

  lemma FillKeeps(st: State, t: Type, d: Declaration)
    requires Indexed(st) && t in st.ids
    ensures FillType(st, t, d).ids == st.ids
    ensures FillType(st, t, d).functionIds == st.functionIds
    ensures FillType(st, t, d).functions == st.functions
  {
    hide FunctionsIndexed, ColumnIndexed;
  }

  lemma ValidIsIndexed(src: Source, st: State, ot: set<Type>, of: set<nat>)
    requires Valid(src, st, ot, of)
    ensures Indexed(st)
  {
  }

  /** The reserved id keeps its key, and writing its slot disturbs nothing older. */
  lemma FunctionSlot(before: State, filled: State, k: Key, f: Option<FirFunction>)
    requires Indexed(before) && Indexed(filled) && k !in before.functionIds
    requires Grows(ReserveFunction(before, k), filled)
    ensures |before.functions| < |filled.functions| == |filled.functionKeys|
    ensures filled.functionKeys[|before.functions|] == k
    ensures k in filled.functionIds && filled.functionIds[k] == |before.functions|
    ensures Grows(before, filled.(functions := filled.functions[|before.functions| := f]))
  {
    hide ColumnIndexed, At;
    var reserved := ReserveFunction(before, k);
    assert k in reserved.functionIds;
    var after := filled.(functions := filled.functions[|before.functions| := f]);
    forall t | t in before.ids
      ensures At(after, t.kind, filled.ids[t]) == At(before, t.kind, before.ids[t])
    {
      assert t in reserved.ids;
      SameColumns(before, reserved, t.kind, before.ids[t]);
      SameColumns(filled, after, t.kind, filled.ids[t]);
    }
  }

  /** From the reservation of a function, through its signature and body, to its slot. */
  lemma CloseFunction(src: Source, before: State, typed: State, filled: State, k: Key,
                      returnType: Type, types: seq<Type>, body: Expression,
                      ot: set<Type>, of: set<nat>)
    requires Valid(src, before, ot, of) && k !in before.functionIds
    requires |before.functionIds| < FUNCTION_LIMIT
    requires k.callee < |src.functions|
    requires Grows(ReserveFunction(before, k), typed) && Grows(typed, filled)
    requires Valid(src, typed, ot, of + {|before.functions|})
    requires Valid(src, filled, ot, of + {|before.functions|})
    requires var f := src.functions[k.callee];
             && Imaged(typed.Maps(), Substitute(f.returnType, k.arguments))
             && returnType == Image(typed.Maps(), Substitute(f.returnType, k.arguments))
             && ImagedAll(typed.Maps(), SubstituteAll(f.types, k.arguments))
             && types == ImageAll(typed.Maps(), SubstituteAll(f.types, k.arguments))
             && Covered(filled.Maps(), f.body, k.arguments)
             && body == Rewrite(filled.Maps(), f.body, k.arguments)
    ensures |before.functions| < |filled.functions|
            && var after := filled.(functions := filled.functions[
                 |before.functions| := Some(FirFunction(types, returnType, body))]);
               Valid(src, after, ot, of) && Grows(before, after)
               && k in after.functionIds && after.functionIds[k] == |before.functions|
  {
    hide Valid, Indexed, Grows, Imaged, ImagedAll, Image, ImageAll, Covered, Rewrite;
    var id, reserved := |before.functions|, ReserveFunction(before, k);
    var f := src.functions[k.callee];
    ReserveFunctionValid(src, before, k, ot, of);
    GrowsTransitive(reserved, typed, filled);
    ValidIsIndexed(src, before, ot, of);
    ValidIsIndexed(src, typed, ot, of + {id});
    ValidIsIndexed(src, filled, ot, of + {id});
    GrowsKeeps(typed, filled);
    ImageGrows(typed.Maps(), filled.Maps(), Substitute(f.returnType, k.arguments));
    ImageAllGrows(typed.Maps(), filled.Maps(), SubstituteAll(f.types, k.arguments));
    FunctionSlot(before, filled, k, Some(FirFunction(types, returnType, body)));
    FillFunctionValid(src, filled, id, ot, of);
  }

  // ---------- when an instantiation succeeds ----------

  const FUNCTION_LIMIT := 65536

  function Max(a: nat, b: nat): nat {
    if a < b then b else a
  }

  /** How deep wrappers and function types are nested. */
  function Height(t: Type): nat
    decreases t
  {
    if t.kind == Function || IsWrapper(t) then 1 + HeightAll(t.arguments) else 0
  }

  function HeightAll(ts: seq<Type>): nat
    decreases ts
  {
    if ts == [] then 0 else Max(Height(ts[0]), HeightAll(ts[1..]))
  }

  function PayloadsHeight(payloads: seq<Option<Type>>): nat {
    if payloads == [] then 0
    else
      Max(if payloads[0].None? then 0 else Height(payloads[0].value),
          PayloadsHeight(payloads[1..]))
  }

  function ExpressionHeight(e: Expression, env: seq<Type>): nat
    decreases e
  {
    match e
    case Constant(_) => 0
    case Local(_) => 0
    case Describe(t, _) => Height(Substitute(t, env))
    case Construct(t, _, operands) =>
      Max(Height(Substitute(t, env)), ExpressionsHeight(operands, env))
    case Add(left, right) => Max(ExpressionHeight(left, env), ExpressionHeight(right, env))
    case If(condition, left, right) =>
      Max(ExpressionHeight(condition, env),
          Max(ExpressionHeight(left, env), ExpressionHeight(right, env)))
    case Call(_, _, operands) => ExpressionsHeight(operands, env)
    case FunctionValue(_, _) => 0
    case Closure(_, operands) => ExpressionsHeight(operands, env)
    case Invoke(target, operands) =>
      Max(ExpressionHeight(target, env), ExpressionsHeight(operands, env))
    case Match(t, scrutinee, arms) =>
      Max(Height(Substitute(t, env)),
          Max(ExpressionHeight(scrutinee, env), ExpressionsHeight(arms, env)))
  }

  function ExpressionsHeight(es: seq<Expression>, env: seq<Type>): nat
    decreases es
  {
    if es == [] then 0 else Max(ExpressionHeight(es[0], env), ExpressionsHeight(es[1..], env))
  }

  function FunctionHeight(f: FirFunction, env: seq<Type>): nat {
    Max(Height(Substitute(f.returnType, env)),
        Max(HeightAll(SubstituteAll(f.types, env)), ExpressionHeight(f.body, env)))
  }

  function DeclarationHeight(d: Declaration, env: seq<Type>): nat {
    match d
    case FirStruct(_, fields, _) => HeightAll(SubstituteAll(fields, env))
    case FirEnum(_, builtin, payloads) =>
      PayloadsHeight(SubstitutePayloads(builtin, payloads, env))
  }

  /** Keys of instances, and how deep the types nest that their definitions ask for. */
  datatype Domain = Domain(keys: Tables, height: nat)

  /** The keys are closed: whatever the definition of one asks for is resolved and among them. */
  predicate ClosedKeys(src: Source, keys: Tables) {
    && |keys.functions| <= FUNCTION_LIMIT
    && (forall t | t in keys.types ::
          && DeclarationOf(src, t).Some?
          && CoveredDeclaration(keys, DeclarationOf(src, t).value, t.arguments))
    && (forall k | k in keys.functions ::
          && k.callee < |src.functions|
          && CoveredFunction(keys, src.functions[k.callee], k.arguments))
  }

  predicate Bounded(src: Source, dom: Domain)
    requires ClosedKeys(src, dom.keys)
  {
    && (forall t | t in dom.keys.types ::
          DeclarationHeight(DeclarationOf(src, t).value, t.arguments) <= dom.height)
    && (forall k | k in dom.keys.functions ::
          FunctionHeight(src.functions[k.callee], k.arguments) <= dom.height)
  }

  predicate Within(a: Tables, b: Tables) {
    a.types.Keys <= b.types.Keys && a.functions.Keys <= b.functions.Keys
  }

  function Remaining(keys: Tables, maps: Tables): nat {
    |keys.types.Keys - maps.types.Keys| + |keys.functions.Keys - maps.functions.Keys|
  }

  /** The depth that suffices for a number of instances. */
  function Room(instances: nat, height: nat): nat {
    if instances == 0 then 0 else height + 1 + Room(instances - 1, height)
  }

  /** The depth suffices for whatever is missing of a closed domain, and for a type so high. */
  predicate Feasible(src: Source, dom: Domain, maps: Tables, depth: nat, height: nat) {
    && ClosedKeys(src, dom.keys) && Bounded(src, dom) && Within(maps, dom.keys)
    && height <= dom.height
    && depth > height + Room(Remaining(dom.keys, maps), dom.height)
  }

  lemma {:induction false} RoomGrows(a: nat, b: nat, height: nat)
    requires a <= b
    ensures Room(a, height) <= Room(b, height)
  {
    if a < b {
      RoomGrows(a, b - 1, height);
    }
  }

  lemma CardinalityShrinks<T>(a: set<T>, b: set<T>)
    requires a <= b
    ensures |a| <= |b|
  {
    assert b == a + (b - a);
  }

  lemma FeasibleStays(src: Source, dom: Domain, a: Tables, b: Tables, depth: nat, height: nat,
                      lower: nat)
    requires Feasible(src, dom, a, depth, height) && lower <= height
    requires MapsGrow(a, b) && Within(b, dom.keys)
    ensures Feasible(src, dom, b, depth, lower)
  {
    hide ClosedKeys, Bounded, Room;
    var keys := dom.keys;
    CardinalityShrinks(keys.types.Keys - b.types.Keys, keys.types.Keys - a.types.Keys);
    CardinalityShrinks(keys.functions.Keys - b.functions.Keys,
                       keys.functions.Keys - a.functions.Keys);
    RoomGrows(Remaining(keys, b), Remaining(keys, a), dom.height);
  }

  lemma RemainingType(keys: Tables, maps: Tables, t: Type, id: nat)
    requires t in keys.types && t !in maps.types
    ensures Remaining(keys, maps) == Remaining(keys, maps.(types := maps.types[t := id])) + 1
  {
    var less := maps.types[t := id];
    assert keys.types.Keys - maps.types.Keys == (keys.types.Keys - less.Keys) + {t};
  }

  lemma RemainingFunction(keys: Tables, maps: Tables, k: Key, id: nat)
    requires k in keys.functions && k !in maps.functions
    ensures Remaining(keys, maps)
            == Remaining(keys, maps.(functions := maps.functions[k := id])) + 1
  {
    var less := maps.functions[k := id];
    assert keys.functions.Keys - maps.functions.Keys
           == (keys.functions.Keys - less.Keys) + {k};
  }

  /** The domain has what an expression asks for under type arguments. */
  predicate Demands(dom: Domain, e: Expression, env: seq<Type>) {
    Covered(dom.keys, e, env) && ExpressionHeight(e, env) <= dom.height
  }

  predicate DemandsAll(dom: Domain, es: seq<Expression>, env: seq<Type>) {
    CoveredAll(dom.keys, es, env) && ExpressionsHeight(es, env) <= dom.height
  }

  predicate DemandsFunction(dom: Domain, f: FirFunction, env: seq<Type>) {
    && Imaged(dom.keys, Substitute(f.returnType, env))
    && Height(Substitute(f.returnType, env)) <= dom.height
    && ImagedAll(dom.keys, SubstituteAll(f.types, env))
    && HeightAll(SubstituteAll(f.types, env)) <= dom.height
    && Demands(dom, f.body, env)
  }

  /** Reserving a type of the domain leaves enough depth for its definition. */
  lemma ReserveFeasible(src: Source, dom: Domain, maps: Tables, depth: nat, height: nat, t: Type,
                        id: nat)
    requires Feasible(src, dom, maps, depth, height) && t in dom.keys.types && t !in maps.types
    ensures DeclarationOf(src, t).Some?
    ensures CoveredDeclaration(dom.keys, DeclarationOf(src, t).value, t.arguments)
    ensures DeclarationHeight(DeclarationOf(src, t).value, t.arguments) <= dom.height
    ensures Feasible(src, dom, maps.(types := maps.types[t := id]), depth - 1, dom.height)
  {
    hide CoveredDeclaration, CoveredFunction, DeclarationHeight, FunctionHeight, Remaining;
    RemainingType(dom.keys, maps, t, id);
  }

  lemma DomainHasFunction(src: Source, dom: Domain, k: Key)
    requires ClosedKeys(src, dom.keys) && Bounded(src, dom) && k in dom.keys.functions
    ensures k.callee < |src.functions|
    ensures DemandsFunction(dom, src.functions[k.callee], k.arguments)
  {
    hide CoveredDeclaration, DeclarationHeight, Imaged, ImagedAll, Height, HeightAll, Covered,
      ExpressionHeight, Substitute, SubstituteAll;
    var f := src.functions[k.callee];
    assert CoveredFunction(dom.keys, f, k.arguments);
    assert FunctionHeight(f, k.arguments) <= dom.height;
  }

  lemma LimitIsFar(src: Source, dom: Domain, maps: Tables, k: Key)
    requires ClosedKeys(src, dom.keys) && Within(maps, dom.keys)
    requires k in dom.keys.functions && k !in maps.functions
    ensures |maps.functions| < FUNCTION_LIMIT
  {
    hide CoveredDeclaration, CoveredFunction;
    CardinalityShrinks(maps.functions.Keys + {k}, dom.keys.functions.Keys);
  }

  lemma ReserveFunctionFeasible(src: Source, dom: Domain, maps: Tables, depth: nat, height: nat,
                                k: Key, id: nat)
    requires Feasible(src, dom, maps, depth, height)
    requires k in dom.keys.functions && k !in maps.functions
    ensures k.callee < |src.functions| && |maps.functions| < FUNCTION_LIMIT
    ensures DemandsFunction(dom, src.functions[k.callee], k.arguments)
    ensures Feasible(src, dom, maps.(functions := maps.functions[k := id]), depth - 1, dom.height)
  {
    hide ClosedKeys, Bounded, DemandsFunction, Remaining;
    DomainHasFunction(src, dom, k);
    LimitIsFar(src, dom, maps, k);
    RemainingFunction(dom.keys, maps, k, id);
  }

  lemma FeasibleInside(src: Source, dom: Domain, maps: Tables, depth: nat, height: nat,
                       inner: nat)
    requires Feasible(src, dom, maps, depth, height) && inner + 1 == height
    ensures Feasible(src, dom, maps, depth - 1, inner)
  {
    hide ClosedKeys, Bounded, Room, Remaining;
  }

  lemma FeasibleGrows(src: Source, dom: Domain, a: State, b: State, depth: nat, height: nat,
                      lower: nat)
    requires Feasible(src, dom, a.Maps(), depth, height) && lower <= height
    requires Grows(a, b) && Within(b.Maps(), dom.keys)
    ensures Feasible(src, dom, b.Maps(), depth, lower)
  {
    hide Feasible, Within;
    GrowsKeepsKeys(a, b);
    FeasibleStays(src, dom, a.Maps(), b.Maps(), depth, height, lower);
  }

  lemma FeasibleLower(src: Source, dom: Domain, maps: Tables, depth: nat, height: nat, lower: nat)
    requires Feasible(src, dom, maps, depth, height) && lower <= height
    ensures Feasible(src, dom, maps, depth, lower)
  {
    hide ClosedKeys, Bounded, Room, Remaining;
  }

  lemma FeasibleIsWithin(src: Source, dom: Domain, maps: Tables, depth: nat, height: nat)
    requires Feasible(src, dom, maps, depth, height)
    ensures Within(maps, dom.keys) && depth > 0
  {
  }

  lemma {:induction false} HeightOfPart(tb: Tables, ts: seq<Type>, i: nat)
    requires ImagedAll(tb, ts) && i < |ts|
    ensures Imaged(tb, ts[i]) && Height(ts[i]) <= HeightAll(ts)
  {
    hide Height, Imaged;
    if i > 0 {
      HeightOfPart(tb, ts[1..], i - 1);
    }
  }

  lemma {:induction false} HeightOfPayload(tb: Tables, payloads: seq<Option<Type>>, i: nat)
    requires PayloadsImaged(tb, payloads) && i < |payloads| && payloads[i].Some?
    ensures Imaged(tb, payloads[i].value) && Height(payloads[i].value) <= PayloadsHeight(payloads)
  {
    hide Height, Imaged;
    if i > 0 {
      HeightOfPayload(tb, payloads[1..], i - 1);
    }
  }

  lemma {:induction false} DemandsInside(dom: Domain, e: Expression, env: seq<Type>)
    requires Demands(dom, e, env)
    ensures e.Describe? || e.Construct? || e.Match? ==>
              Imaged(dom.keys, Substitute(e.t, env)) && Height(Substitute(e.t, env)) <= dom.height
    ensures e.Add? ==> Demands(dom, e.left, env) && Demands(dom, e.right, env)
    ensures e.If? ==> Demands(dom, e.condition, env) && Demands(dom, e.left, env)
                      && Demands(dom, e.right, env)
    ensures e.Construct? || e.Call? || e.Closure? || e.Invoke? ==>
              DemandsAll(dom, e.operands, env)
    ensures e.Call? || e.FunctionValue? ==>
              Key(e.callee, SubstituteAll(e.typeArguments, env)) in dom.keys.functions
    ensures e.Closure? ==> Key(e.callee, env) in dom.keys.functions
    ensures e.Invoke? ==> Demands(dom, e.target, env)
    ensures e.Match? ==> Demands(dom, e.scrutinee, env) && DemandsAll(dom, e.arms, env)
  {
    hide Imaged, Height, Substitute, SubstituteAll;
  }

  lemma {:induction false} DemandsPart(dom: Domain, es: seq<Expression>, env: seq<Type>, i: nat)
    requires DemandsAll(dom, es, env) && i < |es|
    ensures Demands(dom, es[i], env)
  {
    hide Covered, ExpressionHeight;
    if i > 0 {
      DemandsPart(dom, es[1..], env, i - 1);
    }
  }

  /**
    Depth of recursion stands for the C++ stack; running out of it is a failure. The instances
    are compared with those of any domain, `goal`: an instantiation for which it has what is
    needed, and which gets enough depth, succeeds, and instantiates nothing outside it.
   */
  class Instantiator {
    const source: Source
    var typeIds: map<Type, nat>
    var structs: seq<Option<Declaration>>
    var enums: seq<Option<Declaration>>
    var functionIds: map<Key, nat>
    var functions: seq<Option<FirFunction>>
    ghost const goal: Domain
    ghost var structKeys: seq<Type>
    ghost var enumKeys: seq<Type>
    ghost var functionKeys: seq<Key>

    ghost function Current(): State
      reads this
    {
      State(typeIds, Column(structKeys, structs), Column(enumKeys, enums),
            functionIds, functionKeys, functions)
    }

    /** `goal` has what is needed for something so high that was asked for in these maps. */
    ghost predicate Can(maps: Tables, depth: nat, height: nat) {
      Feasible(source, goal, maps, depth, height)
    }

    ghost predicate Inside()
      reads this
    {
      Within(Current().Maps(), goal.keys)
    }

    constructor (source: Source, ghost goal: Domain)
      ensures this.source == source && this.goal == goal && Complete(source, Current())
      ensures Current().Maps() == Tables(map[], map[])
    {
      this.source, this.goal := source, goal;
      typeIds, structs, enums, functionIds, functions := map[], [], [], map[], [];
      structKeys, enumKeys, functionKeys := [], [], [];
    }

    method InstantiateType(t: Type, depth: nat, ghost ot: set<Type>, ghost of: set<nat>)
      returns (ok: bool, r: Type)
      requires Valid(source, Current(), ot, of)
      modifies this
      ensures ok ==> Valid(source, Current(), ot, of) && Grows(old(Current()), Current())
      ensures ok ==> Imaged(Current().Maps(), t) && r == Image(Current().Maps(), t)
      ensures Can(old(Current()).Maps(), depth, Height(t)) && Imaged(goal.keys, t) ==>
                ok && Inside()
      decreases depth, 0
    {
      hide Valid, Grows, Feasible, Within, ImagedAll, HeightAll, ImageAll;
      ok, r := false, INVALID;
      ghost var can := Can(Current().Maps(), depth, Height(t)) && Imaged(goal.keys, t);
      if can {
        FeasibleIsWithin(source, goal, Current().Maps(), depth, Height(t));
      }
      GrowsReflexive(Current());
      if IsUnresolved(t) || depth == 0 {
        return;
      }
      if t.kind == Function || IsWrapper(t) {
        if IsWrapper(t) && |t.arguments| != 1 {
          return;
        }
        if can {
          FeasibleInside(source, goal, Current().Maps(), depth, Height(t), HeightAll(t.arguments));
        }
        var arguments;
        ok, arguments := InstantiateTypes(t.arguments, depth - 1, ot, of);
        if ok {
          if t.kind == Function {
            r := Type(Function, if IsCFunction(t) then C_FUNCTION_QUALIFIER else 0, arguments);
          } else {
            r := Type(t.kind, t.declaration, arguments);
          }
        }
        return;
      }
      if !IsDeclared(t) {
        return true, t;
      }
      if t in typeIds {
        return true, Type(t.kind, typeIds[t], []);
      }
      if t.kind == Struct {
        ok, r := InstantiateStruct(t, depth, ot, of);
      } else {
        ok, r := InstantiateEnum(t, depth, ot, of);
      }
    }

    method InstantiateStruct(t: Type, depth: nat, ghost ot: set<Type>, ghost of: set<nat>)
      returns (ok: bool, r: Type)
      requires Valid(source, Current(), ot, of)
      requires t.kind == Struct && t !in typeIds && depth > 0
      modifies this
      ensures ok ==> Valid(source, Current(), ot, of) && Grows(old(Current()), Current())
      ensures ok ==> Imaged(Current().Maps(), t) && r == Image(Current().Maps(), t)
      ensures Can(old(Current()).Maps(), depth, 0) && t in goal.keys.types ==> ok && Inside()
      decreases depth, 0, 0
    {
      hide Valid, Indexed, Grows, Imaged, ImagedAll, Image, ImageAll, Feasible, Within, HeightAll,
        Substitute, SubstituteAll, At;
      ok, r := false, INVALID;
      var id := |structs|;
      ghost var before := Current();
      ghost var can := Can(before.Maps(), depth, 0) && t in goal.keys.types;
      if can {
        ReserveFeasible(source, goal, before.Maps(), depth, 0, t, id);
      }
      if t.declaration >= |source.structs| {
        return;
      }
      ReserveTypeValid(source, before, t, ot, of);
      typeIds, structs, structKeys := typeIds[t := id], structs + [None], structKeys + [t];
      ghost var reserved := Current();
      assert reserved == ReserveType(before, t);
      assert can ==> Can(reserved.Maps(), depth - 1, goal.height);
      hide ReserveType;
      var declaration := source.structs[t.declaration];
      if can {
        FeasibleLower(source, goal, reserved.Maps(), depth - 1, goal.height,
                      HeightAll(SubstituteAll(declaration.fields, t.arguments)));
      }
      var fields;
      ok, fields := InstantiateTypes(SubstituteAll(declaration.fields, t.arguments), depth - 1,
                                     ot + {t}, of);
      if !ok {
        return;
      }
      ghost var fielded := Current();
      if can {
        FeasibleGrows(source, goal, reserved, fielded, depth - 1, goal.height, 0);
      }
      var drop := None;
      if declaration.dropFunction.Some? {
        var target;
        ok, target := InstantiateFunction(declaration.dropFunction.value, t.arguments, depth - 1,
                                          ot + {t}, of);
        if !ok {
          return;
        }
        drop := Some(target);
      }
      ghost var filled := Current();
      if declaration.dropFunction.None? {
        GrowsReflexive(fielded);
      }
      GrowsThrough(reserved, fielded, filled);
      ImageAllGrows(fielded.Maps(), filled.Maps(), SubstituteAll(declaration.fields, t.arguments));
      var instance := FirStruct(declaration.name, fields, drop);
      CloseType(source, before, filled, t, instance, ot, of);
      structs := structs[id := Some(instance)];
      assert Current() == FillType(filled, t, instance);
      r := Type(Struct, id, []);
    }

    method InstantiateEnum(t: Type, depth: nat, ghost ot: set<Type>, ghost of: set<nat>)
      returns (ok: bool, r: Type)
      requires Valid(source, Current(), ot, of)
      requires t.kind == Enum && t !in typeIds && depth > 0
      modifies this
      ensures ok ==> Valid(source, Current(), ot, of) && Grows(old(Current()), Current())
      ensures ok ==> Imaged(Current().Maps(), t) && r == Image(Current().Maps(), t)
      ensures Can(old(Current()).Maps(), depth, 0) && t in goal.keys.types ==> ok && Inside()
      decreases depth, 0, 0
    {
      hide Valid, Indexed, Grows, Imaged, Image, PayloadsImaged, PayloadImages, Feasible, Within,
        PayloadsHeight;
      ok, r := false, INVALID;
      var id := |enums|;
      ghost var before := Current();
      ghost var can := Can(before.Maps(), depth, 0) && t in goal.keys.types;
      if can {
        ReserveFeasible(source, goal, before.Maps(), depth, 0, t, id);
      }
      if t.declaration >= |source.enums| {
        return;
      }
      ReserveTypeValid(source, before, t, ot, of);
      typeIds, enums, enumKeys := typeIds[t := id], enums + [None], enumKeys + [t];
      assert Current() == ReserveType(before, t);
      assert can ==> Can(Current().Maps(), depth - 1, goal.height);
      hide ReserveType;
      var declaration := source.enums[t.declaration];
      if can {
        FeasibleLower(source, goal, Current().Maps(), depth - 1, goal.height,
                      PayloadsHeight(SubstitutePayloads(declaration.builtin, declaration.payloads,
                                                        t.arguments)));
      }
      var payloads;
      ok, payloads := InstantiatePayloads(declaration.builtin, declaration.payloads, t.arguments,
                                          depth - 1, ot + {t}, of);
      if !ok {
        return;
      }
      ghost var filled := Current();
      var instance := FirEnum(declaration.name, declaration.builtin, payloads);
      CloseType(source, before, filled, t, instance, ot, of);
      enums := enums[id := Some(instance)];
      assert Current() == FillType(filled, t, instance);
      r := Type(Enum, id, []);
    }

    /** The loop over the variants; the payload that is `void` in a builtin enum is dropped. */
    method InstantiatePayloads(builtin: bool, payloads: seq<Option<Type>>, env: seq<Type>,
                               depth: nat, ghost ot: set<Type>, ghost of: set<nat>)
      returns (ok: bool, rs: seq<Option<Type>>)
      requires Valid(source, Current(), ot, of)
      modifies this
      ensures ok ==> Valid(source, Current(), ot, of) && Grows(old(Current()), Current())
      ensures var declared := SubstitutePayloads(builtin, payloads, env);
              ok ==> PayloadsImaged(Current().Maps(), declared)
                     && rs == PayloadImages(Current().Maps(), declared)
      ensures var declared := SubstitutePayloads(builtin, payloads, env);
              (Can(old(Current()).Maps(), depth, PayloadsHeight(declared))
               && PayloadsImaged(goal.keys, declared)) ==> ok && Inside()
      decreases depth, 1
    {
      hide Valid, Grows, Imaged, Image, Feasible, Within, PayloadsHeight, PayloadsImaged,
        PayloadsSoFar, Substitute, Height;
      ok, rs := true, [];
      ghost var declared := SubstitutePayloads(builtin, payloads, env);
      ghost var start, height := Current(), PayloadsHeight(declared);
      ghost var can := Can(start.Maps(), depth, height) && PayloadsImaged(goal.keys, declared);
      assert PayloadsSoFar(start.Maps(), declared, []) by {
        NoPayloads(start.Maps(), declared);
      }
      if can {
        FeasibleIsWithin(source, goal, start.Maps(), depth, height);
      }
      GrowsReflexive(Current());
      var i := 0;
      while i < |payloads|
        invariant 0 <= i == |rs| <= |payloads|
        invariant Valid(source, Current(), ot, of) && Grows(start, Current())
        invariant PayloadsSoFar(Current().Maps(), declared, rs)
        invariant can ==> Inside()
      {
        ghost var before := Current();
        GrowsReflexive(before);
        var payload: Option<Type> := None;
        if payloads[i].Some? {
          var substituted := Substitute(payloads[i].value, env);
          if !(builtin && substituted == VOID) {
            if can {
              HeightOfPayload(goal.keys, declared, i);
              FeasibleGrows(source, goal, start, before, depth, height,
                            Height(substituted));
            }
            var target;
            ok, target := InstantiateType(substituted, depth, ot, of);
            if !ok {
              return false, [];
            }
            payload := Some(target);
          }
        }
        PayloadsStep(start, before, Current(), declared, rs, payload);
        rs := rs + [payload];
        i := i + 1;
      }
      PayloadImagesPointwise(Current().Maps(), declared, rs);
    }

    method InstantiateTypes(ts: seq<Type>, depth: nat, ghost ot: set<Type>, ghost of: set<nat>)
      returns (ok: bool, rs: seq<Type>)
      requires Valid(source, Current(), ot, of)
      modifies this
      ensures ok ==> Valid(source, Current(), ot, of) && Grows(old(Current()), Current())
      ensures ok ==> ImagedAll(Current().Maps(), ts) && rs == ImageAll(Current().Maps(), ts)
      ensures Can(old(Current()).Maps(), depth, HeightAll(ts)) && ImagedAll(goal.keys, ts) ==>
                ok && Inside()
      decreases depth, 1
    {
      hide TypeFilled, FunctionFilled, Valid, Grows, Imaged, ImagedAll, Image, ImageAll, Feasible,
        Within, HeightAll;
      ok, rs := true, [];
      ghost var start := Current();
      ghost var can := Can(start.Maps(), depth, HeightAll(ts)) && ImagedAll(goal.keys, ts);
      if can {
        FeasibleIsWithin(source, goal, start.Maps(), depth, HeightAll(ts));
      }
      GrowsReflexive(start);
      var i := 0;
      while i < |ts|
        invariant 0 <= i <= |ts| == |rs| + (|ts| - i)
        invariant Valid(source, Current(), ot, of) && Grows(old(Current()), Current())
        invariant forall j :: 0 <= j < i ==>
                    Imaged(Current().Maps(), ts[j]) && rs[j] == Image(Current().Maps(), ts[j])
        invariant can ==> Inside()
      {
        ghost var before := Current();
        if can {
          HeightOfPart(goal.keys, ts, i);
          FeasibleGrows(source, goal, start, before, depth, HeightAll(ts),
                        Height(ts[i]));
        }
        var r;
        ok, r := InstantiateType(ts[i], depth, ot, of);
        if !ok {
          return false, [];
        }
        GrowsThrough(start, before, Current());
        forall j | 0 <= j < i
          ensures Imaged(Current().Maps(), ts[j]) && rs[j] == Image(Current().Maps(), ts[j])
        {
          ImageGrows(before.Maps(), Current().Maps(), ts[j]);
        }
        rs := rs + [r];
        i := i + 1;
      }
      ImageAllPointwise(Current().Maps(), ts, rs);
    }

    method InstantiateFunction(callee: nat, arguments: seq<Type>, depth: nat,
                               ghost ot: set<Type>, ghost of: set<nat>)
      returns (ok: bool, id: nat)
      requires Valid(source, Current(), ot, of)
      modifies this
      ensures ok ==> Valid(source, Current(), ot, of) && Grows(old(Current()), Current())
      ensures ok ==> Key(callee, arguments) in functionIds
                     && id == functionIds[Key(callee, arguments)]
      ensures (Can(old(Current()).Maps(), depth, 0)
               && Key(callee, arguments) in goal.keys.functions) ==> ok && Inside()
      decreases depth, 0
    {
      hide Valid, Grows, Imaged, ImagedAll, Image, ImageAll, Covered, Rewrite, Feasible, Within,
        HeightAll, Height, Demands, Substitute, SubstituteAll, CoveredFunction, At, Indexed,
        FunctionInstance;
      var key := Key(callee, arguments);
      ghost var can := Can(Current().Maps(), depth, 0) && key in goal.keys.functions;
      if can {
        FeasibleIsWithin(source, goal, Current().Maps(), depth, 0);
      }
      if key in functionIds {
        GrowsReflexive(Current());
        return true, functionIds[key];
      }
      if can {
        ReserveFunctionFeasible(source, goal, Current().Maps(), depth, 0, key, |functions|);
      }
      if |functionIds| >= FUNCTION_LIMIT || depth == 0 || callee >= |source.functions| {
        return false, 0;
      }
      id := |functions|;
      ghost var before := Current();
      ReserveFunctionValid(source, before, key, ot, of);
      functionIds, functions, functionKeys :=
        functionIds[key := id], functions + [None], functionKeys + [key];
      ghost var reserved := Current();
      assert reserved == ReserveFunction(before, key);
      assert can ==> Can(reserved.Maps(), depth - 1, goal.height);
      hide ReserveFunction;
      var function_ := source.functions[callee];
      var returnType, types;
      ok, returnType, types := InstantiateTypesOf(function_, arguments, depth - 1, ot,
                                                       of + {id});
      if !ok {
        return false, 0;
      }
      ghost var typed := Current();
      if can {
        FeasibleGrows(source, goal, reserved, typed, depth - 1, goal.height, goal.height);
      }
      var body;
      ok, body := RewriteExpression(function_.body, arguments, depth - 1, ot, of + {id});
      if !ok {
        return false, 0;
      }
      ghost var filled := Current();
      CloseFunction(source, before, typed, filled, key, returnType, types, body, ot, of);
      functions := functions[id := Some(FirFunction(types, returnType, body))];
    }

    /** What a function returns, and then the types of its locals and expressions. */
    method InstantiateTypesOf(f: FirFunction, arguments: seq<Type>, depth: nat,
                              ghost ot: set<Type>, ghost of: set<nat>)
      returns (ok: bool, returnType: Type, types: seq<Type>)
      requires Valid(source, Current(), ot, of)
      modifies this
      ensures ok ==> Valid(source, Current(), ot, of) && Grows(old(Current()), Current())
      ensures ok ==> Imaged(Current().Maps(), Substitute(f.returnType, arguments))
                     && returnType == Image(Current().Maps(), Substitute(f.returnType, arguments))
      ensures ok ==>
                ImagedAll(Current().Maps(), SubstituteAll(f.types, arguments))
                && types == ImageAll(Current().Maps(), SubstituteAll(f.types, arguments))
      ensures (Can(old(Current()).Maps(), depth, goal.height)
               && DemandsFunction(goal, f, arguments)) ==> ok && Inside()
      decreases depth, 2
    {
      hide Valid, Grows, Imaged, ImagedAll, Image, ImageAll, Feasible, Within, HeightAll, Height,
        Demands, Substitute, SubstituteAll, At, Indexed;
      types := [];
      ghost var start := Current();
      ghost var can := Can(start.Maps(), depth, goal.height)
                       && DemandsFunction(goal, f, arguments);
      if can {
        FeasibleLower(source, goal, start.Maps(), depth, goal.height,
                      Height(Substitute(f.returnType, arguments)));
      }
      ok, returnType := InstantiateType(Substitute(f.returnType, arguments), depth, ot, of);
      if ok {
        ghost var returned := Current();
        if can {
          FeasibleGrows(source, goal, start, returned, depth, goal.height,
                        HeightAll(SubstituteAll(f.types, arguments)));
        }
        ok, types := InstantiateTypes(SubstituteAll(f.types, arguments), depth, ot, of);
        if ok {
          GrowsThrough(start, returned, Current());
          ImageGrows(returned.Maps(), Current().Maps(), Substitute(f.returnType, arguments));
        }
      }
    }

    method RewriteExpression(e: Expression, env: seq<Type>, depth: nat,
                             ghost ot: set<Type>, ghost of: set<nat>)
      returns (ok: bool, r: Expression)
      requires Valid(source, Current(), ot, of)
      modifies this
      ensures ok ==> Valid(source, Current(), ot, of) && Grows(old(Current()), Current())
      ensures ok ==> Covered(Current().Maps(), e, env) && r == Rewrite(Current().Maps(), e, env)
      ensures Can(old(Current()).Maps(), depth, goal.height) && Demands(goal, e, env) ==>
                ok && Inside()
      decreases depth, 2, e
    {
      hide Valid, Grows, Imaged, ImagedAll, Image, ImageAll, Feasible, Within, Demands, DemandsAll;
      ok, r := true, e;
      ghost var start := Current();
      ghost var can := Can(start.Maps(), depth, goal.height) && Demands(goal, e, env);
      if can {
        DemandsInside(goal, e, env);
        FeasibleIsWithin(source, goal, start.Maps(), depth, goal.height);
      }
      GrowsReflexive(start);
      match e
      case Constant(_) =>
      case Local(_) =>
      case Describe(_, _) =>
        ok, r := RewriteTyped(e, env, depth, ot, of);
      case Construct(_, _, _) =>
        ok, r := RewriteTyped(e, env, depth, ot, of);
      case Match(_, _, _) =>
        ok, r := RewriteTyped(e, env, depth, ot, of);
      case Add(left, right) =>
        var x, y;
        ok, x, y := RewritePair(left, right, e, env, depth, ot, of);
        r := Add(x, y);
      case If(condition, left, right) =>
        var c, x, y;
        ok, c := RewriteExpression(condition, env, depth, ot, of);
        if ok {
          ghost var tested := Current();
          if can {
            FeasibleGrows(source, goal, start, tested, depth, goal.height, goal.height);
          }
          ok, x, y := RewritePair(left, right, e, env, depth, ot, of);
          r := If(c, x, y);
          if ok {
            GrowsThrough(start, tested, Current());
            RewriteGrows(tested.Maps(), Current().Maps(), condition, env);
          }
        }
      case Call(callee, typeArguments, operands) =>
        var parts, id;
        ok, parts, id := RewriteOperands(operands, callee, SubstituteAll(typeArguments, env), e,
                                         env, depth, ot, of);
        r := Call(id, [], parts);
      case FunctionValue(callee, typeArguments) =>
        if can {
          FeasibleLower(source, goal, start.Maps(), depth, goal.height, 0);
        }
        var id;
        ok, id := InstantiateFunction(callee, SubstituteAll(typeArguments, env), depth, ot, of);
        r := FunctionValue(id, []);
      case Closure(callee, operands) =>
        var parts, id;
        ok, parts, id := RewriteOperands(operands, callee, env, e, env, depth, ot, of);
        r := Closure(id, parts);
      case Invoke(target, operands) =>
        var callee, parts;
        ok, callee, parts := RewriteApplied(target, operands, e, env, depth, ot, of);
        r := Invoke(callee, parts);
    }

    /** Rewrites an expression that names a type: the type first, then the parts. */
    method RewriteTyped(e: Expression, env: seq<Type>, depth: nat,
                        ghost ot: set<Type>, ghost of: set<nat>)
      returns (ok: bool, r: Expression)
      requires Valid(source, Current(), ot, of)
      requires e.Describe? || e.Construct? || e.Match?
      modifies this
      ensures ok ==> Valid(source, Current(), ot, of) && Grows(old(Current()), Current())
      ensures ok ==> Covered(Current().Maps(), e, env) && r == Rewrite(Current().Maps(), e, env)
      ensures Can(old(Current()).Maps(), depth, goal.height) && Demands(goal, e, env) ==>
                ok && Inside()
      decreases depth, 2, e, 1
    {
      hide Valid, Grows, Imaged, ImagedAll, Image, ImageAll, CoveredAll, RewriteAll, Feasible,
        Within, Demands, DemandsAll, Height;
      r := e;
      ghost var start := Current();
      ghost var can := Can(start.Maps(), depth, goal.height) && Demands(goal, e, env);
      if can {
        DemandsInside(goal, e, env);
        FeasibleLower(source, goal, start.Maps(), depth, goal.height,
                      Height(Substitute(e.t, env)));
      }
      var image;
      ok, image := InstantiateType(Substitute(e.t, env), depth, ot, of);
      if ok {
        ghost var typed := Current();
        if can {
          FeasibleGrows(source, goal, start, typed, depth, goal.height, goal.height);
        }
        if e.Describe? {
          r := Describe(image, e.depth);
          GrowsReflexive(typed);
        } else if e.Construct? {
          var parts;
          ok, parts := RewriteExpressions(e.operands, env, depth, ot, of);
          r := Construct(image, e.variant, parts);
        } else {
          var value, arms;
          ok, value, arms := RewriteApplied(e.scrutinee, e.arms, e, env, depth, ot, of);
          r := Match(image, value, arms);
        }
        if ok {
          GrowsThrough(start, typed, Current());
          ImageGrows(typed.Maps(), Current().Maps(), Substitute(e.t, env));
        }
      }
    }

    /** Rewrites an expression and what goes with it: operands, or the arms of a match. */
    method RewriteApplied(target: Expression, operands: seq<Expression>, ghost parent: Expression,
                          env: seq<Type>, depth: nat, ghost ot: set<Type>, ghost of: set<nat>)
      returns (ok: bool, callee: Expression, parts: seq<Expression>)
      requires Valid(source, Current(), ot, of)
      requires (parent.Invoke? && target == parent.target && operands == parent.operands)
               || (parent.Match? && target == parent.scrutinee && operands == parent.arms)
      modifies this
      ensures ok ==> Valid(source, Current(), ot, of) && Grows(old(Current()), Current())
      ensures ok ==> Covered(Current().Maps(), target, env)
                     && callee == Rewrite(Current().Maps(), target, env)
      ensures ok ==> CoveredAll(Current().Maps(), operands, env)
                     && parts == RewriteAll(Current().Maps(), operands, env)
      ensures (Can(old(Current()).Maps(), depth, goal.height)
               && Demands(goal, target, env) && DemandsAll(goal, operands, env)) ==> ok && Inside()
      decreases depth, 2, parent, 0
    {
      hide TypeFilled, FunctionFilled, Valid, Grows, Covered, Rewrite, CoveredAll, RewriteAll,
        Feasible, Within, Demands, DemandsAll;
      parts := [];
      ghost var start := Current();
      ghost var can := Can(start.Maps(), depth, goal.height) && Demands(goal, target, env)
                       && DemandsAll(goal, operands, env);
      ok, callee := RewriteExpression(target, env, depth, ot, of);
      if ok {
        ghost var targeted := Current();
        if can {
          FeasibleGrows(source, goal, start, targeted, depth, goal.height, goal.height);
        }
        ok, parts := RewriteExpressions(operands, env, depth, ot, of);
        if ok {
          GrowsThrough(start, targeted, Current());
          RewriteGrows(targeted.Maps(), Current().Maps(), target, env);
        }
      }
    }

    /** Rewrites the operands, then instantiates the callee they go to. */
    method RewriteOperands(operands: seq<Expression>, callee: nat, arguments: seq<Type>,
                           ghost parent: Expression, env: seq<Type>, depth: nat,
                           ghost ot: set<Type>, ghost of: set<nat>)
      returns (ok: bool, parts: seq<Expression>, id: nat)
      requires Valid(source, Current(), ot, of)
      requires (parent.Call? || parent.Closure?) && operands == parent.operands
      modifies this
      ensures ok ==> Valid(source, Current(), ot, of) && Grows(old(Current()), Current())
      ensures ok ==> CoveredAll(Current().Maps(), operands, env)
                     && parts == RewriteAll(Current().Maps(), operands, env)
      ensures ok ==> Key(callee, arguments) in functionIds
                     && id == functionIds[Key(callee, arguments)]
      ensures (Can(old(Current()).Maps(), depth, goal.height) && DemandsAll(goal, operands, env)
               && Key(callee, arguments) in goal.keys.functions) ==> ok && Inside()
      decreases depth, 2, parent, 0
    {
      hide TypeFilled, FunctionFilled, Valid, Grows, CoveredAll, RewriteAll, Feasible, Within,
        DemandsAll;
      id := 0;
      ghost var start := Current();
      ghost var can := Can(start.Maps(), depth, goal.height) && DemandsAll(goal, operands, env)
                       && Key(callee, arguments) in goal.keys.functions;
      ok, parts := RewriteExpressions(operands, env, depth, ot, of);
      if ok {
        ghost var rewritten := Current();
        if can {
          FeasibleGrows(source, goal, start, rewritten, depth, goal.height, 0);
        }
        ok, id := InstantiateFunction(callee, arguments, depth, ot, of);
        if ok {
          GrowsThrough(start, rewritten, Current());
          RewriteAllGrows(rewritten.Maps(), Current().Maps(), operands, env);
        }
      }
    }

    method RewritePair(left: Expression, right: Expression, ghost parent: Expression,
                       env: seq<Type>, depth: nat, ghost ot: set<Type>, ghost of: set<nat>)
      returns (ok: bool, x: Expression, y: Expression)
      requires Valid(source, Current(), ot, of) && left < parent && right < parent
      modifies this
      ensures ok ==> Valid(source, Current(), ot, of) && Grows(old(Current()), Current())
      ensures ok ==> Covered(Current().Maps(), left, env)
                     && x == Rewrite(Current().Maps(), left, env)
      ensures ok ==> Covered(Current().Maps(), right, env)
                     && y == Rewrite(Current().Maps(), right, env)
      ensures (Can(old(Current()).Maps(), depth, goal.height)
               && Demands(goal, left, env) && Demands(goal, right, env)) ==> ok && Inside()
      decreases depth, 2, parent, 0
    {
      hide TypeFilled, FunctionFilled, Valid, Grows, Covered, Rewrite, Feasible, Within, Demands;
      ghost var start := Current();
      ghost var can := Can(start.Maps(), depth, goal.height) && Demands(goal, left, env)
                       && Demands(goal, right, env);
      y := right;
      ok, x := RewriteExpression(left, env, depth, ot, of);
      if ok {
        ghost var before := Current();
        if can {
          FeasibleGrows(source, goal, start, before, depth, goal.height, goal.height);
        }
        ok, y := RewriteExpression(right, env, depth, ot, of);
        if ok {
          GrowsThrough(start, before, Current());
          RewriteGrows(before.Maps(), Current().Maps(), left, env);
        }
      }
    }

    method RewriteExpressions(es: seq<Expression>, env: seq<Type>, depth: nat,
                              ghost ot: set<Type>, ghost of: set<nat>)
      returns (ok: bool, rs: seq<Expression>)
      requires Valid(source, Current(), ot, of)
      modifies this
      ensures ok ==> Valid(source, Current(), ot, of) && Grows(old(Current()), Current())
      ensures ok ==> CoveredAll(Current().Maps(), es, env)
                     && rs == RewriteAll(Current().Maps(), es, env)
      ensures Can(old(Current()).Maps(), depth, goal.height) && DemandsAll(goal, es, env) ==>
                ok && Inside()
      decreases depth, 2, es
    {
      hide TypeFilled, FunctionFilled, Valid, Grows, Covered, CoveredAll, Rewrite, RewriteAll,
        Feasible, Within, Demands, DemandsAll;
      ok, rs := true, [];
      ghost var start := Current();
      ghost var can := Can(start.Maps(), depth, goal.height) && DemandsAll(goal, es, env);
      if can {
        FeasibleIsWithin(source, goal, start.Maps(), depth, goal.height);
      }
      GrowsReflexive(start);
      var i := 0;
      while i < |es|
        invariant 0 <= i <= |es| == |rs| + (|es| - i)
        invariant Valid(source, Current(), ot, of) && Grows(old(Current()), Current())
        invariant forall j :: 0 <= j < i ==>
                    Covered(Current().Maps(), es[j], env)
                    && rs[j] == Rewrite(Current().Maps(), es[j], env)
        invariant can ==> Inside()
      {
        ghost var before := Current();
        if can {
          DemandsPart(goal, es, env, i);
          FeasibleGrows(source, goal, start, before, depth, goal.height, goal.height);
        }
        var r;
        ok, r := RewriteExpression(es[i], env, depth, ot, of);
        if !ok {
          return false, [];
        }
        GrowsThrough(start, before, Current());
        forall j | 0 <= j < i
          ensures Covered(Current().Maps(), es[j], env)
                  && rs[j] == Rewrite(Current().Maps(), es[j], env)
        {
          RewriteGrows(before.Maps(), Current().Maps(), es[j], env);
        }
        rs := rs + [r];
        i := i + 1;
      }
      RewriteAllPointwise(Current().Maps(), es, env, rs);
    }

    /**
      Instantiates the entry point and every exported function, all without type arguments. What
      it ends with is closed, and with enough depth it succeeds whenever anything closed holds
      these: it then has the least set of instances that does.
     */
    method Run(main: nat, exported: seq<nat>, depth: nat) returns (ok: bool, entry: nat)
      requires Complete(source, Current())
      modifies this
      ensures ok ==> Complete(source, Current())
      ensures ok ==> Key(main, []) in functionIds && entry == functionIds[Key(main, [])]
      ensures ok ==> forall i :: 0 <= i < |exported| ==> Key(exported[i], []) in functionIds
      ensures ok ==> ClosedKeys(source, Current().Maps())
      ensures (Can(old(Current()).Maps(), depth, 0) && Key(main, []) in goal.keys.functions
               && forall i :: 0 <= i < |exported| ==> Key(exported[i], []) in goal.keys.functions)
              ==> ok && Inside()
    {
      hide Valid, Grows, Feasible, Within, ClosedKeys;
      ghost var start := Current();
      ghost var can := Can(start.Maps(), depth, 0) && Key(main, []) in goal.keys.functions
                       && forall i :: 0 <= i < |exported| ==>
                            Key(exported[i], []) in goal.keys.functions;
      ok, entry := InstantiateFunction(main, [], depth, {}, {});
      var i := 0;
      while ok && i < |exported|
        invariant 0 <= i <= |exported|
        invariant ok ==> Valid(source, Current(), {}, {}) && Grows(start, Current())
        invariant can ==> ok && Inside()
        invariant ok ==> Key(main, []) in functionIds && entry == functionIds[Key(main, [])]
        invariant ok ==> forall j :: 0 <= j < i ==> Key(exported[j], []) in functionIds
        decreases |exported| - i
      {
        ghost var before := Current();
        if can {
          FeasibleGrows(source, goal, start, before, depth, 0, 0);
        }
        var id;
        ok, id := InstantiateFunction(exported[i], [], depth, {}, {});
        if ok {
          GrowsThrough(start, before, Current());
        }
        i := i + 1;
      }
      if ok {
        CompleteIsClosed(source, Current());
      }
    }
  }

  /** A finished instantiation holds whatever its instances ask for. */
  lemma CompleteIsClosed(src: Source, st: State)
    requires Complete(src, st)
    ensures ClosedKeys(src, st.Maps())
  {
    hide CoveredDeclaration, DeclarationInstance, CoveredFunction, FunctionInstance, At;
    forall t | t in st.ids
      ensures DeclarationOf(src, t).Some?
              && CoveredDeclaration(st.Maps(), DeclarationOf(src, t).value, t.arguments)
    {
      assert TypeFilled(src, st, t);
    }
    forall k | k in st.functionIds
      ensures k.callee < |src.functions|
              && CoveredFunction(st.Maps(), src.functions[k.callee], k.arguments)
    {
      assert FunctionFilled(src, st, st.functionIds[k]);
    }
  }

  lemma {:induction false} TypesBounded(src: Source, keys: Tables, ts: set<Type>)
    returns (height: nat)
    requires ClosedKeys(src, keys) && ts <= keys.types.Keys
    ensures forall t | t in ts ::
              DeclarationHeight(DeclarationOf(src, t).value, t.arguments) <= height
  {
    hide CoveredDeclaration, CoveredFunction, DeclarationHeight;
    height := 0;
    if ts != {} {
      var t :| t in ts;
      height := TypesBounded(src, keys, ts - {t});
      height := Max(height, DeclarationHeight(DeclarationOf(src, t).value, t.arguments));
    }
  }

  lemma {:induction false} FunctionsBounded(src: Source, keys: Tables, ks: set<Key>)
    returns (height: nat)
    requires ClosedKeys(src, keys) && ks <= keys.functions.Keys
    ensures forall k | k in ks :: FunctionHeight(src.functions[k.callee], k.arguments) <= height
  {
    hide CoveredDeclaration, CoveredFunction, FunctionHeight;
    height := 0;
    if ks != {} {
      var k :| k in ks;
      height := FunctionsBounded(src, keys, ks - {k});
      height := Max(height, FunctionHeight(src.functions[k.callee], k.arguments));
    }
  }

  /** For anything closed some depth suffices, from the empty maps on. */
  lemma EnoughDepth(src: Source, keys: Tables) returns (height: nat, depth: nat)
    requires ClosedKeys(src, keys)
    ensures forall more: nat | more >= depth ::
              Feasible(src, Domain(keys, height), Tables(map[], map[]), more, 0)
  {
    hide CoveredDeclaration, CoveredFunction, FunctionHeight, DeclarationHeight, Room, Remaining;
    var x := TypesBounded(src, keys, keys.types.Keys);
    var y := FunctionsBounded(src, keys, keys.functions.Keys);
    height := Max(x, y);
    depth := 1 + Room(Remaining(keys, Tables(map[], map[])), height);
  }

  // ---------- no type parameter survives ----------

  predicate Closed(t: Type)
    decreases t
  {
    && !IsUnresolved(t)
    && (t.kind == Function || IsWrapper(t) ==> AllClosed(t.arguments))
    && (IsDeclared(t) ==> t.arguments == [])
  }

  predicate AllClosed(ts: seq<Type>)
    decreases ts
  {
    ts != [] ==> Closed(ts[0]) && AllClosed(ts[1..])
  }

  lemma {:induction false} ImageIsClosed(tb: Tables, t: Type)
    requires Imaged(tb, t)
    ensures Closed(Image(tb, t))
    decreases t
  {
    if t.kind == Function || IsWrapper(t) {
      ImagesAreClosed(tb, t.arguments);
    }
  }

  lemma {:induction false} ImagesAreClosed(tb: Tables, ts: seq<Type>)
    requires ImagedAll(tb, ts)
    ensures AllClosed(ImageAll(tb, ts))
    decreases ts
  {
    if ts != [] {
      ImageIsClosed(tb, ts[0]);
      ImagesAreClosed(tb, ts[1..]);
    }
  }

  predicate PayloadsClosed(payloads: seq<Option<Type>>) {
    forall i :: 0 <= i < |payloads| && payloads[i].Some? ==> Closed(payloads[i].value)
  }

  predicate DeclarationClosed(d: Declaration) {
    match d
    case FirStruct(_, fields, _) => AllClosed(fields)
    case FirEnum(_, _, payloads) => PayloadsClosed(payloads)
  }

  lemma {:induction false} PayloadImagesAreClosed(tb: Tables, payloads: seq<Option<Type>>)
    requires PayloadsImaged(tb, payloads)
    ensures PayloadsClosed(PayloadImages(tb, payloads))
  {
    hide Closed;
    if payloads != [] {
      if payloads[0].Some? {
        ImageIsClosed(tb, payloads[0].value);
      }
      PayloadImagesAreClosed(tb, payloads[1..]);
    }
  }

  lemma InstanceIsClosed(tb: Tables, d: Declaration, env: seq<Type>)
    requires CoveredDeclaration(tb, d, env)
    ensures DeclarationClosed(DeclarationInstance(tb, d, env))
  {
    match d
    case FirStruct(_, fields, _) => ImagesAreClosed(tb, SubstituteAll(fields, env));
    case FirEnum(_, builtin, payloads) =>
      PayloadImagesAreClosed(tb, SubstitutePayloads(builtin, payloads, env));
  }

  /** A rewritten body mentions closed types, and calls instances without type arguments. */
  predicate Specialized(e: Expression)
    decreases e
  {
    match e
    case Constant(_) => true
    case Local(_) => true
    case Describe(t, _) => Closed(t)
    case Construct(t, _, operands) => Closed(t) && AllSpecialized(operands)
    case Add(left, right) => Specialized(left) && Specialized(right)
    case If(condition, left, right) =>
      Specialized(condition) && Specialized(left) && Specialized(right)
    case Call(_, typeArguments, operands) => typeArguments == [] && AllSpecialized(operands)
    case FunctionValue(_, typeArguments) => typeArguments == []
    case Closure(_, operands) => AllSpecialized(operands)
    case Invoke(target, operands) => Specialized(target) && AllSpecialized(operands)
    case Match(t, scrutinee, arms) => Closed(t) && Specialized(scrutinee) && AllSpecialized(arms)
  }

  predicate AllSpecialized(es: seq<Expression>)
    decreases es
  {
    es != [] ==> Specialized(es[0]) && AllSpecialized(es[1..])
  }

  lemma {:induction false} RewriteSpecializes(tb: Tables, e: Expression, env: seq<Type>)
    requires Covered(tb, e, env)
    ensures Specialized(Rewrite(tb, e, env))
    decreases e
  {
    hide Closed, Imaged, Image;
    match e
    case Constant(_) =>
    case Local(_) =>
    case Describe(t, _) => ImageIsClosed(tb, Substitute(t, env));
    case Construct(t, _, operands) =>
      ImageIsClosed(tb, Substitute(t, env));
      RewritesSpecialize(tb, operands, env);
    case Add(left, right) =>
      RewriteSpecializes(tb, left, env);
      RewriteSpecializes(tb, right, env);
    case If(condition, left, right) =>
      RewriteSpecializes(tb, condition, env);
      RewriteSpecializes(tb, left, env);
      RewriteSpecializes(tb, right, env);
    case Call(_, _, operands) => RewritesSpecialize(tb, operands, env);
    case FunctionValue(_, _) =>
    case Closure(_, operands) => RewritesSpecialize(tb, operands, env);
    case Invoke(target, operands) =>
      RewriteSpecializes(tb, target, env);
      RewritesSpecialize(tb, operands, env);
    case Match(t, scrutinee, arms) =>
      ImageIsClosed(tb, Substitute(t, env));
      RewriteSpecializes(tb, scrutinee, env);
      RewritesSpecialize(tb, arms, env);
  }

  lemma {:induction false} RewritesSpecialize(tb: Tables, es: seq<Expression>, env: seq<Type>)
    requires CoveredAll(tb, es, env)
    ensures AllSpecialized(RewriteAll(tb, es, env))
    decreases es
  {
    if es != [] {
      RewriteSpecializes(tb, es[0], env);
      RewritesSpecialize(tb, es[1..], env);
    }
  }

  lemma SlotIsClosed(src: Source, st: State, kind: Kind, id: nat)
    requires Complete(src, st) && kind in {Struct, Enum} && id < |st.Of(kind).slots|
    ensures At(st, kind, id).Some? && DeclarationClosed(At(st, kind, id).value)
  {
    hide DeclarationClosed, CoveredDeclaration, DeclarationInstance, FunctionFilled;
    var t := st.Of(kind).keys[id];
    assert t in st.ids && TypeFilled(src, st, t);
    InstanceIsClosed(st.Maps(), DeclarationOf(src, t).value, t.arguments);
  }

  /** In a finished instantiation every slot is filled and free of type parameters. */
  lemma EverySlotIsSpecialized(src: Source, st: State)
    requires Complete(src, st)
    ensures forall kind, id: nat | kind in {Struct, Enum} && id < |st.Of(kind).slots| ::
              At(st, kind, id).Some? && DeclarationClosed(At(st, kind, id).value)
    ensures forall i :: 0 <= i < |st.functions| ==>
              st.functions[i].Some? && Closed(st.functions[i].value.returnType)
              && AllClosed(st.functions[i].value.types)
              && Specialized(st.functions[i].value.body)
  {
    forall kind, id: nat | kind in {Struct, Enum} && id < |st.Of(kind).slots|
      ensures At(st, kind, id).Some? && DeclarationClosed(At(st, kind, id).value)
    {
      SlotIsClosed(src, st, kind, id);
    }
    forall i | 0 <= i < |st.functions|
      ensures st.functions[i].Some? && Closed(st.functions[i].value.returnType)
              && AllClosed(st.functions[i].value.types)
              && Specialized(st.functions[i].value.body)
    {
      assert FunctionFilled(src, st, i);
      var k := st.functionKeys[i];
      var f := src.functions[k.callee];
      ImageIsClosed(st.Maps(), Substitute(f.returnType, k.arguments));
      ImagesAreClosed(st.Maps(), SubstituteAll(f.types, k.arguments));
      RewriteSpecializes(st.Maps(), f.body, k.arguments);
    }
  }

  // ---------- meaning ----------

  /** What a type-dependent operation can see of a type, to a given depth. */
  datatype Shape = Cut | Node(kind: Kind, tag: nat, parts: seq<Shape>)

  function SourceShape(src: Source, t: Type, depth: nat): Shape
    decreases depth, 0
  {
    if depth == 0 then Cut
    else if IsDeclared(t) then
      match DeclarationOf(src, t)
      case None => Cut
      case Some(FirStruct(name, fields, _)) =>
        Node(Struct, name, SourceShapes(src, SubstituteAll(fields, t.arguments), depth - 1))
      case Some(FirEnum(name, _, payloads)) =>
        Node(Enum, name,
             SourcePayloadShapes(src, SubstitutePayloads(false, payloads, t.arguments), depth - 1))
    else if t.kind == Function then
      Node(Function, if IsCFunction(t) then C_FUNCTION_QUALIFIER else 0,
           SourceShapes(src, t.arguments, depth - 1))
    else if IsWrapper(t) then
      Node(t.kind, t.declaration, SourceShapes(src, t.arguments, depth - 1))
    else Node(t.kind, t.declaration, [])
  }

  function SourceShapes(src: Source, ts: seq<Type>, depth: nat): seq<Shape>
    decreases depth, 1, |ts|
  {
    if ts == [] then []
    else [SourceShape(src, ts[0], depth)] + SourceShapes(src, ts[1..], depth)
  }

  /** No payload carries as much data as `void` does. */
  function NoPayload(depth: nat): Shape {
    if depth == 0 then Cut else Node(Void, 0, [])
  }

  function SourcePayloadShapes(src: Source, payloads: seq<Option<Type>>, depth: nat): seq<Shape>
    decreases depth, 1, |payloads|
  {
    if payloads == [] then []
    else
      [if payloads[0].None? then NoPayload(depth) else SourceShape(src, payloads[0].value, depth)]
      + SourcePayloadShapes(src, payloads[1..], depth)
  }

  function TargetShape(st: State, t: Type, depth: nat): Shape
    decreases depth, 0
  {
    if depth == 0 then Cut
    else if IsDeclared(t) then
      match At(st, t.kind, t.declaration)
      case None => Cut
      case Some(FirStruct(name, fields, _)) =>
        Node(Struct, name, TargetShapes(st, fields, depth - 1))
      case Some(FirEnum(name, _, payloads)) =>
        Node(Enum, name, TargetPayloadShapes(st, payloads, depth - 1))
    else if t.kind == Function then
      Node(Function, if IsCFunction(t) then C_FUNCTION_QUALIFIER else 0,
           TargetShapes(st, t.arguments, depth - 1))
    else if IsWrapper(t) then
      Node(t.kind, t.declaration, TargetShapes(st, t.arguments, depth - 1))
    else Node(t.kind, t.declaration, [])
  }

  function TargetShapes(st: State, ts: seq<Type>, depth: nat): seq<Shape>
    decreases depth, 1, |ts|
  {
    if ts == [] then []
    else [TargetShape(st, ts[0], depth)] + TargetShapes(st, ts[1..], depth)
  }

  function TargetPayloadShapes(st: State, payloads: seq<Option<Type>>, depth: nat): seq<Shape>
    decreases depth, 1, |payloads|
  {
    if payloads == [] then []
    else
      [if payloads[0].None? then NoPayload(depth) else TargetShape(st, payloads[0].value, depth)]
      + TargetPayloadShapes(st, payloads[1..], depth)
  }

  lemma TypeIsFilled(src: Source, st: State, t: Type)
    requires Complete(src, st) && t in st.ids
    ensures TypeFilled(src, st, t)
  {
    hide TypeFilled, FunctionFilled, At, Indexed;
  }

  lemma FunctionIsFilled(src: Source, st: State, k: Key)
    requires Complete(src, st) && k in st.functionIds
    ensures var id := st.functionIds[k];
            id < |st.functions| && id < |st.functionKeys| && st.functionKeys[id] == k
            && st.functions[id].Some? && FunctionFilled(src, st, id)
  {
    hide TypeFilled, FunctionFilled;
    ValidIsIndexed(src, st, {}, {});
  }

  /** An instantiated type looks like its source type to every depth, recursive types included. */
  lemma {:induction false} ShapePreserved(src: Source, st: State, t: Type, depth: nat)
    requires Complete(src, st) && Imaged(st.Maps(), t)
    ensures TargetShape(st, Image(st.Maps(), t), depth) == SourceShape(src, t, depth)
    decreases depth, 0
  {
    hide Complete, SubstituteAll;
    if depth > 0 {
      if IsDeclared(t) {
        DeclaredShapePreserved(src, st, t, depth);
      } else if t.kind == Function || IsWrapper(t) {
        ShapesPreserved(src, st, t.arguments, depth - 1);
      }
    }
  }

  lemma {:induction false} DeclaredShapePreserved(src: Source, st: State, t: Type, depth: nat)
    requires Complete(src, st) && t in st.ids && IsDeclared(t) && depth > 0
    ensures TargetShape(st, Type(t.kind, st.ids[t], []), depth) == SourceShape(src, t, depth)
    decreases depth, 0, 0
  {
    hide Complete, SubstituteAll, SubstitutePayloads, At, DeclarationOf, Imaged;
    TypeIsFilled(src, st, t);
    match DeclarationOf(src, t).value
    case FirStruct(_, fields, _) =>
      ShapesPreserved(src, st, SubstituteAll(fields, t.arguments), depth - 1);
    case FirEnum(_, builtin, payloads) =>
      PayloadShapesPreserved(src, st, builtin, payloads, t.arguments, depth - 1);
  }

  lemma {:induction false} ShapesPreserved(src: Source, st: State, ts: seq<Type>, depth: nat)
    requires Complete(src, st) && ImagedAll(st.Maps(), ts)
    ensures TargetShapes(st, ImageAll(st.Maps(), ts), depth) == SourceShapes(src, ts, depth)
    decreases depth, 1, |ts|
  {
    hide Complete, Imaged, Image;
    if ts != [] {
      ShapePreserved(src, st, ts[0], depth);
      ShapesPreserved(src, st, ts[1..], depth);
    }
  }

  /** Leaving out a `void` payload changes nothing that can be seen of an enum. */
  lemma {:induction false} PayloadShapesPreserved(src: Source, st: State, builtin: bool,
                                                  payloads: seq<Option<Type>>, env: seq<Type>,
                                                  depth: nat)
    requires Complete(src, st)
    requires PayloadsImaged(st.Maps(), SubstitutePayloads(builtin, payloads, env))
    ensures var declared := SubstitutePayloads(builtin, payloads, env);
            TargetPayloadShapes(st, PayloadImages(st.Maps(), declared), depth)
            == SourcePayloadShapes(src, SubstitutePayloads(false, payloads, env), depth)
    decreases depth, 1, |payloads|
  {
    hide Complete, Imaged, Image;
    if payloads != [] {
      if payloads[0].Some? && !(builtin && Substitute(payloads[0].value, env) == VOID) {
        ShapePreserved(src, st, Substitute(payloads[0].value, env), depth);
      }
      PayloadShapesPreserved(src, st, builtin, payloads[1..], env, depth);
    }
  }

  /** How many variants a declaration has: those a match over it may meet. */
  function VariantCount(d: Option<Declaration>): nat {
    if d.Some? && d.value.FirEnum? then |d.value.payloads| else 0
  }

  lemma {:induction false} PayloadImageAt(tb: Tables, payloads: seq<Option<Type>>, i: nat)
    requires PayloadsImaged(tb, payloads) && i < |payloads|
    ensures IsPayloadImage(tb, payloads[i], PayloadImages(tb, payloads)[i])
  {
    hide Imaged, Image;
    if i > 0 {
      PayloadImageAt(tb, payloads[1..], i - 1);
    }
  }

  /** A variant loses its payload exactly when its enum is builtin and the payload is `void`. */
  lemma PayloadKeptIff(src: Source, st: State, t: Type, i: nat)
    requires Complete(src, st) && t in st.ids && t.kind == Enum
    requires i < VariantCount(DeclarationOf(src, t))
    ensures var declared, made := DeclarationOf(src, t).value, At(st, Enum, st.ids[t]);
            && made.Some? && made.value.FirEnum? && made.value.name == declared.name
            && |made.value.payloads| == |declared.payloads|
            && (made.value.payloads[i].Some? <==>
                  declared.payloads[i].Some?
                  && !(declared.builtin
                       && Substitute(declared.payloads[i].value, t.arguments) == VOID))
  {
    hide Complete, Imaged, Image, At;
    TypeIsFilled(src, st, t);
    var d := DeclarationOf(src, t).value;
    PayloadImageAt(st.Maps(), SubstitutePayloads(d.builtin, d.payloads, t.arguments), i);
  }

  datatype Value =
    | IntValue(number: int)
    | ShapeValue(shape: Shape)
    | Constructed(t: Type, variant: Option<nat>, fields: seq<Value>)
    | FunctionVal(callee: nat, arguments: seq<Type>, captures: seq<Value>)

  type Result = Option<Value>

  function AddValues(x: Value, y: Value): Result {
    if x.IntValue? && y.IntValue? then Some(IntValue(x.number + y.number)) else None
  }

  /** The arm of a match that a value selects. */
  function ArmOf(value: Value, variants: nat, arms: nat): Option<nat> {
    if value.Constructed? && value.variant.Some? && value.variant.value < variants
       && value.variant.value < arms then value.variant
    else None
  }

  /** Evaluation of a generic body under type arguments. `None` is a stuck or unfinished run. */
  function EvaluateSource(src: Source, fuel: nat, e: Expression, env: seq<Type>,
                          locals: seq<Value>): Result
    decreases fuel
  {
    if fuel == 0 then None
    else if e.Constant? then Some(IntValue(e.number))
    else if e.Local? then if e.index < |locals| then Some(locals[e.index]) else None
    else if e.Describe? then Some(ShapeValue(SourceShape(src, Substitute(e.t, env), e.depth)))
    else if e.Add? then
      var x := EvaluateSource(src, fuel - 1, e.left, env, locals);
      var y := EvaluateSource(src, fuel - 1, e.right, env, locals);
      if x.None? || y.None? then None else AddValues(x.value, y.value)
    else if e.If? then
      var c := EvaluateSource(src, fuel - 1, e.condition, env, locals);
      if c.None? then None
      else EvaluateSource(src, fuel - 1, if c.value == IntValue(0) then e.right else e.left,
                          env, locals)
    else if e.FunctionValue? then
      Some(FunctionVal(e.callee, SubstituteAll(e.typeArguments, env), []))
    else if e.Match? then
      var value := EvaluateSource(src, fuel - 1, e.scrutinee, env, locals);
      if value.None? then None
      else
        var variants := VariantCount(DeclarationOf(src, Substitute(e.t, env)));
        var arm := ArmOf(value.value, variants, |e.arms|);
        if arm.None? then None
        else EvaluateSource(src, fuel - 1, e.arms[arm.value], env, locals + value.value.fields)
    else
      var operands := EvaluateSources(src, fuel - 1, e.operands, env, locals);
      if operands.None? then None
      else if e.Construct? then
        Some(Constructed(Substitute(e.t, env), e.variant, operands.value))
      else if e.Closure? then Some(FunctionVal(e.callee, env, operands.value))
      else if e.Call? then
        CallSource(src, fuel - 1, Key(e.callee, SubstituteAll(e.typeArguments, env)),
                   operands.value)
      else
        var target := EvaluateSource(src, fuel - 1, e.target, env, locals);
        if target.None? || !target.value.FunctionVal? then None
        else CallSource(src, fuel - 1, Key(target.value.callee, target.value.arguments),
                        target.value.captures + operands.value)
  }

  function EvaluateSources(src: Source, fuel: nat, es: seq<Expression>, env: seq<Type>,
                           locals: seq<Value>): Option<seq<Value>>
    decreases fuel
  {
    if es == [] then Some([])
    else if fuel == 0 then None
    else
      var first := EvaluateSource(src, fuel - 1, es[0], env, locals);
      var rest := EvaluateSources(src, fuel - 1, es[1..], env, locals);
      if first.None? || rest.None? then None else Some([first.value] + rest.value)
  }

  function CallSource(src: Source, fuel: nat, k: Key, locals: seq<Value>): Result
    decreases fuel
  {
    if fuel == 0 || k.callee >= |src.functions| then None
    else EvaluateSource(src, fuel - 1, src.functions[k.callee].body, k.arguments, locals)
  }

  /** Evaluation of instantiated code: no type environment, ids instead of keys. */
  function EvaluateTarget(st: State, fuel: nat, e: Expression, locals: seq<Value>): Result
    decreases fuel
  {
    if fuel == 0 then None
    else if e.Constant? then Some(IntValue(e.number))
    else if e.Local? then if e.index < |locals| then Some(locals[e.index]) else None
    else if e.Describe? then Some(ShapeValue(TargetShape(st, e.t, e.depth)))
    else if e.Add? then
      var x := EvaluateTarget(st, fuel - 1, e.left, locals);
      var y := EvaluateTarget(st, fuel - 1, e.right, locals);
      if x.None? || y.None? then None else AddValues(x.value, y.value)
    else if e.If? then
      var c := EvaluateTarget(st, fuel - 1, e.condition, locals);
      if c.None? then None
      else EvaluateTarget(st, fuel - 1, if c.value == IntValue(0) then e.right else e.left, locals)
    else if e.FunctionValue? then Some(FunctionVal(e.callee, [], []))
    else if e.Match? then
      var value := EvaluateTarget(st, fuel - 1, e.scrutinee, locals);
      if value.None? then None
      else
        var arm := ArmOf(value.value, VariantCount(At(st, e.t.kind, e.t.declaration)), |e.arms|);
        if arm.None? then None
        else EvaluateTarget(st, fuel - 1, e.arms[arm.value], locals + value.value.fields)
    else
      var operands := EvaluateTargets(st, fuel - 1, e.operands, locals);
      if operands.None? then None
      else if e.Construct? then Some(Constructed(e.t, e.variant, operands.value))
      else if e.Closure? then Some(FunctionVal(e.callee, [], operands.value))
      else if e.Call? then CallTarget(st, fuel - 1, e.callee, operands.value)
      else
        var target := EvaluateTarget(st, fuel - 1, e.target, locals);
        if target.None? || !target.value.FunctionVal? then None
        else CallTarget(st, fuel - 1, target.value.callee,
                        target.value.captures + operands.value)
  }

  function EvaluateTargets(st: State, fuel: nat, es: seq<Expression>, locals: seq<Value>)
    : Option<seq<Value>>
    decreases fuel
  {
    if es == [] then Some([])
    else if fuel == 0 then None
    else
      var first := EvaluateTarget(st, fuel - 1, es[0], locals);
      var rest := EvaluateTargets(st, fuel - 1, es[1..], locals);
      if first.None? || rest.None? then None else Some([first.value] + rest.value)
  }

  function CallTarget(st: State, fuel: nat, id: nat, locals: seq<Value>): Result
    decreases fuel
  {
    if fuel == 0 || id >= |st.functions| || st.functions[id].None? then None
    else EvaluateTarget(st, fuel - 1, st.functions[id].value.body, locals)
  }

  // ---------- values correspond ----------

  predicate Encodable(tb: Tables, v: Value)
    decreases v
  {
    match v
    case IntValue(_) => true
    case ShapeValue(_) => true
    case Constructed(t, _, fields) => Imaged(tb, t) && AllEncodable(tb, fields)
    case FunctionVal(callee, arguments, captures) =>
      Key(callee, arguments) in tb.functions && AllEncodable(tb, captures)
  }

  predicate AllEncodable(tb: Tables, vs: seq<Value>)
    decreases vs
  {
    vs != [] ==> Encodable(tb, vs[0]) && AllEncodable(tb, vs[1..])
  }

  function Encode(tb: Tables, v: Value): Value
    requires Encodable(tb, v)
    decreases v
  {
    match v
    case IntValue(_) => v
    case ShapeValue(_) => v
    case Constructed(t, variant, fields) =>
      Constructed(Image(tb, t), variant, EncodeAll(tb, fields))
    case FunctionVal(callee, arguments, captures) =>
      FunctionVal(tb.functions[Key(callee, arguments)], [], EncodeAll(tb, captures))
  }

  function EncodeAll(tb: Tables, vs: seq<Value>): (r: seq<Value>)
    requires AllEncodable(tb, vs)
    ensures |r| == |vs|
    decreases vs
  {
    if vs == [] then [] else [Encode(tb, vs[0])] + EncodeAll(tb, vs[1..])
  }

  lemma {:induction false} EncodeAt(tb: Tables, vs: seq<Value>, i: nat)
    requires AllEncodable(tb, vs) && i < |vs|
    ensures Encodable(tb, vs[i]) && EncodeAll(tb, vs)[i] == Encode(tb, vs[i])
  {
    if i > 0 {
      EncodeAt(tb, vs[1..], i - 1);
    }
  }

  lemma {:induction false} EncodeAppend(tb: Tables, xs: seq<Value>, ys: seq<Value>)
    requires AllEncodable(tb, xs) && AllEncodable(tb, ys)
    ensures AllEncodable(tb, xs + ys)
    ensures EncodeAll(tb, xs + ys) == EncodeAll(tb, xs) + EncodeAll(tb, ys)
  {
    if xs == [] {
      assert xs + ys == ys;
    } else {
      EncodeAppend(tb, xs[1..], ys);
      assert (xs + ys)[1..] == xs[1..] + ys;
    }
  }

  /** The target result is the encoded source result. */
  predicate Agree(tb: Tables, source: Result, target: Result) {
    if source.None? then target.None?
    else Encodable(tb, source.value) && target == Some(Encode(tb, source.value))
  }

  predicate AgreeAll(tb: Tables, source: Option<seq<Value>>, target: Option<seq<Value>>) {
    if source.None? then target.None?
    else AllEncodable(tb, source.value) && target == Some(EncodeAll(tb, source.value))
  }

  /**
    Instantiated code evaluates exactly as its source under the type arguments: same results,
    same stuck and unfinished runs, for every amount of fuel.
   */
  lemma {:induction false} EvaluationPreserved(src: Source, st: State, fuel: nat, e: Expression,
                                               env: seq<Type>, locals: seq<Value>)
    requires Complete(src, st) && Covered(st.Maps(), e, env) && AllEncodable(st.Maps(), locals)
    ensures Agree(st.Maps(), EvaluateSource(src, fuel, e, env, locals),
                  EvaluateTarget(st, fuel, Rewrite(st.Maps(), e, env),
                                 EncodeAll(st.Maps(), locals)))
    decreases fuel, 1
  {
    hide Complete, Image, Imaged;
    var tb := st.Maps();
    if fuel == 0 || e.Constant? {
    } else if e.FunctionValue? {
      var none: seq<Value> := [];
      assert AllEncodable(tb, none) && EncodeAll(tb, none) == none;
    } else if e.Local? {
      if e.index < |locals| {
        EncodeAt(tb, locals, e.index);
      }
    } else if e.Describe? {
      ShapePreserved(src, st, Substitute(e.t, env), e.depth);
    } else if e.Add? || e.If? {
      BranchPreserved(src, st, fuel, e, env, locals);
    } else if e.Match? {
      MatchPreserved(src, st, fuel, e, env, locals);
    } else {
      ApplicationPreserved(src, st, fuel, e, env, locals);
    }
  }

  lemma {:induction false} BranchPreserved(src: Source, st: State, fuel: nat, e: Expression,
                                           env: seq<Type>, locals: seq<Value>)
    requires fuel > 0 && (e.Add? || e.If?)
    requires Complete(src, st) && Covered(st.Maps(), e, env) && AllEncodable(st.Maps(), locals)
    ensures Agree(st.Maps(), EvaluateSource(src, fuel, e, env, locals),
                  EvaluateTarget(st, fuel, Rewrite(st.Maps(), e, env),
                                 EncodeAll(st.Maps(), locals)))
    decreases fuel, 0
  {
    hide Complete, Image, Imaged, EncodeAll, AllEncodable, SourceShape, TargetShape, SubstituteAll,
      CallSource, CallTarget, EvaluateSources, EvaluateTargets, CoveredAll, RewriteAll, At,
      DeclarationOf, VariantCount, ArmOf, Substitute;
    if e.Add? {
      EvaluationPreserved(src, st, fuel - 1, e.left, env, locals);
      EvaluationPreserved(src, st, fuel - 1, e.right, env, locals);
    } else {
      EvaluationPreserved(src, st, fuel - 1, e.condition, env, locals);
      EvaluationPreserved(src, st, fuel - 1, e.left, env, locals);
      EvaluationPreserved(src, st, fuel - 1, e.right, env, locals);
    }
  }

  lemma {:induction false} RewriteAt(tb: Tables, es: seq<Expression>, env: seq<Type>, i: nat)
    requires CoveredAll(tb, es, env) && i < |es|
    ensures Covered(tb, es[i], env) && RewriteAll(tb, es, env)[i] == Rewrite(tb, es[i], env)
  {
    hide Covered, Rewrite;
    if i > 0 {
      RewriteAt(tb, es[1..], env, i - 1);
    }
  }

  /** An instance has the variants of its source. */
  lemma VariantsPreserved(src: Source, st: State, t: Type)
    requires Complete(src, st) && Imaged(st.Maps(), t)
    ensures var image := Image(st.Maps(), t);
            VariantCount(At(st, image.kind, image.declaration))
            == VariantCount(DeclarationOf(src, t))
  {
    hide Complete;
    if IsDeclared(t) {
      TypeIsFilled(src, st, t);
    }
  }

  lemma {:induction false} MatchPreserved(src: Source, st: State, fuel: nat, e: Expression,
                                          env: seq<Type>, locals: seq<Value>)
    requires fuel > 0 && e.Match?
    requires Complete(src, st) && Covered(st.Maps(), e, env) && AllEncodable(st.Maps(), locals)
    ensures Agree(st.Maps(), EvaluateSource(src, fuel, e, env, locals),
                  EvaluateTarget(st, fuel, Rewrite(st.Maps(), e, env),
                                 EncodeAll(st.Maps(), locals)))
    decreases fuel, 0
  {
    hide Complete, Image, Imaged, VariantCount, At, DeclarationOf, AllEncodable, EncodeAll,
      CoveredAll, RewriteAll;
    var tb := st.Maps();
    EvaluationPreserved(src, st, fuel - 1, e.scrutinee, env, locals);
    VariantsPreserved(src, st, Substitute(e.t, env));
    var value := EvaluateSource(src, fuel - 1, e.scrutinee, env, locals);
    if value.Some? {
      var variants := VariantCount(DeclarationOf(src, Substitute(e.t, env)));
      var arm := ArmOf(value.value, variants, |e.arms|);
      if arm.Some? {
        RewriteAt(tb, e.arms, env, arm.value);
        EncodeAppend(tb, locals, value.value.fields);
        EvaluationPreserved(src, st, fuel - 1, e.arms[arm.value], env, locals + value.value.fields);
      }
    }
  }

  lemma {:induction false} ApplicationPreserved(src: Source, st: State, fuel: nat, e: Expression,
                                                env: seq<Type>, locals: seq<Value>)
    requires fuel > 0 && (e.Construct? || e.Closure? || e.Call? || e.Invoke?)
    requires Complete(src, st) && Covered(st.Maps(), e, env) && AllEncodable(st.Maps(), locals)
    ensures Agree(st.Maps(), EvaluateSource(src, fuel, e, env, locals),
                  EvaluateTarget(st, fuel, Rewrite(st.Maps(), e, env),
                                 EncodeAll(st.Maps(), locals)))
    decreases fuel, 0
  {
    hide Complete, Image, Imaged, CallSource, CallTarget, EvaluateSources, EvaluateTargets,
      SubstituteAll, SourceShape, TargetShape;
    var tb := st.Maps();
    EvaluationsPreserved(src, st, fuel - 1, e.operands, env, locals);
    var operands := EvaluateSources(src, fuel - 1, e.operands, env, locals);
    if operands.Some? {
      if e.Call? {
        CallPreserved(src, st, fuel - 1, Key(e.callee, SubstituteAll(e.typeArguments, env)),
                      operands.value);
      } else if e.Invoke? {
        EvaluationPreserved(src, st, fuel - 1, e.target, env, locals);
        var target := EvaluateSource(src, fuel - 1, e.target, env, locals);
        if target.Some? && target.value.FunctionVal? {
          EncodeAppend(tb, target.value.captures, operands.value);
          CallPreserved(src, st, fuel - 1, Key(target.value.callee, target.value.arguments),
                        target.value.captures + operands.value);
        }
      }
    }
  }

  lemma {:induction false} EvaluationsPreserved(src: Source, st: State, fuel: nat,
                                                es: seq<Expression>, env: seq<Type>,
                                                locals: seq<Value>)
    requires Complete(src, st) && CoveredAll(st.Maps(), es, env)
    requires AllEncodable(st.Maps(), locals)
    ensures AgreeAll(st.Maps(), EvaluateSources(src, fuel, es, env, locals),
                     EvaluateTargets(st, fuel, RewriteAll(st.Maps(), es, env),
                                     EncodeAll(st.Maps(), locals)))
    decreases fuel, 1
  {
    hide Complete, Covered, Rewrite, Encode, Encodable;
    if es != [] && fuel > 0 {
      EvaluationPreserved(src, st, fuel - 1, es[0], env, locals);
      EvaluationsPreserved(src, st, fuel - 1, es[1..], env, locals);
      var first := EvaluateSource(src, fuel - 1, es[0], env, locals);
      var rest := EvaluateSources(src, fuel - 1, es[1..], env, locals);
      if first.Some? && rest.Some? {
        var all := [first.value] + rest.value;
        assert all[1..] == rest.value;
      }
    }
  }

  /** Calling the instance of a key is calling its source function under the key's arguments. */
  lemma {:induction false} CallPreserved(src: Source, st: State, fuel: nat, k: Key,
                                         locals: seq<Value>)
    requires Complete(src, st) && k in st.functionIds && AllEncodable(st.Maps(), locals)
    ensures Agree(st.Maps(), CallSource(src, fuel, k, locals),
                  CallTarget(st, fuel, st.functionIds[k], EncodeAll(st.Maps(), locals)))
    decreases fuel, 1
  {
    hide Complete;
    FunctionIsFilled(src, st, k);
    if fuel > 0 {
      EvaluationPreserved(src, st, fuel - 1, src.functions[k.callee].body, k.arguments, locals);
    }
  }
}
