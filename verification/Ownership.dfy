/**
  The drop and move code the compiler emits for every owned type
  (compiler/src/codegen.cpp:559-589, 1750-1905, 4402-4424, 4525-4536, 4717-4833), run on
  abstract values whose heap blocks and runtime references are tokens.
 */
module Ownership {
  import opened Wrappers
  import opened FirTypes

  // ---------- programs and values ----------

  /** `level` is the position of the declaration in the inline emission order. */
  datatype StructDeclaration = StructDeclaration(fields: seq<Type>, hasDropFunction: bool,
                                                 level: nat)

  datatype EnumDeclaration = EnumDeclaration(payloads: seq<Option<Type>>, level: nat)

  /** `closures` holds, for each closure, the types it captures by value. */
  datatype Program = Program(structs: seq<StructDeclaration>, enums: seq<EnumDeclaration>,
                             closures: seq<seq<Type>>)

  type Token = nat

  datatype Value =
    | Plain
    | Text(buffer: Option<Token>)
    | Owned(cell: Option<Cell>)
    | Handle(reference: Option<Token>)
    | Endpoints(sender: Option<Token>, receiver: Option<Token>)
    | Callable(environment: Option<Environment>)
    | Object(concrete: Type, block: Token, data: Value)
    | Elements(items: seq<Value>)
    | Record(active: bool, items: seq<Value>)
    | Variant(tag: nat, payload: Option<Value>)

  datatype Cell = Cell(block: Token, content: Value)

  datatype Environment = Environment(block: Token, closure: nat, captures: seq<Value>)

  /** How deep inline containment can go below a type; pointers and handles do not contain. */
  function Level(p: Program, t: Type): nat
    decreases t
  {
    if t.kind == Array && |t.arguments| == 1 then Level(p, t.arguments[0])
    else if t.kind == Struct && t.declaration < |p.structs| then p.structs[t.declaration].level
    else if t.kind == Enum && t.declaration < |p.enums| then p.enums[t.declaration].level
    else 0
  }

  /** No type contains itself inline, which the C emitter checks before emitting these. */
  predicate Layered(p: Program) {
    && (forall s, f :: 0 <= s < |p.structs| && 0 <= f < |p.structs[s].fields| ==>
          Level(p, p.structs[s].fields[f]) < p.structs[s].level)
    && (forall e, v :: 0 <= e < |p.enums| && 0 <= v < |p.enums[e].payloads|
                       && p.enums[e].payloads[v].Some? ==>
          Level(p, p.enums[e].payloads[v].value) < p.enums[e].level)
  }

  // ---------- the type predicates ----------

  predicate RequiresDrop(p: Program, t: Type)
    requires Layered(p)
    decreases Level(p, t), t
  {
    if t.kind in {String, Own, Task, Channel, Sender, Receiver} || t.kind == Parameter
       || (t.kind == Function && !IsCFunction(t))
    then true
    else if t.kind == Array && |t.arguments| == 1 then RequiresDrop(p, t.arguments[0])
    else if t.kind == Struct && t.declaration < |p.structs| then
      var s := p.structs[t.declaration];
      s.hasDropFunction || exists f :: 0 <= f < |s.fields| && RequiresDrop(p, s.fields[f])
    else if t.kind == Enum && t.declaration < |p.enums| then
      var e := p.enums[t.declaration];
      exists v :: 0 <= v < |e.payloads| && e.payloads[v].Some?
                  && RequiresDrop(p, e.payloads[v].value)
    else false
  }

  predicate IsCopyParameterType(p: Program, t: Type)
    requires Layered(p)
    decreases Level(p, t), t
  {
    if IsMachineScalar(t) && t.kind != Void && t.kind != Never then true
    else if t.kind == Raw || t.kind == RawConst then |t.arguments| == 1
    else if IsCFunction(t) then true
    else if t.kind == Array && |t.arguments| == 1 then IsCopyParameterType(p, t.arguments[0])
    else if t.kind == Struct && t.declaration < |p.structs| then
      var s := p.structs[t.declaration];
      !s.hasDropFunction
      && forall f :: 0 <= f < |s.fields| ==> IsCopyParameterType(p, s.fields[f])
    else if t.kind == Enum && t.declaration < |p.enums| then
      var e := p.enums[t.declaration];
      forall v :: 0 <= v < |e.payloads| && e.payloads[v].Some? ==>
        IsCopyParameterType(p, e.payloads[v].value)
    else false
  }

  // ---------- typing and the tokens a value owns ----------

  function Repeated(t: Type, n: nat): (ts: seq<Type>)
    ensures |ts| == n && forall i :: 0 <= i < n ==> ts[i] == t
  {
    seq(n, _ => t)
  }

  predicate HasType(p: Program, t: Type, v: Value)
    requires Layered(p)
    decreases v, 0
  {
    match v
    case Plain =>
      t.kind !in {String, Own, Task, Channel, Sender, Receiver, Array, Struct, Enum,
                  Parameter, Invalid}
      && (t.kind == Function ==> IsCFunction(t)) && t.kind != Contract
    case Text(_) => t.kind == String
    case Owned(cell) =>
      t.kind == Own && |t.arguments| == 1
      && (cell.Some? ==> HasTarget(p, t.arguments[0], cell.value.content))
    case Handle(_) => t.kind in {Task, Sender, Receiver}
    case Endpoints(_, _) => t.kind == Channel
    case Callable(environment) =>
      t.kind == Function && !IsCFunction(t)
      && (environment.Some? ==>
            environment.value.closure < |p.closures|
            && HasTypes(p, p.closures[environment.value.closure], environment.value.captures))
    case Object(_, _, _) => false
    case Elements(items) =>
      t.kind == Array && |t.arguments| == 1
      && HasTypes(p, Repeated(t.arguments[0], t.declaration), items)
    case Record(active, items) =>
      t.kind == Struct && t.declaration < |p.structs|
      && HasTypes(p, p.structs[t.declaration].fields, items)
      && (p.structs[t.declaration].hasDropFunction && !active ==> AllTokens(items) == multiset{})
    case Variant(tag, payload) =>
      t.kind == Enum && t.declaration < |p.enums| && tag < |p.enums[t.declaration].payloads|
      && var declared := p.enums[t.declaration].payloads[tag];
         declared.Some? == payload.Some?
         && (payload.Some? ==> HasType(p, declared.value, payload.value))
  }

  /** What an owning pointer may point to: a contract object, or a value of the target type. */
  predicate HasTarget(p: Program, target: Type, content: Value)
    requires Layered(p)
    decreases content, 1
  {
    if target.kind == Contract then
      content.Object? && content.concrete.kind == Struct && content.concrete.arguments == []
      && HasType(p, content.concrete, content.data)
    else HasType(p, target, content)
  }

  predicate HasTypes(p: Program, ts: seq<Type>, vs: seq<Value>)
    requires Layered(p)
    decreases vs
  {
    |ts| == |vs|
    && (vs != [] ==> HasType(p, ts[0], vs[0]) && HasTypes(p, ts[1..], vs[1..]))
  }

  function Held(token: Option<Token>): multiset<Token> {
    if token.Some? then multiset{token.value} else multiset{}
  }

  function Tokens(v: Value): multiset<Token>
    decreases v
  {
    match v
    case Plain => multiset{}
    case Text(buffer) => Held(buffer)
    case Owned(cell) =>
      if cell.None? then multiset{}
      else multiset{cell.value.block} + Tokens(cell.value.content)
    case Handle(reference) => Held(reference)
    case Endpoints(sender, receiver) => Held(sender) + Held(receiver)
    case Callable(environment) =>
      if environment.None? then multiset{}
      else multiset{environment.value.block} + AllTokens(environment.value.captures)
    case Object(_, block, data) => multiset{block} + Tokens(data)
    case Elements(items) => AllTokens(items)
    case Record(_, items) => AllTokens(items)
    case Variant(_, payload) => if payload.Some? then Tokens(payload.value) else multiset{}
  }

  function AllTokens(vs: seq<Value>): multiset<Token>
    decreases vs
  {
    if vs == [] then multiset{} else Tokens(vs[0]) + AllTokens(vs[1..])
  }

  // ---------- the emitted drop code ----------

  /** What is left in the place, and the tokens released, in release order. */
  datatype Dropped = Dropped(value: Value, released: seq<Token>)

  datatype AllDropped = AllDropped(values: seq<Value>, released: seq<Token>)

  function Release(token: Option<Token>): seq<Token> {
    if token.Some? then [token.value] else []
  }

  function Drop(p: Program, t: Type, v: Value): Dropped
    requires Layered(p) && HasType(p, t, v)
    decreases v, 0
  {
    if !RequiresDrop(p, t) then Dropped(v, [])
    else match v
      case Plain => Dropped(v, [])
      case Text(buffer) => Dropped(Text(None), Release(buffer))
      case Owned(cell) =>
        if cell.None? then Dropped(v, [])
        else
          Dropped(Owned(None),
                  DropTarget(p, t.arguments[0], cell.value.content) + [cell.value.block])
      case Handle(reference) => Dropped(Handle(None), Release(reference))
      case Endpoints(sender, receiver) =>
        Dropped(Endpoints(None, None), Release(receiver) + Release(sender))
      case Callable(environment) =>
        if environment.None? then Dropped(v, [])
        else Dropped(Callable(None), DropEnvironment(p, environment.value))
      case Object(_, _, _) => Dropped(v, [])
      case Elements(items) =>
        var d := DropAll(p, Repeated(t.arguments[0], t.declaration), items);
        Dropped(Elements(d.values), d.released)
      case Record(active, items) =>
        var s := p.structs[t.declaration];
        if s.hasDropFunction && !active then Dropped(v, [])
        else
          var d := DropAll(p, s.fields, items);
          Dropped(Record(if s.hasDropFunction then false else active, d.values), d.released)
      case Variant(tag, payload) =>
        if payload.None? then Dropped(v, [])
        else
          var d := Drop(p, p.enums[t.declaration].payloads[tag].value, payload.value);
          Dropped(Variant(tag, Some(d.value)), d.released)
  }

  /** The target of an owning pointer is dropped for these kinds only (codegen.cpp:1816-1826). */
  function DropTarget(p: Program, target: Type, content: Value): seq<Token>
    requires Layered(p) && HasTarget(p, target, content)
    decreases content, 1
  {
    if target.kind == String then Drop(p, target, content).released
    else if target.kind == Contract then
      (if RequiresDrop(p, content.concrete) then
         Drop(p, content.concrete, content.data).released
       else []) + [content.block]
    else if target.kind in {Array, Struct, Enum} then
      if RequiresDrop(p, target) then Drop(p, target, content).released else []
    else []
  }

  /** A closure's drop function: its captures, then its environment block. */
  function DropEnvironment(p: Program, e: Environment): seq<Token>
    requires Layered(p) && e.closure < |p.closures|
    requires HasTypes(p, p.closures[e.closure], e.captures)
    decreases e
  {
    DropAll(p, p.closures[e.closure], e.captures).released + [e.block]
  }

  /** Fields, elements and captures go last to first. */
  function DropAll(p: Program, ts: seq<Type>, vs: seq<Value>): AllDropped
    requires Layered(p) && HasTypes(p, ts, vs)
    decreases vs
  {
    if vs == [] then AllDropped([], [])
    else
      var first := Drop(p, ts[0], vs[0]);
      var rest := DropAll(p, ts[1..], vs[1..]);
      AllDropped([first.value] + rest.values, rest.released + first.released)
  }

  // ---------- the emitted move code ----------

  datatype Moved = Moved(result: Value, source: Value)

  datatype AllMoved = AllMoved(results: seq<Value>, sources: seq<Value>)

  function Move(p: Program, t: Type, v: Value): Moved
    requires Layered(p) && HasType(p, t, v)
    decreases v
  {
    match v
    case Owned(_) => Moved(v, Owned(None))
    case Handle(_) => Moved(v, Handle(None))
    case Endpoints(_, _) => Moved(v, Endpoints(None, None))
    case Text(_) => Moved(v, Text(None))
    case Callable(_) => Moved(v, Callable(None))
    case Plain => Moved(v, v)
    case Object(_, _, _) => Moved(v, v)
    case Elements(items) =>
      if !RequiresDrop(p, t) then Moved(v, v)
      else
        var m := MoveAll(p, Repeated(t.arguments[0], t.declaration), items);
        Moved(Elements(m.results), Elements(m.sources))
    case Record(active, items) =>
      if !RequiresDrop(p, t) then Moved(v, v)
      else
        var s := p.structs[t.declaration];
        var m := MoveAll(p, s.fields, items);
        Moved(Record(active, m.results),
              Record(if s.hasDropFunction then false else active, m.sources))
    case Variant(tag, payload) =>
      if !RequiresDrop(p, t) || payload.None? then Moved(v, v)
      else
        var m := Move(p, p.enums[t.declaration].payloads[tag].value, payload.value);
        Moved(Variant(tag, Some(m.result)), Variant(tag, Some(m.source)))
  }

  function MoveAll(p: Program, ts: seq<Type>, vs: seq<Value>): AllMoved
    requires Layered(p) && HasTypes(p, ts, vs)
    decreases vs
  {
    if vs == [] then AllMoved([], [])
    else
      var first := Move(p, ts[0], vs[0]);
      var rest := MoveAll(p, ts[1..], vs[1..]);
      AllMoved([first.result] + rest.results, [first.source] + rest.sources)
  }

  // ---------- what a drop can lose ----------

  predicate TargetDropped(p: Program, target: Type)
    requires Layered(p)
  {
    target.kind in {String, Contract, Array, Struct, Enum} || !RequiresDrop(p, target)
  }

  /** The tokens below owning pointers whose target kind the drop code skips. */
  function Leaked(p: Program, t: Type, v: Value): multiset<Token>
    requires Layered(p) && HasType(p, t, v)
    decreases v, 0
  {
    match v
    case Owned(cell) =>
      if cell.None? then multiset{} else TargetLeaked(p, t.arguments[0], cell.value.content)
    case Callable(environment) =>
      if environment.None? then multiset{}
      else AllLeaked(p, p.closures[environment.value.closure], environment.value.captures)
    case Elements(items) => AllLeaked(p, Repeated(t.arguments[0], t.declaration), items)
    case Record(_, items) => AllLeaked(p, p.structs[t.declaration].fields, items)
    case Variant(tag, payload) =>
      if payload.None? then multiset{}
      else Leaked(p, p.enums[t.declaration].payloads[tag].value, payload.value)
    case _ => multiset{}
  }

  function TargetLeaked(p: Program, target: Type, content: Value): multiset<Token>
    requires Layered(p) && HasTarget(p, target, content)
    decreases content, 1
  {
    if !TargetDropped(p, target) then Tokens(content)
    else if target.kind == Contract then Leaked(p, content.concrete, content.data)
    else Leaked(p, target, content)
  }

  function AllLeaked(p: Program, ts: seq<Type>, vs: seq<Value>): multiset<Token>
    requires Layered(p) && HasTypes(p, ts, vs)
    decreases vs
  {
    if vs == [] then multiset{}
    else Leaked(p, ts[0], vs[0]) + AllLeaked(p, ts[1..], vs[1..])
  }

  // ---------- the token laws ----------

  predicate AnyRequiresDrop(p: Program, ts: seq<Type>)
    requires Layered(p)
  {
    exists i :: 0 <= i < |ts| && RequiresDrop(p, ts[i])
  }

  /** A type that needs no drop owns nothing. */
  lemma {:induction false} NoDropNoTokens(p: Program, t: Type, v: Value)
    requires Layered(p) && HasType(p, t, v) && !RequiresDrop(p, t)
    ensures Tokens(v) == multiset{}
    decreases v
  {
    match v
    case Elements(items) =>
      NoDropsNoTokens(p, Repeated(t.arguments[0], t.declaration), items);
    case Record(_, items) =>
      NoDropsNoTokens(p, p.structs[t.declaration].fields, items);
    case Variant(tag, payload) =>
      if payload.Some? {
        NoDropNoTokens(p, p.enums[t.declaration].payloads[tag].value, payload.value);
      }
    case _ =>
  }

  lemma {:induction false} NoDropsNoTokens(p: Program, ts: seq<Type>, vs: seq<Value>)
    requires Layered(p) && HasTypes(p, ts, vs) && !AnyRequiresDrop(p, ts)
    ensures AllTokens(vs) == multiset{}
    decreases vs
  {
    if vs != [] {
      NoDropNoTokens(p, ts[0], vs[0]);
      NoDropsNoTokens(p, ts[1..], vs[1..]);
    }
  }

  /** Copied parameter types never require a drop. */
  lemma {:induction false} CopyNeverDrops(p: Program, t: Type)
    requires Layered(p) && IsCopyParameterType(p, t)
    ensures !RequiresDrop(p, t)
    decreases Level(p, t), t
  {
    if t.kind == Array && |t.arguments| == 1 {
      CopyNeverDrops(p, t.arguments[0]);
    } else if t.kind == Struct && t.declaration < |p.structs| {
      var s := p.structs[t.declaration];
      forall f | 0 <= f < |s.fields| ensures !RequiresDrop(p, s.fields[f]) {
        CopyNeverDrops(p, s.fields[f]);
      }
    } else if t.kind == Enum && t.declaration < |p.enums| {
      var e := p.enums[t.declaration];
      forall v | 0 <= v < |e.payloads| && e.payloads[v].Some?
        ensures !RequiresDrop(p, e.payloads[v].value)
      {
        CopyNeverDrops(p, e.payloads[v].value);
      }
    }
  }

  /**
    The drop releases every token the value owns once, except those it leaks, and leaves a
    well-typed place that owns nothing.
   */
  predicate DropAccounts(p: Program, t: Type, v: Value)
    requires Layered(p) && HasType(p, t, v)
  {
    var d := Drop(p, t, v);
    && multiset(d.released) + Leaked(p, t, v) == Tokens(v)
    && HasType(p, t, d.value) && Tokens(d.value) == multiset{}
  }

  /** Every drop of every well-typed value accounts for all its tokens. */
  lemma {:induction false} DropConserves(p: Program, t: Type, v: Value)
    requires Layered(p) && HasType(p, t, v)
    ensures DropAccounts(p, t, v)
    decreases v, 2
  {
    if v.Plain? {
      PlainNeedsNoDrop(p, t);
    }
    if !RequiresDrop(p, t) {
      NoDropNoTokens(p, t, v);
      NothingToLeak(p, t, v);
    } else {
      if v.Owned? {
        OwnedConserves(p, t, v);
      } else if v.Callable? {
        CallableConserves(p, t, v);
      } else if v.Elements? {
        ElementsConserve(p, t, v);
      } else if v.Record? {
        RecordConserves(p, t, v);
      } else if v.Variant? {
        VariantConserves(p, t, v);
      } else if v.Text? {
        TextConserves(p, t, v.buffer);
      } else if v.Handle? {
        HandleConserves(p, t, v.reference);
      } else if v.Endpoints? {
        EndpointsConserve(p, t, v.sender, v.receiver);
      }
    }
  }

  lemma PlainNeedsNoDrop(p: Program, t: Type)
    requires Layered(p) && HasType(p, t, Plain)
    ensures !RequiresDrop(p, t)
  {
    hide HasTypes, HasTarget;
  }

  lemma TextConserves(p: Program, t: Type, buffer: Option<Token>)
    requires Layered(p) && HasType(p, t, Text(buffer)) && RequiresDrop(p, t)
    ensures DropAccounts(p, t, Text(buffer))
  {
    hide RequiresDrop, HasTypes, HasTarget, AllTokens, DropAll, DropTarget, AllLeaked;
    hide TargetLeaked, DropEnvironment;
  }

  lemma HandleConserves(p: Program, t: Type, reference: Option<Token>)
    requires Layered(p) && HasType(p, t, Handle(reference)) && RequiresDrop(p, t)
    ensures DropAccounts(p, t, Handle(reference))
  {
    hide RequiresDrop, HasTypes, HasTarget, AllTokens, DropAll, DropTarget, AllLeaked;
    hide TargetLeaked, DropEnvironment;
  }

  lemma EndpointsConserve(p: Program, t: Type, sender: Option<Token>, receiver: Option<Token>)
    requires Layered(p) && HasType(p, t, Endpoints(sender, receiver)) && RequiresDrop(p, t)
    ensures DropAccounts(p, t, Endpoints(sender, receiver))
  {
    hide RequiresDrop, HasTypes, HasTarget, AllTokens, DropAll, DropTarget, AllLeaked;
    hide TargetLeaked, DropEnvironment;
  }

  lemma Appended(released: seq<Token>, block: Token, leaked: multiset<Token>,
                 tokens: multiset<Token>)
    requires multiset(released) + leaked == tokens
    ensures multiset(released + [block]) + leaked == multiset{block} + tokens
  {
  }

  lemma {:induction false} OwnedConserves(p: Program, t: Type, v: Value)
    requires v.Owned?
    requires Layered(p) && HasType(p, t, v) && RequiresDrop(p, t)
    ensures DropAccounts(p, t, v)
    decreases v, 1
  {
    hide DropTarget, HasTarget, TargetLeaked, RequiresDrop;
    if v.cell.Some? {
      var target, block, content := t.arguments[0], v.cell.value.block, v.cell.value.content;
      DropTargetConserves(p, target, content);
      var released := DropTarget(p, target, content);
      Appended(released, block, TargetLeaked(p, target, content), Tokens(content));
      assert Drop(p, t, v) == Dropped(Owned(None), released + [block]);
    }
  }

  lemma {:induction false} EnvironmentConserves(p: Program, e: Environment)
    requires Layered(p) && e.closure < |p.closures|
    requires HasTypes(p, p.closures[e.closure], e.captures)
    ensures multiset(DropEnvironment(p, e))
            + AllLeaked(p, p.closures[e.closure], e.captures)
         == multiset{e.block} + AllTokens(e.captures)
    decreases e, 1
  {
    DropAllConserves(p, p.closures[e.closure], e.captures);
    Appended(DropAll(p, p.closures[e.closure], e.captures).released, e.block,
             AllLeaked(p, p.closures[e.closure], e.captures), AllTokens(e.captures));
  }

  lemma {:induction false} CallableConserves(p: Program, t: Type, v: Value)
    requires v.Callable?
    requires Layered(p) && HasType(p, t, v) && RequiresDrop(p, t)
    ensures DropAccounts(p, t, v)
    decreases v, 1
  {
    if v.environment.Some? {
      var e := v.environment.value;
      EnvironmentConserves(p, e);
      assert Drop(p, t, v) == Dropped(Callable(None), DropEnvironment(p, e));
      assert Leaked(p, t, v) == AllLeaked(p, p.closures[e.closure], e.captures);
    }
  }

  lemma {:induction false} VariantConserves(p: Program, t: Type, v: Value)
    requires v.Variant?
    requires Layered(p) && HasType(p, t, v) && RequiresDrop(p, t)
    ensures DropAccounts(p, t, v)
    decreases v, 1
  {
    if v.payload.Some? {
      DropConserves(p, p.enums[t.declaration].payloads[v.tag].value, v.payload.value);
    }
  }

  lemma {:induction false} ElementsConserve(p: Program, t: Type, v: Value)
    requires v.Elements?
    requires Layered(p) && HasType(p, t, v) && RequiresDrop(p, t)
    ensures DropAccounts(p, t, v)
    decreases v, 1
  {
    hide DropAll, HasTypes, AllLeaked, AllTokens, RequiresDrop;
    DropAllConserves(p, Repeated(t.arguments[0], t.declaration), v.items);
  }

  lemma {:induction false} RecordConserves(p: Program, t: Type, v: Value)
    requires v.Record?
    requires Layered(p) && HasType(p, t, v) && RequiresDrop(p, t)
    ensures DropAccounts(p, t, v)
    decreases v, 1
  {
    hide DropAll, HasTypes, AllLeaked, AllTokens, RequiresDrop;
    var s := p.structs[t.declaration];
    if s.hasDropFunction && !v.active {
      NothingToLeak(p, t, v);
    } else {
      DropAllConserves(p, s.fields, v.items);
    }
  }

  lemma {:induction false} DropTargetConserves(p: Program, target: Type, content: Value)
    requires Layered(p) && HasTarget(p, target, content)
    ensures multiset(DropTarget(p, target, content)) + TargetLeaked(p, target, content)
         == Tokens(content)
    decreases content, 3
  {
    hide HasType, Leaked;
    if target.kind == Contract {
      DropConserves(p, content.concrete, content.data);
    } else {
      DropConserves(p, target, content);
    }
  }

  lemma {:induction false} DropAllConserves(p: Program, ts: seq<Type>, vs: seq<Value>)
    requires Layered(p) && HasTypes(p, ts, vs)
    ensures var d := DropAll(p, ts, vs);
            && multiset(d.released) + AllLeaked(p, ts, vs) == AllTokens(vs)
            && HasTypes(p, ts, d.values) && AllTokens(d.values) == multiset{}
    decreases vs
  {
    hide HasType, Drop, Leaked, Tokens;
    if vs != [] {
      DropConserves(p, ts[0], vs[0]);
      DropAllConserves(p, ts[1..], vs[1..]);
      var d := DropAll(p, ts, vs);
      assert d.values[1..] == DropAll(p, ts[1..], vs[1..]).values;
    }
  }

  /** What owns nothing leaks nothing. */
  lemma {:induction false} NothingToLeak(p: Program, t: Type, v: Value)
    requires Layered(p) && HasType(p, t, v) && Tokens(v) == multiset{}
    ensures Leaked(p, t, v) == multiset{}
    decreases v
  {
    match v
    case Elements(items) => NothingsToLeak(p, Repeated(t.arguments[0], t.declaration), items);
    case Record(_, items) => NothingsToLeak(p, p.structs[t.declaration].fields, items);
    case Variant(tag, payload) =>
      if payload.Some? {
        NothingToLeak(p, p.enums[t.declaration].payloads[tag].value, payload.value);
      }
    case _ =>
  }

  lemma {:induction false} NothingsToLeak(p: Program, ts: seq<Type>, vs: seq<Value>)
    requires Layered(p) && HasTypes(p, ts, vs) && AllTokens(vs) == multiset{}
    ensures AllLeaked(p, ts, vs) == multiset{}
    decreases vs
  {
    if vs != [] {
      NothingToLeak(p, ts[0], vs[0]);
      NothingsToLeak(p, ts[1..], vs[1..]);
    }
  }

  lemma NothingReleased(released: seq<Token>, leaked: multiset<Token>)
    requires multiset(released) + leaked == multiset{}
    ensures released == []
  {
    assert |multiset(released) + leaked| == |released| + |leaked|;
  }

  /** A second drop of the same place releases nothing. */
  lemma SecondDropReleasesNothing(p: Program, t: Type, v: Value)
    requires Layered(p) && HasType(p, t, v)
    ensures var once := Drop(p, t, v);
            HasType(p, t, once.value) && Drop(p, t, once.value).released == []
  {
    hide Drop, HasType, Tokens, Leaked;
    DropConserves(p, t, v);
    var once := Drop(p, t, v).value;
    DropConserves(p, t, once);
    NothingReleased(Drop(p, t, once).released, Leaked(p, t, once));
  }

  /** A move yields the original value and leaves a well-typed source that owns nothing. */
  lemma {:induction false} MoveTransfers(p: Program, t: Type, v: Value)
    requires Layered(p) && HasType(p, t, v)
    ensures var m := Move(p, t, v);
            && m.result == v
            && HasType(p, t, m.source) && Tokens(m.source) == multiset{}
    decreases v
  {
    if !RequiresDrop(p, t) {
      NoDropNoTokens(p, t, v);
    } else {
      match v
      case Elements(items) => MoveAllTransfers(p, Repeated(t.arguments[0], t.declaration), items);
      case Record(_, items) => MoveAllTransfers(p, p.structs[t.declaration].fields, items);
      case Variant(tag, payload) =>
        if payload.Some? {
          MoveTransfers(p, p.enums[t.declaration].payloads[tag].value, payload.value);
        }
      case _ =>
    }
  }

  lemma {:induction false} MoveAllTransfers(p: Program, ts: seq<Type>, vs: seq<Value>)
    requires Layered(p) && HasTypes(p, ts, vs)
    ensures var m := MoveAll(p, ts, vs);
            && m.results == vs
            && HasTypes(p, ts, m.sources) && AllTokens(m.sources) == multiset{}
    decreases vs
  {
    hide HasType, Move, Tokens;
    if vs != [] {
      MoveTransfers(p, ts[0], vs[0]);
      MoveAllTransfers(p, ts[1..], vs[1..]);
      var m := MoveAll(p, ts, vs);
      assert m.sources[1..] == MoveAll(p, ts[1..], vs[1..]).sources;
    }
  }

  /** Dropping a moved-out source is a no-op, and dropping the result releases what was owned. */
  lemma MoveThenDrop(p: Program, t: Type, v: Value)
    requires Layered(p) && HasType(p, t, v)
    ensures var m := Move(p, t, v);
            && HasType(p, t, m.source) && Drop(p, t, m.source).released == []
            && m.result == v
            && multiset(Drop(p, t, m.result).released) + Leaked(p, t, v) == Tokens(v)
  {
    hide Drop, Move, HasType, Tokens, Leaked;
    MoveTransfers(p, t, v);
    var source := Move(p, t, v).source;
    DropConserves(p, t, source);
    DropConserves(p, t, v);
    NothingReleased(Drop(p, t, source).released, Leaked(p, t, source));
  }

  // ---------- when nothing leaks ----------

  /** Every owning pointer written in `t` has a target the drop code handles. */
  predicate OwnsDroppably(p: Program, t: Type)
    requires Layered(p)
    decreases t
  {
    && (t.kind == Own && |t.arguments| == 1 ==> TargetDropped(p, t.arguments[0]))
    && forall i :: 0 <= i < |t.arguments| ==> OwnsDroppably(p, t.arguments[i])
  }

  predicate AllOwnDroppably(p: Program, ts: seq<Type>)
    requires Layered(p)
  {
    forall i :: 0 <= i < |ts| ==> OwnsDroppably(p, ts[i])
  }

  /** The same for every type written in a declaration. */
  predicate DeclaresDroppably(p: Program)
    requires Layered(p)
  {
    && (forall s :: 0 <= s < |p.structs| ==> AllOwnDroppably(p, p.structs[s].fields))
    && (forall c :: 0 <= c < |p.closures| ==> AllOwnDroppably(p, p.closures[c]))
    && (forall e, v :: 0 <= e < |p.enums| && 0 <= v < |p.enums[e].payloads|
                       && p.enums[e].payloads[v].Some? ==>
          OwnsDroppably(p, p.enums[e].payloads[v].value))
  }

  lemma {:induction false} NoLeak(p: Program, t: Type, v: Value)
    requires Layered(p) && HasType(p, t, v)
    requires DeclaresDroppably(p) && OwnsDroppably(p, t)
    ensures Leaked(p, t, v) == multiset{}
    decreases v
  {
    match v
    case Owned(cell) =>
      if cell.Some? {
        var target, content := t.arguments[0], cell.value.content;
        if target.kind == Contract {
          NoLeak(p, content.concrete, content.data);
        } else {
          NoLeak(p, target, content);
        }
      }
    case Callable(environment) =>
      if environment.Some? {
        NoLeaks(p, p.closures[environment.value.closure], environment.value.captures);
      }
    case Elements(items) => NoLeaks(p, Repeated(t.arguments[0], t.declaration), items);
    case Record(_, items) => NoLeaks(p, p.structs[t.declaration].fields, items);
    case Variant(tag, payload) =>
      if payload.Some? {
        NoLeak(p, p.enums[t.declaration].payloads[tag].value, payload.value);
      }
    case _ =>
  }

  lemma {:induction false} NoLeaks(p: Program, ts: seq<Type>, vs: seq<Value>)
    requires Layered(p) && HasTypes(p, ts, vs)
    requires DeclaresDroppably(p) && AllOwnDroppably(p, ts)
    ensures AllLeaked(p, ts, vs) == multiset{}
    decreases vs
  {
    if vs != [] {
      NoLeak(p, ts[0], vs[0]);
      NoLeaks(p, ts[1..], vs[1..]);
    }
  }

  /** With droppable targets throughout, a drop releases exactly what the value owns. */
  lemma DropReleasesExactly(p: Program, t: Type, v: Value)
    requires Layered(p) && HasType(p, t, v)
    requires DeclaresDroppably(p) && OwnsDroppably(p, t)
    ensures multiset(Drop(p, t, v).released) == Tokens(v)
  {
    DropConserves(p, t, v);
    NoLeak(p, t, v);
  }

  /** An owning pointer is dropped exactly iff its target is handled or owns nothing. */
  lemma OwnDropIsExactIff(p: Program, target: Type, block: Token, content: Value)
    requires Layered(p) && DeclaresDroppably(p) && OwnsDroppably(p, target)
    requires HasTarget(p, target, content)
    ensures var t, v := Type(Own, 0, [target]), Owned(Some(Cell(block, content)));
            && HasType(p, t, v)
            && (multiset(Drop(p, t, v).released) == Tokens(v) <==>
                  TargetDropped(p, target) || Tokens(content) == multiset{})
  {
    hide HasTypes, AllTokens, DropAll, DropEnvironment, AllLeaked, Drop, Tokens, RequiresDrop;
    var t, v := Type(Own, 0, [target]), Owned(Some(Cell(block, content)));
    assert Leaked(p, t, v) == TargetLeaked(p, target, content);
    DropConserves(p, t, v);
    if TargetDropped(p, target) {
      NoLeak(p, t, v);
    }
    ExactIffNothingLeaked(Drop(p, t, v).released, Leaked(p, t, v), Tokens(v));
  }

  lemma ExactIffNothingLeaked(released: seq<Token>, leaked: multiset<Token>,
                              tokens: multiset<Token>)
    requires multiset(released) + leaked == tokens
    ensures multiset(released) == tokens <==> leaked == multiset{}
  {
    assert leaked == tokens - multiset(released);
  }

  lemma OwnDrop(p: Program, target: Type, block: Token, content: Value)
    requires Layered(p) && HasTarget(p, target, content)
    ensures var t, v := Type(Own, 0, [target]), Owned(Some(Cell(block, content)));
            && HasType(p, t, v)
            && Drop(p, t, v).released == DropTarget(p, target, content) + [block]
            && Tokens(v) == multiset{block} + Tokens(content)
  {
    hide HasTypes, AllTokens, DropAll, DropEnvironment, DropTarget, HasTarget;
  }

  /** Handles, channel ends and closures: below an owning pointer the drop code skips them. */
  lemma OnlyTheBlockIsReleased(p: Program, target: Type, block: Token, content: Value)
    requires Layered(p) && HasTarget(p, target, content)
    requires target.kind in {Task, Channel, Sender, Receiver}
             || (target.kind == Function && !IsCFunction(target))
    ensures var t, v := Type(Own, 0, [target]), Owned(Some(Cell(block, content)));
            && HasType(p, t, v)
            && Drop(p, t, v).released == [block]
            && Tokens(v) == multiset{block} + Tokens(content)
  {
    hide HasTypes, AllTokens, Drop, RequiresDrop, HasTarget;
    OwnDrop(p, target, block, content);
    assert DropTarget(p, target, content) == [];
  }

  /** `own Sender<M>` releases its block only: the sender it holds is lost. */
  lemma OwnOfSenderLeaks(p: Program, message: Type, block: Token, sender: Token)
    requires Layered(p)
    ensures var t := Type(Own, 0, [Type(Sender, 0, [message])]);
            var v := Owned(Some(Cell(block, Handle(Some(sender)))));
            && HasType(p, t, v)
            && Drop(p, t, v).released == [block]
            && Tokens(v) == multiset{block, sender}
  {
    hide HasTypes, AllTokens, Drop, RequiresDrop;
    var target, content := Type(Sender, 0, [message]), Handle(Some(sender));
    assert HasType(p, target, content);
    OnlyTheBlockIsReleased(p, target, block, content);
  }
}
