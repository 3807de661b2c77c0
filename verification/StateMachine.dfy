/**
  Generated state machines (compiler/src/codegen.cpp:5592-5676) and the diagram drawn from the
  same declarations (compiler/src/fsm.cpp:66-123). A state is an enum value of the ownership
  model; firing an event runs the emitted transition function on it.
 */
module StateMachine {
  import opened Wrappers
  import opened FirTypes
  import opened Ownership

  /** `read` parameters are borrowed by the callee. */
  datatype Parameter = Parameter(t: Type, read: bool)

  /** `payload` is the parameter stored in the destination, counted from the receiver. */
  datatype Transition = Transition(sources: seq<nat>, destination: nat, payload: Option<nat>,
                                   timeout: Option<nat>)

  datatype FirFunction = FirFunction(name: string, parameters: seq<Parameter>,
                                     transition: Option<Transition>)

  /** The enum whose values the function edits, if it is a transition function. */
  function TransitionMachine(p: Program, f: FirFunction): Option<nat> {
    if f.transition.None? || f.parameters == [] then None
    else
      var receiver := f.parameters[0].t;
      if receiver.kind != Edit || |receiver.arguments| != 1 then None
      else
        var machine := receiver.arguments[0];
        if machine.kind != Enum || machine.declaration >= |p.enums| then None
        else Some(machine.declaration)
  }

  function MachineType(e: nat): Type {
    Type(Enum, e, [])
  }

  predicate IsBorrow(t: Type) {
    t.kind == View || t.kind == Edit
  }

  /** The callee must dispose of the argument. */
  predicate Owns(f: Parameter) {
    !f.read && !IsBorrow(f.t)
  }

  /** What the front end guarantees (parser.cpp:1189-1218, sema.cpp:2351-2397). */
  predicate WellFormedTransition(p: Program, f: FirFunction, e: nat)
    requires Layered(p)
  {
    && TransitionMachine(p, f) == Some(e)
    && var t := f.transition.value;
       && t.destination < |p.enums[e].payloads|
       && (t.payload.Some? <==> p.enums[e].payloads[t.destination].Some?)
       && (t.payload.Some? ==>
             0 < t.payload.value < |f.parameters|
             && f.parameters[t.payload.value].t == p.enums[e].payloads[t.destination].value)
       && (forall i :: 0 < i < |f.parameters| ==>
             OwnsDroppably(p, f.parameters[i].t)
             && (f.parameters[i].read ==> !RequiresDrop(p, f.parameters[i].t)))
  }

  predicate IsState(p: Program, e: nat, state: Value)
    requires Layered(p)
  {
    state.Variant? && HasType(p, MachineType(e), state)
  }

  /** The arguments behind the receiver, in the place of the receiver an ignored value. */
  predicate AreArguments(p: Program, f: FirFunction, arguments: seq<Value>)
    requires Layered(p)
  {
    && |arguments| == |f.parameters|
    && forall i :: 0 < i < |arguments| ==> HasType(p, f.parameters[i].t, arguments[i])
  }

  // ---------- the tokens of the arguments ----------

  /** The tokens of the owned arguments among the first `n`, but for the one at `skip`. */
  function OwnedTokens(f: FirFunction, arguments: seq<Value>, n: nat, skip: Option<nat>)
    : multiset<Token>
    requires n <= |arguments| == |f.parameters|
  {
    if n <= 1 then multiset{}
    else
      OwnedTokens(f, arguments, n - 1, skip)
      + if Owns(f.parameters[n - 1]) && skip != Some(n - 1) then Tokens(arguments[n - 1])
        else multiset{}
  }

  lemma {:induction false} OwnedTokensFrame(f: FirFunction, a: seq<Value>, b: seq<Value>, n: nat,
                                            skip: Option<nat>)
    requires n <= |a| == |b| == |f.parameters|
    requires forall i :: 0 < i < n && skip != Some(i) ==> a[i] == b[i]
    ensures OwnedTokens(f, a, n, skip) == OwnedTokens(f, b, n, skip)
    decreases n
  {
    if n > 1 {
      OwnedTokensFrame(f, a, b, n - 1, skip);
    }
  }

  /** Taking one owned argument out leaves the others. */
  lemma {:induction false} OwnedTokensWithout(f: FirFunction, arguments: seq<Value>, n: nat,
                                              k: nat)
    requires n <= |arguments| == |f.parameters| && 0 < k < n
    ensures OwnedTokens(f, arguments, n, None)
            == OwnedTokens(f, arguments, n, Some(k))
               + if Owns(f.parameters[k]) then Tokens(arguments[k]) else multiset{}
    decreases n
  {
    if k < n - 1 {
      OwnedTokensWithout(f, arguments, n - 1, k);
    } else {
      OwnedTokensSkip(f, arguments, n - 1, k);
    }
  }

  lemma {:induction false} OwnedTokensSkip(f: FirFunction, arguments: seq<Value>, n: nat, k: nat)
    requires n <= |arguments| == |f.parameters| && n <= k
    ensures OwnedTokens(f, arguments, n, None) == OwnedTokens(f, arguments, n, Some(k))
    decreases n
  {
    if n > 1 {
      OwnedTokensSkip(f, arguments, n - 1, k);
    }
  }

  // ---------- the emitted transition function ----------

  class Machine {
    const p: Program
    const enumeration: nat
    var state: Value
    var released: seq<Token>

    constructor (p: Program, enumeration: nat, state: Value)
      requires Layered(p) && IsState(p, enumeration, state)
      ensures this.p == p && this.enumeration == enumeration
      ensures this.state == state && released == []
    {
      this.p, this.enumeration, this.state, released := p, enumeration, state, [];
    }

    /** `emitDropValue` on an argument. */
    method DropArgument(t: Type, arguments: array<Value>, index: nat)
      requires Layered(p) && DeclaresDroppably(p) && OwnsDroppably(p, t)
      requires index < arguments.Length && HasType(p, t, arguments[index])
      modifies this`released, arguments
      ensures HasType(p, t, arguments[index]) && Tokens(arguments[index]) == multiset{}
      ensures arguments[..] == old(arguments[..])[index := arguments[index]]
      ensures multiset(released) == multiset(old(released)) + old(Tokens(arguments[index]))
    {
      hide HasType, Tokens, Drop, DeclaresDroppably, OwnsDroppably, Leaked;
      var d := Drop(p, t, arguments[index]);
      DropReleasesExactly(p, t, arguments[index]);
      DropConserves(p, t, arguments[index]);
      released := released + d.released;
      arguments[index] := d.value;
    }

    /** One turn of the loop over the arguments. */
    method PassArgument(f: FirFunction, arguments: array<Value>, index: nat, skip: Option<nat>)
      requires Layered(p) && DeclaresDroppably(p) && AreArguments(p, f, arguments[..])
      requires 1 <= index < |f.parameters| && OwnsDroppably(p, f.parameters[index].t)
      modifies this`released, arguments
      ensures AreArguments(p, f, arguments[..])
      ensures arguments[..] == old(arguments[..])[index := arguments[index]]
      ensures multiset(released) == multiset(old(released))
                + if Owns(f.parameters[index]) && skip != Some(index)
                  then old(Tokens(arguments[index])) else multiset{}
      ensures if Owns(f.parameters[index]) && skip != Some(index)
              then Tokens(arguments[index]) == multiset{}
              else arguments[index] == old(arguments[index])
    {
      hide HasType, Tokens, DeclaresDroppably, OwnsDroppably, Layered;
      var parameter := f.parameters[index];
      assert arguments[..][index] == arguments[index];
      if skip == Some(index) || parameter.read {
      } else if !IsBorrow(parameter.t) {
        DropArgument(parameter.t, arguments, index);
      }
    }

    /** Drops every owned argument but the one at `skip`; the borrowed ones stay. */
    method DropArguments(f: FirFunction, arguments: array<Value>, skip: Option<nat>)
      requires Layered(p) && DeclaresDroppably(p) && AreArguments(p, f, arguments[..])
      requires f.parameters != []
      requires forall i :: 0 < i < |f.parameters| ==> OwnsDroppably(p, f.parameters[i].t)
      modifies this`released, arguments
      ensures AreArguments(p, f, arguments[..])
      ensures multiset(released) == multiset(old(released))
                + OwnedTokens(f, old(arguments[..]), arguments.Length, skip)
      ensures OwnedTokens(f, arguments[..], arguments.Length, skip) == multiset{}
      ensures Untouched(f, old(arguments[..]), arguments[..], skip)
    {
      hide HasType, Tokens, DeclaresDroppably, OwnsDroppably, Layered, AreArguments, Passed;
      ghost var before, start := arguments[..], multiset(released);
      NothingPassed(p, f, before, start, skip);
      var index := 1;
      while index < |f.parameters|
        invariant 1 <= index <= |f.parameters| == arguments.Length
        invariant AreArguments(p, f, arguments[..])
        invariant Passed(f, before, arguments[..], start, multiset(released), index, skip)
      {
        ghost var here, released0 := arguments[..], multiset(released);
        assert here[index] == arguments[index];
        PassArgument(f, arguments, index, skip);
        ghost var now := arguments[..];
        assert now[index] == arguments[index];
        PassedStep(f, before, here, now, start, released0, multiset(released), index, skip);
        index := index + 1;
      }
      AllPassed(f, before, arguments[..], start, multiset(released), skip);
    }

    /** Stores the payload argument in the destination state. */
    method StorePayload(t: Type, tag: nat, arguments: array<Value>, index: nat)
      requires Layered(p) && index < arguments.Length && HasType(p, t, arguments[index])
      modifies this`state, arguments
      ensures state == Variant(tag, Some(old(arguments[index])))
      ensures HasType(p, t, arguments[index]) && Tokens(arguments[index]) == multiset{}
      ensures arguments[..] == old(arguments[..])[index := arguments[index]]
    {
      hide HasType, Tokens, Move;
      var m := Move(p, t, arguments[index]);
      MoveTransfers(p, t, arguments[index]);
      state := Variant(tag, Some(m.result));
      arguments[index] := m.source;
    }

    /**
      The transition function of an event. It fails and leaves the state alone, or it moves to
      the destination; either way each owned argument is released once or stored, the old state
      is released only on success, and no token is lost or duplicated.
     */
    method Fire(f: FirFunction, arguments: array<Value>) returns (ok: bool)
      requires Layered(p) && DeclaresDroppably(p) && WellFormedTransition(p, f, enumeration)
      requires IsState(p, enumeration, state) && AreArguments(p, f, arguments[..])
      modifies this, arguments
      ensures ok <==> old(state).tag in f.transition.value.sources
      ensures state == NextState(f, old(state), old(arguments[..]))
      ensures IsState(p, enumeration, state)
      ensures multiset(released) == multiset(old(released))
                + if ok then old(Tokens(state))
                             + OwnedTokens(f, old(arguments[..]), arguments.Length,
                                           f.transition.value.payload)
                  else OwnedTokens(f, old(arguments[..]), arguments.Length, None)
      ensures AreArguments(p, f, arguments[..])
      ensures OwnedTokens(f, arguments[..], arguments.Length, None) == multiset{}
      ensures multiset(released) + Tokens(state)
              == multiset(old(released)) + old(Tokens(state))
                 + OwnedTokens(f, old(arguments[..]), arguments.Length, None)
    {
      hide HasType, Tokens, Drop, DeclaresDroppably, OwnsDroppably, OwnedTokens, DropAccounts,
        Leaked, Untouched, Layered;
      var t := f.transition.value;
      ghost var before, given, source := released, arguments[..], state;
      if state.tag in t.sources {
        MachineIsDroppable(p, enumeration);
        DropReleasesExactly(p, MachineType(enumeration), state);
        released := released + Drop(p, MachineType(enumeration), state).released;
        state := Variant(t.destination, None);
        if t.payload.Some? {
          var k := t.payload.value;
          StorePayload(p.enums[enumeration].payloads[t.destination].value, t.destination,
                       arguments, k);
        }
        ghost var stored := arguments[..];
        PayloadStored(p, f, enumeration, given, stored);
        DropArguments(f, arguments, t.payload);
        PayloadKept(p, f, given, stored, arguments[..], t.payload);
        StateTokens(p, f, enumeration, source, given, state);
        ok := true;
      } else {
        DropArguments(f, arguments, None);
        ok := false;
      }
    }
  }

  /** The state that an event leads to. */
  function NextState(f: FirFunction, state: Value, arguments: seq<Value>): Value
    requires f.transition.Some? && state.Variant?
    requires f.transition.value.payload.Some? ==>
               f.transition.value.payload.value < |arguments|
  {
    var t := f.transition.value;
    if state.tag !in t.sources then state
    else Variant(t.destination,
                 if t.payload.Some? then Some(arguments[t.payload.value]) else None)
  }

  lemma MachineIsDroppable(p: Program, e: nat)
    requires Layered(p)
    ensures OwnsDroppably(p, MachineType(e))
  {
  }

  /** After the payload is moved out, the arguments are typed and differ only there. */
  lemma PayloadStored(p: Program, f: FirFunction, e: nat, given: seq<Value>, stored: seq<Value>)
    requires Layered(p) && WellFormedTransition(p, f, e) && AreArguments(p, f, given)
    requires match f.transition.value.payload
             case None => stored == given
             case Some(k) =>
               |stored| == |given| && stored == given[k := stored[k]]
               && HasType(p, f.parameters[k].t, stored[k])
    ensures AreArguments(p, f, stored)
    ensures OwnedTokens(f, stored, |given|, f.transition.value.payload)
            == OwnedTokens(f, given, |given|, f.transition.value.payload)
  {
    hide HasType, OwnedTokens;
    OwnedTokensFrame(f, given, stored, |given|, f.transition.value.payload);
  }

  /** The moved-out payload argument owns nothing, so no owned argument does at the end. */
  lemma PayloadKept(p: Program, f: FirFunction, given: seq<Value>, stored: seq<Value>,
                    last: seq<Value>, payload: Option<nat>)
    requires |given| == |stored| == |last| == |f.parameters| && Untouched(f, stored, last, payload)
    requires OwnedTokens(f, last, |last|, payload) == multiset{}
    requires payload.Some? ==>
               0 < payload.value < |stored| && Tokens(stored[payload.value]) == multiset{}
    ensures OwnedTokens(f, last, |last|, None) == multiset{}
  {
    hide OwnedTokens, Tokens;
    if payload.Some? {
      OwnedTokensWithout(f, last, |last|, payload.value);
    }
  }

  /** The new state owns what its payload argument owned. */
  lemma StateTokens(p: Program, f: FirFunction, e: nat, source: Value, given: seq<Value>,
                    state: Value)
    requires Layered(p) && WellFormedTransition(p, f, e) && AreArguments(p, f, given)
    requires IsState(p, e, source) && source.tag in f.transition.value.sources
    requires state == NextState(f, source, given)
    ensures IsState(p, e, state)
    ensures OwnedTokens(f, given, |given|, None)
            == OwnedTokens(f, given, |given|, f.transition.value.payload) + Tokens(state)
  {
    hide OwnedTokens, Tokens, HasType;
    var t := f.transition.value;
    if t.payload.Some? {
      var k := t.payload.value;
      OwnedTokensWithout(f, given, |given|, k);
      if !Owns(f.parameters[k]) {
        NoDropNoTokens(p, f.parameters[k].t, given[k]);
      }
    }
    VariantIsState(p, e, t.destination,
                   if t.payload.Some? then Some(given[t.payload.value]) else None);
  }

  lemma VariantIsState(p: Program, e: nat, tag: nat, payload: Option<Value>)
    requires Layered(p) && e < |p.enums| && tag < |p.enums[e].payloads|
    requires p.enums[e].payloads[tag].Some? <==> payload.Some?
    requires payload.Some? ==> HasType(p, p.enums[e].payloads[tag].value, payload.value)
    ensures IsState(p, e, Variant(tag, payload))
    ensures Tokens(Variant(tag, payload))
            == if payload.Some? then Tokens(payload.value) else multiset{}
  {
  }

  /**
    The loop has dealt with the arguments before `index`: their owned tokens are released, and the
    ones from there on are as they were.
   */
  predicate Passed(f: FirFunction, before: seq<Value>, now: seq<Value>, start: multiset<Token>,
                   released: multiset<Token>, index: nat, skip: Option<nat>)
  {
    && |before| == |now| == |f.parameters| && 1 <= index <= |now|
    && (forall i :: index <= i < |now| ==> now[i] == before[i])
    && Untouched(f, before, now, skip)
    && released == start + OwnedTokens(f, before, index, skip)
    && OwnedTokens(f, now, index, skip) == multiset{}
  }

  lemma NothingPassed(p: Program, f: FirFunction, arguments: seq<Value>, start: multiset<Token>,
                      skip: Option<nat>)
    requires Layered(p) && AreArguments(p, f, arguments) && f.parameters != []
    ensures Passed(f, arguments, arguments, start, start, 1, skip)
    ensures |arguments| == |f.parameters|
  {
    hide HasType, Tokens;
  }

  lemma AllPassed(f: FirFunction, before: seq<Value>, now: seq<Value>, start: multiset<Token>,
                  released: multiset<Token>, skip: Option<nat>)
    requires f.parameters != [] && Passed(f, before, now, start, released, |f.parameters|, skip)
    ensures |before| == |now| == |f.parameters| && Untouched(f, before, now, skip)
    ensures released == start + OwnedTokens(f, before, |before|, skip)
    ensures OwnedTokens(f, now, |now|, skip) == multiset{}
  {
    hide OwnedTokens, Untouched;
  }

  lemma PassedStep(f: FirFunction, before: seq<Value>, here: seq<Value>, now: seq<Value>,
                   start: multiset<Token>, released: multiset<Token>, next: multiset<Token>,
                   index: nat, skip: Option<nat>)
    requires index < |f.parameters| && Passed(f, before, here, start, released, index, skip)
    requires |now| == |here| && now == here[index := now[index]]
    requires var drops := Owns(f.parameters[index]) && skip != Some(index);
             && next == released + (if drops then Tokens(here[index]) else multiset{})
             && if drops then Tokens(now[index]) == multiset{} else now[index] == here[index]
    ensures Passed(f, before, now, start, next, index + 1, skip)
  {
    hide OwnedTokens, Tokens;
    OwnedTokensFrame(f, here, now, index, skip);
    OwnedTokensStep(f, before, index, skip);
    OwnedTokensStep(f, now, index, skip);
  }

  /** Arguments that are borrowed or skipped are the same. */
  predicate Untouched(f: FirFunction, a: seq<Value>, b: seq<Value>, skip: Option<nat>) {
    && |a| == |b| == |f.parameters|
    && forall i :: 0 < i < |a| && (!Owns(f.parameters[i]) || skip == Some(i)) ==> b[i] == a[i]
  }

  lemma OwnedTokensStep(f: FirFunction, arguments: seq<Value>, n: nat, skip: Option<nat>)
    requires 1 <= n < |arguments| == |f.parameters|
    ensures OwnedTokens(f, arguments, n + 1, skip)
            == OwnedTokens(f, arguments, n, skip)
               + if Owns(f.parameters[n]) && skip != Some(n) then Tokens(arguments[n])
                 else multiset{}
  {
  }

  // ---------- the diagram ----------

  datatype Edge = Edge(source: string, destination: string, event: string,
                       timeout: Option<nat>)

  /** The part of a name behind its last dot. */
  function EventName(name: string): string {
    if '.' in name then EventName(name[1..]) else name
  }

  /** The functions of a program, and the state names of one machine. */
  datatype Diagram = Diagram(functions: seq<FirFunction>, machine: nat, states: seq<string>)

  predicate DrawsEdge(p: Program, g: Diagram, f: FirFunction, source: nat, edge: Edge) {
    && TransitionMachine(p, f) == Some(g.machine)
    && var t := f.transition.value;
       t.destination < |g.states| && source in t.sources && source < |g.states|
       && edge == Edge(g.states[source], g.states[t.destination], EventName(f.name), t.timeout)
  }

  /** The edges of a machine, stated without any loop. */
  ghost predicate IsEdge(p: Program, g: Diagram, edge: Edge) {
    exists f, source :: f in g.functions && DrawsEdge(p, g, f, source, edge)
  }

  method Transitions(p: Program, g: Diagram) returns (result: set<Edge>)
    ensures forall edge :: edge in result <==> IsEdge(p, g, edge)
  {
    hide EventName;
    result := {};
    var i := 0;
    while i < |g.functions|
      invariant 0 <= i <= |g.functions|
      invariant forall edge :: edge in result <==>
                  exists f, source :: f in g.functions[..i] && DrawsEdge(p, g, f, source, edge)
    {
      var f := g.functions[i];
      var added := FunctionEdges(p, g, f);
      assert g.functions[..i + 1] == g.functions[..i] + [f];
      ghost var before := result;
      result := result + added;
      i := i + 1;
      forall edge
        ensures edge in result <==>
                exists f, source :: f in g.functions[..i] && DrawsEdge(p, g, f, source, edge)
      {
        if edge in added {
          var source :| DrawsEdge(p, g, f, source, edge);
          assert f in g.functions[..i];
        }
        if edge in before {
          var h, source :| h in g.functions[..i - 1] && DrawsEdge(p, g, h, source, edge);
          assert h in g.functions[..i];
        }
        if h, source :| h in g.functions[..i] && DrawsEdge(p, g, h, source, edge) {
          assert h == f || h in g.functions[..i - 1];
        }
      }
    }
    assert g.functions[..i] == g.functions;
  }

  method FunctionEdges(p: Program, g: Diagram, f: FirFunction) returns (result: set<Edge>)
    ensures forall edge :: edge in result <==> exists source :: DrawsEdge(p, g, f, source, edge)
  {
    hide EventName;
    result := {};
    var owner := TransitionMachine(p, f);
    if owner != Some(g.machine) {
      return;
    }
    var t := f.transition.value;
    if t.destination >= |g.states| {
      return;
    }
    var k := 0;
    while k < |t.sources|
      invariant 0 <= k <= |t.sources|
      invariant forall edge :: edge in result <==>
                  exists source :: source in t.sources[..k] && DrawsEdge(p, g, f, source, edge)
    {
      var source := t.sources[k];
      assert t.sources[..k + 1] == t.sources[..k] + [source];
      if source < |g.states| {
        var edge := Edge(g.states[source], g.states[t.destination], EventName(f.name), t.timeout);
        assert DrawsEdge(p, g, f, source, edge);
        result := result + {edge};
      }
      k := k + 1;
    }
    assert t.sources[..k] == t.sources;
  }

  // ---------- runs and the diagram agree ----------

  /** The diagram names each variant of the machine, with distinct names. */
  predicate Names(p: Program, g: Diagram) {
    && g.machine < |p.enums| && |g.states| == |p.enums[g.machine].payloads|
    && forall i, j :: 0 <= i < j < |g.states| ==> g.states[i] != g.states[j]
  }

  /** An event of a run: a transition function of the machine and its arguments. */
  datatype Event = Event(f: FirFunction, arguments: seq<Value>)

  predicate HasPayload(event: Event) {
    && event.f.transition.Some?
    && (event.f.transition.value.payload.Some? ==>
          event.f.transition.value.payload.value < |event.arguments|)
  }

  predicate Fires(p: Program, g: Diagram, event: Event)
    requires Layered(p)
  {
    && event.f in g.functions && WellFormedTransition(p, event.f, g.machine)
    && AreArguments(p, event.f, event.arguments)
  }

  /** The states of a run, the first one included. */
  function Run(state: Value, events: seq<Event>): (states: seq<Value>)
    requires state.Variant?
    requires forall i :: 0 <= i < |events| ==> HasPayload(events[i])
    ensures |states| == |events| + 1 && states[0] == state
    decreases |events|
  {
    if events == [] then [state]
    else
      assert HasPayload(events[0]);
      [state] + Run(NextState(events[0].f, state, events[0].arguments), events[1..])
  }

  lemma NextIsState(p: Program, g: Diagram, state: Value, event: Event)
    requires Layered(p) && IsState(p, g.machine, state) && Fires(p, g, event)
    ensures IsState(p, g.machine, NextState(event.f, state, event.arguments))
  {
    hide Tokens, OwnedTokens;
    if state.tag in event.f.transition.value.sources {
      StateTokens(p, event.f, g.machine, state, event.arguments,
                  NextState(event.f, state, event.arguments));
    }
  }

  /** One event: the state stays as it is, or an edge of the diagram is followed. */
  lemma StepFollowsEdge(p: Program, g: Diagram, state: Value, event: Event)
    requires Layered(p) && Names(p, g) && IsState(p, g.machine, state) && Fires(p, g, event)
    ensures var next := NextState(event.f, state, event.arguments);
            var t := event.f.transition.value;
            if state.tag in t.sources
            then IsEdge(p, g, Edge(g.states[state.tag], g.states[next.tag],
                                   EventName(event.f.name), t.timeout))
            else next == state
  {
    hide EventName;
    var t := event.f.transition.value;
    if state.tag in t.sources {
      assert DrawsEdge(p, g, event.f, state.tag,
                       Edge(g.states[state.tag], g.states[t.destination],
                            EventName(event.f.name), t.timeout));
    }
  }

  /** From every state of the edge's source the function goes to its destination. */
  ghost predicate Takes(p: Program, g: Diagram, f: FirFunction, edge: Edge)
    requires Layered(p) && Names(p, g) && WellFormedTransition(p, f, g.machine)
  {
    forall state, arguments ::
      IsState(p, g.machine, state) && g.states[state.tag] == edge.source
      && AreArguments(p, f, arguments) ==>
        state.tag in f.transition.value.sources
        && g.states[NextState(f, state, arguments).tag] == edge.destination
  }

  lemma StateIsNamed(p: Program, g: Diagram, state: Value)
    requires Layered(p) && Names(p, g) && IsState(p, g.machine, state)
    ensures state.tag < |g.states|
  {
  }

  lemma DrawnIsTaken(p: Program, g: Diagram, f: FirFunction, source: nat, edge: Edge)
    requires Layered(p) && Names(p, g) && WellFormedTransition(p, f, g.machine)
    requires DrawsEdge(p, g, f, source, edge)
    ensures Takes(p, g, f, edge)
  {
    hide AllTokens, RequiresDrop;
    forall state, arguments | IsState(p, g.machine, state) && g.states[state.tag] == edge.source
                              && AreArguments(p, f, arguments)
      ensures state.tag in f.transition.value.sources
              && g.states[NextState(f, state, arguments).tag] == edge.destination
    {
      StateIsNamed(p, g, state);
      assert state.tag == source;
    }
  }

  /** Every edge is drawn for a function that takes it from each state of its source variant. */
  lemma EdgeIsTaken(p: Program, g: Diagram, edge: Edge)
    returns (f: FirFunction)
    requires Layered(p) && Names(p, g) && IsEdge(p, g, edge)
    requires forall f | f in g.functions && TransitionMachine(p, f) == Some(g.machine) ::
               WellFormedTransition(p, f, g.machine)
    ensures f in g.functions && WellFormedTransition(p, f, g.machine)
    ensures EventName(f.name) == edge.event && f.transition.value.timeout == edge.timeout
    ensures Takes(p, g, f, edge)
  {
    hide EventName, Takes;
    var source: nat;
    f, source :| f in g.functions && DrawsEdge(p, g, f, source, edge);
    DrawnIsTaken(p, g, f, source, edge);
  }

  /** A run is a walk in the diagram that may wait at any state. */
  lemma {:induction false} RunFollowsDiagram(p: Program, g: Diagram, state: Value,
                                             events: seq<Event>, i: nat)
    requires Layered(p) && Names(p, g) && IsState(p, g.machine, state)
    requires forall k :: 0 <= k < |events| ==> HasPayload(events[k]) && Fires(p, g, events[k])
    requires i < |events|
    ensures var states := Run(state, events);
            && IsState(p, g.machine, states[i]) && IsState(p, g.machine, states[i + 1])
            && (states[i + 1] == states[i]
                || exists edge :: IsEdge(p, g, edge)
                                  && edge.source == g.states[states[i].tag]
                                  && edge.destination == g.states[states[i + 1].tag])
    decreases |events|
  {
    hide HasType, IsEdge, EventName, Layered;
    assert HasPayload(events[0]) && Fires(p, g, events[0]);
    NextIsState(p, g, state, events[0]);
    var next := NextState(events[0].f, state, events[0].arguments);
    assert Run(state, events) == [state] + Run(next, events[1..]);
    if i == 0 {
      StepFollowsEdge(p, g, state, events[0]);
      var states, t := Run(state, events), events[0].f.transition.value;
      assert states[0] == state && states[1] == next;
      StateIsNamed(p, g, state);
      StateIsNamed(p, g, next);
      if state.tag in t.sources {
        var edge := Edge(g.states[state.tag], g.states[next.tag], EventName(events[0].f.name),
                         t.timeout);
        assert IsEdge(p, g, edge) && edge.source == g.states[states[0].tag]
               && edge.destination == g.states[states[1].tag];
      }
    } else {
      RunFollowsDiagram(p, g, next, events[1..], i - 1);
    }
  }
}
