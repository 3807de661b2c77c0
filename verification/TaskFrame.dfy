/**
  Who owns what while an emitted task body runs, suspends and is dropped
  (compiler/src/codegen.cpp:2140-2210, 2295-2297, 3058-3240, 3301-3737, 3740-3935, 4117-4137,
  5191-5357).

  A frame slot holds the tokens its value owns and the flag `fdn_local_N_active`; the locals
  here are those whose type requires a drop. What a drop or a move does to the value inside a
  slot is the subject of module Ownership: a drop releases all its tokens, a move empties it.
 */
module TaskFrame {
  import opened Wrappers

  type Token = nat
  type Tokens = multiset<Token>
  type Local = nat

  // ---------- frames ----------

  datatype Slot = Slot(content: Tokens, active: bool)

  const EMPTY := Slot(multiset{}, false)

  datatype Frame = Frame(arguments: seq<Tokens>, argumentsActive: bool, slots: seq<Slot>,
                         result: Slot)

  /** The frame, and where tokens came from and went to since the task was spawned. */
  datatype State = State(frame: Frame, acquired: Tokens, released: Tokens, handed: Tokens)

  function ArgumentTokens(arguments: seq<Tokens>): Tokens {
    if arguments == [] then multiset{} else arguments[0] + ArgumentTokens(arguments[1..])
  }

  function SlotTokens(slots: seq<Slot>): Tokens {
    if slots == [] then multiset{} else slots[0].content + SlotTokens(slots[1..])
  }

  function Live(f: Frame): Tokens {
    ArgumentTokens(f.arguments) + SlotTokens(f.slots) + f.result.content
  }

  /** Tokens are only ever held under a set flag; a set flag may stand over an emptied slot. */
  predicate Flagged(f: Frame) {
    && (forall l :: 0 <= l < |f.slots| && f.slots[l].content != multiset{} ==> f.slots[l].active)
    && (f.result.content != multiset{} ==> f.result.active)
    && (!f.argumentsActive ==> ArgumentTokens(f.arguments) == multiset{})
  }

  predicate Conserved(st: State) {
    st.acquired == Live(st.frame) + st.released + st.handed
  }

  // ---------- the emitted primitives ----------

  function Get(f: Frame, l: Local): Slot {
    if l < |f.slots| then f.slots[l] else EMPTY
  }

  function Put(f: Frame, l: Local, s: Slot): Frame {
    if l < |f.slots| then f.(slots := f.slots[l := s]) else f
  }

  /** An assignment to a slot followed by setting its flag (activateLocal). */
  function Store(st: State, l: Local, tokens: Tokens): State {
    st.(frame := Put(st.frame, l, Slot(tokens, true)))
  }

  /** `if (active) { drop; active = false; }` (emitLocalDrop). */
  function LocalDrop(st: State, l: Local): State {
    var s := Get(st.frame, l);
    if s.active then
      st.(frame := Put(st.frame, l, EMPTY), released := st.released + s.content)
    else st
  }

  function LocalDrops(st: State, ls: seq<Local>): State
    decreases |ls|
  {
    if ls == [] then st else LocalDrops(LocalDrop(st, ls[0]), ls[1..])
  }

  /** Pending match scrutinees are dropped innermost first (emitMatchDrops). */
  function CleanupDrops(st: State, ls: seq<Local>): State
    decreases |ls|
  {
    if ls == [] then st else CleanupDrops(LocalDrop(st, ls[|ls| - 1]), ls[..|ls| - 1])
  }

  /** A send that the channel accepted: the message owns the tokens, the flag is cleared. */
  function HandOver(st: State, l: Local): State {
    st.(frame := Put(st.frame, l, EMPTY), handed := st.handed + Get(st.frame, l).content)
  }

  // ---------- task bodies ----------

  datatype Expression =
    | Plain                                // owns nothing
    | Acquire                              // a call or literal that yields a new owned value
    | Move(source: Local)
    | Capture(source: Local)               // an own capture: the flag of the source stays set
    | Build(parts: seq<Expression>)        // a value made of owned parts
    | Pass(parts: seq<Expression>)         // a call that takes owned arguments

  datatype Statement =
    | Let(target: Local, value: Expression)
    | Assign(target: Local, value: Expression)
    | Discard(value: Expression)
    | Wait(task: Local, receiver: Option<Local>)
    | Send(value: Expression, storage: Local)
    | Receive(storage: Local, receiver: Option<Local>)
    | Select(arms: seq<SelectArm>, timeout: Option<Statement>, error: Statement)
    | Match(value: Expression, storage: Local, branches: seq<Branch>)
    | If(thenBlock: Statement, elseBlock: Statement)
    | While(body: Statement)
    | Block(statements: seq<Statement>, drops: seq<Local>)
    | Return(value: Expression, drops: seq<Local>)
    | Break(drops: seq<Local>)
    | Continue(drops: seq<Local>)

  /** `value` and `storage` matter to a send, `binding` to a receive. */
  datatype SelectArm = SelectArm(send: bool, value: Expression, storage: Local,
                                 binding: Option<Local>, body: Statement)

  /** A match arm moves the payload out of the stored scrutinee when it binds it. */
  datatype Branch = Branch(binding: Option<Local>, body: Statement, drops: seq<Local>)

  // ---------- where the emitter stops ----------

  /** The flow analysis says that control goes on behind `s` (codegen.cpp:1600-1722). */
  predicate Continues(s: Statement)
    decreases s
  {
    match s
    case Select(arms, timeout, error) =>
      AnyArmContinues(arms) || (timeout.Some? && Continues(timeout.value)) || Continues(error)
    case If(thenBlock, elseBlock) => Continues(thenBlock) || Continues(elseBlock)
    case Block(statements, _) => AllContinue(statements)
    case Return(_, _) => false
    case Break(_) => false
    case Continue(_) => false
    case _ => true
  }

  predicate AllContinue(ss: seq<Statement>)
    decreases ss
  {
    ss != [] ==> Continues(ss[0]) && AllContinue(ss[1..])
  }

  predicate AnyArmContinues(arms: seq<SelectArm>)
    decreases arms
  {
    arms != [] &&
    var arm := arms[0];
    assert arm.body < arm;
    Continues(arm.body) || AnyArmContinues(arms[1..])
  }

  predicate AnyBranchContinues(branches: seq<Branch>)
    decreases branches
  {
    branches != [] && (Continues(branches[0].body) || AnyBranchContinues(branches[1..]))
  }

  /**
    The emitter stops behind `s`: the rest of the block, its drops included, is not emitted. It
    never stops behind a select, and behind a match if no arm continues by the flow analysis.
   */
  predicate Stops(s: Statement)
    decreases s
  {
    match s
    case If(thenBlock, elseBlock) => Stops(thenBlock) && Stops(elseBlock)
    case Block(statements, _) => AnyStops(statements)
    case Match(_, _, branches) => branches != [] && !AnyBranchContinues(branches)
    case Return(_, _) => true
    case Break(_) => true
    case Continue(_) => true
    case _ => false
  }

  predicate AnyStops(ss: seq<Statement>)
    decreases ss
  {
    ss != [] && (Stops(ss[0]) || AnyStops(ss[1..]))
  }

  // ---------- execution ----------

  /** What the environment supplies next: a decision, and the tokens that come with it. */
  datatype Input = Input(pick: nat, tokens: Tokens)

  /** `Fell`: control reached the end of code behind which the emitter stopped. */
  datatype Outcome =
    Done | Fell | Returned | Broke | Continued | Suspended | Panicked | OutOfFuel

  datatype Ran = Ran(outcome: Outcome, state: State, inputs: seq<Input>)

  datatype Evaluated = Evaluated(state: State, tokens: Tokens, inputs: seq<Input>)

  /** The scrutinee storages pending around a statement, and how many precede its loop. */
  datatype Scope = Scope(cleanups: seq<Local>, loopBase: nat)

  function Head(inputs: seq<Input>): Input {
    if inputs == [] then Input(0, multiset{}) else inputs[0]
  }

  function Tail(inputs: seq<Input>): seq<Input> {
    if inputs == [] then [] else inputs[1..]
  }

  function Obtain(st: State, tokens: Tokens): State {
    st.(acquired := st.acquired + tokens)
  }

  function Evaluate(e: Expression, st: State, inputs: seq<Input>): Evaluated
    decreases e
  {
    match e
    case Plain => Evaluated(st, multiset{}, inputs)
    case Acquire => Evaluated(Obtain(st, Head(inputs).tokens), Head(inputs).tokens, Tail(inputs))
    case Move(source) =>
      Evaluated(st.(frame := Put(st.frame, source, EMPTY)), Get(st.frame, source).content, inputs)
    case Capture(source) =>
      var s := Get(st.frame, source);
      Evaluated(st.(frame := Put(st.frame, source, Slot(multiset{}, s.active))), s.content, inputs)
    case Build(parts) => EvaluateAll(parts, st, inputs)
    case Pass(parts) =>
      var arguments := EvaluateAll(parts, st, inputs);
      var result := Head(arguments.inputs).tokens;
      Evaluated(Obtain(arguments.state.(handed := arguments.state.handed + arguments.tokens),
                       result),
                result, Tail(arguments.inputs))
  }

  function EvaluateAll(es: seq<Expression>, st: State, inputs: seq<Input>): Evaluated
    decreases es
  {
    if es == [] then Evaluated(st, multiset{}, inputs)
    else
      var first := Evaluate(es[0], st, inputs);
      var rest := EvaluateAll(es[1..], first.state, first.inputs);
      Evaluated(rest.state, first.tokens + rest.tokens, rest.inputs)
  }

  const PENDING := 0
  const READY := 1
  const TIMEOUT := 2

  /**
    Polls until an answer other than pending. When the inputs end, the task stays suspended
    at this point for good.
   */
  function Poll(inputs: seq<Input>): Option<seq<Input>> {
    if inputs == [] then None
    else if inputs[0].pick == PENDING then Poll(inputs[1..])
    else Some(inputs)
  }

  /** A break that the C switch of a select catches. */
  function Caught(r: Ran): Ran {
    if r.outcome == Broke then r.(outcome := Done) else r
  }

  /** Falling off code whose end the emitter ignores goes on behind it. */
  function Landed(r: Ran): Ran {
    if r.outcome == Fell then r.(outcome := Done) else r
  }

  function Execute(fuel: nat, s: Statement, st: State, inputs: seq<Input>, scope: Scope): Ran
    decreases fuel, 3
  {
    if fuel == 0 then Ran(OutOfFuel, st, inputs)
    else if s.Let? then
      var v := Evaluate(s.value, st, inputs);
      Ran(Done, Store(v.state, s.target, v.tokens), v.inputs)
    else if s.Assign? then
      var v := Evaluate(s.value, st, inputs);
      Ran(Done, Store(LocalDrop(v.state, s.target), s.target, v.tokens), v.inputs)
    else if s.Discard? then
      var v := Evaluate(s.value, st, inputs);
      Ran(Done, v.state.(released := v.state.released + v.tokens), v.inputs)
    else if s.Wait? then ExecuteWait(s, st, inputs)
    else if s.Send? then ExecuteSend(s, st, inputs)
    else if s.Receive? then ExecuteReceive(s, st, inputs)
    else if s.Select? then ExecuteSelect(fuel, s, st, inputs, scope)
    else if s.Match? then ExecuteMatch(fuel, s, st, inputs, scope)
    else if s.If? then
      var r := Execute(fuel - 1, if Head(inputs).pick != 0 then s.thenBlock else s.elseBlock,
                       st, Tail(inputs), scope);
      if Stops(s) then r else Landed(r)
    else if s.While? then
      if Head(inputs).pick == 0 then Ran(Done, st, Tail(inputs))
      else
        var iteration := Execute(fuel - 1, s.body, st, Tail(inputs),
                                 scope.(loopBase := |scope.cleanups|));
        if iteration.outcome == Broke then iteration.(outcome := Done)
        else if GoesRound(iteration) then
          Execute(fuel - 1, s, iteration.state, iteration.inputs, scope)
        else iteration
    else if s.Block? then
      var r := ExecuteAll(fuel - 1, s.statements, st, inputs, scope);
      if r.outcome == Done then r.(state := LocalDrops(r.state, s.drops)) else r
    else if s.Return? then
      var v := Evaluate(s.value, st, inputs);
      var dropped := CleanupDrops(LocalDrops(v.state, s.drops), scope.cleanups);
      Ran(Returned, dropped.(frame := dropped.frame.(result := Slot(v.tokens, true))), v.inputs)
    else
      var pending := if scope.loopBase <= |scope.cleanups| then scope.cleanups[scope.loopBase..]
                     else [];
      var dropped := CleanupDrops(LocalDrops(st, s.drops), pending);
      Ran(if s.Break? then Broke else Continued, dropped, inputs)
  }

  predicate GoesRound(iteration: Ran) {
    iteration.outcome == Done || iteration.outcome == Continued || iteration.outcome == Fell
  }

  function ExecuteAll(fuel: nat, ss: seq<Statement>, st: State, inputs: seq<Input>,
                      scope: Scope): Ran
    decreases fuel, 3
  {
    if fuel == 0 then Ran(OutOfFuel, st, inputs)
    else if ss == [] then Ran(Done, st, inputs)
    else
      var first := Execute(fuel - 1, ss[0], st, inputs, scope);
      if first.outcome != Done then first
      else ExecuteAll(fuel - 1, ss[1..], first.state, first.inputs, scope)
  }

  /** `fdn_task_poll_wait` consumes the handle and fills the result (codegen.cpp:3432-3472). */
  function ExecuteWait(s: Statement, st: State, inputs: seq<Input>): Ran
    requires s.Wait?
  {
    match Poll(inputs)
    case None => Ran(Suspended, st, [])
    case Some(answered) =>
      var handle := HandOver(st, s.task);
      var result := Head(answered).tokens;
      if s.receiver.None? then Ran(Done, handle, Tail(answered))
      else Ran(Done, Store(Obtain(handle, result), s.receiver.value, result), Tail(answered))
  }

  /** The value waits in its own slot; acceptance clears the flag, refusal drops the value. */
  function ExecuteSend(s: Statement, st: State, inputs: seq<Input>): Ran
    requires s.Send?
  {
    var v := Evaluate(s.value, st, inputs);
    var stored := Store(v.state, s.storage, v.tokens);
    match Poll(v.inputs)
    case None => Ran(Suspended, stored, [])
    case Some(answered) =>
      if Head(answered).pick == READY then Ran(Done, HandOver(stored, s.storage), Tail(answered))
      else Ran(Done, LocalDrop(stored, s.storage), Tail(answered))
  }

  /** The payload arrives in the storage slot and is then bound or dropped. */
  function ExecuteReceive(s: Statement, st: State, inputs: seq<Input>): Ran
    requires s.Receive?
  {
    match Poll(inputs)
    case None => Ran(Suspended, st, [])
    case Some(answered) =>
      var payload := if Head(answered).pick == READY then Head(answered).tokens else multiset{};
      var stored := Store(Obtain(st, payload), s.storage, payload);
      if s.receiver.None? then Ran(Done, LocalDrop(stored, s.storage), Tail(answered))
      else
        var emptied := stored.(frame := Put(stored.frame, s.storage, EMPTY));
        Ran(Done, Store(emptied, s.receiver.value, payload), Tail(answered))
  }

  function StoreSends(arms: seq<SelectArm>, st: State, inputs: seq<Input>): Evaluated {
    if arms == [] then Evaluated(st, multiset{}, inputs)
    else if arms[0].send then
      var v := Evaluate(arms[0].value, st, inputs);
      StoreSends(arms[1..], Store(v.state, arms[0].storage, v.tokens), v.inputs)
    else StoreSends(arms[1..], st, inputs)
  }

  function NextSelected(selected: Option<nat>): Option<nat> {
    if selected.None? || selected.value == 0 then None else Some(selected.value - 1)
  }

  /** Every unselected send value is dropped, the selected one now belongs to the channel. */
  function SendCleanup(arms: seq<SelectArm>, selected: Option<nat>, st: State): State {
    if arms == [] then st
    else
      var next := NextSelected(selected);
      var cleaned :=
        if !arms[0].send then st
        else if selected == Some(0) then HandOver(st, arms[0].storage)
        else LocalDrop(st, arms[0].storage);
      SendCleanup(arms[1..], next, cleaned)
  }

  function ExecuteSelect(fuel: nat, s: Statement, st: State, inputs: seq<Input>,
                         scope: Scope): Ran
    requires fuel > 0 && s.Select?
    decreases fuel, 2
  {
    var sends := StoreSends(s.arms, st, inputs);
    match Poll(sends.inputs)
    case None => Ran(Suspended, sends.state, [])
    case Some(answered) => AfterPoll(fuel, s, sends.state, answered, scope)
  }

  /** The dispatch on the status and the selected index that `fdn_channel_poll_select` returned. */
  function AfterPoll(fuel: nat, s: Statement, st: State, answered: seq<Input>, scope: Scope): Ran
    requires fuel > 0 && s.Select?
    decreases fuel, 1
  {
    var rest := Tail(answered);
    if Head(answered).pick == TIMEOUT then
      if s.timeout.None? then Ran(Panicked, st, rest)
      else
        Landed(Execute(fuel - 1, s.timeout.value, SendCleanup(s.arms, None, st), rest, scope))
    else if Head(answered).pick != READY then
      Landed(Execute(fuel - 1, s.error, SendCleanup(s.arms, None, st), rest, scope))
    else RunCases(fuel, s.arms, Head(rest).pick, st, Head(answered).tokens, Tail(rest), scope)
  }

  /**
    The cases of the emitted switch, entered at the k-th (codegen.cpp:3714-3735). A break leaves
    the switch only; a case whose block falls off runs into the next one, the last into a panic.
   */
  function RunCases(fuel: nat, arms: seq<SelectArm>, k: nat, st: State, payload: Tokens,
                    inputs: seq<Input>, scope: Scope): Ran
    requires fuel > 0
    decreases fuel, 0, |arms| - k
  {
    if k >= |arms| then Ran(Panicked, st, inputs)
    else
      var bound := BindPayload(arms[k], st, payload);
      var r := Execute(fuel - 1, arms[k].body, SendCleanup(arms, Some(k), bound), inputs, scope);
      if r.outcome == Fell then
        RunCases(fuel, arms, k + 1, r.state, multiset{}, r.inputs, scope)
      else Caught(r)
  }

  /** A selected receive moves its payload into the binding. */
  function BindPayload(arm: SelectArm, st: State, payload: Tokens): State {
    if !arm.send && arm.binding.Some? then
      Store(Obtain(st, payload), arm.binding.value, payload)
    else st
  }

  /** A binding arm moves the payload out of the stored scrutinee, whose flag stays set. */
  function BindBranch(s: Statement, branch: Branch, stored: State): State
    requires s.Match?
  {
    if branch.binding.None? then stored
    else Store(stored.(frame := Put(stored.frame, s.storage, Slot(multiset{}, true))),
               branch.binding.value, Get(stored.frame, s.storage).content)
  }

  function ExecuteMatch(fuel: nat, s: Statement, st: State, inputs: seq<Input>, scope: Scope): Ran
    requires fuel > 0 && s.Match?
    decreases fuel, 0
  {
    var v := Evaluate(s.value, st, inputs);
    var stored := Store(v.state, s.storage, v.tokens);
    var selected := Head(v.inputs).pick;
    if selected >= |s.branches| then Ran(Panicked, stored, Tail(v.inputs))
    else
      var branch := s.branches[selected];
      var r := Execute(fuel - 1, branch.body, BindBranch(s, branch, stored), Tail(v.inputs),
                       scope.(cleanups := scope.cleanups + [s.storage]));
      BranchEnd(s, branch, r)
  }

  /**
    A completed arm runs its drops and goes to the end of the match. Who falls off an arm gets
    there without, and panics there if the emitter stops behind the match.
   */
  function BranchEnd(s: Statement, branch: Branch, r: Ran): Ran
    requires s.Match?
  {
    if r.outcome == Done then
      Ran(if Stops(s) then Fell else Done,
          LocalDrop(LocalDrops(r.state, branch.drops), s.storage), r.inputs)
    else if r.outcome == Fell && Stops(s) then r.(outcome := Panicked)
    else Landed(r)
  }

  // ---------- what the front end guarantees about a body ----------

  /**
    How control can leave a statement: `falls`, if it can go on behind it, says which slots alone
    can then hold tokens; `breaks` and `fells` say whether it can leave by a break or fall off.
    `Rejected`: some statement could overwrite a slot that still holds tokens.
   */
  datatype Flow = Rejected | Ways(falls: Option<set<Local>>, breaks: bool, fells: bool)

  const EXITS := Ways(None, false, false)

  function Falls(held: set<Local>): Flow {
    Ways(Some(held), false, false)
  }

  function JoinHeld(a: Option<set<Local>>, b: Option<set<Local>>): Option<set<Local>> {
    if a.None? then b else if b.None? then a else Some(a.value + b.value)
  }

  function Join(a: Flow, b: Flow): Flow {
    if a.Rejected? || b.Rejected? then Rejected
    else Ways(JoinHeld(a.falls, b.falls), a.breaks || b.breaks, a.fells || b.fells)
  }

  function Dropping(f: Flow, ls: seq<Local>): Flow {
    if f.Ways? && f.falls.Some? then f.(falls := Some(f.falls.value - set l | l in ls)) else f
  }

  /** A switch around: a break goes on behind it, with what the loop was entered with. */
  function CatchBreak(f: Flow, loopHeld: Option<set<Local>>): Flow {
    if f.Ways? && f.breaks then Ways(JoinHeld(f.falls, loopHeld), false, f.fells) else f
  }

  /** Code behind which the emitter goes on whatever happens inside. */
  function Absorb(f: Flow, loopHeld: Option<set<Local>>): Flow {
    if f.Ways? && f.fells then Ways(JoinHeld(f.falls, loopHeld), f.breaks, false) else f
  }

  function AfterExpression(e: Expression, held: set<Local>): set<Local>
    decreases e
  {
    match e
    case Move(source) => held - {source}
    case Capture(source) => held - {source}
    case Build(parts) => AfterExpressions(parts, held)
    case Pass(parts) => AfterExpressions(parts, held)
    case _ => held
  }

  function AfterExpressions(es: seq<Expression>, held: set<Local>): set<Local>
    decreases es
  {
    if es == [] then held else AfterExpressions(es[1..], AfterExpression(es[0], held))
  }

  function Pending(scope: Scope): seq<Local> {
    if scope.loopBase <= |scope.cleanups| then scope.cleanups[scope.loopBase..] else []
  }

  function Check(s: Statement, n: nat, held: set<Local>, scope: Scope,
                 loopHeld: Option<set<Local>>): Flow
    decreases s
  {
    match s
    case Let(target, value) =>
      var h := AfterExpression(value, held);
      if target < n && target !in h then Falls(h + {target}) else Rejected
    case Assign(target, value) =>
      if target < n then Falls(AfterExpression(value, held) + {target}) else Rejected
    case Discard(value) => Falls(AfterExpression(value, held))
    case Wait(task, receiver) =>
      var h := held - {task};
      if receiver.None? then Falls(h)
      else if receiver.value < n && receiver.value !in h then Falls(h + {receiver.value})
      else Rejected
    case Send(value, storage) =>
      var h := AfterExpression(value, held);
      if storage < n && storage !in h then Falls(h) else Rejected
    case Receive(storage, receiver) =>
      if storage >= n || storage in held then Rejected
      else if receiver.None? then Falls(held)
      else if receiver.value < n && receiver.value !in held then Falls(held + {receiver.value})
      else Rejected
    case Select(arms, timeout, error) =>
      var sends := CheckSends(arms, n, held);
      if sends.None? then Rejected
      else
        var base := sends.value - SendStorages(arms);
        Join(CheckArms(arms, n, sends.value, base, scope, loopHeld, false),
             Absorb(Join(if timeout.Some? then Check(timeout.value, n, base, scope, loopHeld)
                         else EXITS,
                         Check(error, n, base, scope, loopHeld)), loopHeld))
    case Match(value, storage, branches) =>
      var h := AfterExpression(value, held);
      if storage >= n || storage in h then Rejected
      else
        MatchFlow(CheckBranches(branches, n, h, storage,
                                scope.(cleanups := scope.cleanups + [storage]), loopHeld),
                  storage, Stops(s), loopHeld)
    case If(thenBlock, elseBlock) =>
      var f := Join(Check(thenBlock, n, held, scope, loopHeld),
                    Check(elseBlock, n, held, scope, loopHeld));
      if Stops(s) then f else Absorb(f, loopHeld)
    case While(body) =>
      var f := Check(body, n, held, scope.(loopBase := |scope.cleanups|), Some(held));
      if f.Rejected? || (f.falls.Some? && !(f.falls.value <= held)) then Rejected
      else Falls(held)
    case Block(statements, drops) =>
      Dropping(CheckAll(statements, n, held, scope, loopHeld), drops)
    case Return(_, _) => EXITS
    case Break(drops) => CheckJump(held, drops, scope, loopHeld, true)
    case Continue(drops) => CheckJump(held, drops, scope, loopHeld, false)
  }

  /** Behind a match where the emitter stops, no more may be held than the loop began with. */
  function MatchFlow(f: Flow, storage: Local, stops: bool, loopHeld: Option<set<Local>>): Flow {
    if f.Rejected? then Rejected
    else
      var ended := Dropping(f, [storage]);
      if !stops then Absorb(ended, loopHeld)
      else if ended.falls.None? then Ways(None, f.breaks, false)
      else if loopHeld.None? || !(ended.falls.value <= loopHeld.value) then Rejected
      else Ways(None, f.breaks, true)
  }

  /** A jump leaves no more held than the loop was entered with. */
  function CheckJump(held: set<Local>, drops: seq<Local>, scope: Scope,
                     loopHeld: Option<set<Local>>, breaks: bool): Flow
  {
    if loopHeld.None? then Rejected
    else
      var left := held - (set l | l in drops) - (set l | l in Pending(scope));
      if left <= loopHeld.value then Ways(None, breaks, false) else Rejected
  }

  function CheckAll(ss: seq<Statement>, n: nat, held: set<Local>, scope: Scope,
                    loopHeld: Option<set<Local>>): Flow
    decreases ss
  {
    if ss == [] then Falls(held)
    else
      var f := Check(ss[0], n, held, scope, loopHeld);
      if f.Rejected? || f.falls.None? then f
      else Join(f.(falls := None), CheckAll(ss[1..], n, f.falls.value, scope, loopHeld))
  }

  function CheckSends(arms: seq<SelectArm>, n: nat, held: set<Local>): Option<set<Local>> {
    if arms == [] then Some(held)
    else if arms[0].send then
      var h := AfterExpression(arms[0].value, held);
      if arms[0].storage < n && arms[0].storage !in h then
        CheckSends(arms[1..], n, h + {arms[0].storage})
      else None
    else CheckSends(arms[1..], n, held)
  }

  function SendStorages(arms: seq<SelectArm>): set<Local> {
    if arms == [] then {}
    else (if arms[0].send then {arms[0].storage} else {}) + SendStorages(arms[1..])
  }

  /** What else may be held when the case before runs into this one. */
  function Fallen(fell: bool, loopHeld: Option<set<Local>>): set<Local> {
    if fell && loopHeld.Some? then loopHeld.value else {}
  }

  function ArmFlow(arm: SelectArm, n: nat, stored: set<Local>, base: set<Local>, scope: Scope,
                   loopHeld: Option<set<Local>>): Flow
    decreases arm
  {
    if !arm.send && arm.binding.Some? then
      if arm.binding.value < n && arm.binding.value !in stored then
        Check(arm.body, n, base + {arm.binding.value}, scope, loopHeld)
      else Rejected
    else Check(arm.body, n, base, scope, loopHeld)
  }

  /** `fell`: the case before the first of these may run into it. */
  function CheckArms(arms: seq<SelectArm>, n: nat, stored: set<Local>, base: set<Local>,
                     scope: Scope, loopHeld: Option<set<Local>>, fell: bool): Flow
    decreases arms
  {
    if arms == [] then EXITS
    else
      var more := Fallen(fell, loopHeld);
      var first := ArmFlow(arms[0], n, stored + more, base + more, scope, loopHeld);
      if first.Rejected? then Rejected
      else
        Join(CatchBreak(first.(fells := false), loopHeld),
             CheckArms(arms[1..], n, stored, base, scope, loopHeld, first.fells))
  }

  function CheckBranches(branches: seq<Branch>, n: nat, held: set<Local>, storage: Local,
                         scope: Scope, loopHeld: Option<set<Local>>): Flow
    decreases branches
  {
    if branches == [] then EXITS
    else
      var branch := branches[0];
      var first :=
        if branch.binding.None? then
          Dropping(Check(branch.body, n, held + {storage}, scope, loopHeld), branch.drops)
        else if branch.binding.value < n && branch.binding.value !in held + {storage} then
          Dropping(Check(branch.body, n, held + {branch.binding.value}, scope, loopHeld),
                   branch.drops)
        else Rejected;
      Join(first, CheckBranches(branches[1..], n, held, storage, scope, loopHeld))
  }

  // ---------- conservation, primitive by primitive ----------

  predicate Holds(f: Frame, held: set<Local>) {
    forall l :: 0 <= l < |f.slots| && f.slots[l].content != multiset{} ==> l in held
  }

  /** All is accounted for, with `loose` still in a temporary of the poll function. */
  predicate Balanced(st: State, loose: Tokens) {
    st.acquired == Live(st.frame) + st.released + st.handed + loose
  }

  predicate Running(st: State, n: nat, loose: Tokens, held: set<Local>) {
    && |st.frame.slots| == n
    && Flagged(st.frame) && Balanced(st, loose) && Holds(st.frame, held)
    && st.frame.result == EMPTY
  }

  lemma Exchange(a: Tokens, x: Tokens, c: Tokens, y: Tokens, d: Tokens)
    requires x + c == y + d
    ensures (a + x) + c == (a + y) + d
  {
    calc {
      (a + x) + c;
      a + (x + c);
      a + (y + d);
      (a + y) + d;
    }
  }

  lemma {:induction false} SlotUpdate(slots: seq<Slot>, l: nat, s: Slot)
    requires l < |slots|
    ensures SlotTokens(slots[l := s]) + slots[l].content == SlotTokens(slots) + s.content
  {
    var updated := slots[l := s];
    assert SlotTokens(updated) == updated[0].content + SlotTokens(updated[1..]);
    assert SlotTokens(slots) == slots[0].content + SlotTokens(slots[1..]);
    if l == 0 {
      assert updated[1..] == slots[1..];
    } else {
      SlotUpdate(slots[1..], l - 1, s);
      assert updated[1..] == slots[1..][l - 1 := s];
      Exchange(slots[0].content, SlotTokens(updated[1..]), slots[l].content,
               SlotTokens(slots[1..]), s.content);
    }
  }

  /** Writing to an empty slot adds what is written to the frame. */
  lemma Fill(f: Frame, l: Local, s: Slot)
    requires l < |f.slots| && f.slots[l].content == multiset{}
    ensures Live(Put(f, l, s)) == Live(f) + s.content
  {
    SlotUpdate(f.slots, l, s);
    assert SlotTokens(f.slots[l := s]) == SlotTokens(f.slots) + s.content;
  }

  /** Emptying a slot removes what it held from the frame. */
  lemma Empty(f: Frame, l: Local, s: Slot)
    requires l < |f.slots| && s.content == multiset{}
    ensures Live(f) == Live(Put(f, l, s)) + f.slots[l].content
  {
    SlotUpdate(f.slots, l, s);
    assert SlotTokens(f.slots) == SlotTokens(f.slots[l := s]) + f.slots[l].content;
  }

  lemma StoreRuns(st: State, n: nat, loose: Tokens, held: set<Local>, l: Local, tokens: Tokens)
    requires Running(st, n, loose + tokens, held) && l < n && l !in held
    ensures Running(Store(st, l, tokens), n, loose, held + {l})
  {
    assert st.frame.slots[l].content == multiset{};
    Fill(st.frame, l, Slot(tokens, true));
  }

  lemma LocalDropRuns(st: State, n: nat, loose: Tokens, held: set<Local>, l: Local)
    requires Running(st, n, loose, held)
    ensures Running(LocalDrop(st, l), n, loose, held - {l})
    ensures Get(LocalDrop(st, l).frame, l).content == multiset{}
  {
    hide SlotTokens, Live;
    if l < n {
      Empty(st.frame, l, EMPTY);
    }
  }

  lemma {:induction false} LocalDropsRun(st: State, n: nat, loose: Tokens, held: set<Local>,
                                         ls: seq<Local>)
    requires Running(st, n, loose, held)
    ensures Running(LocalDrops(st, ls), n, loose, held - set l | l in ls)
    decreases |ls|
  {
    if ls != [] {
      LocalDropRuns(st, n, loose, held, ls[0]);
      LocalDropsRun(LocalDrop(st, ls[0]), n, loose, held - {ls[0]}, ls[1..]);
      assert (held - {ls[0]}) - (set l | l in ls[1..]) == held - set l | l in ls;
    }
  }

  lemma {:induction false} CleanupDropsRun(st: State, n: nat, loose: Tokens, held: set<Local>,
                                           ls: seq<Local>)
    requires Running(st, n, loose, held)
    ensures Running(CleanupDrops(st, ls), n, loose, held - set l | l in ls)
    decreases |ls|
  {
    if ls != [] {
      var last, before := ls[|ls| - 1], ls[..|ls| - 1];
      LocalDropRuns(st, n, loose, held, last);
      CleanupDropsRun(LocalDrop(st, last), n, loose, held - {last}, before);
      assert ls == before + [last];
      assert (held - {last}) - (set l | l in before) == held - set l | l in ls;
    }
  }

  lemma HandOverRuns(st: State, n: nat, loose: Tokens, held: set<Local>, l: Local)
    requires Running(st, n, loose, held)
    ensures Running(HandOver(st, l), n, loose, held - {l})
  {
    if l < n {
      Empty(st.frame, l, EMPTY);
    }
  }

  /** Taking the tokens out of a slot leaves them loose, whatever becomes of its flag. */
  lemma TakeRuns(st: State, n: nat, loose: Tokens, held: set<Local>, l: Local, flag: bool)
    requires Running(st, n, loose, held)
    ensures Running(st.(frame := Put(st.frame, l, Slot(multiset{}, flag))), n,
                    loose + Get(st.frame, l).content, held - {l})
  {
    if l < n {
      Empty(st.frame, l, Slot(multiset{}, flag));
    }
  }

  lemma {:induction false} EvaluateRuns(e: Expression, st: State, inputs: seq<Input>, n: nat,
                                        loose: Tokens, held: set<Local>)
    requires Running(st, n, loose, held)
    ensures var v := Evaluate(e, st, inputs);
            Running(v.state, n, loose + v.tokens, AfterExpression(e, held))
    decreases e
  {
    match e
    case Plain =>
    case Acquire =>
    case Move(source) => TakeRuns(st, n, loose, held, source, false);
    case Capture(source) => TakeRuns(st, n, loose, held, source, Get(st.frame, source).active);
    case Build(parts) => EvaluateAllRuns(parts, st, inputs, n, loose, held);
    case Pass(parts) => EvaluateAllRuns(parts, st, inputs, n, loose, held);
  }

  lemma {:induction false} EvaluateAllRuns(es: seq<Expression>, st: State, inputs: seq<Input>,
                                           n: nat, loose: Tokens, held: set<Local>)
    requires Running(st, n, loose, held)
    ensures var v := EvaluateAll(es, st, inputs);
            Running(v.state, n, loose + v.tokens, AfterExpressions(es, held))
    decreases es
  {
    if es != [] {
      EvaluateRuns(es[0], st, inputs, n, loose, held);
      var first := Evaluate(es[0], st, inputs);
      var after := AfterExpression(es[0], held);
      EvaluateAllRuns(es[1..], first.state, first.inputs, n, loose + first.tokens, after);
      var rest := EvaluateAll(es[1..], first.state, first.inputs);
      assert (loose + first.tokens) + rest.tokens == loose + (first.tokens + rest.tokens);
    }
  }

  // ---------- conservation over whole runs ----------

  /** What holds whenever the poll function is not running, or has panicked. */
  predicate Settled(st: State, n: nat) {
    |st.frame.slots| == n && Flagged(st.frame) && Conserved(st)
  }

  /** The slots that may hold tokens after this outcome. */
  function Left(r: Ran, flow: Flow, loopHeld: Option<set<Local>>): Option<set<Local>> {
    if flow.Rejected? then None
    else if r.outcome == Done then flow.falls
    else if r.outcome == Broke then if flow.breaks then loopHeld else None
    else if r.outcome == Fell then if flow.fells then loopHeld else None
    else loopHeld
  }

  predicate Permitted(r: Ran, n: nat, flow: Flow, loopHeld: Option<set<Local>>) {
    && Settled(r.state, n)
    && (GoesRound(r) || r.outcome == Broke ==>
          var left := Left(r, flow, loopHeld);
          left.Some? && Running(r.state, n, multiset{}, left.value))
  }

  /** A run that ends here, holding at most `held`, is permitted by a flow that falls there. */
  lemma Ends(r: Ran, n: nat, held: set<Local>, flow: Flow, loopHeld: Option<set<Local>>)
    requires Running(r.state, n, multiset{}, held)
    requires r.outcome == OutOfFuel || r.outcome == Suspended || r.outcome == Panicked
             || (r.outcome == Done && flow == Falls(held))
    ensures Permitted(r, n, flow, loopHeld)
  {
  }

  lemma PermittedJoin(r: Ran, n: nat, a: Flow, b: Flow, loopHeld: Option<set<Local>>)
    requires !Join(a, b).Rejected?
    requires Permitted(r, n, a, loopHeld) || Permitted(r, n, b, loopHeld)
    ensures Permitted(r, n, Join(a, b), loopHeld)
  {
    hide Settled, Running;
    var c := if Permitted(r, n, a, loopHeld) then a else b;
    if GoesRound(r) || r.outcome == Broke {
      RunningMore(r.state, n, Left(r, c, loopHeld).value, Left(r, Join(a, b), loopHeld).value);
    }
  }

  /** What the switch of a select makes of an arm. */
  lemma CaughtRuns(r: Ran, n: nat, f: Flow, loopHeld: Option<set<Local>>)
    requires Permitted(r, n, f, loopHeld) && r.outcome != Fell && !f.Rejected?
    ensures Permitted(Caught(r), n, CatchBreak(f.(fells := false), loopHeld), loopHeld)
  {
    hide Settled, Running;
    var flow := CatchBreak(f.(fells := false), loopHeld);
    if GoesRound(Caught(r)) {
      RunningMore(r.state, n, Left(r, f, loopHeld).value, Left(Caught(r), flow, loopHeld).value);
    }
  }

  lemma LandedRuns(r: Ran, n: nat, f: Flow, loopHeld: Option<set<Local>>)
    requires Permitted(r, n, f, loopHeld) && !f.Rejected?
    ensures Permitted(Landed(r), n, Absorb(f, loopHeld), loopHeld)
  {
    hide Settled, Running;
    var flow := Absorb(f, loopHeld);
    if GoesRound(Landed(r)) || r.outcome == Broke {
      RunningMore(r.state, n, Left(r, f, loopHeld).value, Left(Landed(r), flow, loopHeld).value);
    }
  }

  lemma {:induction false} ExecuteRuns(fuel: nat, s: Statement, st: State, inputs: seq<Input>,
                                       scope: Scope, n: nat, held: set<Local>,
                                       loopHeld: Option<set<Local>>)
    requires Running(st, n, multiset{}, held)
    requires !Check(s, n, held, scope, loopHeld).Rejected?
    ensures Permitted(Execute(fuel, s, st, inputs, scope), n,
                      Check(s, n, held, scope, loopHeld), loopHeld)
    decreases fuel, 3
  {
    hide Running, Check, Permitted;
    if fuel == 0 {
      Ends(Execute(fuel, s, st, inputs, scope), n, held,
           Check(s, n, held, scope, loopHeld), loopHeld);
    } else if s.Let? || s.Assign? || s.Discard? || s.Wait? || s.Send? || s.Receive? {
      SimpleRuns(fuel, s, st, inputs, scope, n, held, loopHeld);
    } else if s.Select? {
      SelectRuns(fuel, s, st, inputs, scope, n, held, loopHeld);
    } else if s.Match? {
      MatchRuns(fuel, s, st, inputs, scope, n, held, loopHeld);
    } else if s.If? {
      IfRuns(fuel, s, st, inputs, scope, n, held, loopHeld);
    } else if s.While? {
      WhileRuns(fuel, s, st, inputs, scope, n, held, loopHeld);
    } else if s.Block? {
      BlockRuns(fuel, s, st, inputs, scope, n, held, loopHeld);
    } else {
      ExitRuns(fuel, s, st, inputs, scope, n, held, loopHeld);
    }
  }

  lemma {:induction false} BlockRuns(fuel: nat, s: Statement, st: State, inputs: seq<Input>,
                                     scope: Scope, n: nat, held: set<Local>,
                                     loopHeld: Option<set<Local>>)
    requires fuel > 0 && s.Block? && Running(st, n, multiset{}, held)
    requires !Check(s, n, held, scope, loopHeld).Rejected?
    ensures Permitted(Execute(fuel, s, st, inputs, scope), n,
                      Check(s, n, held, scope, loopHeld), loopHeld)
    decreases fuel, 2
  {
    hide Running, Settled;
    ExecuteAllRuns(fuel - 1, s.statements, st, inputs, scope, n, held, loopHeld);
    var r := ExecuteAll(fuel - 1, s.statements, st, inputs, scope);
    if r.outcome == Done {
      var f := CheckAll(s.statements, n, held, scope, loopHeld);
      LocalDropsRun(r.state, n, multiset{}, f.falls.value, s.drops);
      var left := f.falls.value - set l | l in s.drops;
      RunningSettles(LocalDrops(r.state, s.drops), n, left);
    }
  }

  lemma {:induction false} IfRuns(fuel: nat, s: Statement, st: State, inputs: seq<Input>,
                                  scope: Scope, n: nat, held: set<Local>,
                                  loopHeld: Option<set<Local>>)
    requires fuel > 0 && s.If? && Running(st, n, multiset{}, held)
    requires !Check(s, n, held, scope, loopHeld).Rejected?
    ensures Permitted(Execute(fuel, s, st, inputs, scope), n,
                      Check(s, n, held, scope, loopHeld), loopHeld)
    decreases fuel, 2
  {
    hide Running, Permitted, Stops;
    var a := Check(s.thenBlock, n, held, scope, loopHeld);
    var b := Check(s.elseBlock, n, held, scope, loopHeld);
    var taken := if Head(inputs).pick != 0 then s.thenBlock else s.elseBlock;
    var r := Execute(fuel - 1, taken, st, Tail(inputs), scope);
    ExecuteRuns(fuel - 1, taken, st, Tail(inputs), scope, n, held, loopHeld);
    PermittedJoin(r, n, a, b, loopHeld);
    LandedRuns(r, n, Join(a, b), loopHeld);
  }

  lemma SimpleRuns(fuel: nat, s: Statement, st: State, inputs: seq<Input>, scope: Scope, n: nat,
                   held: set<Local>, loopHeld: Option<set<Local>>)
    requires fuel > 0
    requires s.Let? || s.Assign? || s.Discard? || s.Wait? || s.Send? || s.Receive?
    requires Running(st, n, multiset{}, held)
    requires !Check(s, n, held, scope, loopHeld).Rejected?
    ensures Permitted(Execute(fuel, s, st, inputs, scope), n,
                      Check(s, n, held, scope, loopHeld), loopHeld)
  {
    if s.Wait? {
      WaitRuns(s, st, inputs, n, held, scope, loopHeld);
    } else if s.Receive? {
      ReceiveRuns(s, st, inputs, n, held, scope, loopHeld);
    } else if s.Send? {
      SendRuns(s, st, inputs, n, held, scope, loopHeld);
    } else {
      StoringRuns(fuel, s, st, inputs, scope, n, held, loopHeld);
    }
  }

  lemma StoringRuns(fuel: nat, s: Statement, st: State, inputs: seq<Input>, scope: Scope, n: nat,
                    held: set<Local>, loopHeld: Option<set<Local>>)
    requires fuel > 0 && (s.Let? || s.Assign? || s.Discard?)
    requires Running(st, n, multiset{}, held)
    requires !Check(s, n, held, scope, loopHeld).Rejected?
    ensures Permitted(Execute(fuel, s, st, inputs, scope), n,
                      Check(s, n, held, scope, loopHeld), loopHeld)
  {
    hide Permitted;
    hide Running;
    EvaluateRuns(s.value, st, inputs, n, multiset{}, held);
    var v := Evaluate(s.value, st, inputs);
    var after := AfterExpression(s.value, held);
    var r := Execute(fuel, s, st, inputs, scope);
    var flow := Check(s, n, held, scope, loopHeld);
    assert multiset{} + v.tokens == v.tokens;
    if s.Discard? {
      ReleaseRuns(v.state, n, after, v.tokens);
      Ends(r, n, after, flow, loopHeld);
    } else if s.Let? {
      StoreRuns(v.state, n, multiset{}, after, s.target, v.tokens);
      Ends(r, n, after + {s.target}, flow, loopHeld);
    } else {
      LocalDropRuns(v.state, n, v.tokens, after, s.target);
      StoreRuns(LocalDrop(v.state, s.target), n, multiset{}, after - {s.target}, s.target,
                v.tokens);
      assert (after - {s.target}) + {s.target} == after + {s.target};
      Ends(r, n, after + {s.target}, flow, loopHeld);
    }
  }

  lemma ReleaseRuns(st: State, n: nat, held: set<Local>, tokens: Tokens)
    requires Running(st, n, tokens, held)
    ensures Running(st.(released := st.released + tokens), n, multiset{}, held)
  {
  }

  lemma WaitRuns(s: Statement, st: State, inputs: seq<Input>, n: nat, held: set<Local>,
                 scope: Scope, loopHeld: Option<set<Local>>)
    requires s.Wait? && Running(st, n, multiset{}, held)
    requires !Check(s, n, held, scope, loopHeld).Rejected?
    ensures Permitted(ExecuteWait(s, st, inputs), n, Check(s, n, held, scope, loopHeld), loopHeld)
  {
    hide Running;
    hide Permitted;
    var r, flow := ExecuteWait(s, st, inputs), Check(s, n, held, scope, loopHeld);
    if Poll(inputs).None? {
      Ends(r, n, held, flow, loopHeld);
    } else {
      HandOverRuns(st, n, multiset{}, held, s.task);
      if s.receiver.None? {
        Ends(r, n, held - {s.task}, flow, loopHeld);
      } else {
        var handed, result := HandOver(st, s.task), Head(Poll(inputs).value).tokens;
        ObtainRuns(handed, n, held - {s.task}, result);
        StoreRuns(Obtain(handed, result), n, multiset{}, held - {s.task}, s.receiver.value,
                  result);
        Ends(r, n, held - {s.task} + {s.receiver.value}, flow, loopHeld);
      }
    }
  }

  lemma SendRuns(s: Statement, st: State, inputs: seq<Input>, n: nat, held: set<Local>,
                 scope: Scope, loopHeld: Option<set<Local>>)
    requires s.Send? && Running(st, n, multiset{}, held)
    requires !Check(s, n, held, scope, loopHeld).Rejected?
    ensures Permitted(ExecuteSend(s, st, inputs), n, Check(s, n, held, scope, loopHeld), loopHeld)
  {
    hide Running;
    hide Permitted;
    EvaluateRuns(s.value, st, inputs, n, multiset{}, held);
    var v := Evaluate(s.value, st, inputs);
    var after := AfterExpression(s.value, held);
    StoreRuns(v.state, n, multiset{}, after, s.storage, v.tokens);
    var stored := Store(v.state, s.storage, v.tokens);
    assert (after + {s.storage}) - {s.storage} == after;
    var flow := Check(s, n, held, scope, loopHeld);
    var r := ExecuteSend(s, st, inputs);
    if r.outcome == Suspended {
      Ends(r, n, after + {s.storage}, flow, loopHeld);
    } else {
      HandOverRuns(stored, n, multiset{}, after + {s.storage}, s.storage);
      LocalDropRuns(stored, n, multiset{}, after + {s.storage}, s.storage);
      Ends(r, n, after, flow, loopHeld);
    }
  }

  lemma ReceiveRuns(s: Statement, st: State, inputs: seq<Input>, n: nat, held: set<Local>,
                    scope: Scope, loopHeld: Option<set<Local>>)
    requires s.Receive? && Running(st, n, multiset{}, held)
    requires !Check(s, n, held, scope, loopHeld).Rejected?
    ensures Permitted(ExecuteReceive(s, st, inputs), n, Check(s, n, held, scope, loopHeld),
                      loopHeld)
  {
    hide Running;
    hide Permitted;
    var r, flow := ExecuteReceive(s, st, inputs), Check(s, n, held, scope, loopHeld);
    if Poll(inputs).None? {
      Ends(r, n, held, flow, loopHeld);
    } else {
      var answered := Poll(inputs).value;
      var payload := if Head(answered).pick == READY then Head(answered).tokens else multiset{};
      ObtainRuns(st, n, held, payload);
      StoreRuns(Obtain(st, payload), n, multiset{}, held, s.storage, payload);
      var stored := Store(Obtain(st, payload), s.storage, payload);
      assert (held + {s.storage}) - {s.storage} == held;
      if s.receiver.None? {
        LocalDropRuns(stored, n, multiset{}, held + {s.storage}, s.storage);
        Ends(r, n, held, flow, loopHeld);
      } else {
        TakeRuns(stored, n, multiset{}, held + {s.storage}, s.storage, false);
        var emptied := stored.(frame := Put(stored.frame, s.storage, EMPTY));
        StoredIs(Obtain(st, payload), n, held, s.storage, payload);
        assert multiset{} + payload == payload;
        StoreRuns(emptied, n, multiset{}, held, s.receiver.value, payload);
        Ends(r, n, held + {s.receiver.value}, flow, loopHeld);
      }
    }
  }

  lemma ObtainRuns(st: State, n: nat, held: set<Local>, tokens: Tokens)
    requires Running(st, n, multiset{}, held)
    ensures Running(Obtain(st, tokens), n, multiset{} + tokens, held)
  {
  }

  lemma StoredIs(st: State, n: nat, held: set<Local>, l: Local, tokens: Tokens)
    requires l < n && Running(st, n, multiset{} + tokens, held)
    ensures Get(Store(st, l, tokens).frame, l).content == tokens
  {
  }

  lemma {:induction false} WhileRuns(fuel: nat, s: Statement, st: State, inputs: seq<Input>,
                                     scope: Scope, n: nat, held: set<Local>,
                                     loopHeld: Option<set<Local>>)
    requires fuel > 0 && s.While? && Running(st, n, multiset{}, held)
    requires !Check(s, n, held, scope, loopHeld).Rejected?
    ensures Permitted(Execute(fuel, s, st, inputs, scope), n,
                      Check(s, n, held, scope, loopHeld), loopHeld)
    decreases fuel, 0
  {
    hide Running, Settled;
    if Head(inputs).pick == 0 {
      Ends(Execute(fuel, s, st, inputs, scope), n, held,
           Check(s, n, held, scope, loopHeld), loopHeld);
    } else {
      var inner := scope.(loopBase := |scope.cleanups|);
      ExecuteRuns(fuel - 1, s.body, st, Tail(inputs), inner, n, held, Some(held));
      var iteration := Execute(fuel - 1, s.body, st, Tail(inputs), inner);
      if GoesRound(iteration) {
        IterationRuns(iteration, n, Check(s.body, n, held, inner, Some(held)), held);
        ExecuteRuns(fuel - 1, s, iteration.state, iteration.inputs, scope, n, held, loopHeld);
      }
    }
  }

  /** Where an iteration ends normally or by a jump to the head, the next one may begin. */
  lemma IterationRuns(iteration: Ran, n: nat, flow: Flow, held: set<Local>)
    requires Permitted(iteration, n, flow, Some(held))
    requires flow.Ways? && flow.falls.Some? ==> flow.falls.value <= held
    requires GoesRound(iteration)
    ensures Running(iteration.state, n, multiset{}, held)
  {
    if iteration.outcome == Done {
      RunningMore(iteration.state, n, flow.falls.value, held);
    }
  }

  lemma {:induction false} ExitRuns(fuel: nat, s: Statement, st: State, inputs: seq<Input>,
                                    scope: Scope, n: nat, held: set<Local>,
                                    loopHeld: Option<set<Local>>)
    requires fuel > 0 && (s.Return? || s.Break? || s.Continue?)
    requires Running(st, n, multiset{}, held)
    requires !Check(s, n, held, scope, loopHeld).Rejected?
    ensures Permitted(Execute(fuel, s, st, inputs, scope), n,
                      Check(s, n, held, scope, loopHeld), loopHeld)
  {
    hide Running, Settled, Permitted;
    if s.Return? {
      ReturnRuns(fuel, s, st, inputs, scope, n, held);
      ReturnEnds(Execute(fuel, s, st, inputs, scope), n, Check(s, n, held, scope, loopHeld),
                 loopHeld);
    } else {
      JumpRuns(fuel, s, st, inputs, scope, n, held, loopHeld);
    }
  }

  lemma ReturnEnds(r: Ran, n: nat, flow: Flow, loopHeld: Option<set<Local>>)
    requires r.outcome == Returned && Settled(r.state, n)
    ensures Permitted(r, n, flow, loopHeld)
  {
    hide Settled;
  }

  lemma {:induction false} JumpRuns(fuel: nat, s: Statement, st: State, inputs: seq<Input>,
                                    scope: Scope, n: nat, held: set<Local>,
                                    loopHeld: Option<set<Local>>)
    requires fuel > 0 && (s.Break? || s.Continue?)
    requires Running(st, n, multiset{}, held)
    requires !Check(s, n, held, scope, loopHeld).Rejected?
    ensures Permitted(Execute(fuel, s, st, inputs, scope), n,
                      Check(s, n, held, scope, loopHeld), loopHeld)
  {
    hide Running, Permitted;
    LocalDropsRun(st, n, multiset{}, held, s.drops);
    var dropped := LocalDrops(st, s.drops);
    CleanupDropsRun(dropped, n, multiset{}, held - (set l | l in s.drops), Pending(scope));
    var left := held - (set l | l in s.drops) - (set l | l in Pending(scope));
    var r := Execute(fuel, s, st, inputs, scope);
    RunningMore(r.state, n, left, loopHeld.value);
    JumpEnds(r, n, s.Break?, loopHeld);
  }

  lemma JumpEnds(r: Ran, n: nat, breaks: bool, loopHeld: Option<set<Local>>)
    requires r.outcome == if breaks then Broke else Continued
    requires loopHeld.Some? && Running(r.state, n, multiset{}, loopHeld.value)
    ensures Permitted(r, n, Ways(None, breaks, false), loopHeld)
  {
  }

  lemma ReturnRuns(fuel: nat, s: Statement, st: State, inputs: seq<Input>, scope: Scope, n: nat,
                   held: set<Local>)
    requires fuel > 0 && s.Return? && Running(st, n, multiset{}, held)
    ensures var r := Execute(fuel, s, st, inputs, scope);
            r.outcome == Returned && Settled(r.state, n)
  {
    hide Running;
    hide Settled;
    EvaluateRuns(s.value, st, inputs, n, multiset{}, held);
    var v := Evaluate(s.value, st, inputs);
    assert multiset{} + v.tokens == v.tokens;
    var after := AfterExpression(s.value, held);
    LocalDropsRun(v.state, n, v.tokens, after, s.drops);
    var dropped := LocalDrops(v.state, s.drops);
    var left := after - (set l | l in s.drops);
    CleanupDropsRun(dropped, n, v.tokens, left, scope.cleanups);
    var cleaned := CleanupDrops(dropped, scope.cleanups);
    ResultSettles(cleaned, n, v.tokens, left - (set l | l in scope.cleanups));
  }

  lemma ResultSettles(st: State, n: nat, tokens: Tokens, held: set<Local>)
    requires Running(st, n, tokens, held)
    ensures Settled(st.(frame := st.frame.(result := Slot(tokens, true))), n)
  {
  }

  lemma {:induction false} ExecuteAllRuns(fuel: nat, ss: seq<Statement>, st: State,
                                          inputs: seq<Input>, scope: Scope, n: nat,
                                          held: set<Local>, loopHeld: Option<set<Local>>)
    requires Running(st, n, multiset{}, held)
    requires !CheckAll(ss, n, held, scope, loopHeld).Rejected?
    ensures Permitted(ExecuteAll(fuel, ss, st, inputs, scope), n,
                      CheckAll(ss, n, held, scope, loopHeld), loopHeld)
    decreases fuel, 3
  {
    hide Running, Settled, Check, Execute;
    if fuel == 0 || ss == [] {
      Ends(ExecuteAll(fuel, ss, st, inputs, scope), n, held,
           CheckAll(ss, n, held, scope, loopHeld), loopHeld);
    } else {
      var f := Check(ss[0], n, held, scope, loopHeld);
      ExecuteRuns(fuel - 1, ss[0], st, inputs, scope, n, held, loopHeld);
      var first := Execute(fuel - 1, ss[0], st, inputs, scope);
      if first.outcome == Done {
        ExecuteAllRuns(fuel - 1, ss[1..], first.state, first.inputs, scope, n, f.falls.value,
                       loopHeld);
        var rest := CheckAll(ss[1..], n, f.falls.value, scope, loopHeld);
        PermittedJoin(ExecuteAll(fuel, ss, st, inputs, scope), n, f.(falls := None), rest,
                      loopHeld);
      } else if f.falls.Some? {
        BlockedRuns(first, n, f, loopHeld);
        var rest := CheckAll(ss[1..], n, f.falls.value, scope, loopHeld);
        PermittedJoin(first, n, f.(falls := None), rest, loopHeld);
      }
    }
  }

  lemma BlockedRuns(r: Ran, n: nat, f: Flow, loopHeld: Option<set<Local>>)
    requires Permitted(r, n, f, loopHeld) && r.outcome != Done && f.Ways?
    ensures Permitted(r, n, f.(falls := None), loopHeld)
  {
    hide Settled, Running;
  }

  lemma {:induction false} StoreSendsRuns(arms: seq<SelectArm>, st: State, inputs: seq<Input>,
                                          n: nat, held: set<Local>)
    requires Running(st, n, multiset{}, held) && CheckSends(arms, n, held).Some?
    ensures Running(StoreSends(arms, st, inputs).state, n, multiset{},
                    CheckSends(arms, n, held).value)
  {
    if arms != [] {
      if arms[0].send {
        EvaluateRuns(arms[0].value, st, inputs, n, multiset{}, held);
        var v := Evaluate(arms[0].value, st, inputs);
        var after := AfterExpression(arms[0].value, held);
        StoreRuns(v.state, n, multiset{}, after, arms[0].storage, v.tokens);
        StoreSendsRuns(arms[1..], Store(v.state, arms[0].storage, v.tokens), v.inputs, n,
                       after + {arms[0].storage});
      } else {
        StoreSendsRuns(arms[1..], st, inputs, n, held);
      }
    }
  }

  lemma {:induction false} SendCleanupRuns(arms: seq<SelectArm>, selected: Option<nat>, st: State,
                                           n: nat, held: set<Local>)
    requires Running(st, n, multiset{}, held)
    ensures Running(SendCleanup(arms, selected, st), n, multiset{}, held - SendStorages(arms))
  {
    if arms != [] {
      var next := NextSelected(selected);
      if !arms[0].send {
        SendCleanupRuns(arms[1..], next, st, n, held);
      } else {
        var l := arms[0].storage;
        HandOverRuns(st, n, multiset{}, held, l);
        LocalDropRuns(st, n, multiset{}, held, l);
        var cleaned := if selected == Some(0) then HandOver(st, l) else LocalDrop(st, l);
        SendCleanupRuns(arms[1..], next, cleaned, n, held - {l});
        assert (held - {l}) - SendStorages(arms[1..]) == held - SendStorages(arms);
      }
    }
  }

  lemma {:induction false} SelectRuns(fuel: nat, s: Statement, st: State, inputs: seq<Input>,
                                      scope: Scope, n: nat, held: set<Local>,
                                      loopHeld: Option<set<Local>>)
    requires fuel > 0 && s.Select? && Running(st, n, multiset{}, held)
    requires !Check(s, n, held, scope, loopHeld).Rejected?
    ensures Permitted(ExecuteSelect(fuel, s, st, inputs, scope), n,
                      Check(s, n, held, scope, loopHeld), loopHeld)
    decreases fuel, 2
  {
    hide Running;
    hide Permitted;
    StoreSendsRuns(s.arms, st, inputs, n, held);
    var sends := StoreSends(s.arms, st, inputs);
    var stored := CheckSends(s.arms, n, held).value;
    var flow := Check(s, n, held, scope, loopHeld);
    var r := ExecuteSelect(fuel, s, st, inputs, scope);
    if Poll(sends.inputs).None? {
      Ends(r, n, stored, flow, loopHeld);
    } else {
      var answered := Poll(sends.inputs).value;
      if Head(answered).pick != READY {
        UnselectedRuns(fuel, s, sends.state, answered, scope, n, stored, held, loopHeld);
      } else {
        SelectedRuns(fuel, s, sends.state, answered, scope, n, stored, held, loopHeld);
      }
    }
  }

  lemma {:induction false} UnselectedRuns(fuel: nat, s: Statement, st: State,
                                          answered: seq<Input>, scope: Scope, n: nat,
                                          stored: set<Local>, held: set<Local>,
                                          loopHeld: Option<set<Local>>)
    requires fuel > 0 && s.Select? && Running(st, n, multiset{}, stored)
    requires CheckSends(s.arms, n, held) == Some(stored) && Head(answered).pick != READY
    requires !Check(s, n, held, scope, loopHeld).Rejected?
    ensures Permitted(AfterPoll(fuel, s, st, answered, scope), n,
                      Check(s, n, held, scope, loopHeld), loopHeld)
    decreases fuel, 1
  {
    hide Running;
    hide Permitted;
    var base := stored - SendStorages(s.arms);
    SendCleanupRuns(s.arms, None, st, n, stored);
    var cleaned := SendCleanup(s.arms, None, st);
    var arms := CheckArms(s.arms, n, stored, base, scope, loopHeld, false);
    var onTimeout := if s.timeout.Some? then Check(s.timeout.value, n, base, scope, loopHeld)
                     else EXITS;
    var onError := Check(s.error, n, base, scope, loopHeld);
    var others := Join(onTimeout, onError);
    var r := AfterPoll(fuel, s, st, answered, scope);
    if Head(answered).pick == TIMEOUT && s.timeout.None? {
      Ends(r, n, stored, Check(s, n, held, scope, loopHeld), loopHeld);
    } else {
      var taken := if Head(answered).pick == TIMEOUT then s.timeout.value else s.error;
      ExecuteRuns(fuel - 1, taken, cleaned, Tail(answered), scope, n, base, loopHeld);
      var inner := Execute(fuel - 1, taken, cleaned, Tail(answered), scope);
      PermittedJoin(inner, n, onTimeout, onError, loopHeld);
      LandedRuns(inner, n, others, loopHeld);
      PermittedJoin(r, n, arms, Absorb(others, loopHeld), loopHeld);
    }
  }

  lemma {:induction false} SelectedRuns(fuel: nat, s: Statement, st: State, answered: seq<Input>,
                                        scope: Scope, n: nat, stored: set<Local>,
                                        held: set<Local>, loopHeld: Option<set<Local>>)
    requires fuel > 0 && s.Select? && Running(st, n, multiset{}, stored)
    requires CheckSends(s.arms, n, held) == Some(stored)
    requires Head(answered).pick == READY
    requires !Check(s, n, held, scope, loopHeld).Rejected?
    ensures Permitted(AfterPoll(fuel, s, st, answered, scope), n,
                      Check(s, n, held, scope, loopHeld), loopHeld)
    decreases fuel, 1
  {
    hide Running;
    hide Permitted;
    var rest := Tail(answered);
    var k, payload := Head(rest).pick, Head(answered).tokens;
    var base := stored - SendStorages(s.arms);
    assert s.arms[0..] == s.arms;
    if k == 0 {
      assert stored + Fallen(false, loopHeld) == stored;
    }
    if k > |s.arms| {
      assert RunCases(fuel, s.arms, k, st, payload, Tail(rest), scope)
          == Ran(Panicked, st, Tail(rest));
      Ends(AfterPoll(fuel, s, st, answered, scope), n, stored,
           Check(s, n, held, scope, loopHeld), loopHeld);
    } else {
      CasesRun(fuel, s.arms, 0, k, st, payload, Tail(rest), scope, n, stored, false, loopHeld);
      var others := Join(if s.timeout.Some? then Check(s.timeout.value, n, base, scope, loopHeld)
                         else EXITS,
                         Check(s.error, n, base, scope, loopHeld));
      PermittedJoin(AfterPoll(fuel, s, st, answered, scope), n,
                    CheckArms(s.arms, n, stored, base, scope, loopHeld, false),
                    Absorb(others, loopHeld), loopHeld);
    }
  }

  /** The switch entered at case `k`, seen from case `i` on. */
  lemma {:induction false} CasesRun(fuel: nat, arms: seq<SelectArm>, i: nat, k: nat, st: State,
                                    payload: Tokens, inputs: seq<Input>, scope: Scope, n: nat,
                                    stored: set<Local>, fell: bool, loopHeld: Option<set<Local>>)
    requires fuel > 0 && i <= k <= |arms|
    requires var base := stored - SendStorages(arms);
             !CheckArms(arms[i..], n, stored, base, scope, loopHeld, fell).Rejected?
    requires Running(st, n, multiset{},
                     if i == k then stored + Fallen(fell, loopHeld) else stored)
    ensures var base := stored - SendStorages(arms);
            Permitted(RunCases(fuel, arms, k, st, payload, inputs, scope), n,
                      CheckArms(arms[i..], n, stored, base, scope, loopHeld, fell), loopHeld)
    decreases fuel, 0, |arms| - i
  {
    hide Running;
    hide Permitted;
    var base, more := stored - SendStorages(arms), Fallen(fell, loopHeld);
    var all := CheckArms(arms[i..], n, stored, base, scope, loopHeld, fell);
    var ran := RunCases(fuel, arms, k, st, payload, inputs, scope);
    if i == |arms| {
      Ends(ran, n, stored + more, all, loopHeld);
    } else {
      var arm, later := arms[i], arms[i + 1..];
      assert arms[i..][0] == arm && arms[i..][1..] == later;
      var first := ArmFlow(arm, n, stored + more, base + more, scope, loopHeld);
      var rest := CheckArms(later, n, stored, base, scope, loopHeld, first.fells);
      var here := CatchBreak(first.(fells := false), loopHeld);
      if i < k {
        RunningMore(st, n, stored, stored + Fallen(first.fells, loopHeld));
        CasesRun(fuel, arms, i + 1, k, st, payload, inputs, scope, n, stored, first.fells,
                 loopHeld);
        PermittedJoin(ran, n, here, rest, loopHeld);
      } else {
        var r := CaseBody(fuel, arms, k, st, payload, inputs, scope);
        CaseBodyRuns(fuel, arms, k, st, payload, inputs, scope, n, stored, more, loopHeld);
        if r.outcome == Fell {
          FellRuns(r, n, first, stored, loopHeld);
          CasesRun(fuel, arms, i + 1, k + 1, r.state, multiset{}, r.inputs, scope, n, stored,
                   first.fells, loopHeld);
          PermittedJoin(ran, n, here, rest, loopHeld);
        } else {
          CaughtRuns(r, n, first, loopHeld);
          PermittedJoin(ran, n, here, rest, loopHeld);
        }
      }
    }
  }

  function CaseBody(fuel: nat, arms: seq<SelectArm>, k: nat, st: State, payload: Tokens,
                    inputs: seq<Input>, scope: Scope): Ran
    requires fuel > 0 && k < |arms|
  {
    Execute(fuel - 1, arms[k].body, SendCleanup(arms, Some(k), BindPayload(arms[k], st, payload)),
            inputs, scope)
  }

  lemma FellRuns(r: Ran, n: nat, f: Flow, stored: set<Local>, loopHeld: Option<set<Local>>)
    requires Permitted(r, n, f, loopHeld) && r.outcome == Fell && f.Ways?
    ensures f.fells && Running(r.state, n, multiset{}, stored + Fallen(f.fells, loopHeld))
  {
    hide Running, Settled;
    RunningMore(r.state, n, loopHeld.value, stored + loopHeld.value);
  }

  lemma {:induction false} CaseBodyRuns(fuel: nat, arms: seq<SelectArm>, k: nat, st: State,
                                        payload: Tokens, inputs: seq<Input>, scope: Scope, n: nat,
                                        stored: set<Local>, more: set<Local>,
                                        loopHeld: Option<set<Local>>)
    requires fuel > 0 && k < |arms| && Running(st, n, multiset{}, stored + more)
    requires var base := stored - SendStorages(arms);
             !ArmFlow(arms[k], n, stored + more, base + more, scope, loopHeld).Rejected?
    ensures var base := stored - SendStorages(arms);
            Permitted(CaseBody(fuel, arms, k, st, payload, inputs, scope), n,
                      ArmFlow(arms[k], n, stored + more, base + more, scope, loopHeld), loopHeld)
    decreases fuel, 0, 0
  {
    hide Running;
    hide Permitted;
    var arm, base := arms[k], stored - SendStorages(arms);
    BindPayloadRuns(arm, st, payload, n, stored + more, scope, base + more, loopHeld);
    var bound := BindPayload(arm, st, payload);
    var binding := if !arm.send && arm.binding.Some? then {arm.binding.value} else {};
    SendCleanupRuns(arms, Some(k), bound, n, stored + more + binding);
    var cleaned := SendCleanup(arms, Some(k), bound);
    LessIsMore(stored, more + binding, SendStorages(arms));
    assert stored + more + binding == stored + (more + binding);
    assert base + (more + binding) == base + more + binding;
    RunningMore(cleaned, n, (stored + more + binding) - SendStorages(arms),
                base + more + binding);
    if binding == {} {
      assert base + more + {} == base + more;
    }
    assert ArmFlow(arm, n, stored + more, base + more, scope, loopHeld)
        == Check(arm.body, n, base + more + binding, scope, loopHeld);
    ExecuteRuns(fuel - 1, arm.body, cleaned, inputs, scope, n, base + more + binding, loopHeld);
  }

  /** Every send of a select has a storage of its own. */
  predicate OwnStorages(arms: seq<SelectArm>) {
    arms != [] ==>
      (arms[0].send ==> arms[0].storage !in SendStorages(arms[1..])) && OwnStorages(arms[1..])
  }

  /** What the send of an arm holds, if the arm was selected or not, as `chosen` says. */
  function SendTokens(arms: seq<SelectArm>, selected: Option<nat>, f: Frame, chosen: bool): Tokens {
    if arms == [] then multiset{}
    else
      var next := NextSelected(selected);
      (if arms[0].send && (selected == Some(0)) == chosen then Get(f, arms[0].storage).content
       else multiset{})
      + SendTokens(arms[1..], next, f, chosen)
  }

  lemma {:induction false} SendTokensFrame(arms: seq<SelectArm>, selected: Option<nat>, f: Frame,
                                           g: Frame, chosen: bool)
    requires forall l | l in SendStorages(arms) :: Get(f, l) == Get(g, l)
    ensures SendTokens(arms, selected, f, chosen) == SendTokens(arms, selected, g, chosen)
  {
    if arms != [] {
      var next := NextSelected(selected);
      if arms[0].send {
        assert arms[0].storage in SendStorages(arms);
      }
      SendTokensFrame(arms[1..], next, f, g, chosen);
    }
  }

  function Disposed(st: State, l: Local, chosen: bool): State {
    if chosen then HandOver(st, l) else LocalDrop(st, l)
  }

  /** A drop releases what the slot holds, under its flag or because there is nothing. */
  lemma DisposedOf(st: State, n: nat, held: set<Local>, l: Local, chosen: bool)
    requires Running(st, n, multiset{}, held)
    ensures var after := Disposed(st, l, chosen);
            && Running(after, n, multiset{}, held - {l})
            && Get(after.frame, l) == EMPTY
            && after.released
               == st.released + (if chosen then multiset{} else Get(st.frame, l).content)
            && after.handed
               == st.handed + (if chosen then Get(st.frame, l).content else multiset{})
            && forall k: nat | k != l :: Get(after.frame, k) == Get(st.frame, k)
  {
    HandOverRuns(st, n, multiset{}, held, l);
    LocalDropRuns(st, n, multiset{}, held, l);
    InactiveIsEmpty(st, n, held, l);
    hide Running;
  }

  lemma InactiveIsEmpty(st: State, n: nat, held: set<Local>, l: Local)
    requires Running(st, n, multiset{}, held)
    ensures !Get(st.frame, l).active ==> Get(st.frame, l) == EMPTY
  {
  }

  /** The slots after the clean-up of a select: its storages are empty, the others the same. */
  lemma {:induction false} SendStoragesCleared(arms: seq<SelectArm>, selected: Option<nat>,
                                               st: State, n: nat, held: set<Local>)
    requires Running(st, n, multiset{}, held) && OwnStorages(arms)
    ensures var after := SendCleanup(arms, selected, st).frame;
            && (forall l | l in SendStorages(arms) :: Get(after, l) == EMPTY)
            && (forall l: nat | l !in SendStorages(arms) :: Get(after, l) == Get(st.frame, l))
  {
    hide Running, Get;
    if arms != [] {
      var next, rest := NextSelected(selected), arms[1..];
      if arms[0].send {
        var l := arms[0].storage;
        var cleaned := Disposed(st, l, selected == Some(0));
        DisposedOf(st, n, held, l, selected == Some(0));
        SendStoragesCleared(rest, next, cleaned, n, held - {l});
        assert SendCleanup(arms, selected, st) == SendCleanup(rest, next, cleaned);
      } else {
        SendStoragesCleared(rest, next, st, n, held);
      }
    }
  }

  /**
    The clean-up of a select hands the selected value over and releases each unselected one, once.
   */
  lemma {:induction false} SendsAreDisposedOf(arms: seq<SelectArm>, selected: Option<nat>,
                                              st: State, n: nat, held: set<Local>)
    requires Running(st, n, multiset{}, held) && OwnStorages(arms)
    ensures var after := SendCleanup(arms, selected, st);
            && after.released == st.released + SendTokens(arms, selected, st.frame, false)
            && after.handed == st.handed + SendTokens(arms, selected, st.frame, true)
  {
    hide Running, Get;
    if arms != [] {
      var next, rest := NextSelected(selected), arms[1..];
      if arms[0].send {
        var l := arms[0].storage;
        var cleaned := Disposed(st, l, selected == Some(0));
        DisposedOf(st, n, held, l, selected == Some(0));
        SendsAreDisposedOf(rest, next, cleaned, n, held - {l});
        SendTokensFrame(rest, next, cleaned.frame, st.frame, true);
        SendTokensFrame(rest, next, cleaned.frame, st.frame, false);
        assert SendCleanup(arms, selected, st) == SendCleanup(rest, next, cleaned);
        TokensStep(arms, selected, st.frame, st.released, false);
        TokensStep(arms, selected, st.frame, st.handed, true);
      } else {
        SendsAreDisposedOf(rest, next, st, n, held);
        assert SendCleanup(arms, selected, st) == SendCleanup(rest, next, st);
      }
    }
  }

  lemma TokensStep(arms: seq<SelectArm>, selected: Option<nat>, f: Frame, before: Tokens,
                   chosen: bool)
    requires arms != [] && arms[0].send
    ensures var here := if (selected == Some(0)) == chosen then Get(f, arms[0].storage).content
                        else multiset{};
            (before + here) + SendTokens(arms[1..], NextSelected(selected), f, chosen)
            == before + SendTokens(arms, selected, f, chosen)
  {
  }

  lemma LessIsMore(a: set<Local>, b: set<Local>, c: set<Local>)
    ensures (a + b) - c <= (a - c) + b
  {
  }

  lemma RunningMore(st: State, n: nat, held: set<Local>, more: set<Local>)
    requires Running(st, n, multiset{}, held) && held <= more
    ensures Running(st, n, multiset{}, more)
  {
  }

  lemma BindPayloadRuns(arm: SelectArm, st: State, payload: Tokens, n: nat, stored: set<Local>,
                        scope: Scope, base: set<Local>, loopHeld: Option<set<Local>>)
    requires Running(st, n, multiset{}, stored)
    requires !ArmFlow(arm, n, stored, base, scope, loopHeld).Rejected?
    ensures Running(BindPayload(arm, st, payload), n, multiset{},
                    stored + if !arm.send && arm.binding.Some? then {arm.binding.value} else {})
  {
    if !arm.send && arm.binding.Some? {
      StoreRuns(Obtain(st, payload), n, multiset{}, stored, arm.binding.value, payload);
    } else {
      assert stored + {} == stored;
    }
  }

  function BranchEntry(branch: Branch, n: nat, held: set<Local>, storage: Local): set<Local> {
    if branch.binding.None? then held + {storage} else held + {branch.binding.value}
  }

  lemma {:induction false} BranchPermitted(branches: seq<Branch>, k: nat, n: nat,
                                           held: set<Local>, storage: Local, scope: Scope,
                                           loopHeld: Option<set<Local>>)
    requires k < |branches|
    requires !CheckBranches(branches, n, held, storage, scope, loopHeld).Rejected?
    ensures branches[k].binding.Some? ==>
              branches[k].binding.value < n && branches[k].binding.value !in held + {storage}
    ensures var f := Check(branches[k].body, n, BranchEntry(branches[k], n, held, storage),
                           scope, loopHeld);
            var all := CheckBranches(branches, n, held, storage, scope, loopHeld);
            && !f.Rejected? && (f.breaks ==> all.breaks) && (f.fells ==> all.fells)
            && (f.falls.Some? ==> all.falls.Some?)
            && (f.falls.Some? ==>
                  f.falls.value - (set l | l in branches[k].drops) <= all.falls.value)
  {
    if k > 0 {
      BranchPermitted(branches[1..], k - 1, n, held, storage, scope, loopHeld);
    }
  }

  lemma {:induction false} MatchRuns(fuel: nat, s: Statement, st: State, inputs: seq<Input>,
                                     scope: Scope, n: nat, held: set<Local>,
                                     loopHeld: Option<set<Local>>)
    requires fuel > 0 && s.Match? && Running(st, n, multiset{}, held)
    requires !Check(s, n, held, scope, loopHeld).Rejected?
    ensures Permitted(ExecuteMatch(fuel, s, st, inputs, scope), n,
                      Check(s, n, held, scope, loopHeld), loopHeld)
    decreases fuel, 0
  {
    hide Running, Stops;
    hide Permitted;
    EvaluateRuns(s.value, st, inputs, n, multiset{}, held);
    var v := Evaluate(s.value, st, inputs);
    var h := AfterExpression(s.value, held);
    StoreRuns(v.state, n, multiset{}, h, s.storage, v.tokens);
    var stored := Store(v.state, s.storage, v.tokens);
    var selected := Head(v.inputs).pick;
    var flow := Check(s, n, held, scope, loopHeld);
    var result := ExecuteMatch(fuel, s, st, inputs, scope);
    if selected >= |s.branches| {
      Ends(result, n, h + {s.storage}, flow, loopHeld);
    } else {
      var inner := scope.(cleanups := scope.cleanups + [s.storage]);
      BranchPermitted(s.branches, selected, n, h, s.storage, inner, loopHeld);
      var branch := s.branches[selected];
      var entry := BranchEntry(branch, n, h, s.storage);
      BindBranchRuns(s, branch, stored, n, h);
      var bound := BindBranch(s, branch, stored);
      ExecuteRuns(fuel - 1, branch.body, bound, Tail(v.inputs), inner, n, entry, loopHeld);
      var r := Execute(fuel - 1, branch.body, bound, Tail(v.inputs), inner);
      var f := Check(branch.body, n, entry, inner, loopHeld);
      var all := CheckBranches(s.branches, n, h, s.storage, inner, loopHeld);
      BranchEnds(r, s, branch, n, f, all, loopHeld);
      assert result == BranchEnd(s, branch, r);
    }
  }

  lemma BindBranchRuns(s: Statement, branch: Branch, stored: State, n: nat, h: set<Local>)
    requires s.Match? && Running(stored, n, multiset{}, h + {s.storage}) && s.storage !in h
    requires branch.binding.Some? ==>
               branch.binding.value < n && branch.binding.value !in h + {s.storage}
    ensures Running(BindBranch(s, branch, stored), n, multiset{},
                    BranchEntry(branch, n, h, s.storage))
  {
    if branch.binding.Some? {
      TakeRuns(stored, n, multiset{}, h + {s.storage}, s.storage, true);
      assert (h + {s.storage}) - {s.storage} == h;
      var taken := stored.(frame := Put(stored.frame, s.storage, Slot(multiset{}, true)));
      StoreRuns(taken, n, multiset{}, h, branch.binding.value,
                Get(stored.frame, s.storage).content);
    }
  }

  lemma BranchEnds(r: Ran, s: Statement, branch: Branch, n: nat, f: Flow, all: Flow,
                   loopHeld: Option<set<Local>>)
    requires s.Match? && Permitted(r, n, f, loopHeld) && f.Ways? && all.Ways?
    requires (f.breaks ==> all.breaks) && (f.fells ==> all.fells)
    requires f.falls.Some? ==>
               all.falls.Some? && f.falls.value - (set l | l in branch.drops) <= all.falls.value
    requires !MatchFlow(all, s.storage, Stops(s), loopHeld).Rejected?
    ensures Permitted(BranchEnd(s, branch, r), n, MatchFlow(all, s.storage, Stops(s), loopHeld),
                      loopHeld)
  {
    hide Running, Settled, Stops;
    var flow := MatchFlow(all, s.storage, Stops(s), loopHeld);
    var ended := BranchEnd(s, branch, r);
    if r.outcome == Done {
      LocalDropsRun(r.state, n, multiset{}, f.falls.value, branch.drops);
      var left := f.falls.value - (set l | l in branch.drops);
      var dropped := LocalDrops(r.state, branch.drops);
      LocalDropRuns(dropped, n, multiset{}, left, s.storage);
      RunningMore(ended.state, n, left - {s.storage}, Dropping(all, [s.storage]).falls.value);
      RunningMore(ended.state, n, Dropping(all, [s.storage]).falls.value,
                  Left(ended, flow, loopHeld).value);
      RunningSettles(ended.state, n, Left(ended, flow, loopHeld).value);
    } else if GoesRound(r) || r.outcome == Broke {
      if ended.outcome != Panicked {
        RunningMore(r.state, n, loopHeld.value, Left(ended, flow, loopHeld).value);
      }
    }
  }

  lemma RunningSettles(st: State, n: nat, held: set<Local>)
    requires Running(st, n, multiset{}, held)
    ensures Settled(st, n)
  {
  }

  // ---------- a scrutinee is dropped on every way out of its match ----------

  lemma {:induction false} CleanupClears(st: State, ls: seq<Local>, l: Local)
    requires l in ls || !Get(st.frame, l).active
    ensures !Get(CleanupDrops(st, ls).frame, l).active
    decreases |ls|
  {
    if ls != [] {
      var last, before := ls[|ls| - 1], ls[..|ls| - 1];
      assert ls == before + [last];
      CleanupClears(LocalDrop(st, last), before, l);
    }
  }

  /** Returns and jumps pass the drops of every pending scrutinee. */
  predicate Clears(r: Ran, scope: Scope, l: Local) {
    && (r.outcome == Returned && l in scope.cleanups ==> !Get(r.state.frame, l).active)
    && ((r.outcome == Broke || r.outcome == Continued) && l in Pending(scope) ==>
          !Get(r.state.frame, l).active)
  }

  lemma {:induction false} ExitClears(fuel: nat, s: Statement, st: State, inputs: seq<Input>,
                                      scope: Scope, l: Local)
    ensures Clears(Execute(fuel, s, st, inputs, scope), scope, l)
    decreases fuel, 3
  {
    if fuel == 0 {
    } else if s.Select? {
      SelectClears(fuel, s, st, inputs, scope, l);
    } else if s.Match? {
      MatchClears(fuel, s, st, inputs, scope, l);
    } else if s.If? {
      var taken := if Head(inputs).pick != 0 then s.thenBlock else s.elseBlock;
      ExitClears(fuel - 1, taken, st, Tail(inputs), scope, l);
    } else if s.While? {
      var inner := scope.(loopBase := |scope.cleanups|);
      ExitClears(fuel - 1, s.body, st, Tail(inputs), inner, l);
      var iteration := Execute(fuel - 1, s.body, st, Tail(inputs), inner);
      ExitClears(fuel - 1, s, iteration.state, iteration.inputs, scope, l);
    } else if s.Block? {
      AllExitsClear(fuel - 1, s.statements, st, inputs, scope, l);
    } else if s.Return? {
      var v := Evaluate(s.value, st, inputs);
      if l in scope.cleanups {
        CleanupClears(LocalDrops(v.state, s.drops), scope.cleanups, l);
      }
    } else if s.Break? || s.Continue? {
      if l in Pending(scope) {
        CleanupClears(LocalDrops(st, s.drops), Pending(scope), l);
      }
    }
  }

  lemma {:induction false} AllExitsClear(fuel: nat, ss: seq<Statement>, st: State,
                                         inputs: seq<Input>, scope: Scope, l: Local)
    ensures Clears(ExecuteAll(fuel, ss, st, inputs, scope), scope, l)
    decreases fuel, 3
  {
    if fuel > 0 && ss != [] {
      ExitClears(fuel - 1, ss[0], st, inputs, scope, l);
      var first := Execute(fuel - 1, ss[0], st, inputs, scope);
      AllExitsClear(fuel - 1, ss[1..], first.state, first.inputs, scope, l);
    }
  }

  lemma {:induction false} SelectClears(fuel: nat, s: Statement, st: State, inputs: seq<Input>,
                                        scope: Scope, l: Local)
    requires fuel > 0 && s.Select?
    ensures Clears(ExecuteSelect(fuel, s, st, inputs, scope), scope, l)
    decreases fuel, 2
  {
    var sends := StoreSends(s.arms, st, inputs);
    if Poll(sends.inputs).Some? {
      var answered := Poll(sends.inputs).value;
      var cleaned := SendCleanup(s.arms, None, sends.state);
      if Head(answered).pick == READY {
        CasesClear(fuel, s.arms, Head(Tail(answered)).pick, sends.state, Head(answered).tokens,
                   Tail(Tail(answered)), scope, l);
      } else if Head(answered).pick != TIMEOUT {
        ExitClears(fuel - 1, s.error, cleaned, Tail(answered), scope, l);
      } else if s.timeout.Some? {
        ExitClears(fuel - 1, s.timeout.value, cleaned, Tail(answered), scope, l);
      }
    }
  }

  lemma {:induction false} CasesClear(fuel: nat, arms: seq<SelectArm>, k: nat, st: State,
                                      payload: Tokens, inputs: seq<Input>, scope: Scope, l: Local)
    requires fuel > 0
    ensures Clears(RunCases(fuel, arms, k, st, payload, inputs, scope), scope, l)
    decreases fuel, 0, |arms| - k
  {
    if k < |arms| {
      var cleaned := SendCleanup(arms, Some(k), BindPayload(arms[k], st, payload));
      ExitClears(fuel - 1, arms[k].body, cleaned, inputs, scope, l);
      var r := Execute(fuel - 1, arms[k].body, cleaned, inputs, scope);
      CasesClear(fuel, arms, k + 1, r.state, multiset{}, r.inputs, scope, l);
    }
  }

  /** The run of the matching arm, with the scrutinee pending. */
  function ArmRun(fuel: nat, s: Statement, st: State, inputs: seq<Input>, scope: Scope): Ran
    requires fuel > 0 && s.Match?
  {
    var v := Evaluate(s.value, st, inputs);
    var stored := Store(v.state, s.storage, v.tokens);
    var selected := Head(v.inputs).pick;
    if selected >= |s.branches| then Ran(Panicked, stored, Tail(v.inputs))
    else
      Execute(fuel - 1, s.branches[selected].body, BindBranch(s, s.branches[selected], stored),
              Tail(v.inputs), scope.(cleanups := scope.cleanups + [s.storage]))
  }

  lemma {:induction false} MatchClears(fuel: nat, s: Statement, st: State, inputs: seq<Input>,
                                       scope: Scope, l: Local)
    requires fuel > 0 && s.Match?
    ensures Clears(ExecuteMatch(fuel, s, st, inputs, scope), scope, l)
    ensures Clears(ArmRun(fuel, s, st, inputs, scope),
                   scope.(cleanups := scope.cleanups + [s.storage]), l)
    decreases fuel, 0
  {
    hide Stops, Evaluate, Store, BindBranch, LocalDrops, LocalDrop;
    var v := Evaluate(s.value, st, inputs);
    var stored := Store(v.state, s.storage, v.tokens);
    var selected := Head(v.inputs).pick;
    if selected < |s.branches| {
      var branch := s.branches[selected];
      var inner := scope.(cleanups := scope.cleanups + [s.storage]);
      ExitClears(fuel - 1, branch.body, BindBranch(s, branch, stored), Tail(v.inputs), inner, l);
      if scope.loopBase <= |scope.cleanups| {
        assert Pending(inner) == Pending(scope) + [s.storage];
      }
    }
  }

  /**
    However control leaves a match (a completed arm, a return or a jump), the flag of its stored
    scrutinee is down, and with it, tokens lying under set flags only, the scrutinee is gone.
   */
  lemma ScrutineeIsDropped(fuel: nat, s: Statement, st: State, inputs: seq<Input>, scope: Scope)
    requires fuel > 0 && s.Match? && scope.loopBase <= |scope.cleanups|
    requires var way := ArmRun(fuel, s, st, inputs, scope).outcome;
             way == Done || way == Returned || way == Broke || way == Continued
    ensures !Get(ExecuteMatch(fuel, s, st, inputs, scope).state.frame, s.storage).active
  {
    hide Stops;
    var inner := scope.(cleanups := scope.cleanups + [s.storage]);
    assert Pending(inner) == Pending(scope) + [s.storage];
    assert s.storage in inner.cleanups && s.storage in Pending(inner);
    MatchClears(fuel, s, st, inputs, scope, s.storage);
  }

  // ---------- spawning, polling, moving the result out, dropping the frame ----------

  /** The frame that emitSpawn allocates: all arguments in, everything else inactive. */
  function Spawned(arguments: seq<Tokens>, n: nat): State {
    State(Frame(arguments, true, seq(n, _ => EMPTY), EMPTY), ArgumentTokens(arguments),
          multiset{}, multiset{})
  }

  /** State 0 of the poll function moves every argument into its parameter slot. */
  function MoveArguments(f: Frame, parameters: seq<Local>, arguments: seq<Tokens>): Frame
    requires |parameters| == |arguments|
    decreases |parameters|
  {
    if parameters == [] then f
    else MoveArguments(Put(f, parameters[0], Slot(arguments[0], true)), parameters[1..],
                       arguments[1..])
  }

  function Enter(st: State, parameters: seq<Local>): State
    requires |parameters| == |st.frame.arguments|
  {
    var moved := MoveArguments(st.frame, parameters, st.frame.arguments);
    st.(frame := moved.(arguments := [], argumentsActive := false))
  }

  function RunTask(fuel: nat, body: Statement, parameters: seq<Local>, arguments: seq<Tokens>,
                   n: nat, inputs: seq<Input>): Ran
    requires |parameters| == |arguments|
  {
    Execute(fuel, body, Enter(Spawned(arguments, n), parameters), inputs, Scope([], 0))
  }

  /** What the front end guarantees about a task function with `n` droppable locals. */
  predicate WellFormed(body: Statement, parameters: seq<Local>, n: nat) {
    && Distinct(parameters) && (forall i :: 0 <= i < |parameters| ==> parameters[i] < n)
    && !Check(body, n, (set l | l in parameters), Scope([], 0), None).Rejected?
  }

  lemma {:induction false} MoveArgumentsRuns(st: State, parameters: seq<Local>,
                                             arguments: seq<Tokens>, n: nat, held: set<Local>)
    requires |parameters| == |arguments| && Distinct(parameters)
    requires forall i :: 0 <= i < |parameters| ==> parameters[i] < n && parameters[i] !in held
    requires Running(st, n, ArgumentTokens(arguments), held)
    ensures Running(st.(frame := MoveArguments(st.frame, parameters, arguments)), n, multiset{},
                    held + set l | l in parameters)
    decreases |parameters|
  {
    hide Running;
    if parameters == [] {
      assert held + (set l | l in parameters) == held;
      assert ArgumentTokens(arguments) == multiset{};
    } else {
      var l, later := parameters[0], arguments[1..];
      assert ArgumentTokens(arguments) == ArgumentTokens(later) + arguments[0];
      StoreRuns(st, n, ArgumentTokens(later), held, l, arguments[0]);
      var stored := Store(st, l, arguments[0]);
      MoveArgumentsRuns(stored, parameters[1..], later, n, held + {l});
      assert (held + {l}) + (set k | k in parameters[1..]) == held + (set k | k in parameters);
      assert stored.(frame := MoveArguments(stored.frame, parameters[1..], later))
          == st.(frame := MoveArguments(st.frame, parameters, arguments));
    }
  }

  lemma {:induction false} EmptySlots(n: nat)
    ensures SlotTokens(seq(n, _ => EMPTY)) == multiset{}
  {
    if n > 0 {
      EmptySlots(n - 1);
      assert seq(n, _ => EMPTY)[1..] == seq(n - 1, _ => EMPTY);
    }
  }

  /** Entering a freshly spawned frame puts every argument token under its parameter's flag. */
  lemma EnterRuns(parameters: seq<Local>, arguments: seq<Tokens>, n: nat)
    requires |parameters| == |arguments| && Distinct(parameters)
    requires forall i :: 0 <= i < |parameters| ==> parameters[i] < n
    ensures Running(Enter(Spawned(arguments, n), parameters), n, multiset{},
                    set l | l in parameters)
  {
    EmptySlots(n);
    var spawned := Spawned(arguments, n);
    var running := spawned.(frame := spawned.frame.(arguments := [], argumentsActive := false));
    assert Running(running, n, ArgumentTokens(arguments), {});
    MoveArgumentsRuns(running, parameters, arguments, n, {});
    MoveArgumentsIgnore(spawned.frame, running.frame, parameters, arguments);
    assert {} + (set l | l in parameters) == set l | l in parameters;
  }

  lemma {:induction false} MoveArgumentsIgnore(f: Frame, g: Frame, parameters: seq<Local>,
                                               arguments: seq<Tokens>)
    requires |parameters| == |arguments|
    requires g == f.(arguments := [], argumentsActive := false)
    ensures MoveArguments(g, parameters, arguments)
         == MoveArguments(f, parameters, arguments).(arguments := [], argumentsActive := false)
    decreases |parameters|
  {
    if parameters != [] {
      var s := Slot(arguments[0], true);
      MoveArgumentsIgnore(Put(f, parameters[0], s), Put(g, parameters[0], s), parameters[1..],
                          arguments[1..]);
    }
  }

  /** The list from its last element down to the k-th. */
  function DownTo(xs: seq<Tokens>, k: nat): (r: seq<Tokens>)
    ensures k <= |xs| ==> |r| == |xs| - k && forall i :: 0 <= i < |r| ==> r[i] == xs[|xs| - 1 - i]
    decreases |xs| - k
  {
    if k >= |xs| then [] else DownTo(xs, k + 1) + [xs[k]]
  }

  /** The contents of the active slots from the last down to the k-th. */
  function SlotDrops(slots: seq<Slot>, k: nat): seq<Tokens>
    decreases |slots| - k
  {
    if k >= |slots| then []
    else SlotDrops(slots, k + 1) + if slots[k].active then [slots[k].content] else []
  }

  /** What the drop function of a frame drops, in its order. */
  function FrameDrops(f: Frame): seq<Tokens> {
    (if f.argumentsActive then DownTo(f.arguments, 0) else [])
    + SlotDrops(f.slots, 0)
    + (if f.result.active then [f.result.content] else [])
  }

  lemma {:induction false} ArgumentTokensAppend(xs: seq<Tokens>, ys: seq<Tokens>)
    ensures ArgumentTokens(xs + ys) == ArgumentTokens(xs) + ArgumentTokens(ys)
  {
    if xs == [] {
      assert xs + ys == ys;
    } else {
      assert (xs + ys)[1..] == xs[1..] + ys;
      ArgumentTokensAppend(xs[1..], ys);
    }
  }

  lemma {:induction false} DownToTokens(xs: seq<Tokens>, k: nat)
    requires k <= |xs|
    ensures ArgumentTokens(DownTo(xs, k)) == ArgumentTokens(xs[k..])
    decreases |xs| - k
  {
    if k < |xs| {
      DownToTokens(xs, k + 1);
      var here: seq<Tokens> := [xs[k]];
      ArgumentTokensAppend(DownTo(xs, k + 1), here);
      assert xs[k..] == here + xs[k + 1..] && here[1..] == [];
    }
  }

  lemma {:induction false} SlotDropsTokens(slots: seq<Slot>, k: nat)
    requires k <= |slots|
    ensures ArgumentTokens(SlotDrops(slots, k)) == ActiveTokens(slots[k..])
    decreases |slots| - k
  {
    if k < |slots| {
      SlotDropsTokens(slots, k + 1);
      var here := if slots[k].active then [slots[k].content] else [];
      ArgumentTokensAppend(SlotDrops(slots, k + 1), here);
      assert slots[k..] == [slots[k]] + slots[k + 1..];
      assert here != [] ==> here[1..] == [];
    }
  }

  /** The drops of a frame release all that its flags guard. */
  lemma FrameDropsTokens(f: Frame)
    ensures ArgumentTokens(FrameDrops(f)) == FrameDropTokens(f)
  {
    hide DownTo, SlotDrops, ActiveTokens;
    DownToTokens(f.arguments, 0);
    SlotDropsTokens(f.slots, 0);
    assert f.arguments[0..] == f.arguments && f.slots[0..] == f.slots;
    var first := if f.argumentsActive then DownTo(f.arguments, 0) else [];
    var last := if f.result.active then [f.result.content] else [];
    ArgumentTokensAppend(first + SlotDrops(f.slots, 0), last);
    ArgumentTokensAppend(first, SlotDrops(f.slots, 0));
    assert last != [] ==> last[1..] == [];
  }

  /** What dropping the frame releases: arguments, slots and result, each under its flag. */
  function FrameDropTokens(f: Frame): Tokens {
    (if f.argumentsActive then ArgumentTokens(f.arguments) else multiset{})
    + ActiveTokens(f.slots)
    + (if f.result.active then f.result.content else multiset{})
  }

  function ActiveTokens(slots: seq<Slot>): Tokens {
    if slots == [] then multiset{}
    else (if slots[0].active then slots[0].content else multiset{}) + ActiveTokens(slots[1..])
  }

  lemma {:induction false} ActiveIsAll(slots: seq<Slot>)
    requires forall l :: 0 <= l < |slots| && slots[l].content != multiset{} ==> slots[l].active
    ensures ActiveTokens(slots) == SlotTokens(slots)
  {
    if slots != [] {
      assert forall l :: 0 <= l < |slots[1..]| ==> slots[1..][l] == slots[l + 1];
      ActiveIsAll(slots[1..]);
    }
  }

  /**
    Wherever a run of a task body stops (suspended, returned, fallen off the end or out of
    steps), dropping the frame releases everything that is left, so that every token acquired
    was released or handed over once.
   */
  lemma TaskConserves(fuel: nat, body: Statement, parameters: seq<Local>,
                      arguments: seq<Tokens>, n: nat, inputs: seq<Input>)
    requires |parameters| == |arguments| && WellFormed(body, parameters, n)
    ensures var st := RunTask(fuel, body, parameters, arguments, n, inputs).state;
            && Settled(st, n)
            && st.acquired == FrameDropTokens(st.frame) + st.released + st.handed
  {
    hide Check, Execute, Enter, Running;
    EnterRuns(parameters, arguments, n);
    var entered := Enter(Spawned(arguments, n), parameters);
    ExecuteRuns(fuel, body, entered, inputs, Scope([], 0), n, (set l | l in parameters), None);
    var st := RunTask(fuel, body, parameters, arguments, n, inputs).state;
    ActiveIsAll(st.frame.slots);
  }

  /** A task dropped before its first poll releases exactly its arguments. */
  lemma UnpolledTaskConserves(arguments: seq<Tokens>, n: nat)
    ensures FrameDropTokens(Spawned(arguments, n).frame) == ArgumentTokens(arguments)
  {
    EmptySlots(n);
    ActiveIsAll(seq(n, _ => EMPTY));
  }

  /** Moving the result out first hands its tokens over; the drop releases all the others. */
  lemma MoveResultThenDrop(st: State, n: nat)
    requires Settled(st, n)
    ensures var moved := st.(frame := st.frame.(result := EMPTY),
                             handed := st.handed + st.frame.result.content);
            && Settled(moved, n)
            && st.acquired == FrameDropTokens(moved.frame) + moved.released + moved.handed
  {
    ActiveIsAll(st.frame.slots);
  }

  lemma {:induction false} TwoSlots(slots: seq<Slot>, l: nat, k: nat, t: Token)
    requires l < k < |slots|
    ensures SlotTokens(slots)[t] >= slots[l].content[t] + slots[k].content[t]
  {
    if l > 0 {
      TwoSlots(slots[1..], l - 1, k - 1, t);
    } else {
      OneSlot(slots[1..], k - 1, t);
    }
  }

  lemma {:induction false} OneSlot(slots: seq<Slot>, l: nat, t: Token)
    requires l < |slots|
    ensures SlotTokens(slots)[t] >= slots[l].content[t]
  {
    if l > 0 {
      OneSlot(slots[1..], l - 1, t);
    }
  }

  /** A token acquired once is in one slot, under a set flag, and nowhere else. */
  lemma OneOwner(st: State, n: nat, l: nat, t: Token)
    requires Settled(st, n) && st.acquired[t] <= 1
    requires l < n && t in st.frame.slots[l].content
    ensures st.frame.slots[l].active
    ensures forall k :: 0 <= k < n && k != l ==> t !in st.frame.slots[k].content
    ensures t !in st.frame.result.content && t !in ArgumentTokens(st.frame.arguments)
    ensures t !in st.released && t !in st.handed
  {
    OneSlot(st.frame.slots, l, t);
    forall k | 0 <= k < n && k != l ensures t !in st.frame.slots[k].content {
      if k < l {
        TwoSlots(st.frame.slots, k, l, t);
      } else {
        TwoSlots(st.frame.slots, l, k, t);
      }
    }
  }

  // ---------- the emitted frame functions ----------

  /** The frame as the C struct that move_result and drop_frame work on. */
  class FrameObject {
    var arguments: seq<Tokens>
    var argumentsActive: bool
    var slots: array<Slot>
    var result: Slot

    ghost function Snapshot(): Frame
      reads this, slots
    {
      Frame(arguments, argumentsActive, slots[..], result)
    }

    /** `if (active) { drop; active = false; }` */
    method DropLocal(l: Local) returns (released: Tokens)
      requires l < slots.Length
      modifies slots
      ensures Snapshot() == LocalDrop(State(old(Snapshot()), released, multiset{}, multiset{}),
                                      l).frame
      ensures released == if old(slots[l]).active then old(slots[l]).content else multiset{}
    {
      released := multiset{};
      if slots[l].active {
        released := slots[l].content;
        ghost var before := slots[..];
        slots[l] := EMPTY;
        assert slots[..] == before[l := EMPTY];
      }
    }

    /** Panics on an unavailable result, so a caller has an active one. */
    method MoveResult() returns (moved: Tokens)
      requires result.active
      modifies this`result
      ensures moved == old(result).content && result == EMPTY
    {
      moved := result.content;
      result := EMPTY;
    }

    method DropArguments() returns (drops: seq<Tokens>)
      ensures drops == if argumentsActive then DownTo(arguments, 0) else []
    {
      drops := [];
      if argumentsActive {
        var index := |arguments|;
        while index > 0
          invariant 0 <= index <= |arguments|
          invariant drops == DownTo(arguments, index)
        {
          index := index - 1;
          drops := drops + [arguments[index]];
        }
      }
    }

    method DropLocals() returns (drops: seq<Tokens>)
      modifies slots
      ensures drops == SlotDrops(old(slots[..]), 0)
      ensures forall l :: 0 <= l < slots.Length ==>
                slots[l] == if old(slots[l]).active then EMPTY else old(slots[l])
    {
      ghost var before := slots[..];
      drops := [];
      var local := slots.Length;
      while local > 0
        invariant 0 <= local <= slots.Length
        invariant drops == SlotDrops(before, local)
        invariant forall l :: 0 <= l < local ==> slots[l] == before[l]
        invariant forall l :: local <= l < slots.Length ==>
                    slots[l] == if before[l].active then EMPTY else before[l]
      {
        local := local - 1;
        if slots[local].active {
          drops := drops + [slots[local].content];
          slots[local] := EMPTY;
        }
      }
    }

    /** Drops arguments and locals from last to first, then the result. */
    method DropFrame() returns (drops: seq<Tokens>)
      modifies this`result, slots
      ensures drops == FrameDrops(old(Snapshot()))
      ensures ArgumentTokens(drops) == FrameDropTokens(old(Snapshot()))
      ensures forall l :: 0 <= l < slots.Length ==>
                slots[l] == if old(slots[l]).active then EMPTY else old(slots[l])
    {
      FrameDropsTokens(Snapshot());
      var first := DropArguments();
      var locals := DropLocals();
      drops := first + locals;
      if result.active {
        drops := drops + [result.content];
        result := result.(content := multiset{});
      } else {
        drops := drops + [];
      }
    }
  }
}
