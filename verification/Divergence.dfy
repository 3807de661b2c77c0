/**
  The interprocedural flow analysis that decides which functions become `_Noreturn`
  (compiler/src/codegen.cpp:1442-1748), against a big-step semantics of the C that is emitted
  for FIR (compiler/src/codegen.cpp:1916-2140, 3058-3300, 3583-4085).

  `Ends(x, e, o)` says that some run of the code for `e` ends in `o`. The decisions a run takes
  (branch conditions, trip counts, matched arms, poll results, panics) are left open, so a
  statement about all outcomes is a statement about all runs. Calls return or not as the
  functions do that return with calls nested less deep.
 */
module Divergence {
  import opened Wrappers

  // ---------- FIR ----------

  datatype BinaryOperator = And | Or | Strict

  datatype CallKind = Function | Panic | Other

  datatype Expression =
    | Leaf
    | Read
    | Move
    | FunctionValue
    | Closure
    | ArrayLiteral(elements: seq<Expression>)
    | Unary(operand: Expression)
    | Ownership(operand: Expression)
    | Spawn(call: Expression)
    | TaskWait(task: Expression)
    | BlockingCall(arguments: seq<Expression>)
    | CallbackCall(arguments: seq<Expression>)
    | Channel(capacity: Expression)
    | SenderClone(sender: Expression)
    | ChannelSend(payload: Option<Expression>)
    | ChannelReceive
    | Index(base: Expression, index: Expression)
    | RawPointer(base: Expression)
    | Replace(target: Expression, value: Expression)
    | Binary(left: Expression, op: BinaryOperator, right: Expression)
    | Call(kind: CallKind, callee: nat, arguments: seq<Expression>)
    | Contract(value: Expression)
    | StructLiteral(elements: seq<Expression>)
    | Field(base: Expression)
    | EnumLiteral(payload: Option<Expression>)
    | Match(value: Expression, arms: seq<Arm>)
    | Conditional(condition: Expression,
                  thenBlock: seq<Statement>, thenValue: Expression,
                  elseBlock: seq<Statement>, elseValue: Expression)

  datatype Arm = Arm(pattern: Option<Expression>, guard: Option<Expression>,
                     block: seq<Statement>, tail: Option<Expression>)

  datatype Statement =
    | Variable(initializer: Expression)
    | LetElse(initializer: Expression, otherwise: seq<Statement>)
    | ResultElse(initializer: Expression, otherwise: seq<Statement>)
    | Destructure(initializer: Expression)
    | Assignment(target: Expression, compound: bool, value: Expression)
    | Evaluate(initializer: Expression)
    | Discard(initializer: Expression)
    | Return(result: Option<Expression>)
    | If(condition: Expression, thenBlock: seq<Statement>, hasElse: bool, elseBlock: seq<Statement>)
    | While(condition: Expression, body: seq<Statement>)
    | For(sequence: Expression, next: Option<Expression>, body: seq<Statement>)
    | Break
    | Continue
    | Select(operations: seq<SelectArm>, timeout: Option<SelectTimeout>,
             errorBlock: seq<Statement>)
    | Unsafe(body: seq<Statement>)

  datatype SelectArm = SelectArm(payload: Option<Expression>, body: seq<Statement>)

  datatype SelectTimeout = SelectTimeout(duration: Option<Expression>, body: seq<Statement>)

  /** `mayReturn` says whether code that is not FIR (foreign or generated) can return. */
  datatype FirFunction = FirFunction(task: bool, hasBody: bool, stateTransition: bool,
                                     stateTimeout: bool, workflow: bool, mayReturn: bool,
                                     body: seq<Statement>)
  {
    predicate RunsBody() {
      hasBody && !stateTransition && !stateTimeout && !workflow
    }
  }

  datatype Program = Program(functions: seq<FirFunction>)

  // ---------- the analysis ----------

  datatype ControlFlow = Continues | Returns | Diverges | LoopJump

  type Marks = seq<bool>

  predicate Marked(m: Marks, f: nat) {
    f < |m| && m[f]
  }

  predicate AnyDiverges(m: Marks, es: seq<Expression>)
    decreases es
  {
    es != [] && (ExpressionDiverges(m, es[0]) || AnyDiverges(m, es[1..]))
  }

  predicate ExpressionDiverges(m: Marks, e: Expression)
    decreases e
  {
    match e
    case ArrayLiteral(elements) => AnyDiverges(m, elements)
    case Move => false
    case Read => false
    case FunctionValue => false
    case Closure => false
    case Unary(operand) => ExpressionDiverges(m, operand)
    case Ownership(operand) => ExpressionDiverges(m, operand)
    case Spawn(call) => call.Call? && AnyDiverges(m, call.arguments)
    case TaskWait(task) => ExpressionDiverges(m, task)
    case BlockingCall(arguments) => AnyDiverges(m, arguments)
    case CallbackCall(arguments) => AnyDiverges(m, arguments)
    case Channel(capacity) => ExpressionDiverges(m, capacity)
    case SenderClone(sender) => ExpressionDiverges(m, sender)
    case ChannelSend(payload) => payload.Some? && ExpressionDiverges(m, payload.value)
    case ChannelReceive => false
    case Index(base, index) => ExpressionDiverges(m, base) || ExpressionDiverges(m, index)
    case RawPointer(base) => ExpressionDiverges(m, base)
    case Replace(target, value) => ExpressionDiverges(m, value) || ExpressionDiverges(m, target)
    case Binary(left, op, right) =>
      if ExpressionDiverges(m, left) then true
      else op != And && op != Or && ExpressionDiverges(m, right)
    case Call(kind, callee, arguments) =>
      AnyDiverges(m, arguments) || kind == Panic || (kind == Function && Marked(m, callee))
    case Contract(value) => ExpressionDiverges(m, value)
    case StructLiteral(elements) => AnyDiverges(m, elements)
    case Field(base) => ExpressionDiverges(m, base)
    case EnumLiteral(payload) => payload.Some? && ExpressionDiverges(m, payload.value)
    case Match(value, arms) =>
      if ExpressionDiverges(m, value) then true
      else if AnyPatternDiverges(m, arms) then true
      else arms != [] && AllArmsDiverge(m, arms)
    case Conditional(condition, thenBlock, thenValue, elseBlock, elseValue) =>
      if ExpressionDiverges(m, condition) then true
      else
        var thenFlow := BlockFlow(m, thenBlock);
        var thenDiverges := thenFlow == Diverges
                            || (thenFlow == Continues && ExpressionDiverges(m, thenValue));
        var elseFlow := BlockFlow(m, elseBlock);
        var elseDiverges := elseFlow == Diverges
                            || (elseFlow == Continues && ExpressionDiverges(m, elseValue));
        thenDiverges && elseDiverges
    case Leaf => false
  }

  predicate AnyPatternDiverges(m: Marks, arms: seq<Arm>)
    decreases arms
  {
    arms != [] &&
    ((arms[0].pattern.Some? && ExpressionDiverges(m, arms[0].pattern.value))
     || AnyPatternDiverges(m, arms[1..]))
  }

  predicate AllArmsDiverge(m: Marks, arms: seq<Arm>)
    decreases arms
  {
    arms == [] ||
    (var flow := BlockFlow(m, arms[0].block);
     (flow == Diverges
      || (flow == Continues && arms[0].tail.Some? && ExpressionDiverges(m, arms[0].tail.value)))
     && AllArmsDiverge(m, arms[1..]))
  }

  function Whether(diverges: bool): ControlFlow {
    if diverges then Diverges else Continues
  }

  predicate AnySendDiverges(m: Marks, arms: seq<SelectArm>)
    decreases arms
  {
    arms != [] &&
    ((arms[0].payload.Some? && ExpressionDiverges(m, arms[0].payload.value))
     || AnySendDiverges(m, arms[1..]))
  }

  predicate AnyArmFlows(m: Marks, arms: seq<SelectArm>, flow: ControlFlow)
    decreases arms
  {
    arms != [] && (BlockFlow(m, arms[0].body) == flow || AnyArmFlows(m, arms[1..], flow))
  }

  predicate AllArmsFlow(m: Marks, arms: seq<SelectArm>, flow: ControlFlow)
    decreases arms
  {
    arms == [] || (BlockFlow(m, arms[0].body) == flow && AllArmsFlow(m, arms[1..], flow))
  }

  function StatementFlow(m: Marks, s: Statement): ControlFlow
    decreases s
  {
    match s
    case Variable(initializer) => Whether(ExpressionDiverges(m, initializer))
    case LetElse(initializer, _) => Whether(ExpressionDiverges(m, initializer))
    case ResultElse(initializer, _) => Whether(ExpressionDiverges(m, initializer))
    case Destructure(initializer) => Whether(ExpressionDiverges(m, initializer))
    case Assignment(target, _, value) =>
      Whether(ExpressionDiverges(m, target) || ExpressionDiverges(m, value))
    case Evaluate(initializer) => Whether(ExpressionDiverges(m, initializer))
    case Discard(initializer) => Whether(ExpressionDiverges(m, initializer))
    case Return(result) =>
      if result.Some? && ExpressionDiverges(m, result.value) then Diverges else Returns
    case Break => LoopJump
    case Continue => LoopJump
    case If(condition, thenBlock, hasElse, elseBlock) =>
      if ExpressionDiverges(m, condition) then Diverges
      else if !hasElse then Continues
      else
        var thenFlow := BlockFlow(m, thenBlock);
        var elseFlow := BlockFlow(m, elseBlock);
        if thenFlow == Continues || elseFlow == Continues then Continues
        else if thenFlow == Diverges && elseFlow == Diverges then Diverges
        else if thenFlow == LoopJump && elseFlow == LoopJump then LoopJump
        else Returns
    case Select(operations, timeout, errorBlock) =>
      if AnySendDiverges(m, operations) then Diverges
      else
        var timeoutFlow :=
          if timeout.Some? then Some(BlockFlow(m, timeout.value.body)) else None;
        var errorFlow := BlockFlow(m, errorBlock);
        if AnyArmFlows(m, operations, Continues) || timeoutFlow == Some(Continues)
           || errorFlow == Continues
        then Continues
        else if AllArmsFlow(m, operations, Diverges)
                && (timeoutFlow.None? || timeoutFlow == Some(Diverges)) && errorFlow == Diverges
        then Diverges
        else Returns
    case Unsafe(body) => BlockFlow(m, body)
    case For(sequence, next, _) =>
      Whether(ExpressionDiverges(m, sequence)
              || (next.Some? && ExpressionDiverges(m, next.value)))
    case While(condition, _) => Whether(ExpressionDiverges(m, condition))
  }

  function BlockFlow(m: Marks, b: seq<Statement>): ControlFlow
    decreases b
  {
    if b == [] then Continues
    else
      var flow := StatementFlow(m, b[0]);
      if flow != Continues then flow else BlockFlow(m, b[1..])
  }

  // ---------- every return statement of a function, wherever it is nested ----------

  /** The operands of the kinds that evaluate all operands and then yield. */
  function StrictOperands(e: Expression): (operands: seq<Expression>)
    ensures forall o :: o in operands ==> o < e
  {
    match e
    case ArrayLiteral(elements) => elements
    case Unary(operand) => [operand]
    case Ownership(operand) => [operand]
    case Spawn(call) => if call.Call? then call.arguments else []
    case TaskWait(task) => [task]
    case BlockingCall(arguments) => arguments
    case CallbackCall(arguments) => arguments
    case Channel(capacity) => [capacity]
    case SenderClone(sender) => [sender]
    case ChannelSend(payload) => if payload.Some? then [payload.value] else []
    case Index(base, index) => [base, index]
    case RawPointer(base) => [base]
    case Replace(target, value) => [value, target]
    case Binary(left, Strict, right) => [left, right]
    case Call(_, _, arguments) => arguments
    case Contract(value) => [value]
    case StructLiteral(elements) => elements
    case Field(base) => [base]
    case EnumLiteral(payload) => if payload.Some? then [payload.value] else []
    case _ => []
  }

  /** Some return statement inside `e` has no value or a value that can be computed. */
  predicate ReturnsInside(m: Marks, e: Expression)
    decreases e
  {
    (exists o :: o in StrictOperands(e) && ReturnsInside(m, o)) ||
    match e
    case Binary(left, _, right) => ReturnsInside(m, left) || ReturnsInside(m, right)
    case Match(value, arms) => ReturnsInside(m, value) || ArmsReturn(m, arms)
    case Conditional(condition, thenBlock, thenValue, elseBlock, elseValue) =>
      || ReturnsInside(m, condition)
      || BlockReturns(m, thenBlock) || ReturnsInside(m, thenValue)
      || BlockReturns(m, elseBlock) || ReturnsInside(m, elseValue)
    case _ => false
  }

  predicate OptionReturns(m: Marks, e: Option<Expression>)
    decreases e
  {
    e.Some? && ReturnsInside(m, e.value)
  }

  predicate ArmsReturn(m: Marks, arms: seq<Arm>)
    decreases arms
  {
    arms != [] &&
    (|| OptionReturns(m, arms[0].pattern) || OptionReturns(m, arms[0].guard)
     || BlockReturns(m, arms[0].block) || OptionReturns(m, arms[0].tail)
     || ArmsReturn(m, arms[1..]))
  }

  predicate SelectReturns(m: Marks, arms: seq<SelectArm>)
    decreases arms
  {
    arms != [] &&
    (|| OptionReturns(m, arms[0].payload) || BlockReturns(m, arms[0].body)
     || SelectReturns(m, arms[1..]))
  }

  predicate StatementReturns(m: Marks, s: Statement)
    decreases s
  {
    match s
    case Variable(initializer) => ReturnsInside(m, initializer)
    case LetElse(initializer, otherwise) =>
      ReturnsInside(m, initializer) || BlockReturns(m, otherwise)
    case ResultElse(initializer, otherwise) =>
      ReturnsInside(m, initializer) || BlockReturns(m, otherwise)
    case Destructure(initializer) => ReturnsInside(m, initializer)
    case Assignment(target, _, value) => ReturnsInside(m, target) || ReturnsInside(m, value)
    case Evaluate(initializer) => ReturnsInside(m, initializer)
    case Discard(initializer) => ReturnsInside(m, initializer)
    case Return(result) =>
      result.None? || !ExpressionDiverges(m, result.value) || ReturnsInside(m, result.value)
    case If(condition, thenBlock, hasElse, elseBlock) =>
      || ReturnsInside(m, condition) || BlockReturns(m, thenBlock)
      || (hasElse && BlockReturns(m, elseBlock))
    case While(condition, body) => ReturnsInside(m, condition) || BlockReturns(m, body)
    case For(sequence, next, body) =>
      ReturnsInside(m, sequence) || OptionReturns(m, next) || BlockReturns(m, body)
    case Break => false
    case Continue => false
    case Select(operations, timeout, errorBlock) =>
      || SelectReturns(m, operations)
      || (timeout.Some? && (|| OptionReturns(m, timeout.value.duration)
                            || BlockReturns(m, timeout.value.body)))
      || BlockReturns(m, errorBlock)
    case Unsafe(body) => BlockReturns(m, body)
  }

  predicate BlockReturns(m: Marks, b: seq<Statement>)
    decreases b
  {
    b != [] && (StatementReturns(m, b[0]) || BlockReturns(m, b[1..]))
  }

  /** The guard under which the loop marks a function (codegen.cpp:1738-1742). */
  predicate Markable(p: Program, m: Marks, f: nat)
    requires f < |p.functions|
  {
    var function_ := p.functions[f];
    && function_.RunsBody()
    && !Marked(m, f)
    && !BlockReturns(m, function_.body)
    && BlockFlow(m, function_.body) == Diverges
  }

  // ---------- where jumps may stand ----------

  /**
    Where a break may stand, and whether a loop encloses. The front end lets a break stand
    wherever a loop encloses (`lax`, compiler/src/sema.cpp:2969-2982); but the emitted code of
    a loop head and of a select operation catches it.
   */
  datatype Jumps = Jumps(lax: bool, breaks: bool, inLoop: bool)
  {
    function Body(): Jumps {
      Jumps(lax, true, true)
    }

    function Catching(): Jumps {
      this.(breaks := lax && breaks)
    }
  }

  predicate JumpsWellPlaced(e: Expression, j: Jumps)
    decreases e
  {
    && (forall o :: o in StrictOperands(e) ==> JumpsWellPlaced(o, j))
    && match e
       case Binary(left, _, right) => JumpsWellPlaced(left, j) && JumpsWellPlaced(right, j)
       case Match(value, arms) => JumpsWellPlaced(value, j) && ArmJumps(arms, j)
       case Conditional(condition, thenBlock, thenValue, elseBlock, elseValue) =>
         && JumpsWellPlaced(condition, j)
         && BlockJumps(thenBlock, j) && JumpsWellPlaced(thenValue, j)
         && BlockJumps(elseBlock, j) && JumpsWellPlaced(elseValue, j)
       case _ => true
  }

  predicate OptionJumps(e: Option<Expression>, j: Jumps)
    decreases e
  {
    e.Some? ==> JumpsWellPlaced(e.value, j)
  }

  predicate ArmJumps(arms: seq<Arm>, j: Jumps)
    decreases arms
  {
    arms != [] ==>
      && OptionJumps(arms[0].pattern, j) && OptionJumps(arms[0].guard, j)
      && BlockJumps(arms[0].block, j) && OptionJumps(arms[0].tail, j)
      && ArmJumps(arms[1..], j)
  }

  predicate SelectJumps(arms: seq<SelectArm>, j: Jumps)
    decreases arms
  {
    arms != [] ==>
      && OptionJumps(arms[0].payload, j) && BlockJumps(arms[0].body, j.Catching())
      && SelectJumps(arms[1..], j)
  }

  predicate StatementJumps(s: Statement, j: Jumps)
    decreases s
  {
    match s
    case Variable(initializer) => JumpsWellPlaced(initializer, j)
    case LetElse(initializer, otherwise) =>
      JumpsWellPlaced(initializer, j) && BlockJumps(otherwise, j)
    case ResultElse(initializer, otherwise) =>
      JumpsWellPlaced(initializer, j) && BlockJumps(otherwise, j)
    case Destructure(initializer) => JumpsWellPlaced(initializer, j)
    case Assignment(target, _, value) => JumpsWellPlaced(target, j) && JumpsWellPlaced(value, j)
    case Evaluate(initializer) => JumpsWellPlaced(initializer, j)
    case Discard(initializer) => JumpsWellPlaced(initializer, j)
    case Return(result) => OptionJumps(result, j)
    case If(condition, thenBlock, hasElse, elseBlock) =>
      && JumpsWellPlaced(condition, j) && BlockJumps(thenBlock, j)
      && (hasElse ==> BlockJumps(elseBlock, j))
    case While(condition, body) =>
      JumpsWellPlaced(condition, j.Catching()) && BlockJumps(body, j.Body())
    case For(sequence, next, body) =>
      && JumpsWellPlaced(sequence, j) && OptionJumps(next, j.Catching())
      && BlockJumps(body, j.Body())
    case Break => j.breaks
    case Continue => j.inLoop
    case Select(operations, timeout, errorBlock) =>
      && SelectJumps(operations, j)
      && (timeout.Some? ==> OptionJumps(timeout.value.duration, j)
                            && BlockJumps(timeout.value.body, j))
      && BlockJumps(errorBlock, j)
    case Unsafe(body) => BlockJumps(body, j)
  }

  predicate BlockJumps(b: seq<Statement>, j: Jumps)
    decreases b
  {
    b != [] ==> StatementJumps(b[0], j) && BlockJumps(b[1..], j)
  }

  /** What the front end demands: every jump stands inside a loop. */
  predicate Accepted(p: Program) {
    forall f :: 0 <= f < |p.functions| ==>
      BlockJumps(p.functions[f].body, Jumps(true, false, false))
  }

  /** Besides, no break in a function stands where a loop head or a select would catch it. */
  predicate NoBreakIsCaught(p: Program, f: nat)
    requires f < |p.functions|
  {
    BlockJumps(p.functions[f].body, Jumps(false, false, false))
  }

  // ---------- where the emitter stops ----------

  /** Emitted code: the final marks, whether it is a poll function, which calls may return. */
  datatype Setting = Setting(marks: Marks, task: bool, returning: set<nat>)

  /** A statement that a poll function suspends at; the emitter always goes on behind it. */
  predicate Suspends(x: Setting, s: Statement) {
    && x.task && (s.Variable? || s.Evaluate? || s.Discard?)
    && var e := s.initializer;
       e.BlockingCall? || e.CallbackCall? || e.TaskWait? || e.ChannelSend? || e.ChannelReceive?
  }

  /** All arms leave, as far as the analysis can tell (codegen.cpp:3072-3079). */
  predicate AllLeave(m: Marks, arms: seq<Arm>)
    decreases arms
  {
    arms == []
    || ((BlockFlow(m, arms[0].block) != Continues
         || (arms[0].tail.Some? && ExpressionDiverges(m, arms[0].tail.value)))
        && AllLeave(m, arms[1..]))
  }

  /** The emitter takes `e` to diverge and emits no code that would use its value. */
  predicate ExpressionExits(x: Setting, e: Expression)
    decreases e
  {
    || (exists o :: o in StrictOperands(e) && ExpressionExits(x, o))
    || match e
       case Call(kind, callee, _) => kind == Panic || (kind == Function && Marked(x.marks, callee))
       case Binary(left, _, _) => ExpressionExits(x, left)
       case Match(value, arms) =>
         ExpressionExits(x, value) || (arms != [] && AllLeave(x.marks, arms))
       case Conditional(condition, thenBlock, thenValue, elseBlock, elseValue) =>
         || ExpressionExits(x, condition)
         || ((BlockExits(x, thenBlock) || ExpressionExits(x, thenValue))
             && (BlockExits(x, elseBlock) || ExpressionExits(x, elseValue)))
       case _ => false
  }

  predicate OptionExits(x: Setting, e: Option<Expression>)
    decreases e
  {
    e.Some? && ExpressionExits(x, e.value)
  }

  /** The emitter stops behind `s`: the rest of its block is not emitted. */
  predicate StatementExits(x: Setting, s: Statement)
    decreases s
  {
    match s
    case Variable(initializer) => !Suspends(x, s) && ExpressionExits(x, initializer)
    case LetElse(initializer, _) => ExpressionExits(x, initializer)
    case ResultElse(initializer, _) => ExpressionExits(x, initializer)
    case Destructure(initializer) => ExpressionExits(x, initializer)
    case Assignment(target, _, value) => ExpressionExits(x, target) || ExpressionExits(x, value)
    case Evaluate(initializer) => !Suspends(x, s) && ExpressionExits(x, initializer)
    case Discard(initializer) => !Suspends(x, s) && ExpressionExits(x, initializer)
    case Return(_) => true
    case Break => true
    case Continue => true
    case If(condition, thenBlock, hasElse, elseBlock) =>
      || ExpressionExits(x, condition)
      || (hasElse && BlockExits(x, thenBlock) && BlockExits(x, elseBlock))
    case While(condition, _) => ExpressionExits(x, condition)
    case For(sequence, next, _) => ExpressionExits(x, sequence) || OptionExits(x, next)
    case Select(_, _, _) => false
    case Unsafe(body) => BlockExits(x, body)
  }

  predicate BlockExits(x: Setting, b: seq<Statement>)
    decreases b
  {
    b != [] && (StatementExits(x, b[0]) || BlockExits(x, b[1..]))
  }

  // ---------- execution ----------

  /**
    `Done`: a value is computed, or control goes on behind the statement. `Fell`: control
    reaches the end of code behind which the emitter stopped, and so leaves the block.
   */
  datatype Outcome = Done | Fell | Returned | Broke | Continued

  predicate Leaves(o: Outcome) {
    o != Done && o != Fell
  }

  /** First one piece of code, and behind it, if control goes on there, another. */
  predicate Sequel(o: Outcome, here: bool, done: bool, next: bool) {
    (o != Done && here) || (done && next)
  }

  /** Code whose end the emitter ignores or not (`exits`): falling off it goes on behind it. */
  predicate Absorbed(o: Outcome, exits: bool, here: bool, fell: bool) {
    (here && (o != Fell || exits)) || (o == Done && fell && !exits)
  }

  /** The operands of a strict kind from the k-th on, in order. */
  predicate OperandsEnd(x: Setting, e: Expression, k: nat, o: Outcome)
    decreases e, |StrictOperands(e)| - k
  {
    var es := StrictOperands(e);
    if k >= |es| then o == Done
    else Sequel(o, Ends(x, es[k], o), Ends(x, es[k], Done), OperandsEnd(x, e, k + 1, o))
  }

  predicate OptionEnds(x: Setting, e: Option<Expression>, o: Outcome)
    decreases e
  {
    if e.None? then o == Done else Ends(x, e.value, o)
  }

  /** A call hands control back; behind a call of a marked function nothing is emitted. */
  predicate CallEnds(x: Setting, e: Expression, o: Outcome) {
    if !e.Call? || e.kind == Other then o == Done
    else
      && e.kind == Function && e.callee in x.returning
      && o == if Marked(x.marks, e.callee) then Fell else Done
  }

  predicate Ends(x: Setting, e: Expression, o: Outcome)
    decreases e
  {
    if e.Match? then
      Sequel(o, Ends(x, e.value, o), Ends(x, e.value, Done),
             || (Leaves(o) && PatternsEnd(x, e.arms, o))
             || (PatternsEnd(x, e.arms, Done)
                 && ArmsEnd(x, e.arms, AllLeave(x.marks, e.arms), o)))
    else if e.Conditional? then
      var exits := (BlockExits(x, e.thenBlock) || ExpressionExits(x, e.thenValue))
                   && (BlockExits(x, e.elseBlock) || ExpressionExits(x, e.elseValue));
      Sequel(o, Ends(x, e.condition, o), Ends(x, e.condition, Done),
             Absorbed(o, exits, ThenEnds(x, e, o) || ElseEnds(x, e, o),
                      ThenEnds(x, e, Fell) || ElseEnds(x, e, Fell)))
    else if e.Binary? && e.op != Strict then
      Sequel(o, Ends(x, e.left, o), Ends(x, e.left, Done),
             o == Done || (Leaves(o) && Ends(x, e.right, o)))
    else
      Sequel(o, OperandsEnd(x, e, 0, o), OperandsEnd(x, e, 0, Done), CallEnds(x, e, o))
  }

  predicate ThenEnds(x: Setting, e: Expression, o: Outcome)
    requires e.Conditional?
    decreases e, 0
  {
    Sequel(o, BlockEnds(x, e.thenBlock, o), BlockEnds(x, e.thenBlock, Done),
           Ends(x, e.thenValue, o))
  }

  predicate ElseEnds(x: Setting, e: Expression, o: Outcome)
    requires e.Conditional?
    decreases e, 0
  {
    Sequel(o, BlockEnds(x, e.elseBlock, o), BlockEnds(x, e.elseBlock, Done),
           Ends(x, e.elseValue, o))
  }

  /** All patterns are computed first, and the code goes on behind each. */
  predicate PatternsEnd(x: Setting, arms: seq<Arm>, o: Outcome)
    decreases arms
  {
    if arms == [] then o == Done
    else
      var pattern := arms[0].pattern;
      || (Leaves(o) && OptionEnds(x, pattern, o))
      || ((OptionEnds(x, pattern, Done) || OptionEnds(x, pattern, Fell))
          && PatternsEnd(x, arms[1..], o))
  }

  predicate ArmEnds(x: Setting, arm: Arm, o: Outcome)
    decreases arm
  {
    Sequel(o, BlockEnds(x, arm.block, o), BlockEnds(x, arm.block, Done),
           OptionEnds(x, arm.tail, o))
  }

  /**
    Some arm is tried and matches, or a later one does; no match panics. Behind a match whose
    arms all leave nothing is emitted, and whoever falls off an arm of it panics.
   */
  predicate ArmsEnd(x: Setting, arms: seq<Arm>, allLeave: bool, o: Outcome)
    decreases arms
  {
    arms != [] &&
    var arm := arms[0];
    || ArmsEnd(x, arms[1..], allLeave, o)
    || (Leaves(o) && OptionEnds(x, arm.guard, o))
    || ((OptionEnds(x, arm.guard, Done) || OptionEnds(x, arm.guard, Fell))
        && (|| (Leaves(o) && ArmEnds(x, arm, o))
            || (ArmEnds(x, arm, Done) && o == if allLeave then Fell else Done)
            || (ArmEnds(x, arm, Fell) && !allLeave && o == Done)))
  }

  predicate BlockEnds(x: Setting, b: seq<Statement>, o: Outcome)
    decreases b
  {
    if b == [] then o == Done
    else Sequel(o, StatementEnds(x, b[0], o), StatementEnds(x, b[0], Done),
                BlockEnds(x, b[1..], o))
  }

  predicate SendsEnd(x: Setting, arms: seq<SelectArm>, o: Outcome)
    decreases arms
  {
    if arms == [] then o == Done
    else
      var payload := arms[0].payload;
      || (Leaves(o) && OptionEnds(x, payload, o))
      || ((OptionEnds(x, payload, Done) || OptionEnds(x, payload, Fell))
          && SendsEnd(x, arms[1..], o))
  }

  /**
    The operations are cases of a C switch (codegen.cpp:3714-3735): a break only leaves the
    switch. Falling off a case runs into the next one, which might have been selected itself.
   */
  predicate CasesEnd(x: Setting, arms: seq<SelectArm>, o: Outcome)
    decreases arms
  {
    arms != [] &&
    (|| CasesEnd(x, arms[1..], o)
     || (o == Done && (BlockEnds(x, arms[0].body, Done) || BlockEnds(x, arms[0].body, Broke)))
     || ((o == Returned || o == Continued) && BlockEnds(x, arms[0].body, o)))
  }

  predicate StatementEnds(x: Setting, s: Statement, o: Outcome)
    decreases s
  {
    if s.Break? then o == Broke
    else if s.Continue? then o == Continued
    else if s.Unsafe? then BlockEnds(x, s.body, o)
    else if s.Return? then
      Sequel(o, OptionEnds(x, s.result, o), OptionEnds(x, s.result, Done), o == Returned)
    else if s.If? then
      var exits := s.hasElse && BlockExits(x, s.thenBlock) && BlockExits(x, s.elseBlock);
      Sequel(o, Ends(x, s.condition, o), Ends(x, s.condition, Done),
             || Absorbed(o, exits, BlockEnds(x, s.thenBlock, o), BlockEnds(x, s.thenBlock, Fell))
             || (if s.hasElse then
                   Absorbed(o, exits, BlockEnds(x, s.elseBlock, o),
                            BlockEnds(x, s.elseBlock, Fell))
                 else o == Done))
    else if s.While? then
      RoundEnds(o, Ends(x, s.condition, Done), Ends(x, s.condition, Broke),
                ExpressionExits(x, s.condition), BlockEnds(x, s.body, Broke),
                Ends(x, s.condition, Returned), BlockEnds(x, s.body, Returned))
    else if s.For? then
      Sequel(o, Ends(x, s.sequence, o), Ends(x, s.sequence, Done),
             RoundEnds(o, OptionEnds(x, s.next, Done), OptionEnds(x, s.next, Broke),
                       OptionExits(x, s.next), BlockEnds(x, s.body, Broke),
                       OptionEnds(x, s.next, Returned), BlockEnds(x, s.body, Returned)))
    else if s.Select? then
      var duration := if s.timeout.Some? then s.timeout.value.duration else None;
      || (Leaves(o) && SendsEnd(x, s.operations, o))
      || (SendsEnd(x, s.operations, Done)
          && (|| (Leaves(o) && OptionEnds(x, duration, o))
              || ((OptionEnds(x, duration, Done) || OptionEnds(x, duration, Fell))
                  && (|| CasesEnd(x, s.operations, o)
                      || (s.timeout.Some?
                          && Absorbed(o, false, BlockEnds(x, s.timeout.value.body, o),
                                      BlockEnds(x, s.timeout.value.body, Fell)))
                      || Absorbed(o, false, BlockEnds(x, s.errorBlock, o),
                                  BlockEnds(x, s.errorBlock, Fell))))))
    else if s.Assignment? then
      var first, second := if s.compound then s.target else s.value,
                           if s.compound then s.value else s.target;
      Sequel(o, Ends(x, first, o), Ends(x, first, Done), Ends(x, second, o))
    else if s.LetElse? || s.ResultElse? then
      Sequel(o, Ends(x, s.initializer, o), Ends(x, s.initializer, Done),
             o == Done || (Leaves(o) && BlockEnds(x, s.otherwise, o)))
    else
      Absorbed(o, !Suspends(x, s), Ends(x, s.initializer, o), Ends(x, s.initializer, Fell))
  }

  /**
    How a round ends its loop. The head (a while condition, or the `next` call of a for) stands
    inside the C loop, so a jump in it is caught by this very loop; without a value of the head
    there is no body, and the emitter stops behind the loop.
   */
  predicate RoundEnds(o: Outcome, headDone: bool, headBreaks: bool, headExits: bool,
                      bodyBreaks: bool, headReturns: bool, bodyReturns: bool)
  {
    || (o == Done && (headDone || (headBreaks && !headExits)))
    || (o == Done && headDone && bodyBreaks)
    || (o == Fell && headBreaks && headExits)
    || (o == Returned && (headReturns || (headDone && bodyReturns)))
  }

  // ---------- control falls off code exactly where the emitter stopped ----------

  predicate Agrees(o: Outcome, exits: bool) {
    (o == Done ==> !exits) && (o == Fell ==> exits)
  }

  predicate OperandExits(x: Setting, e: Expression, k: nat) {
    exists i :: k <= i < |StrictOperands(e)| && ExpressionExits(x, StrictOperands(e)[i])
  }

  lemma {:induction false} OperandsAgree(x: Setting, e: Expression, k: nat, o: Outcome)
    requires OperandsEnd(x, e, k, o)
    ensures Agrees(o, OperandExits(x, e, k))
    decreases e, |StrictOperands(e)| - k
  {
    hide Ends, ExpressionExits, StrictOperands;
    var es := StrictOperands(e);
    if k < |es| {
      assert es[k] in es;
      if o != Done && Ends(x, es[k], o) {
        ExpressionAgrees(x, es[k], o);
      } else {
        ExpressionAgrees(x, es[k], Done);
        OperandsAgree(x, e, k + 1, o);
      }
    }
  }

  /** A value comes out of an expression only where the emitter goes on to use it. */
  lemma {:induction false} ExpressionAgrees(x: Setting, e: Expression, o: Outcome)
    requires Ends(x, e, o)
    ensures Agrees(o, ExpressionExits(x, e))
    decreases e
  {
    if e.Match? {
      if o != Done && Ends(x, e.value, o) {
        ExpressionAgrees(x, e.value, o);
      } else {
        ExpressionAgrees(x, e.value, Done);
        if !Leaves(o) {
          ArmsAgree(x, e.arms, AllLeave(x.marks, e.arms), o);
        }
      }
    } else if e.Conditional? {
      ConditionalAgrees(x, e, o);
    } else if e.Binary? && e.op != Strict {
      if o != Done && Ends(x, e.left, o) {
        ExpressionAgrees(x, e.left, o);
      } else {
        ExpressionAgrees(x, e.left, Done);
      }
    } else {
      StrictAgrees(x, e, o);
    }
  }

  lemma {:induction false} StrictAgrees(x: Setting, e: Expression, o: Outcome)
    requires IsStrict(e) && Ends(x, e, o)
    ensures Agrees(o, ExpressionExits(x, e))
    decreases e, |StrictOperands(e)| + 1
  {
    hide OperandsEnd;
    StrictExits(x, e);
    if o != Done && OperandsEnd(x, e, 0, o) {
      OperandsAgree(x, e, 0, o);
    } else {
      OperandsAgree(x, e, 0, Done);
      assert CallEnds(x, e, o);
    }
  }

  lemma StrictExits(x: Setting, e: Expression)
    requires IsStrict(e)
    ensures ExpressionExits(x, e) <==>
            || OperandExits(x, e, 0)
            || (e.Call? && (e.kind == Panic || (e.kind == Function && Marked(x.marks, e.callee))))
  {
    var es := StrictOperands(e);
    if OperandExits(x, e, 0) {
      var i :| 0 <= i < |es| && ExpressionExits(x, es[i]);
      assert es[i] in es;
    } else {
      assert forall o :: o in es ==> !ExpressionExits(x, o);
      if e.Binary? {
        assert es[0] == e.left;
      }
    }
  }

  lemma {:induction false} ConditionalAgrees(x: Setting, e: Expression, o: Outcome)
    requires e.Conditional? && Ends(x, e, o)
    ensures Agrees(o, ExpressionExits(x, e))
    decreases e, 0
  {
    hide BlockEnds, BlockExits;
    if o != Done && Ends(x, e.condition, o) {
      ExpressionAgrees(x, e.condition, o);
    } else {
      ExpressionAgrees(x, e.condition, Done);
      if o == Done && ThenEnds(x, e, Done) {
        BlockAgrees(x, e.thenBlock, Done);
        ExpressionAgrees(x, e.thenValue, Done);
      } else if o == Done && ElseEnds(x, e, Done) {
        BlockAgrees(x, e.elseBlock, Done);
        ExpressionAgrees(x, e.elseValue, Done);
      }
    }
  }

  lemma {:induction false} ArmsAgree(x: Setting, arms: seq<Arm>, allLeave: bool, o: Outcome)
    requires ArmsEnd(x, arms, allLeave, o)
    ensures Agrees(o, allLeave)
    decreases arms
  {
    hide ArmEnds, OptionEnds;
    if ArmsEnd(x, arms[1..], allLeave, o) {
      ArmsAgree(x, arms[1..], allLeave, o);
    }
  }

  /** Control goes on behind a statement only where the emitter does. */
  lemma {:induction false} StatementAgrees(x: Setting, s: Statement, o: Outcome)
    requires StatementEnds(x, s, o)
    ensures Agrees(o, StatementExits(x, s))
    decreases s
  {
    hide Ends, ExpressionExits, BlockEnds, BlockExits;
    if s.Unsafe? {
      BlockAgrees(x, s.body, o);
    } else if s.Break? || s.Continue? || s.Return? {
    } else if s.Select? {
      CasesNeverFall(x, s.operations);
    } else if s.If? {
      if o != Done && Ends(x, s.condition, o) {
        ExpressionAgrees(x, s.condition, o);
      } else {
        ExpressionAgrees(x, s.condition, Done);
        if o == Done && BlockEnds(x, s.thenBlock, Done) {
          BlockAgrees(x, s.thenBlock, Done);
        } else if o == Done && s.hasElse && BlockEnds(x, s.elseBlock, Done) {
          BlockAgrees(x, s.elseBlock, Done);
        }
      }
    } else if s.While? || s.For? {
      LoopAgrees(x, s, o);
    } else if s.Assignment? {
      var first, second := if s.compound then s.target else s.value,
                           if s.compound then s.value else s.target;
      if o != Done && Ends(x, first, o) {
        ExpressionAgrees(x, first, o);
      } else {
        ExpressionAgrees(x, first, Done);
        ExpressionAgrees(x, second, o);
      }
    } else if Ends(x, s.initializer, o) {
      ExpressionAgrees(x, s.initializer, o);
    } else if Ends(x, s.initializer, Done) {
      ExpressionAgrees(x, s.initializer, Done);
    }
  }

  lemma {:induction false} CasesNeverFall(x: Setting, arms: seq<SelectArm>)
    ensures !CasesEnd(x, arms, Fell)
  {
    if arms != [] {
      CasesNeverFall(x, arms[1..]);
    }
  }

  lemma {:induction false} LoopAgrees(x: Setting, s: Statement, o: Outcome)
    requires (s.While? || s.For?) && StatementEnds(x, s, o)
    ensures Agrees(o, StatementExits(x, s))
    decreases s, 0
  {
    hide Ends, ExpressionExits, BlockEnds, BlockExits;
    if s.While? {
      if Ends(x, s.condition, Done) {
        ExpressionAgrees(x, s.condition, Done);
      }
    } else if o != Done && Ends(x, s.sequence, o) {
      ExpressionAgrees(x, s.sequence, o);
    } else {
      ExpressionAgrees(x, s.sequence, Done);
      if s.next.Some? && Ends(x, s.next.value, Done) {
        ExpressionAgrees(x, s.next.value, Done);
      }
    }
  }

  lemma {:induction false} BlockAgrees(x: Setting, b: seq<Statement>, o: Outcome)
    requires BlockEnds(x, b, o)
    ensures Agrees(o, BlockExits(x, b))
    decreases b
  {
    hide StatementEnds, StatementExits;
    if b != [] {
      if o != Done && StatementEnds(x, b[0], o) {
        StatementAgrees(x, b[0], o);
      } else {
        StatementAgrees(x, b[0], Done);
        BlockAgrees(x, b[1..], o);
      }
    }
  }

  /** The functions that return in some run, with calls nested at most `depth` deep. */
  function Returning(p: Program, m: Marks, depth: nat): (r: set<nat>)
    ensures forall f :: f in r ==> f < |p.functions|
  {
    if depth == 0 then {}
    else
      var callees := Returning(p, m, depth - 1);
      callees + set f: nat | f < |p.functions| && HandsBack(p, m, callees, f)
  }

  /** A call of `f` hands control back, if calls of `callees` may and other calls may not. */
  predicate HandsBack(p: Program, m: Marks, callees: set<nat>, f: nat)
    requires f < |p.functions|
  {
    var function_ := p.functions[f];
    if function_.RunsBody() then Comes(Setting(m, function_.task, callees), function_.body)
    else function_.mayReturn
  }

  /** The code of a function body is left, in whatever way but a panic. */
  predicate Comes(x: Setting, b: seq<Statement>) {
    || BlockEnds(x, b, Done) || BlockEnds(x, b, Fell) || BlockEnds(x, b, Returned)
    || BlockEnds(x, b, Broke) || BlockEnds(x, b, Continued)
  }

  // ---------- soundness ----------

  /** No run of the code emitted with these marks returns from a marked function. */
  ghost predicate Sound(p: Program, m: Marks) {
    && |m| == |p.functions|
    && forall f: nat, depth: nat :: f < |m| && m[f] ==> f !in Returning(p, m, depth)
  }

  predicate Extends(m: Marks, final: Marks) {
    |m| == |final| && forall f :: 0 <= f < |m| && m[f] ==> final[f]
  }

  predicate NoneReturns(m: Marks, callees: set<nat>) {
    forall f :: f in callees ==> !Marked(m, f)
  }

  /** Whatever is marked later: if no marked callee returns, no function marked by now does. */
  ghost predicate Supported(p: Program, m: Marks) {
    && |m| == |p.functions|
    && forall f: nat, final: Marks, callees: set<nat> ::
         f < |m| && m[f] && Extends(m, final) && NoneReturns(final, callees) ==>
           !HandsBack(p, final, callees, f)
  }

  lemma {:induction false} SupportedReturnsNever(p: Program, m: Marks, depth: nat)
    requires Supported(p, m)
    ensures NoneReturns(m, Returning(p, m, depth))
  {
    hide HandsBack;
    if depth > 0 {
      SupportedReturnsNever(p, m, depth - 1);
      assert Extends(m, m);
    }
  }

  /** Marks that support each other are sound. */
  lemma SupportedIsSound(p: Program, m: Marks)
    requires Supported(p, m)
    ensures Sound(p, m)
  {
    hide Returning, HandsBack;
    forall f: nat, depth: nat | f < |m| && m[f] ensures f !in Returning(p, m, depth) {
      SupportedReturnsNever(p, m, depth);
    }
  }

  lemma NothingMarkedIsSupported(p: Program, m: Marks)
    requires |m| == |p.functions| && forall f :: 0 <= f < |m| ==> !m[f]
    ensures Supported(p, m)
  {
  }

  /** What the analyses promise together about how a phrase can end, no break being caught. */
  predicate Permitted(o: Outcome, completes: bool, j: Jumps, leaves: bool) {
    && (o == Done ==> completes) && o != Fell
    && (o == Broke ==> j.breaks) && (o == Continued ==> j.inLoop) && (o == Returned ==> leaves)
  }

  /** Marks `m` made the judgements; the code is emitted with no fewer, and none returns. */
  predicate Fits(m: Marks, x: Setting) {
    Extends(m, x.marks) && NoneReturns(x.marks, x.returning)
  }

  lemma FinalFits(m: Marks, x: Setting)
    requires Fits(m, x)
    ensures Fits(x.marks, x)
  {
  }

  /** The kinds that evaluate all their operands and then yield. */
  predicate IsStrict(e: Expression) {
    !e.Match? && !e.Conditional? && !(e.Binary? && e.op != Strict)
  }

  predicate OperandDiverges(m: Marks, e: Expression, k: nat)
    decreases |StrictOperands(e)| - k
  {
    var es := StrictOperands(e);
    k < |es| && (ExpressionDiverges(m, es[k]) || OperandDiverges(m, e, k + 1))
  }

  lemma {:induction false} OperandsDiverge(m: Marks, e: Expression, k: nat)
    requires k <= |StrictOperands(e)|
    ensures OperandDiverges(m, e, k) <==> AnyDiverges(m, StrictOperands(e)[k..])
    decreases |StrictOperands(e)| - k
  {
    hide ExpressionDiverges, StrictOperands;
    var es := StrictOperands(e);
    if k < |es| {
      OperandsDiverge(m, e, k + 1);
      assert es[k..][1..] == es[k + 1..] && es[k..][0] == es[k];
    }
  }

  lemma AnyOfTwo(m: Marks, es: seq<Expression>)
    requires |es| <= 2
    ensures AnyDiverges(m, es) <==> exists e :: e in es && ExpressionDiverges(m, e)
  {
    if |es| == 1 {
      assert es[1..] == [] && es[0] in es;
    } else if |es| == 2 {
      assert es[0] in es;
      assert es[1..] == [es[1]] && es[1..][1..] == [] && es[1] in es;
      assert AnyDiverges(m, es[1..]) <==> ExpressionDiverges(m, es[1]);
      assert forall e :: e in es <==> e == es[0] || e == es[1];
    }
  }

  /** The strict kinds diverge exactly when an operand or the call itself does. */
  lemma StrictDiverges(m: Marks, e: Expression)
    requires IsStrict(e)
    ensures ExpressionDiverges(m, e) <==>
            || AnyDiverges(m, StrictOperands(e))
            || (e.Call? && (e.kind == Panic || (e.kind == Function && Marked(m, e.callee))))
  {
    if |StrictOperands(e)| <= 2 {
      AnyOfTwo(m, StrictOperands(e));
    }
  }

  lemma {:induction false} OperandOutcomes(m: Marks, x: Setting, e: Expression, k: nat, j: Jumps,
                                           o: Outcome)
    requires Fits(m, x) && !j.lax && JumpsWellPlaced(e, j) && OperandsEnd(x, e, k, o)
    ensures Permitted(o, !OperandDiverges(m, e, k), j, ReturnsInside(m, e))
    decreases e, |StrictOperands(e)| - k
  {
    hide Ends, ExpressionDiverges, StrictOperands;
    var es := StrictOperands(e);
    if k < |es| {
      var operand := es[k];
      assert operand in es && JumpsWellPlaced(operand, j);
      assert ReturnsInside(m, operand) ==> ReturnsInside(m, e);
      if o != Done && Ends(x, operand, o) {
        ExpressionOutcomes(m, x, operand, j, o);
      } else {
        ExpressionOutcomes(m, x, operand, j, Done);
        OperandOutcomes(m, x, e, k + 1, j, o);
      }
    }
  }

  lemma {:induction false} OptionOutcomes(m: Marks, x: Setting, e: Option<Expression>, j: Jumps,
                                          o: Outcome)
    requires Fits(m, x) && !j.lax && OptionJumps(e, j) && OptionEnds(x, e, o)
    ensures Permitted(o, e.None? || !ExpressionDiverges(m, e.value), j, OptionReturns(m, e))
    decreases e, 0
  {
    if e.Some? {
      ExpressionOutcomes(m, x, e.value, j, o);
    }
  }

  /** An expression judged diverging yields no value, and ends in a jump only where one may. */
  lemma {:induction false} ExpressionOutcomes(m: Marks, x: Setting, e: Expression, j: Jumps,
                                              o: Outcome)
    requires Fits(m, x) && !j.lax && JumpsWellPlaced(e, j) && Ends(x, e, o)
    ensures Permitted(o, !ExpressionDiverges(m, e), j, ReturnsInside(m, e))
    decreases e
  {
    if e.Match? {
      MatchOutcomes(m, x, e, j, o);
    } else if e.Conditional? {
      ConditionalOutcomes(m, x, e, j, o);
    } else if e.Binary? && e.op != Strict {
      ShortCircuitOutcomes(m, x, e, j, o);
    } else {
      StrictOutcomes(m, x, e, j, o);
    }
  }

  lemma {:induction false} ShortCircuitOutcomes(m: Marks, x: Setting, e: Expression, j: Jumps,
                                                o: Outcome)
    requires e.Binary? && e.op != Strict
    requires Fits(m, x) && !j.lax && JumpsWellPlaced(e, j) && Ends(x, e, o)
    ensures Permitted(o, !ExpressionDiverges(m, e), j, ReturnsInside(m, e))
    decreases e, 0
  {
    if o != Done && Ends(x, e.left, o) {
      ExpressionOutcomes(m, x, e.left, j, o);
    } else {
      ExpressionOutcomes(m, x, e.left, j, Done);
      if o != Done {
        ExpressionOutcomes(m, x, e.right, j, o);
      }
    }
  }

  lemma {:induction false} StrictOutcomes(m: Marks, x: Setting, e: Expression, j: Jumps,
                                          o: Outcome)
    requires IsStrict(e)
    requires Fits(m, x) && !j.lax && JumpsWellPlaced(e, j) && Ends(x, e, o)
    ensures Permitted(o, !ExpressionDiverges(m, e), j, ReturnsInside(m, e))
    decreases e, |StrictOperands(e)| + 1
  {
    hide OperandsEnd, OperandDiverges, JumpsWellPlaced, ReturnsInside;
    assert StrictOperands(e)[0..] == StrictOperands(e);
    OperandsDiverge(m, e, 0);
    StrictDiverges(m, e);
    if o != Done && OperandsEnd(x, e, 0, o) {
      OperandOutcomes(m, x, e, 0, j, o);
    } else {
      OperandOutcomes(m, x, e, 0, j, Done);
      assert CallEnds(x, e, o);
    }
  }

  lemma {:induction false} MatchOutcomes(m: Marks, x: Setting, e: Expression, j: Jumps,
                                         o: Outcome)
    requires e.Match?
    requires Fits(m, x) && !j.lax && JumpsWellPlaced(e, j) && Ends(x, e, o)
    ensures Permitted(o, !ExpressionDiverges(m, e), j, ReturnsInside(m, e))
    decreases e, 0
  {
    if o != Done && Ends(x, e.value, o) {
      ExpressionOutcomes(m, x, e.value, j, o);
    } else {
      ExpressionOutcomes(m, x, e.value, j, Done);
      if Leaves(o) && PatternsEnd(x, e.arms, o) {
        PatternOutcomes(m, x, e.arms, j, o);
      } else {
        PatternOutcomes(m, x, e.arms, j, Done);
        FinalFits(m, x);
        ArmsOutcomes(m, x, e.arms, AllLeave(x.marks, e.arms), j, o);
      }
    }
  }

  lemma {:induction false} ConditionalOutcomes(m: Marks, x: Setting, e: Expression, j: Jumps,
                                               o: Outcome)
    requires e.Conditional?
    requires Fits(m, x) && !j.lax && JumpsWellPlaced(e, j) && Ends(x, e, o)
    ensures Permitted(o, !ExpressionDiverges(m, e), j, ReturnsInside(m, e))
    decreases e, 1
  {
    hide BlockEnds, BlockFlow, BlockReturns, BlockJumps, ThenEnds, ElseEnds;
    if o != Done && Ends(x, e.condition, o) {
      ExpressionOutcomes(m, x, e.condition, j, o);
    } else {
      ExpressionOutcomes(m, x, e.condition, j, Done);
      var way := if ThenEnds(x, e, o) || ElseEnds(x, e, o) then o else Fell;
      if ThenEnds(x, e, way) {
        ThenOutcomes(m, x, e, j, way);
      } else {
        ElseOutcomes(m, x, e, j, way);
      }
    }
  }

  predicate TailDiverges(m: Marks, b: seq<Statement>, diverges: bool) {
    BlockFlow(m, b) == Diverges || (BlockFlow(m, b) == Continues && diverges)
  }

  lemma {:induction false} ThenOutcomes(m: Marks, x: Setting, e: Expression, j: Jumps, o: Outcome)
    requires e.Conditional?
    requires Fits(m, x) && !j.lax && JumpsWellPlaced(e, j) && ThenEnds(x, e, o)
    ensures Permitted(o, !TailDiverges(m, e.thenBlock, ExpressionDiverges(m, e.thenValue)), j,
                      BlockReturns(m, e.thenBlock) || ReturnsInside(m, e.thenValue))
    decreases e, 0
  {
    hide BlockEnds, BlockFlow, BlockReturns, BlockJumps, ExpressionDiverges, ReturnsInside;
    if o != Done && BlockEnds(x, e.thenBlock, o) {
      BlockOutcomes(m, x, e.thenBlock, j, o);
    } else {
      BlockOutcomes(m, x, e.thenBlock, j, Done);
      ExpressionOutcomes(m, x, e.thenValue, j, o);
    }
  }

  lemma {:induction false} ElseOutcomes(m: Marks, x: Setting, e: Expression, j: Jumps, o: Outcome)
    requires e.Conditional?
    requires Fits(m, x) && !j.lax && JumpsWellPlaced(e, j) && ElseEnds(x, e, o)
    ensures Permitted(o, !TailDiverges(m, e.elseBlock, ExpressionDiverges(m, e.elseValue)), j,
                      BlockReturns(m, e.elseBlock) || ReturnsInside(m, e.elseValue))
    decreases e, 0
  {
    hide BlockEnds, BlockFlow, BlockReturns, BlockJumps, ExpressionDiverges, ReturnsInside;
    if o != Done && BlockEnds(x, e.elseBlock, o) {
      BlockOutcomes(m, x, e.elseBlock, j, o);
    } else {
      BlockOutcomes(m, x, e.elseBlock, j, Done);
      ExpressionOutcomes(m, x, e.elseValue, j, o);
    }
  }

  lemma {:induction false} PatternOutcomes(m: Marks, x: Setting, arms: seq<Arm>, j: Jumps,
                                           o: Outcome)
    requires Fits(m, x) && !j.lax && ArmJumps(arms, j) && PatternsEnd(x, arms, o)
    ensures Permitted(o, !AnyPatternDiverges(m, arms), j, ArmsReturn(m, arms))
    decreases arms
  {
    if arms != [] {
      var pattern := arms[0].pattern;
      if Leaves(o) && OptionEnds(x, pattern, o) {
        OptionOutcomes(m, x, pattern, j, o);
      } else {
        OptionPasses(m, x, pattern, j);
        PatternOutcomes(m, x, arms[1..], j, o);
      }
    }
  }

  /** Code behind which control goes on has a value that can be computed. */
  lemma {:induction false} OptionPasses(m: Marks, x: Setting, e: Option<Expression>, j: Jumps)
    requires Fits(m, x) && !j.lax && OptionJumps(e, j)
    requires OptionEnds(x, e, Done) || OptionEnds(x, e, Fell)
    ensures e.None? || !ExpressionDiverges(m, e.value)
    decreases e, 1
  {
    hide OptionEnds, ExpressionDiverges;
    OptionOutcomes(m, x, e, j, if OptionEnds(x, e, Done) then Done else Fell);
  }

  lemma {:induction false} ArmOutcomes(m: Marks, x: Setting, arm: Arm, j: Jumps, o: Outcome)
    requires Fits(m, x) && !j.lax && BlockJumps(arm.block, j) && OptionJumps(arm.tail, j)
    requires ArmEnds(x, arm, o)
    ensures Permitted(o, !TailDiverges(m, arm.block,
                                       arm.tail.Some? && ExpressionDiverges(m, arm.tail.value)),
                      j, BlockReturns(m, arm.block) || OptionReturns(m, arm.tail))
    ensures o == Done ==> BlockFlow(m, arm.block) == Continues
                          && (arm.tail.Some? ==> !ExpressionDiverges(m, arm.tail.value))
    decreases arm
  {
    hide BlockEnds, BlockFlow, BlockReturns, BlockJumps, ExpressionDiverges;
    if o != Done && BlockEnds(x, arm.block, o) {
      BlockOutcomes(m, x, arm.block, j, o);
    } else {
      BlockOutcomes(m, x, arm.block, j, Done);
      OptionOutcomes(m, x, arm.tail, j, o);
    }
  }

  lemma {:induction false} ArmsOutcomes(m: Marks, x: Setting, arms: seq<Arm>, allLeave: bool,
                                        j: Jumps, o: Outcome)
    requires Fits(m, x) && Fits(x.marks, x) && !j.lax && ArmJumps(arms, j)
    requires allLeave ==> AllLeave(x.marks, arms)
    requires ArmsEnd(x, arms, allLeave, o)
    ensures Permitted(o, !AllArmsDiverge(m, arms), j, ArmsReturn(m, arms))
    decreases arms
  {
    hide BlockFlow, ArmEnds, OptionEnds, BlockReturns, OptionReturns, BlockJumps, OptionJumps;
    var arm, rest := arms[0], arms[1..];
    if ArmsEnd(x, rest, allLeave, o) {
      ArmsOutcomes(m, x, rest, allLeave, j, o);
    } else if Leaves(o) && OptionEnds(x, arm.guard, o) {
      OptionOutcomes(m, x, arm.guard, j, o);
    } else if Leaves(o) && ArmEnds(x, arm, o) {
      ArmOutcomes(m, x, arm, j, o);
    } else if ArmEnds(x, arm, Done) {
      ArmOutcomes(m, x, arm, j, Done);
      ArmOutcomes(x.marks, x, arm, j, Done);
    } else {
      ArmOutcomes(m, x, arm, j, Fell);
    }
  }

  /** The first statement that does not continue decides; what follows it never runs. */
  lemma {:induction false} BlockOutcomes(m: Marks, x: Setting, b: seq<Statement>, j: Jumps,
                                         o: Outcome)
    requires Fits(m, x) && !j.lax && BlockJumps(b, j) && BlockEnds(x, b, o)
    ensures Permitted(o, BlockFlow(m, b) == Continues, j, BlockReturns(m, b))
    decreases b
  {
    if b != [] {
      if o != Done && StatementEnds(x, b[0], o) {
        StatementOutcomes(m, x, b[0], j, o);
      } else {
        StatementOutcomes(m, x, b[0], j, Done);
        BlockOutcomes(m, x, b[1..], j, o);
      }
    }
  }

  lemma {:induction false} SendOutcomes(m: Marks, x: Setting, arms: seq<SelectArm>, j: Jumps,
                                        o: Outcome)
    requires Fits(m, x) && !j.lax && SelectJumps(arms, j) && SendsEnd(x, arms, o)
    ensures Permitted(o, !AnySendDiverges(m, arms), j, SelectReturns(m, arms))
    decreases arms
  {
    if arms != [] {
      var payload := arms[0].payload;
      if Leaves(o) && OptionEnds(x, payload, o) {
        OptionOutcomes(m, x, payload, j, o);
      } else {
        OptionPasses(m, x, payload, j);
        SendOutcomes(m, x, arms[1..], j, o);
      }
    }
  }

  lemma {:induction false} CaseOutcomes(m: Marks, x: Setting, arms: seq<SelectArm>, j: Jumps,
                                        o: Outcome)
    requires Fits(m, x) && !j.lax && SelectJumps(arms, j) && CasesEnd(x, arms, o)
    ensures Permitted(o, AnyArmFlows(m, arms, Continues), j, SelectReturns(m, arms))
    decreases arms
  {
    var body := arms[0].body;
    if CasesEnd(x, arms[1..], o) {
      CaseOutcomes(m, x, arms[1..], j, o);
    } else {
      var way := if BlockEnds(x, body, o) then o else Broke;
      BlockOutcomes(m, x, body, j.Catching(), way);
    }
  }

  /** A statement goes on only if its flow continues, and returns only where a return counts. */
  lemma {:induction false} StatementOutcomes(m: Marks, x: Setting, s: Statement, j: Jumps,
                                             o: Outcome)
    requires Fits(m, x) && !j.lax && StatementJumps(s, j) && StatementEnds(x, s, o)
    ensures Permitted(o, StatementFlow(m, s) == Continues, j, StatementReturns(m, s))
    decreases s
  {
    hide Ends, ExpressionDiverges, ReturnsInside, JumpsWellPlaced;
    hide BlockEnds, BlockFlow, BlockReturns, BlockJumps;
    if s.Break? || s.Continue? {
    } else if s.Unsafe? {
      BlockOutcomes(m, x, s.body, j, o);
    } else if s.Return? {
      var way := if o != Done && OptionEnds(x, s.result, o) then o else Done;
      OptionOutcomes(m, x, s.result, j, way);
    } else if s.If? {
      IfOutcomes(m, x, s, j, o);
    } else if s.While? || s.For? {
      LoopOutcomes(m, x, s, j, o);
    } else if s.Select? {
      SelectOutcomes(m, x, s, j, o);
    } else {
      PlainOutcomes(m, x, s, j, o);
    }
  }

  lemma {:induction false} PlainOutcomes(m: Marks, x: Setting, s: Statement, j: Jumps, o: Outcome)
    requires s.Variable? || s.Destructure? || s.Assignment? || s.Evaluate? || s.Discard?
             || s.LetElse? || s.ResultElse?
    requires Fits(m, x) && !j.lax && StatementJumps(s, j) && StatementEnds(x, s, o)
    ensures Permitted(o, StatementFlow(m, s) == Continues, j, StatementReturns(m, s))
    decreases s, 0
  {
    hide Ends, ExpressionDiverges, ReturnsInside, JumpsWellPlaced;
    hide BlockEnds, BlockFlow, BlockReturns, BlockJumps;
    if s.Assignment? {
      var first, second := if s.compound then s.target else s.value,
                           if s.compound then s.value else s.target;
      if o != Done && Ends(x, first, o) {
        ExpressionOutcomes(m, x, first, j, o);
      } else {
        ExpressionOutcomes(m, x, first, j, Done);
        ExpressionOutcomes(m, x, second, j, o);
      }
    } else if s.LetElse? || s.ResultElse? {
      if o != Done && Ends(x, s.initializer, o) {
        ExpressionOutcomes(m, x, s.initializer, j, o);
      } else {
        ExpressionOutcomes(m, x, s.initializer, j, Done);
        if o != Done {
          BlockOutcomes(m, x, s.otherwise, j, o);
        }
      }
    } else {
      ExpressionOutcomes(m, x, s.initializer, j, if Ends(x, s.initializer, o) then o else Fell);
    }
  }

  lemma {:induction false} IfOutcomes(m: Marks, x: Setting, s: Statement, j: Jumps, o: Outcome)
    requires s.If?
    requires Fits(m, x) && !j.lax && StatementJumps(s, j) && StatementEnds(x, s, o)
    ensures Permitted(o, StatementFlow(m, s) == Continues, j, StatementReturns(m, s))
    decreases s, 0
  {
    hide Ends, ExpressionDiverges, ReturnsInside, JumpsWellPlaced;
    hide BlockEnds, BlockFlow, BlockReturns, BlockJumps, BlockExits;
    if o != Done && Ends(x, s.condition, o) {
      ExpressionOutcomes(m, x, s.condition, j, o);
    } else {
      ExpressionOutcomes(m, x, s.condition, j, Done);
      if BlockEnds(x, s.thenBlock, o) {
        BlockOutcomes(m, x, s.thenBlock, j, o);
      } else if BlockEnds(x, s.thenBlock, Fell) {
        BlockOutcomes(m, x, s.thenBlock, j, Fell);
      }
      if s.hasElse {
        if BlockEnds(x, s.elseBlock, o) {
          BlockOutcomes(m, x, s.elseBlock, j, o);
        } else if BlockEnds(x, s.elseBlock, Fell) {
          BlockOutcomes(m, x, s.elseBlock, j, Fell);
        }
      }
    }
  }

  /** A loop completes only if its head can yield; no jump of its body escapes it. */
  lemma {:induction false} LoopOutcomes(m: Marks, x: Setting, s: Statement, j: Jumps, o: Outcome)
    requires s.While? || s.For?
    requires Fits(m, x) && !j.lax && StatementJumps(s, j) && StatementEnds(x, s, o)
    ensures Permitted(o, StatementFlow(m, s) == Continues, j, StatementReturns(m, s))
    ensures s.While? ==> o == Done || o == Returned
    decreases s, 1
  {
    hide Ends, ExpressionDiverges, ReturnsInside, JumpsWellPlaced, ExpressionExits;
    hide BlockEnds, BlockFlow, BlockReturns, BlockJumps;
    if s.For? && o != Done && Ends(x, s.sequence, o) {
      ExpressionOutcomes(m, x, s.sequence, j, o);
    } else {
      if s.For? {
        ExpressionOutcomes(m, x, s.sequence, j, Done);
      }
      HeadOutcomes(m, x, s, j);
      if OptionEnds(x, Head(s), Done) && BlockEnds(x, s.body, Returned) {
        BlockOutcomes(m, x, s.body, j.Body(), Returned);
      }
    }
  }

  function Head(s: Statement): Option<Expression>
    requires s.While? || s.For?
  {
    if s.While? then Some(s.condition) else s.next
  }

  lemma {:induction false} HeadOutcomes(m: Marks, x: Setting, s: Statement, j: Jumps)
    requires s.While? || s.For?
    requires Fits(m, x) && !j.lax && StatementJumps(s, j)
    ensures !OptionEnds(x, Head(s), Broke)
    ensures OptionEnds(x, Head(s), Done) ==>
              Head(s).None? || !ExpressionDiverges(m, Head(s).value)
    ensures OptionEnds(x, Head(s), Returned) ==> OptionReturns(m, Head(s))
    decreases s, 0
  {
    hide Ends, ExpressionDiverges, ReturnsInside, JumpsWellPlaced;
    if Head(s).Some? {
      var e := Head(s).value;
      if Ends(x, e, Broke) {
        ExpressionOutcomes(m, x, e, j.Catching(), Broke);
      }
      if Ends(x, e, Done) {
        ExpressionOutcomes(m, x, e, j.Catching(), Done);
      }
      if Ends(x, e, Returned) {
        ExpressionOutcomes(m, x, e, j.Catching(), Returned);
      }
    }
  }

  lemma {:induction false} SelectOutcomes(m: Marks, x: Setting, s: Statement, j: Jumps, o: Outcome)
    requires s.Select?
    requires Fits(m, x) && !j.lax && StatementJumps(s, j) && StatementEnds(x, s, o)
    ensures Permitted(o, StatementFlow(m, s) == Continues, j, StatementReturns(m, s))
    decreases s, 0
  {
    hide BlockEnds, BlockFlow, BlockReturns, BlockJumps, OptionEnds;
    hide SendsEnd, CasesEnd, SelectJumps, SelectReturns, AnySendDiverges, AnyArmFlows;
    var duration := if s.timeout.Some? then s.timeout.value.duration else None;
    if Leaves(o) && SendsEnd(x, s.operations, o) {
      SendOutcomes(m, x, s.operations, j, o);
    } else {
      SendOutcomes(m, x, s.operations, j, Done);
      if Leaves(o) && OptionEnds(x, duration, o) {
        OptionOutcomes(m, x, duration, j, o);
      } else if CasesEnd(x, s.operations, o) {
        CaseOutcomes(m, x, s.operations, j, o);
      } else {
        var way := if (s.timeout.Some? && BlockEnds(x, s.timeout.value.body, o))
                      || BlockEnds(x, s.errorBlock, o) then o else Fell;
        if s.timeout.Some? && BlockEnds(x, s.timeout.value.body, way) {
          BlockOutcomes(m, x, s.timeout.value.body, j, way);
        } else {
          BlockOutcomes(m, x, s.errorBlock, j, way);
        }
      }
    }
  }

  /** A loop that goes round at most `rounds` times. */
  predicate RoundsEnd(x: Setting, s: Statement, rounds: nat, o: Outcome)
    requires s.While?
    decreases rounds
  {
    && rounds > 0
    && (|| StatementEnds(x, s, o)
        || ((Ends(x, s.condition, Continued) || Ends(x, s.condition, Fell)
             || (Ends(x, s.condition, Done)
                 && (BlockEnds(x, s.body, Done) || BlockEnds(x, s.body, Fell)
                     || BlockEnds(x, s.body, Continued))))
            && RoundsEnd(x, s, rounds - 1, o)))
  }

  /** Every round takes its own decisions: a loop can end as one of its rounds can. */
  lemma {:induction false} LoopEndsAsARound(x: Setting, s: Statement, rounds: nat, o: Outcome)
    requires s.While? && rounds > 0
    ensures RoundsEnd(x, s, rounds, o) <==> StatementEnds(x, s, o)
  {
    if rounds > 1 {
      LoopEndsAsARound(x, s, rounds - 1, o);
    }
  }

  /** Marking one markable function keeps the marks sound, if no break is caught in its body. */
  lemma MarkingStaysSound(p: Program, m: Marks, f: nat)
    requires Supported(p, m)
    requires f < |p.functions| && Markable(p, m, f) && NoBreakIsCaught(p, f)
    ensures Supported(p, m[f := true])
  {
    hide BlockJumps, BlockReturns, BlockFlow, BlockEnds;
    var marked := m[f := true];
    forall g: nat, final: Marks, callees: set<nat> |
      g < |marked| && marked[g] && Extends(marked, final) && NoneReturns(final, callees)
      ensures !HandsBack(p, final, callees, g)
    {
      assert Extends(m, final);
      if g == f {
        var function_ := p.functions[f];
        var x := Setting(final, function_.task, callees);
        BodyNeverEnds(m, x, function_.body);
      }
    }
  }

  lemma BodyNeverEnds(m: Marks, x: Setting, b: seq<Statement>)
    requires Fits(m, x) && BlockJumps(b, Jumps(false, false, false))
    requires !BlockReturns(m, b) && BlockFlow(m, b) == Diverges
    ensures !Comes(x, b)
  {
    hide BlockJumps, BlockReturns, BlockFlow, BlockEnds;
    if Comes(x, b) {
      var o :| BlockEnds(x, b, o);
      BlockOutcomes(m, x, b, Jumps(false, false, false), o);
    }
  }

  // ---------- exactly when the marks are sound ----------

  lemma {:induction false} ReturningGrows(p: Program, m: Marks, depth: nat, more: nat)
    requires depth <= more
    ensures Returning(p, m, depth) <= Returning(p, m, more)
    decreases more
  {
    hide HandsBack;
    if depth < more {
      ReturningGrows(p, m, depth, more - 1);
    }
  }

  /** Once a level adds no function, no later level does. */
  lemma {:induction false} ReturningStays(p: Program, m: Marks, depth: nat, more: nat)
    requires depth <= more && Returning(p, m, depth + 1) == Returning(p, m, depth)
    ensures Returning(p, m, more) == Returning(p, m, depth)
    decreases more
  {
    hide HandsBack;
    if depth < more {
      ReturningStays(p, m, depth, more - 1);
    }
  }

  /** Every level up to the last one that adds something adds a function. */
  lemma {:induction false} ReturningSettles(p: Program, m: Marks, depth: nat)
    ensures |Returning(p, m, depth)| >= depth
            || exists d: nat :: d < depth && Returning(p, m, d + 1) == Returning(p, m, d)
  {
    if depth > 0 {
      ReturningSettles(p, m, depth - 1);
      ReturningGrows(p, m, depth - 1, depth);
      var before, after := Returning(p, m, depth - 1), Returning(p, m, depth);
      if before != after && |before| >= depth - 1 {
        SubsetIsSmaller(before, after);
      } else if before == after {
        assert Returning(p, m, (depth - 1) + 1) == Returning(p, m, depth - 1);
      }
    }
  }

  lemma SubsetIsSmaller(a: set<nat>, b: set<nat>)
    requires a < b
    ensures |a| < |b|
  {
    assert b == a + (b - a);
  }

  /** No run needs calls nested deeper than there are functions. */
  lemma DepthSuffices(p: Program, m: Marks, depth: nat)
    ensures Returning(p, m, depth) <= Returning(p, m, |p.functions|)
  {
    hide Returning;
    var n := |p.functions|;
    if depth <= n {
      ReturningGrows(p, m, depth, n);
    } else {
      ReturningSettles(p, m, n + 1);
      if |Returning(p, m, n + 1)| > n {
        var all, some := Below(n), Returning(p, m, n + 1);
        if some == all {
        } else {
          SubsetIsSmaller(some, all);
        }
        assert false;
      }
      var d: nat :| d < n + 1 && Returning(p, m, d + 1) == Returning(p, m, d);
      ReturningStays(p, m, d, depth);
      ReturningStays(p, m, d, n);
    }
  }

  /** The marks are sound if and only if no marked function is found to return this deep. */
  lemma SoundIff(p: Program, m: Marks)
    requires |m| == |p.functions|
    ensures Sound(p, m) <==> NoneReturns(m, Returning(p, m, |p.functions|))
  {
    hide Returning;
    if NoneReturns(m, Returning(p, m, |p.functions|)) {
      forall f: nat, depth: nat | f < |m| && m[f] ensures f !in Returning(p, m, depth) {
        DepthSuffices(p, m, depth);
      }
    } else {
      var f :| f in Returning(p, m, |p.functions|) && Marked(m, f);
      assert m[f];
    }
  }

  // ---------- the do-while ----------

  function Unmarked(m: Marks): (n: nat) {
    if m == [] then 0 else (if m[0] then 0 else 1) + Unmarked(m[1..])
  }

  lemma {:induction false} MarkingCounts(m: Marks, f: nat)
    requires f < |m| && !m[f]
    ensures Unmarked(m[f := true]) == Unmarked(m) - 1
  {
    if f == 0 {
      assert m[f := true][1..] == m[1..];
    } else {
      assert m[f := true][1..] == m[1..][f - 1 := true];
      MarkingCounts(m[1..], f - 1);
    }
  }

  /** The marks after a pass over the functions from `f` on, each judged under the ones before. */
  function Pass(p: Program, m: Marks, f: nat): (r: Marks)
    requires |m| == |p.functions|
    ensures |r| == |m| && Extends(m, r)
    ensures Unmarked(r) <= Unmarked(m) && (r != m ==> Unmarked(r) < Unmarked(m))
    decreases |m| - f
  {
    if f >= |m| then m
    else if Markable(p, m, f) then
      MarkingCounts(m, f);
      Pass(p, m[f := true], f + 1)
    else Pass(p, m, f + 1)
  }

  /** Passes until one of them marks nothing. */
  function FinalMarks(p: Program, m: Marks): (r: Marks)
    requires |m| == |p.functions|
    ensures |r| == |m| && Extends(m, r) && Pass(p, r, 0) == r
    decreases Unmarked(m)
  {
    var next := Pass(p, m, 0);
    if next == m then m else FinalMarks(p, next)
  }

  /** No break is caught in a function that these marks have and those do not. */
  predicate CleanlyMarked(p: Program, m: Marks, final: Marks)
    requires |m| == |final| == |p.functions|
  {
    forall f :: 0 <= f < |m| && !m[f] && final[f] ==> NoBreakIsCaught(p, f)
  }

  lemma {:induction false} PassStaysSound(p: Program, m: Marks, f: nat)
    requires |m| == |p.functions| && Supported(p, m) && CleanlyMarked(p, m, Pass(p, m, f))
    ensures Supported(p, Pass(p, m, f))
    decreases |m| - f
  {
    hide Markable, Supported, NoBreakIsCaught;
    if f >= |m| {
    } else if Markable(p, m, f) {
      assert !m[f] by { MarkableIsUnmarked(p, m, f); }
      assert Extends(m[f := true], Pass(p, m[f := true], f + 1));
      MarkingStaysSound(p, m, f);
      PassStaysSound(p, m[f := true], f + 1);
    } else {
      PassStaysSound(p, m, f + 1);
    }
  }

  lemma MarkableIsUnmarked(p: Program, m: Marks, f: nat)
    requires |m| == |p.functions| && f < |m| && Markable(p, m, f)
    ensures !m[f]
  {
  }

  /**
    From supported marks the analysis ends in sound ones, if no break is caught in the functions
    it marks. What happens in the others does not matter.
   */
  lemma {:induction false} FinalMarksAreSound(p: Program, m: Marks)
    requires |m| == |p.functions| && Supported(p, m) && CleanlyMarked(p, m, FinalMarks(p, m))
    ensures Supported(p, FinalMarks(p, m)) && Sound(p, FinalMarks(p, m))
    decreases Unmarked(m)
  {
    hide Supported, NoBreakIsCaught, Pass;
    var next := Pass(p, m, 0);
    assert Extends(next, FinalMarks(p, next));
    PassStaysSound(p, m, 0);
    if next == m {
      SupportedIsSound(p, m);
    } else {
      FinalMarksAreSound(p, next);
    }
  }

  /** A pass that marks nothing met no markable function. */
  lemma {:induction false} NothingIsLeft(p: Program, m: Marks, f: nat, g: nat)
    requires |m| == |p.functions| && Pass(p, m, f) == m && f <= g < |m|
    ensures !Markable(p, m, g)
    decreases |m| - f
  {
    hide BlockReturns, BlockFlow;
    if f < g {
      NothingIsLeft(p, m, f + 1, g);
    }
  }

  /**
    The do-while of codegen.cpp:1724-1748. It terminates in the final marks, which keep the old
    ones and which no further pass would change. They are sound if and only if no marked function
    returns with calls nested at most as deep as there are functions, and they are sound whenever
    no break is caught, by a loop head or a select operation, in a function that gets marked.
   */
  method MarkDivergingFunctions(p: Program, marks: array<bool>)
    requires marks.Length == |p.functions| && Supported(p, marks[..])
    modifies marks
    ensures marks[..] == FinalMarks(p, old(marks[..]))
    ensures forall f :: 0 <= f < marks.Length && old(marks[f]) ==> marks[f]
    ensures forall f :: 0 <= f < marks.Length ==> !Markable(p, marks[..], f)
    ensures Sound(p, marks[..]) <==>
            NoneReturns(marks[..], Returning(p, marks[..], |p.functions|))
    ensures CleanlyMarked(p, old(marks[..]), marks[..]) ==> Sound(p, marks[..])
  {
    hide Supported, NoBreakIsCaught, Sound, Returning, BlockFlow, BlockReturns, NoneReturns;
    ghost var start := marks[..];
    var changed := true;
    while changed
      invariant |marks[..]| == |p.functions|
      invariant FinalMarks(p, marks[..]) == FinalMarks(p, start)
      invariant !changed ==> Pass(p, marks[..], 0) == marks[..]
      decreases Unmarked(marks[..]), changed
    {
      changed := false;
      ghost var before := marks[..];
      for index := 0 to marks.Length
        invariant |marks[..]| == |p.functions|
        invariant Pass(p, marks[..], index) == Pass(p, before, 0)
        invariant if changed then Unmarked(marks[..]) < Unmarked(before) else marks[..] == before
      {
        ghost var current := marks[..];
        if Markable(p, marks[..], index) {
          MarkingCounts(current, index);
          marks[index] := true;
          assert marks[..] == current[index := true];
          changed := true;
        }
      }
      assert marks[..] == Pass(p, before, 0);
    }
    assert Extends(start, marks[..]);
    forall f | 0 <= f < marks.Length ensures !Markable(p, marks[..], f) {
      NothingIsLeft(p, marks[..], 0, f);
    }
    SoundIff(p, marks[..]);
    if CleanlyMarked(p, start, marks[..]) {
      FinalMarksAreSound(p, start);
    }
  }

  // ---------- what the analysis does not promise ----------

  function Bodied(task: bool, body: seq<Statement>): FirFunction {
    FirFunction(task, true, false, false, false, true, body)
  }

  const PANIC := Evaluate(Call(Panic, 0, []))

  /** A block that may leave early by `jump` and otherwise panics. */
  function LeaveOrPanic(jump: Statement): seq<Statement> {
    [If(Leaf, [jump], false, []), PANIC]
  }

  /** What a block of one statement before others comes to. */
  lemma {:induction false} BlockOf(m: Marks, first: Statement, rest: seq<Statement>, j: Jumps)
    ensures BlockFlow(m, [first] + rest)
         == if StatementFlow(m, first) != Continues then StatementFlow(m, first)
            else BlockFlow(m, rest)
    ensures BlockReturns(m, [first] + rest) <==>
            StatementReturns(m, first) || BlockReturns(m, rest)
    ensures BlockJumps([first] + rest, j) <==> StatementJumps(first, j) && BlockJumps(rest, j)
  {
    hide StatementFlow, StatementReturns, StatementJumps;
    assert ([first] + rest)[1..] == rest;
  }

  lemma {:induction false} BlockRuns(x: Setting, first: Statement, rest: seq<Statement>)
    ensures BlockExits(x, [first] + rest) <==> StatementExits(x, first) || BlockExits(x, rest)
    ensures forall o :: BlockEnds(x, [first] + rest, o) <==>
              Sequel(o, StatementEnds(x, first, o), StatementEnds(x, first, Done),
                     BlockEnds(x, rest, o))
  {
    hide StatementExits, StatementEnds;
    assert ([first] + rest)[1..] == rest;
  }

  lemma {:induction false} EmptyBlock(m: Marks, x: Setting, j: Jumps)
    ensures BlockFlow(m, []) == Continues && !BlockReturns(m, []) && BlockJumps([], j)
    ensures !BlockExits(x, []) && forall o :: BlockEnds(x, [], o) <==> o == Done
  {
    hide StatementFlow, StatementReturns, StatementJumps, StatementExits, StatementEnds;
  }

  /** A block of one statement. */
  lemma {:induction false} OneStatement(m: Marks, x: Setting, s: Statement, j: Jumps)
    ensures BlockFlow(m, [s]) == StatementFlow(m, s)
    ensures BlockReturns(m, [s]) <==> StatementReturns(m, s)
    ensures BlockJumps([s], j) <==> StatementJumps(s, j)
    ensures BlockExits(x, [s]) <==> StatementExits(x, s)
    ensures forall o :: BlockEnds(x, [s], o) <==> StatementEnds(x, s, o)
  {
    hide BlockFlow, BlockReturns, BlockJumps, BlockExits, BlockEnds;
    hide StatementFlow, StatementReturns, StatementJumps, StatementExits, StatementEnds;
    EmptyBlock(m, x, j);
    assert [s] + [] == [s];
    BlockOf(m, s, [], j);
    BlockRuns(x, s, []);
  }

  lemma LeafFacts(m: Marks, x: Setting, j: Jumps)
    ensures !ExpressionDiverges(m, Leaf) && !ReturnsInside(m, Leaf) && JumpsWellPlaced(Leaf, j)
    ensures !ExpressionExits(x, Leaf) && forall o :: Ends(x, Leaf, o) <==> o == Done
  {
    forall o ensures Ends(x, Leaf, o) <==> o == Done {
      assert OperandsEnd(x, Leaf, 0, o) <==> o == Done;
      assert OperandsEnd(x, Leaf, 0, Done);
    }
  }

  lemma PanicFacts(m: Marks, x: Setting, j: Jumps)
    ensures BlockFlow(m, [PANIC]) == Diverges
    ensures !BlockReturns(m, [PANIC]) && BlockJumps([PANIC], j)
    ensures BlockExits(x, [PANIC]) && forall o :: !BlockEnds(x, [PANIC], o)
  {
    hide BlockFlow, BlockReturns, BlockJumps, BlockExits, BlockEnds;
    var panic := Call(Panic, 0, []);
    OneStatement(m, x, PANIC, j);
    forall o ensures !Ends(x, panic, o) {
      assert OperandsEnd(x, panic, 0, o) <==> o == Done;
    }
    assert ExpressionExits(x, panic);
    assert !ReturnsInside(m, panic) && JumpsWellPlaced(panic, j);
    assert StatementFlow(m, PANIC) == Diverges;
  }

  lemma LeaveOrPanicFacts(m: Marks, x: Setting, jump: Statement, j: Jumps)
    requires jump.Break? || jump == Return(None)
    ensures BlockFlow(m, LeaveOrPanic(jump)) == Diverges
    ensures BlockReturns(m, LeaveOrPanic(jump)) <==> jump.Return?
    ensures BlockJumps(LeaveOrPanic(jump), j) <==> jump.Return? || j.breaks
    ensures BlockExits(x, LeaveOrPanic(jump))
    ensures forall o :: BlockEnds(x, LeaveOrPanic(jump), o) <==>
              o == if jump.Break? then Broke else Returned
  {
    hide BlockFlow, BlockReturns, BlockJumps, BlockExits, BlockEnds;
    hide ExpressionDiverges, ReturnsInside, JumpsWellPlaced, ExpressionExits, Ends;
    var first := If(Leaf, [jump], false, []);
    LeafFacts(m, x, j);
    OneStatement(m, x, jump, j);
    PanicFacts(m, x, j);
    assert LeaveOrPanic(jump) == [first] + [PANIC];
    BlockOf(m, first, [PANIC], j);
    BlockRuns(x, first, [PANIC]);
  }

  /** A diverging flow only says that control does not go on behind: this body returns. */
  lemma FlowAloneIsNotEnough() returns (p: Program)
    ensures |p.functions| == 1 && NoBreakIsCaught(p, 0) && Supported(p, [false])
    ensures BlockFlow([false], p.functions[0].body) == Diverges
    ensures 0 in Returning(p, [false], 1)
  {
    hide BlockFlow, BlockReturns, BlockJumps, BlockEnds;
    var body := LeaveOrPanic(Return(None));
    p := Program([Bodied(false, body)]);
    LeaveOrPanicFacts([false], Setting([false], false, {}), Return(None),
                      Jumps(false, false, false));
    NothingMarkedIsSupported(p, [false]);
    assert Returning(p, [false], 0) == {};
    assert HandsBack(p, [false], {}, 0);
  }

  /** A loop whose body returns a value that is computed by way of a block. */
  function ReturningLoop(block: seq<Statement>): Statement {
    While(Leaf, [Return(Some(ByWayOf(block)))])
  }

  function ByWayOf(block: seq<Statement>): Expression {
    Conditional(Leaf, block, Leaf, [PANIC], Leaf)
  }

  lemma ByWayOfFacts(m: Marks, x: Setting, block: seq<Statement>, j: Jumps)
    ensures ExpressionDiverges(m, ByWayOf(block)) <==> BlockFlow(m, block) == Diverges
    ensures ReturnsInside(m, ByWayOf(block)) <==> BlockReturns(m, block)
    ensures JumpsWellPlaced(ByWayOf(block), j) <==> BlockJumps(block, j)
    ensures ExpressionExits(x, ByWayOf(block)) <==> BlockExits(x, block)
    ensures forall o :: Ends(x, ByWayOf(block), o) <==>
              Absorbed(o, BlockExits(x, block), BlockEnds(x, block, o), BlockEnds(x, block, Fell))
  {
    hide BlockFlow, BlockReturns, BlockJumps, BlockExits, BlockEnds;
    LeafFacts(m, x, j);
    PanicFacts(m, x, j);
    var e := ByWayOf(block);
    forall o ensures ThenEnds(x, e, o) <==> BlockEnds(x, block, o) {
      assert Ends(x, Leaf, o) <==> o == Done;
    }
    assert forall o :: !ElseEnds(x, e, o);
  }

  /** Without a returning path inside the block, the loop returns only past its value. */
  lemma ReturningLoopFacts(m: Marks, x: Setting, block: seq<Statement>, lax: bool)
    ensures StatementFlow(m, ReturningLoop(block)) == Continues
    ensures StatementReturns(m, ReturningLoop(block)) <==>
            BlockFlow(m, block) != Diverges || BlockReturns(m, block)
    ensures StatementJumps(ReturningLoop(block), Jumps(lax, false, false)) <==>
            BlockJumps(block, Jumps(lax, true, true))
    ensures StatementEnds(x, ReturningLoop(block), Done)
    ensures StatementEnds(x, ReturningLoop(block), Returned) <==>
            || BlockEnds(x, block, Done) || BlockEnds(x, block, Returned)
            || (BlockEnds(x, block, Fell) && !BlockExits(x, block))
    ensures forall o :: StatementEnds(x, ReturningLoop(block), o) ==> o == Done || o == Returned
  {
    hide BlockFlow, BlockReturns, BlockJumps, BlockExits, BlockEnds;
    hide ExpressionDiverges, ReturnsInside, JumpsWellPlaced, ExpressionExits, Ends;
    var value := ByWayOf(block);
    var inner := Return(Some(value));
    var j := Jumps(lax, false, false);
    LeafFacts(m, x, j.Catching());
    ByWayOfFacts(m, x, block, j.Body());
    OneStatement(m, x, inner, j.Body());
    assert forall o :: StatementEnds(x, inner, o) <==>
             Sequel(o, Ends(x, value, o), Ends(x, value, Done), o == Returned);
  }

  /** The loop, and a panic behind it: the whole body. */
  lemma ReturningBody(m: Marks, block: seq<Statement>)
    requires BlockFlow(m, block) == Diverges && !BlockReturns(m, block)
    ensures var body := [ReturningLoop(block), PANIC];
            && BlockFlow(m, body) == Diverges && !BlockReturns(m, body)
            && forall lax :: BlockJumps(body, Jumps(lax, false, false)) <==>
                             BlockJumps(block, Jumps(lax, true, true))
  {
    hide BlockFlow, BlockReturns, BlockJumps, StatementFlow, StatementReturns, StatementJumps;
    var x := Setting(m, true, {});
    assert [ReturningLoop(block), PANIC] == [ReturningLoop(block)] + [PANIC];
    forall lax ensures BlockJumps([ReturningLoop(block), PANIC], Jumps(lax, false, false))
                       <==> BlockJumps(block, Jumps(lax, true, true)) {
      ReturningLoopFacts(m, x, block, lax);
      PanicFacts(m, x, Jumps(lax, false, false));
      BlockOf(m, ReturningLoop(block), [PANIC], Jumps(lax, false, false));
    }
    ReturningLoopFacts(m, x, block, true);
    PanicFacts(m, x, Jumps(true, false, false));
    BlockOf(m, ReturningLoop(block), [PANIC], Jumps(true, false, false));
  }

  /** A task whose only function is such a loop. */
  function ReturningTask(block: seq<Statement>): Program {
    Program([Bodied(true, [ReturningLoop(block), PANIC])])
  }

  /** The marked task returns exactly if control goes on behind the block. */
  lemma MarkedTaskReturns(block: seq<Statement>)
    ensures var x := Setting([true], true, {});
            0 in Returning(ReturningTask(block), [true], 1) <==>
            || BlockEnds(x, block, Done) || BlockEnds(x, block, Returned)
            || (BlockEnds(x, block, Fell) && !BlockExits(x, block))
  {
    hide BlockEnds, BlockExits, StatementEnds, StatementExits;
    var x := Setting([true], true, {});
    var p := ReturningTask(block);
    ReturningLoopFacts([true], x, block, true);
    PanicFacts([true], x, Jumps(true, false, false));
    assert p.functions[0].body == [ReturningLoop(block)] + [PANIC];
    BlockRuns(x, ReturningLoop(block), [PANIC]);
    assert Returning(p, [true], 0) == {};
    assert 0 in Returning(p, [true], 1) <==> HandsBack(p, [true], {}, 0);
  }

  /** A select whose only operation breaks or panics. */
  function LeavingSelect(): seq<Statement> {
    [Select([SelectArm(None, LeaveOrPanic(Break))], None, [PANIC])]
  }

  lemma LeavingSelectFacts(m: Marks, x: Setting, j: Jumps)
    ensures BlockFlow(m, LeavingSelect()) == Diverges && !BlockReturns(m, LeavingSelect())
    ensures BlockJumps(LeavingSelect(), j) <==> j.lax && j.breaks
    ensures BlockEnds(x, LeavingSelect(), Done)
  {
    hide BlockFlow, BlockReturns, BlockJumps, BlockEnds;
    var arms := [SelectArm(None, LeaveOrPanic(Break))];
    var s := Select(arms, None, [PANIC]);
    assert arms[1..] == [];
    LeaveOrPanicFacts(m, x, Break, j.Catching());
    PanicFacts(m, x, j);
    OneStatement(m, x, s, j);
    assert CasesEnd(x, arms, Done);
    assert SendsEnd(x, arms, Done) by { assert SendsEnd(x, arms[1..], Done); }
    assert AllArmsFlow(m, arms, Diverges) && !AnyArmFlows(m, arms, Continues);
    assert !AnySendDiverges(m, arms) && !SelectReturns(m, arms);
    assert SelectJumps(arms, j) <==> j.lax && j.breaks;
  }

  /**
    A break in a select operation only leaves the emitted switch. The front end accepts the code
    below, the analysis marks it, and it returns.
   */
  lemma SelectBreakIsUnsound() returns (p: Program)
    ensures Accepted(p) && |p.functions| == 1 && !NoBreakIsCaught(p, 0) && Supported(p, [false])
    ensures Markable(p, [false], 0) && !Sound(p, [true])
  {
    hide BlockFlow, BlockReturns, BlockJumps, BlockEnds, Returning;
    var block := LeavingSelect();
    p := ReturningTask(block);
    LeavingSelectFacts([false], Setting([false], true, {}), Jumps(true, true, true));
    LeavingSelectFacts([false], Setting([true], true, {}), Jumps(false, true, true));
    ReturningBody([false], block);
    MarkedTaskReturns(block);
    NothingMarkedIsSupported(p, [false]);
    assert !BlockJumps(p.functions[0].body, Jumps(false, false, false));
    ReturnsIsUnsound(p, [true], 0);
  }

  lemma ReturnsIsUnsound(p: Program, m: Marks, f: nat)
    requires Marked(m, f) && f in Returning(p, m, 1)
    ensures !Sound(p, m)
  {
    hide Returning;
    assert m[f];
  }

  /** A loop whose head, by way of a block, leaves by a break. */
  function LeavingLoop(block: seq<Statement>): seq<Statement> {
    [While(ByWayOf(block), [])]
  }

  lemma LeavingLoopFacts(m: Marks, x: Setting, block: seq<Statement>, j: Jumps)
    requires BlockFlow(m, block) == Diverges && !BlockReturns(m, block)
    requires forall o :: BlockEnds(x, block, o) <==> o == Broke
    ensures BlockFlow(m, LeavingLoop(block)) == Diverges && !BlockReturns(m, LeavingLoop(block))
    ensures BlockJumps(LeavingLoop(block), j) <==> BlockJumps(block, j.Catching())
    ensures BlockExits(x, LeavingLoop(block)) <==> BlockExits(x, block)
    ensures forall o :: BlockEnds(x, LeavingLoop(block), o) <==>
              o == if BlockExits(x, block) then Fell else Done
  {
    hide BlockFlow, BlockReturns, BlockJumps, BlockExits, BlockEnds;
    hide ExpressionDiverges, ReturnsInside, JumpsWellPlaced, ExpressionExits, Ends;
    var head := ByWayOf(block);
    var loop := While(head, []);
    ByWayOfFacts(m, x, block, j.Catching());
    OneStatement(m, x, loop, j);
    EmptyBlock(m, x, j.Body());
    var end := if BlockExits(x, block) then Fell else Done;
    assert forall o :: Ends(x, head, o) <==> o == Broke;
    forall o ensures StatementEnds(x, loop, o) <==> o == end {
      assert Ends(x, head, Broke) && !Ends(x, head, Done) && !Ends(x, head, Returned);
    }
    assert forall o :: BlockEnds(x, LeavingLoop(block), o) <==> StatementEnds(x, loop, o);
  }

  /** Breaks or goes on to a select that panics in any case. */
  function BreakOrSelect(): seq<Statement> {
    [If(Leaf, [Break], false, []), Select([SelectArm(None, [PANIC])], None, [PANIC])]
  }

  lemma BreakOrSelectFacts(m: Marks, x: Setting, j: Jumps)
    ensures BlockFlow(m, BreakOrSelect()) == Diverges && !BlockReturns(m, BreakOrSelect())
    ensures BlockJumps(BreakOrSelect(), j) <==> j.breaks
    ensures !BlockExits(x, BreakOrSelect())
    ensures forall o :: BlockEnds(x, BreakOrSelect(), o) <==> o == Broke
  {
    hide BlockFlow, BlockReturns, BlockJumps, BlockExits, BlockEnds;
    hide ExpressionDiverges, ReturnsInside, JumpsWellPlaced, ExpressionExits, Ends;
    var arms := [SelectArm(None, [PANIC])];
    var first, second := If(Leaf, [Break], false, []), Select(arms, None, [PANIC]);
    assert arms[1..] == [];
    LeafFacts(m, x, j);
    PanicFacts(m, x, j);
    PanicFacts(m, x, j.Catching());
    OneStatement(m, x, Break, j);
    OneStatement(m, x, second, j);
    assert AllArmsFlow(m, arms, Diverges) && !AnyArmFlows(m, arms, Continues);
    assert !AnySendDiverges(m, arms) && !SelectReturns(m, arms) && SelectJumps(arms, j);
    assert forall o :: SendsEnd(x, arms, o) ==> o == Done;
    assert forall o :: !CasesEnd(x, arms, o);
    forall o ensures !StatementEnds(x, second, o) {
      assert !BlockEnds(x, [PANIC], o) && !BlockEnds(x, [PANIC], Fell) && !CasesEnd(x, arms, o);
      assert Leaves(o) ==> !SendsEnd(x, arms, o);
    }
    forall o ensures StatementEnds(x, first, o) <==> o == Broke || o == Done {
      assert Ends(x, Leaf, o) <==> o == Done;
      assert BlockEnds(x, [Break], o) <==> o == Broke;
    }
    assert BreakOrSelect() == [first] + [second];
    BlockOf(m, first, [second], j);
    BlockRuns(x, first, [second]);
  }

  /**
    A break in a loop condition only leaves that loop. The code below has one in the condition of
    an inner loop, next to a select, behind which the emitter goes on; it is accepted and marked,
    and it returns.
   */
  lemma JumpInLoopConditionIsUnsound() returns (p: Program)
    ensures Accepted(p) && |p.functions| == 1 && !NoBreakIsCaught(p, 0) && Supported(p, [false])
    ensures Markable(p, [false], 0) && !Sound(p, [true])
  {
    hide BlockFlow, BlockReturns, BlockJumps, BlockEnds, BlockExits, Returning;
    var block := LeavingLoop(BreakOrSelect());
    p := ReturningTask(block);
    var judged, emitted := Setting([false], true, {}), Setting([true], true, {});
    var inLoop := Jumps(true, true, true);
    BreakOrSelectFacts([false], emitted, inLoop.Catching());
    BreakOrSelectFacts([false], emitted, Jumps(false, true, true).Catching());
    LeavingLoopFacts([false], emitted, BreakOrSelect(), inLoop);
    LeavingLoopFacts([false], emitted, BreakOrSelect(), Jumps(false, true, true));
    ReturningBody([false], block);
    MarkedTaskReturns(block);
    NothingMarkedIsSupported(p, [false]);
    assert !BlockJumps(p.functions[0].body, Jumps(false, false, false));
    ReturnsIsUnsound(p, [true], 0);
  }

  /**
    Where the emitter, too, stops behind the inner loop, the break does no harm: the return is
    never emitted, and control falls back to the head of the outer loop.
   */
  lemma JumpInLoopConditionMayBeSound() returns (p: Program)
    ensures Accepted(p) && |p.functions| == 1 && !NoBreakIsCaught(p, 0)
    ensures Markable(p, [false], 0) && Sound(p, [true])
  {
    hide BlockFlow, BlockReturns, BlockJumps, BlockEnds, BlockExits, Returning;
    var inner := LeaveOrPanic(Break);
    var block := LeavingLoop(inner);
    p := ReturningTask(block);
    var emitted := Setting([true], true, {});
    var inLoop := Jumps(true, true, true);
    LeaveOrPanicFacts([false], emitted, Break, inLoop.Catching());
    LeaveOrPanicFacts([false], emitted, Break, Jumps(false, true, true).Catching());
    LeavingLoopFacts([false], emitted, inner, inLoop);
    LeavingLoopFacts([false], emitted, inner, Jumps(false, true, true));
    ReturningBody([false], block);
    MarkedTaskReturns(block);
    assert !BlockJumps(p.functions[0].body, Jumps(false, false, false));
    SoundIff(p, [true]);
  }

  /** Inside a loop: leave it, or call function 0; then panic. */
  function LeaveOrCall(): seq<Statement> {
    [If(Leaf, [Break], true, [Evaluate(Call(Function, 0, []))]), PANIC]
  }

  lemma LeaveOrCallFacts(m: Marks)
    ensures BlockFlow(m, LeaveOrCall()) == if Marked(m, 0) then Returns else Diverges
    ensures !BlockReturns(m, LeaveOrCall())
    ensures BlockJumps(LeaveOrCall(), Jumps(false, true, true))
  {
    hide BlockFlow, BlockReturns, BlockJumps, BlockExits, BlockEnds, Marked;
    hide StatementFlow, StatementReturns, StatementJumps, StatementExits, StatementEnds;
    var x, j := Setting(m, false, {}), Jumps(false, true, true);
    var first := If(Leaf, [Break], true, [Evaluate(Call(Function, 0, []))]);
    BreakOrCallFacts(m, x, first, j);
    PanicFacts(m, x, j);
    assert LeaveOrCall() == [first] + [PANIC];
    BlockOf(m, first, [PANIC], j);
  }

  lemma BreakOrCallFacts(m: Marks, x: Setting, s: Statement, j: Jumps)
    requires s == If(Leaf, [Break], true, [Evaluate(Call(Function, 0, []))]) && j.breaks
    ensures StatementFlow(m, s) == if Marked(m, 0) then Returns else Continues
    ensures !StatementReturns(m, s) && StatementJumps(s, j)
  {
    hide BlockFlow, BlockReturns, BlockJumps, Marked;
    var call := Evaluate(Call(Function, 0, []));
    CallFacts(m, call, j);
    OneStatement(m, x, Break, j);
    OneStatement(m, x, call, j);
    assert StatementFlow(m, Break) == LoopJump && !StatementReturns(m, Break);
    assert StatementJumps(Break, j);
    hide StatementFlow, StatementReturns, StatementJumps;
    BranchOnLeaf(m, x, [Break], [call], j);
  }

  lemma CallFacts(m: Marks, call: Statement, j: Jumps)
    requires call == Evaluate(Call(Function, 0, []))
    ensures StatementFlow(m, call) == if Marked(m, 0) then Diverges else Continues
    ensures !StatementReturns(m, call) && StatementJumps(call, j)
  {
    assert !AnyDiverges(m, []);
  }

  lemma BranchOnLeaf(m: Marks, x: Setting, a: seq<Statement>, b: seq<Statement>, j: Jumps)
    ensures var s := If(Leaf, a, true, b);
            && StatementFlow(m, s)
               == (if BlockFlow(m, a) == Continues || BlockFlow(m, b) == Continues then Continues
                   else if BlockFlow(m, a) == BlockFlow(m, b) == Diverges then Diverges
                   else if BlockFlow(m, a) == BlockFlow(m, b) == LoopJump then LoopJump
                   else Returns)
            && (StatementReturns(m, s) <==> BlockReturns(m, a) || BlockReturns(m, b))
            && (StatementJumps(s, j) <==> BlockJumps(a, j) && BlockJumps(b, j))
  {
    hide BlockFlow, BlockReturns, BlockJumps;
    LeafFacts(m, x, j);
  }

  /**
    More marks can make a function unmarkable: a branch that mixes a jump with a divergence
    collapses to `Returns`. So the marks reached depend on the order of the functions.
   */
  lemma MarksAreNotMonotone() returns (p: Program, fewer: Marks, more: Marks, f: nat)
    ensures |fewer| == |more| == |p.functions| && f < |p.functions|
    ensures forall g :: 0 <= g < |p.functions| ==> NoBreakIsCaught(p, g)
    ensures forall g :: 0 <= g < |fewer| && fewer[g] ==> more[g]
    ensures Supported(p, fewer) && Supported(p, more)
    ensures Markable(p, fewer, f) && !Markable(p, more, f)
  {
    hide BlockFlow, BlockReturns, BlockJumps, StatementFlow, StatementReturns, StatementJumps;
    hide StatementEnds, BlockEnds, BlockExits, LeaveOrCall, Supported;
    var block := LeaveOrCall();
    var loop := ReturningLoop(block);
    var body := [loop, PANIC];
    p := Program([Bodied(false, [PANIC]), Bodied(false, body)]);
    fewer, more, f := [false, false], [true, false], 1;
    var j := Jumps(false, false, false);
    LeaveOrCallFacts(fewer);
    LeaveOrCallFacts(more);
    ReturningBody(fewer, block);
    ReturningLoopFacts(more, Setting(more, false, {}), block, false);
    assert body == [loop] + [PANIC];
    BlockOf(more, loop, [PANIC], j);
    PanicFacts(fewer, Setting(fewer, false, {}), j);
    assert BlockJumps(p.functions[0].body, j) && BlockJumps(p.functions[1].body, j);
    NothingMarkedIsSupported(p, fewer);
    MarkingStaysSound(p, fewer, 0);
    assert more == fewer[0 := true];
  }
}
