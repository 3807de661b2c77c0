/**
  Pipelines and sagas (compiler/src/codegen.cpp:5724-5930): the code emitted for a workflow,
  run on a machine that logs every call and counts every ownership token.

  What a step returns may depend on everything called before: a world maps the log, up to and
  including the present call, to the outcome. Arguments are read, not consumed, so a call only
  sees the argument's data (compiler/src/sema.cpp:2195-2199, 2235-2238). Waiting between attempts
  is left out.
 */
module Workflow {
  import opened Wrappers

  /** A C payload: its data, and the tokens it owns. */
  datatype Payload = Payload(data: int, tokens: multiset<nat>)

  const ZERO := Payload(0, multiset{})

  const OK := 0
  const ERR := 1

  datatype Outcome = Outcome(tag: nat, payload: Payload)

  datatype Call = Call(callee: nat, argument: int)

  type World = seq<Call> -> Outcome

  ghost predicate WellBehaved(world: World) {
    forall log: seq<Call> :: world(log).tag <= ERR
  }

  /** A function whose success carries no value. */
  ghost predicate VoidSuccess(world: World, callee: nat) {
    forall log: seq<Call> ::
      log != [] && log[|log| - 1].callee == callee && world(log).tag == OK ==>
      world(log).payload == ZERO
  }

  datatype Step = Step(callee: nat, attempts: nat, compensation: Option<nat>, hasOutput: bool)

  const UINT32_LIMIT := 0x1_0000_0000

  predicate WellFormedSteps(steps: seq<Step>) {
    steps != [] && forall s | s in steps :: s.attempts < UINT32_LIMIT
  }

  // ---------- reference semantics ----------

  /** Repeats a call until it succeeds or its attempts are used up. */
  function Retry(world: World, log: seq<Call>, call: Call, attempts: nat): (seq<Call>, Outcome)
    decreases attempts
  {
    var now := log + [call];
    if world(now).tag == OK || attempts <= 1 then (now, world(now))
    else Retry(world, now, call, attempts - 1)
  }

  /** Binds the steps as functions into `Result`: an error skips what follows. */
  function Bind(world: World, log: seq<Call>, steps: seq<Step>, argument: int)
    : (seq<Call>, Outcome)
    requires steps != []
    decreases |steps|
  {
    var (now, outcome) := Retry(world, log, Call(steps[0].callee, argument), steps[0].attempts);
    if outcome.tag == ERR || |steps| == 1 then (now, outcome)
    else Bind(world, now, steps[1..], outcome.payload.data)
  }

  /** Runs the steps of a saga until one fails for good; counts those that succeeded. */
  function Forward(world: World, log: seq<Call>, steps: seq<Step>, argument: int)
    : (seq<Call>, nat)
    requires steps != []
    decreases |steps|
  {
    var (now, outcome) := Retry(world, log, Call(steps[0].callee, argument), steps[0].attempts);
    if outcome.tag == ERR then (now, 0)
    else if |steps| == 1 then (now, 1)
    else
      var (end, more) := Forward(world, now, steps[1..], argument);
      (end, more + 1)
  }

  /** The compensations of the first `completed` steps, last step first. */
  function CompensationCalls(steps: seq<Step>, completed: nat, argument: int): seq<Call>
    requires completed <= |steps|
  {
    if completed == 0 then []
    else
      (match steps[completed - 1].compensation
       case None => []
       case Some(f) => [Call(f, argument)])
      + CompensationCalls(steps, completed - 1, argument)
  }

  /** What those of a list of calls return that fail, in their order. */
  function Failures(world: World, log: seq<Call>, calls: seq<Call>): seq<Payload>
    decreases |calls|
  {
    if calls == [] then []
    else
      var now := log + [calls[0]];
      (if world(now).tag == ERR then [world(now).payload] else [])
      + Failures(world, now, calls[1..])
  }

  datatype SagaResult =
    | Succeeded(payload: Payload)
    | StepFailed(error: Payload)
    | CompensationFailed(original: Payload, count: nat, errors: seq<Payload>)

  function Zeros(n: nat): seq<Payload> {
    seq(n, i => ZERO)
  }

  /** The size of the error array: the number of steps that declare a compensation. */
  function Capacity(steps: seq<Step>): nat {
    if steps == [] then 0
    else Capacity(steps[..|steps| - 1]) + if steps[|steps| - 1].compensation.Some? then 1 else 0
  }

  /** A failed saga: plain when no compensation failed, else with the errors and padding. */
  function Failed(original: Payload, errors: seq<Payload>, capacity: nat): SagaResult
    requires |errors| <= capacity
  {
    if errors == [] then StepFailed(original)
    else CompensationFailed(original, |errors|, errors + Zeros(capacity - |errors|))
  }

  function Saga(world: World, log: seq<Call>, steps: seq<Step>, argument: int)
    : (seq<Call>, SagaResult)
    requires steps != []
  {
    ErrorsFit(world, log, steps, argument);
    var (now, completed) := Forward(world, log, steps, argument);
    if completed == |steps| then (now, Succeeded(world(now).payload))
    else
      var calls := CompensationCalls(steps, completed, argument);
      (now + calls, Failed(world(now).payload, Failures(world, now, calls), Capacity(steps)))
  }

  function Sum(values: seq<Payload>): multiset<nat> {
    if values == [] then multiset{}
    else Sum(values[..|values| - 1]) + values[|values| - 1].tokens
  }

  function Held(r: SagaResult): multiset<nat> {
    match r
    case Succeeded(payload) => payload.tokens
    case StepFailed(error) => error.tokens
    case CompensationFailed(original, _, errors) => original.tokens + Sum(errors)
  }

  // ---------- bounds of a saga ----------

  lemma {:induction false} ForwardBounds(world: World, log: seq<Call>, steps: seq<Step>,
                                         argument: int)
    requires steps != []
    ensures var (now, completed) := Forward(world, log, steps, argument);
            completed <= |steps| && now != [] && (completed < |steps| ==> world(now).tag == ERR)
    decreases |steps|
  {
    var call := Call(steps[0].callee, argument);
    RetryEnds(world, log, call, steps[0].attempts);
    var (now, outcome) := Retry(world, log, call, steps[0].attempts);
    if outcome.tag != ERR && |steps| > 1 {
      ForwardBounds(world, now, steps[1..], argument);
    }
  }

  lemma {:induction false} CapacityGrows(steps: seq<Step>, k: nat)
    requires k <= |steps|
    ensures Capacity(steps[..k]) <= Capacity(steps)
    decreases |steps|
  {
    if k < |steps| {
      assert steps[..|steps| - 1][..k] == steps[..k];
      CapacityGrows(steps[..|steps| - 1], k);
    } else {
      assert steps[..k] == steps;
    }
  }

  lemma {:induction false} CompensationsCounted(steps: seq<Step>, completed: nat, argument: int)
    requires completed <= |steps|
    ensures |CompensationCalls(steps, completed, argument)| == Capacity(steps[..completed])
    decreases completed
  {
    if completed > 0 {
      CompensationsCounted(steps, completed - 1, argument);
      assert steps[..completed][..completed - 1] == steps[..completed - 1];
    }
  }

  lemma {:induction false} FailuresBounded(world: World, log: seq<Call>, calls: seq<Call>)
    ensures |Failures(world, log, calls)| <= |calls|
    decreases |calls|
  {
    if calls != [] {
      FailuresBounded(world, log + [calls[0]], calls[1..]);
    }
  }

  /** The recorded errors never overrun the array, so a saga is defined for every world. */
  lemma ErrorsFit(world: World, log: seq<Call>, steps: seq<Step>, argument: int)
    requires steps != []
    ensures var (now, completed) := Forward(world, log, steps, argument);
            completed <= |steps|
            && |Failures(world, now, CompensationCalls(steps, completed, argument))|
               <= Capacity(steps)
  {
    hide Forward, Failures, CompensationCalls, Capacity;
    ForwardBounds(world, log, steps, argument);
    var (now, completed) := Forward(world, log, steps, argument);
    CompensationsCounted(steps, completed, argument);
    FailuresBounded(world, now, CompensationCalls(steps, completed, argument));
    CapacityGrows(steps, completed);
  }

  /** All tokens that the calls of a log created. */
  function Created(world: World, log: seq<Call>): multiset<nat> {
    if log == [] then multiset{}
    else Created(world, log[..|log| - 1]) + world(log).payload.tokens
  }

  lemma CreatedNext(world: World, log: seq<Call>, call: Call)
    ensures Created(world, log + [call])
            == Created(world, log) + world(log + [call]).payload.tokens
  {
    assert (log + [call])[..|log|] == log;
  }

  // ---------- the machine that runs emitted code ----------

  class Machine {
    const world: World
    var log: seq<Call>
    /** Every release, with repetitions. */
    var released: multiset<nat>

    constructor (world: World)
      ensures this.world == world && log == [] && Accounts(multiset{})
    {
      this.world, log, released := world, [], multiset{};
    }

    /** Each token created so far was released once or is held once. */
    ghost predicate Accounts(held: multiset<nat>)
      reads this
    {
      Created(world, log) == released + held
    }

    method Invoke(callee: nat, argument: int, ghost held: multiset<nat>)
      returns (result: Outcome)
      requires Accounts(held)
      modifies this
      ensures log == old(log) + [Call(callee, argument)] && result == world(log)
      ensures Accounts(held + result.payload.tokens)
    {
      CreatedNext(world, log, Call(callee, argument));
      log := log + [Call(callee, argument)];
      result := world(log);
    }

    method Drop(value: Payload, ghost held: multiset<nat>)
      requires Accounts(held + value.tokens)
      modifies this`released
      ensures Accounts(held) && released == old(released) + value.tokens
    {
      released := released + value.tokens;
    }

    /** The retry loop around a call. */
    method CallWithRetries(callee: nat, attempts: nat, argument: int, ghost held: multiset<nat>)
      returns (result: Outcome)
      requires Accounts(held) && attempts < UINT32_LIMIT && WellBehaved(world)
      modifies this
      ensures (log, result) == Retry(world, old(log), Call(callee, argument), attempts)
      ensures Accounts(held + result.payload.tokens)
    {
      hide Retry, Created;
      var call := Call(callee, argument);
      result := Outcome(OK, ZERO);
      var attempt := 0;
      while true
        invariant Accounts(held) && attempt <= attempts && (attempt == attempts ==> attempts == 0)
        invariant Retry(world, old(log), call, attempts)
                  == Retry(world, log, call, attempts - attempt)
        decreases attempts - attempt
      {
        RetryStep(world, log, call, attempts - attempt);
        result := Invoke(callee, argument, held);
        if result.tag == OK || attempt + 1 >= attempts {
          break;
        }
        Drop(result.payload, held);
        assert attempt + 1 < UINT32_LIMIT;
        attempt := attempt + 1;
      }
    }

    /** A pipeline is the bind of its steps, and releases every value it does not return. */
    method RunPipeline(steps: seq<Step>, input: int) returns (output: Outcome)
      requires WellFormedSteps(steps) && WellBehaved(world) && Accounts(multiset{})
      requires forall i :: 0 <= i < |steps| - 1 ==> steps[i].hasOutput
      requires !steps[|steps| - 1].hasOutput ==> VoidSuccess(world, steps[|steps| - 1].callee)
      modifies this
      ensures (log, output) == Bind(world, old(log), steps, input)
      ensures Accounts(output.payload.tokens)
    {
      hide Bind, Retry, Created;
      var current := Payload(input, multiset{});
      var currentOwned := false;
      var index := 0;
      while true
        invariant 0 <= index < |steps|
        invariant !currentOwned ==> current.tokens == multiset{}
        invariant Accounts(current.tokens)
        invariant Bind(world, old(log), steps, input)
                  == Bind(world, log, steps[index..], current.data)
        decreases |steps| - index
      {
        var step := steps[index];
        assert steps[index] in steps && steps[index..][0] == step;
        assert index + 1 < |steps| ==> steps[index..][1..] == steps[index + 1..];
        ghost var before, sent := log, current.data;
        BindStep(world, before, steps[index..], sent);
        var result := CallWithRetries(step.callee, step.attempts, current.data, current.tokens);
        if currentOwned {
          Drop(current, result.payload.tokens);
          current := ZERO;
        }
        RetryEnds(world, before, Call(step.callee, sent), step.attempts);
        if result.tag == ERR {
          return Outcome(ERR, result.payload);
        }
        if index + 1 == |steps| {
          output := Outcome(OK, ZERO);
          if step.hasOutput {
            output := output.(payload := result.payload);
          }
          return output;
        }
        current, currentOwned := result.payload, true;
        index := index + 1;
      }
    }

    /** Calls one compensation and records its error behind the earlier ones. */
    method CompensateOne(callee: nat, input: int, details: array<Payload>, count: nat,
                         ghost held: multiset<nat>)
      returns (now: nat)
      requires WellBehaved(world) && VoidSuccess(world, callee) && count < details.Length
      requires Accounts(held + Sum(details[..count]))
      modifies this, details
      ensures log == old(log) + [Call(callee, input)]
      ensures now <= count + 1 && now <= details.Length
              && details[..now] == old(details[..count])
                 + if world(log).tag == ERR then [world(log).payload] else []
      ensures forall i :: now <= i < details.Length ==> details[i] == old(details[i])
      ensures Accounts(held + Sum(details[..now]))
    {
      hide Created, Retry, Sum;
      now := count;
      ghost var earlier := details[..count];
      RetryStep(world, log, Call(callee, input), 1);
      var result := CallWithRetries(callee, 1, input, held + Sum(earlier));
      if result.tag == ERR {
        details[count] := result.payload;
        now := count + 1;
        assert details[..now] == earlier + [result.payload];
        SumAppend(earlier, result.payload);
        assert held + (Sum(earlier) + result.payload.tokens)
               == held + Sum(earlier) + result.payload.tokens;
      } else {
        assert result.payload == ZERO;
        assert details[..now] == earlier + [];
        assert held + Sum(earlier) + ZERO.tokens == held + Sum(earlier);
      }
    }

    /** Compensates the completed steps, last step first. */
    method Compensate(steps: seq<Step>, failed: nat, input: int, details: array<Payload>,
                      ghost held: multiset<nat>)
      returns (count: nat)
      requires WellBehaved(world) && failed <= |steps| && Accounts(held)
      requires forall s | s in steps && s.compensation.Some? ::
                 VoidSuccess(world, s.compensation.value)
      requires Capacity(steps[..failed]) <= details.Length
      modifies this, details
      ensures var calls := CompensationCalls(steps, failed, input);
              log == old(log) + calls && count <= details.Length
              && details[..count] == Failures(world, old(log), calls)
      ensures forall i :: count <= i < details.Length ==> details[i] == old(details[i])
      ensures Accounts(held + Sum(details[..count]))
    {
      hide Failures, CompensationCalls, Created, Retry, Sum, VoidSuccess, Capacity;
      count := 0;
      var current := failed;
      ghost var all := CompensationCalls(steps, failed, input);
      assert details[..0] == [];
      NoCompensations(world, log, steps, input);
      assert held + multiset{} == held;
      while current > 0
        invariant 0 <= current <= failed
        invariant count + Capacity(steps[..current]) <= details.Length
        invariant forall i :: count <= i < details.Length ==> details[i] == old(details[i])
        invariant log + CompensationCalls(steps, current, input) == old(log) + all
        invariant Failures(world, old(log), all)
                  == details[..count]
                     + Failures(world, log, CompensationCalls(steps, current, input))
        invariant Accounts(held + Sum(details[..count]))
        decreases current
      {
        var completed := steps[current - 1];
        CapacityStep(steps, current);
        CompensationsStep(steps, current, input);
        if completed.compensation.Some? {
          assert completed in steps;
          ghost var before, earlier := log, details[..count];
          ghost var call := Call(completed.compensation.value, input);
          ghost var rest := CompensationCalls(steps, current - 1, input);
          count := CompensateOne(completed.compensation.value, input, details, count, held);
          FailuresStep(world, before, call, rest);
          assert log + rest == before + ([call] + rest);
          ghost var recorded := if world(log).tag == ERR then [world(log).payload] else [];
          ghost var later := Failures(world, log, rest);
          assert details[..count] == earlier + recorded;
          assert (earlier + recorded) + later == earlier + (recorded + later);
        } else {
          assert CompensationCalls(steps, current, input)
                 == CompensationCalls(steps, current - 1, input);
        }
        current := current - 1;
      }
      NoCompensations(world, log, steps, input);
    }

    /** Compensates the completed steps in reverse and builds the failure. */
    method FailSaga(steps: seq<Step>, failed: nat, error: Payload, input: int)
      returns (r: SagaResult)
      requires WellBehaved(world) && failed < |steps| && Accounts(error.tokens)
      requires forall s | s in steps && s.compensation.Some? ::
                 VoidSuccess(world, s.compensation.value)
      modifies this
      ensures var calls := CompensationCalls(steps, failed, input);
              var errors := Failures(world, old(log), calls);
              log == old(log) + calls && |errors| <= Capacity(steps)
              && r == Failed(error, errors, Capacity(steps))
      ensures Accounts(Held(r))
    {
      hide Failures, CompensationCalls, Created, Capacity, VoidSuccess, Sum, Zeros, WellBehaved;
      var original := error;
      var details := new Payload[Capacity(steps)](i => ZERO);
      CapacityGrows(steps, failed);
      var count := Compensate(steps, failed, input, details, original.tokens);
      PaddedErrors(details[..], count);
      if count == 0 {
        assert details[..count] == [];
        r := StepFailed(original);
      } else {
        assert details[..][..count] == details[..count];
        r := CompensationFailed(original, count, details[..]);
      }
    }

    /** A saga makes the calls of the reference and keeps every token it was given. */
    method RunSaga(steps: seq<Step>, input: int) returns (r: SagaResult)
      requires WellFormedSteps(steps) && WellBehaved(world) && Accounts(multiset{})
      requires forall i :: 0 <= i < |steps| - 1 ==> VoidSuccess(world, steps[i].callee)
      requires !steps[|steps| - 1].hasOutput ==> VoidSuccess(world, steps[|steps| - 1].callee)
      requires forall s | s in steps && s.compensation.Some? ::
                 VoidSuccess(world, s.compensation.value)
      modifies this
      ensures (log, r) == Saga(world, old(log), steps, input)
      ensures Accounts(Held(r))
    {
      hide Forward, Failures, CompensationCalls, Created, Retry, Capacity, Failed;
      ErrorsFit(world, log, steps, input);
      var index := 0;
      while true
        invariant 0 <= index < |steps| && Accounts(multiset{})
        invariant var (now, more) := Forward(world, log, steps[index..], input);
                  Forward(world, old(log), steps, input) == (now, index + more)
        decreases |steps| - index
      {
        var step := steps[index];
        assert steps[index] in steps && steps[index..][0] == step;
        assert index + 1 < |steps| ==> steps[index..][1..] == steps[index + 1..];
        ghost var before := log;
        ForwardStep(world, before, steps[index..], input);
        var result := CallWithRetries(step.callee, step.attempts, input, multiset{});
        RetryEnds(world, before, Call(step.callee, input), step.attempts);
        if result.tag == ERR {
          r := FailSaga(steps, index, result.payload, input);
          return;
        }
        if index + 1 == |steps| {
          var output := if step.hasOutput then result.payload else ZERO;
          return Succeeded(output);
        }
        index := index + 1;
      }
    }
  }

  lemma ForwardStep(world: World, log: seq<Call>, steps: seq<Step>, argument: int)
    requires steps != []
    ensures var (now, outcome) :=
              Retry(world, log, Call(steps[0].callee, argument), steps[0].attempts);
            Forward(world, log, steps, argument)
            == if outcome.tag == ERR then (now, 0)
               else if |steps| == 1 then (now, 1)
               else
                 var (end, more) := Forward(world, now, steps[1..], argument);
                 (end, more + 1)
  {
    hide Retry;
  }

  lemma PaddedErrors(details: seq<Payload>, count: nat)
    requires count <= |details| && forall i :: count <= i < |details| ==> details[i] == ZERO
    ensures details == details[..count] + Zeros(|details| - count)
    ensures Sum(details) == Sum(details[..count]) && Sum([]) == multiset{}
  {
    SumZeros(details[..count], |details| - count);
  }

  lemma CapacityStep(steps: seq<Step>, k: nat)
    requires 0 < k <= |steps|
    ensures Capacity(steps[..k])
            == Capacity(steps[..k - 1]) + if steps[k - 1].compensation.Some? then 1 else 0
  {
    assert steps[..k][..k - 1] == steps[..k - 1];
  }

  lemma CompensationsStep(steps: seq<Step>, completed: nat, argument: int)
    requires 0 < completed <= |steps|
    ensures CompensationCalls(steps, completed, argument)
            == (match steps[completed - 1].compensation
                case None => []
                case Some(f) => [Call(f, argument)])
               + CompensationCalls(steps, completed - 1, argument)
  {
  }

  lemma NoCompensations(world: World, log: seq<Call>, steps: seq<Step>, argument: int)
    ensures CompensationCalls(steps, 0, argument) == [] && Failures(world, log, []) == []
    ensures Sum([]) == multiset{}
  {
  }

  lemma FailuresStep(world: World, log: seq<Call>, call: Call, rest: seq<Call>)
    ensures Failures(world, log, [call] + rest)
            == (if world(log + [call]).tag == ERR then [world(log + [call]).payload] else [])
               + Failures(world, log + [call], rest)
  {
    assert ([call] + rest)[1..] == rest;
  }

  lemma SumAppend(values: seq<Payload>, value: Payload)
    ensures Sum(values + [value]) == Sum(values) + value.tokens
  {
    assert (values + [value])[..|values|] == values;
  }

  lemma {:induction false} SumZeros(values: seq<Payload>, n: nat)
    ensures Sum(values + Zeros(n)) == Sum(values)
    decreases n
  {
    if n == 0 {
      assert values + Zeros(n) == values;
    } else {
      SumZeros(values, n - 1);
      assert values + Zeros(n) == (values + Zeros(n - 1)) + [ZERO];
      SumAppend(values + Zeros(n - 1), ZERO);
    }
  }

  lemma RetryStep(world: World, log: seq<Call>, call: Call, attempts: nat)
    ensures var now := log + [call];
            Retry(world, log, call, attempts)
            == if world(now).tag == OK || attempts <= 1 then (now, world(now))
               else Retry(world, now, call, attempts - 1)
  {
  }

  lemma BindStep(world: World, log: seq<Call>, steps: seq<Step>, argument: int)
    requires steps != []
    ensures var (now, outcome) :=
              Retry(world, log, Call(steps[0].callee, argument), steps[0].attempts);
            Bind(world, log, steps, argument)
            == if outcome.tag == ERR || |steps| == 1 then (now, outcome)
               else Bind(world, now, steps[1..], outcome.payload.data)
  {
    hide Retry;
  }

  /** How a retried call ends: its log is the call repeated, and its outcome the last one. */
  lemma {:induction false} RetryEnds(world: World, log: seq<Call>, call: Call, attempts: nat)
    ensures var (now, outcome) := Retry(world, log, call, attempts);
            now != [] && now[|now| - 1] == call && outcome == world(now)
    decreases attempts
  {
    var now := log + [call];
    if world(now).tag != OK && attempts > 1 {
      RetryEnds(world, now, call, attempts - 1);
    }
  }

  // ---------- the calls of a workflow ----------

  function Repeat(call: Call, n: nat): seq<Call> {
    seq(n, i => call)
  }

  /** The calls of the first steps, each with its argument and its number of attempts. */
  function StepCalls(steps: seq<Step>, arguments: seq<int>, counts: seq<nat>): seq<Call>
    requires |arguments| == |counts| <= |steps|
  {
    if counts == [] then []
    else
      var n := |counts| - 1;
      StepCalls(steps, arguments[..n], counts[..n])
      + Repeat(Call(steps[n].callee, arguments[n]), counts[n])
  }

  function Limit(attempts: nat): nat {
    if attempts <= 1 then 1 else attempts
  }

  /**
    A retried call is made once or more, within its attempts. All tries but the last fail, and
    the last one fails only when the attempts are used up.
   */
  lemma {:induction false} RetryShape(world: World, log: seq<Call>, call: Call, attempts: nat)
    returns (count: nat)
    ensures var (now, outcome) := Retry(world, log, call, attempts);
            now == log + Repeat(call, count) && outcome == world(now)
            && (outcome.tag != OK ==> count == Limit(attempts))
    ensures 1 <= count <= Limit(attempts)
    ensures forall k :: 1 <= k < count ==> world(log + Repeat(call, k)).tag != OK
    decreases attempts
  {
    var first := log + [call];
    assert first == log + Repeat(call, 1);
    if world(first).tag == OK || attempts <= 1 {
      count := 1;
    } else {
      var rest := RetryShape(world, first, call, attempts - 1);
      count := rest + 1;
      assert first + Repeat(call, rest) == log + Repeat(call, count);
      forall k | 1 <= k < count ensures world(log + Repeat(call, k)).tag != OK {
        if k > 1 {
          assert log + Repeat(call, k) == first + Repeat(call, k - 1);
        }
      }
    }
  }

  /** Step `i` gets what the step before it returned. */
  predicate Chained(world: World, log: seq<Call>, steps: seq<Step>, arguments: seq<int>,
                    counts: seq<nat>, i: nat)
    requires 1 <= i < |arguments| == |counts| <= |steps|
  {
    var before := world(log + StepCalls(steps, arguments[..i], counts[..i]));
    before.tag == OK && arguments[i] == before.payload.data
  }

  lemma ChainedCons(world: World, log: seq<Call>, steps: seq<Step>, argument: int, count: nat,
                    arguments: seq<int>, counts: seq<nat>, i: nat)
    requires 1 <= i <= |arguments| == |counts| < |steps|
    requires var now := log + Repeat(Call(steps[0].callee, argument), count);
             if i == 1 then world(now).tag == OK && arguments[0] == world(now).payload.data
             else Chained(world, now, steps[1..], arguments, counts, i - 1)
    ensures Chained(world, log, steps, [argument] + arguments, [count] + counts, i)
  {
    hide StepCalls, Repeat;
    var now := log + Repeat(Call(steps[0].callee, argument), count);
    var rest := StepCalls(steps[1..], arguments[..i - 1], counts[..i - 1]);
    StepCallsCons(steps, argument, count, arguments[..i - 1], counts[..i - 1]);
    assert ([argument] + arguments)[..i] == [argument] + arguments[..i - 1];
    assert ([count] + counts)[..i] == [count] + counts[..i - 1];
    assert log + StepCalls(steps, ([argument] + arguments)[..i], ([count] + counts)[..i])
           == now + rest;
    if i == 1 {
      NoStepCalls(steps[1..], arguments[..0], counts[..0]);
      assert now + rest == now;
    }
  }

  lemma NoStepCalls(steps: seq<Step>, arguments: seq<int>, counts: seq<nat>)
    requires |arguments| == |counts| == 0
    ensures StepCalls(steps, arguments, counts) == []
  {
  }

  predicate AllChained(world: World, log: seq<Call>, steps: seq<Step>, arguments: seq<int>,
                       counts: seq<nat>, n: nat)
    requires n <= |arguments| == |counts| <= |steps|
  {
    n <= 1 || (AllChained(world, log, steps, arguments, counts, n - 1)
               && Chained(world, log, steps, arguments, counts, n - 1))
  }

  lemma {:induction false} AllChainedCons(world: World, log: seq<Call>, steps: seq<Step>,
                                          argument: int, count: nat, arguments: seq<int>,
                                          counts: seq<nat>, n: nat)
    requires 1 <= n <= |arguments| == |counts| < |steps|
    requires var now := log + Repeat(Call(steps[0].callee, argument), count);
             world(now).tag == OK && arguments[0] == world(now).payload.data
             && AllChained(world, now, steps[1..], arguments, counts, n)
    ensures AllChained(world, log, steps, [argument] + arguments, [count] + counts, n + 1)
    decreases n
  {
    hide Chained;
    if n > 1 {
      AllChainedCons(world, log, steps, argument, count, arguments, counts, n - 1);
    }
    ChainedCons(world, log, steps, argument, count, arguments, counts, n);
  }

  /** What a pipeline ran: which calls, and how it ended. */
  predicate PipelineRan(world: World, log: seq<Call>, steps: seq<Step>, arguments: seq<int>,
                        counts: seq<nat>, now: seq<Call>, outcome: Outcome)
  {
    && 1 <= |arguments| == |counts| <= |steps|
    && (forall i :: 0 <= i < |counts| ==> 1 <= counts[i] <= Limit(steps[i].attempts))
    && now == log + StepCalls(steps, arguments, counts) && outcome == world(now)
    && (outcome.tag == OK ==> |counts| == |steps|)
    && (outcome.tag == ERR ==> counts[|counts| - 1] == Limit(steps[|counts| - 1].attempts))
    && AllChained(world, log, steps, arguments, counts, |counts|)
  }

  lemma PipelineCons(world: World, log: seq<Call>, steps: seq<Step>, argument: int, count: nat,
                     arguments: seq<int>, counts: seq<nat>, end: seq<Call>, outcome: Outcome)
    requires |steps| > 1 && 1 <= count <= Limit(steps[0].attempts)
    requires var now := log + Repeat(Call(steps[0].callee, argument), count);
             world(now).tag == OK && arguments != [] && arguments[0] == world(now).payload.data
             && PipelineRan(world, now, steps[1..], arguments, counts, end, outcome)
    ensures PipelineRan(world, log, steps, [argument] + arguments, [count] + counts, end, outcome)
  {
    hide StepCalls, Repeat, Chained, Limit;
    var now := log + Repeat(Call(steps[0].callee, argument), count);
    StepCallsCons(steps, argument, count, arguments, counts);
    assert log + (Repeat(Call(steps[0].callee, argument), count)
                  + StepCalls(steps[1..], arguments, counts))
           == now + StepCalls(steps[1..], arguments, counts);
    AllChainedCons(world, log, steps, argument, count, arguments, counts, |counts|);
  }

  /**
    A pipeline runs a prefix of its steps: the next step gets what the last one returned, only
    the last step that runs may have failed for good, and unless it fails all steps run.
   */
  lemma {:induction false} PipelineShape(world: World, log: seq<Call>, steps: seq<Step>,
                                         argument: int)
    returns (arguments: seq<int>, counts: seq<nat>)
    requires steps != [] && WellBehaved(world)
    ensures arguments != [] && arguments[0] == argument
    ensures var (now, outcome) := Bind(world, log, steps, argument);
            PipelineRan(world, log, steps, arguments, counts, now, outcome)
    decreases |steps|
  {
    hide Retry, Bind, WellBehaved, StepCalls, Repeat, Limit, PipelineRan;
    BindStep(world, log, steps, argument);
    var call := Call(steps[0].callee, argument);
    var count := RetryShape(world, log, call, steps[0].attempts);
    var (now, outcome) := Retry(world, log, call, steps[0].attempts);
    TagIsKnown(world, now);
    if outcome.tag == OK && |steps| > 1 {
      var (end, last) := Bind(world, now, steps[1..], outcome.payload.data);
      var moreArguments, more :=
        PipelineShape(world, now, steps[1..], outcome.payload.data);
      arguments, counts := [argument] + moreArguments, [count] + more;
      PipelineCons(world, log, steps, argument, count, moreArguments, more, end, last);
    } else {
      arguments, counts := [argument], [count];
      SingleStep(steps, argument, count);
      SingleRan(world, log, steps, argument, count, now, outcome);
    }
  }

  lemma {:induction false} SingleRan(world: World, log: seq<Call>, steps: seq<Step>,
                                     argument: int, count: nat, now: seq<Call>,
                                     outcome: Outcome)
    requires steps != [] && 1 <= count <= Limit(steps[0].attempts)
    requires now == log + StepCalls(steps, [argument], [count]) && outcome == world(now)
    requires outcome.tag == OK ==> |steps| == 1
    requires outcome.tag == ERR ==> count == Limit(steps[0].attempts)
    ensures PipelineRan(world, log, steps, [argument], [count], now, outcome)
  {
  }

  lemma TagIsKnown(world: World, log: seq<Call>)
    requires WellBehaved(world)
    ensures world(log).tag == OK || world(log).tag == ERR
  {
  }

  lemma SingleStep(steps: seq<Step>, argument: int, count: nat)
    requires steps != []
    ensures StepCalls(steps, [argument], [count])
            == Repeat(Call(steps[0].callee, argument), count)
  {
    var none: seq<int>, zero: seq<nat> := [], [];
    assert [argument][..0] == none && [count][..0] == zero;
    assert StepCalls(steps, none, zero) == [];
  }

  lemma {:induction false} StepCallsCons(steps: seq<Step>, argument: int, count: nat,
                                         arguments: seq<int>, counts: seq<nat>)
    requires steps != [] && |arguments| == |counts| <= |steps| - 1
    ensures StepCalls(steps, [argument] + arguments, [count] + counts)
            == Repeat(Call(steps[0].callee, argument), count)
               + StepCalls(steps[1..], arguments, counts)
    decreases |counts|
  {
    if counts == [] {
      SingleStep(steps, argument, count);
      assert [argument] + arguments == [argument] && [count] + counts == [count];
    } else {
      var n := |counts| - 1;
      StepCallsCons(steps, argument, count, arguments[..n], counts[..n]);
      assert ([argument] + arguments)[..n + 1] == [argument] + arguments[..n];
      assert ([count] + counts)[..n + 1] == [count] + counts[..n];
    }
  }

  // ---------- the calls of a saga ----------

  function Same(argument: int, n: nat): seq<int> {
    seq(n, i => argument)
  }

  /**
    The forward calls of a saga: every step that runs gets the input, all but the last succeed,
    and the last fails only when its attempts are used up.
   */
  predicate SagaRan(world: World, log: seq<Call>, steps: seq<Step>, argument: int,
                    counts: seq<nat>, now: seq<Call>, completed: nat)
  {
    && 1 <= |counts| <= |steps|
    && (forall i :: 0 <= i < |counts| ==> 1 <= counts[i] <= Limit(steps[i].attempts))
    && now == log + StepCalls(steps, Same(argument, |counts|), counts)
    && (if world(now).tag == ERR
        then completed == |counts| - 1 && counts[completed] == Limit(steps[completed].attempts)
        else completed == |counts| == |steps|)
    && AllSucceeded(world, log, steps, argument, counts, |counts|)
  }

  predicate AllSucceeded(world: World, log: seq<Call>, steps: seq<Step>, argument: int,
                         counts: seq<nat>, n: nat)
    requires n <= |counts| <= |steps|
  {
    n <= 1 || (AllSucceeded(world, log, steps, argument, counts, n - 1)
               && world(log + StepCalls(steps, Same(argument, n - 1), counts[..n - 1])).tag == OK)
  }

  lemma {:induction false} SagaCallsCons(steps: seq<Step>, argument: int, count: nat,
                                         counts: seq<nat>)
    requires |counts| < |steps|
    ensures StepCalls(steps, Same(argument, |counts| + 1), [count] + counts)
            == Repeat(Call(steps[0].callee, argument), count)
               + StepCalls(steps[1..], Same(argument, |counts|), counts)
  {
    hide StepCalls;
    StepCallsCons(steps, argument, count, Same(argument, |counts|), counts);
    assert [argument] + Same(argument, |counts|) == Same(argument, |counts| + 1);
  }

  lemma {:induction false} AllSucceededCons(world: World, log: seq<Call>, steps: seq<Step>,
                                            argument: int, count: nat, counts: seq<nat>, n: nat)
    requires 1 <= n <= |counts| < |steps|
    requires var now := log + Repeat(Call(steps[0].callee, argument), count);
             world(now).tag == OK && AllSucceeded(world, now, steps[1..], argument, counts, n)
    ensures AllSucceeded(world, log, steps, argument, [count] + counts, n + 1)
    decreases n
  {
    hide StepCalls, Repeat, Same;
    var now := log + Repeat(Call(steps[0].callee, argument), count);
    var tail := counts[..n - 1];
    SameLength(argument, n - 1);
    SameLength(argument, n);
    SagaCallsCons(steps, argument, count, tail);
    assert ([count] + counts)[..n] == [count] + tail;
    var rest := StepCalls(steps[1..], Same(argument, n - 1), tail);
    assert log + (Repeat(Call(steps[0].callee, argument), count) + rest) == now + rest;
    if n > 1 {
      AllSucceededCons(world, log, steps, argument, count, counts, n - 1);
    } else {
      NoStepCalls(steps[1..], Same(argument, n - 1), tail);
      assert now + rest == now;
    }
  }

  lemma SameLength(argument: int, n: nat)
    ensures |Same(argument, n)| == n
  {
  }

  lemma {:induction false} SagaCons(world: World, log: seq<Call>, steps: seq<Step>,
                                    argument: int, count: nat, counts: seq<nat>,
                                    end: seq<Call>, completed: nat)
    requires |steps| > 1 && 1 <= count <= Limit(steps[0].attempts)
    requires var now := log + Repeat(Call(steps[0].callee, argument), count);
             world(now).tag == OK
             && SagaRan(world, now, steps[1..], argument, counts, end, completed)
    ensures SagaRan(world, log, steps, argument, [count] + counts, end, completed + 1)
  {
    hide StepCalls, Repeat, Same, Limit, AllSucceeded;
    var now := log + Repeat(Call(steps[0].callee, argument), count);
    SameLength(argument, |counts|);
    SagaCallsCons(steps, argument, count, counts);
    assert log + (Repeat(Call(steps[0].callee, argument), count)
                  + StepCalls(steps[1..], Same(argument, |counts|), counts))
           == now + StepCalls(steps[1..], Same(argument, |counts|), counts);
    AllSucceededCons(world, log, steps, argument, count, counts, |counts|);
  }

  lemma {:induction false} SagaRanOnce(world: World, log: seq<Call>, steps: seq<Step>,
                                       argument: int, count: nat, now: seq<Call>, completed: nat)
    requires steps != [] && 1 <= count <= Limit(steps[0].attempts)
    requires now == log + Repeat(Call(steps[0].callee, argument), count)
    requires if world(now).tag == ERR then completed == 0 && count == Limit(steps[0].attempts)
             else completed == 1 == |steps|
    ensures SagaRan(world, log, steps, argument, [count], now, completed)
  {
    hide StepCalls, Repeat;
    SingleStep(steps, argument, count);
    assert Same(argument, 1) == [argument];
  }

  lemma {:induction false} ForwardShape(world: World, log: seq<Call>, steps: seq<Step>,
                                        argument: int)
    returns (counts: seq<nat>)
    requires steps != [] && WellBehaved(world)
    ensures var (now, completed) := Forward(world, log, steps, argument);
            SagaRan(world, log, steps, argument, counts, now, completed)
    decreases |steps|
  {
    hide Retry, Forward, WellBehaved, Repeat, Limit, SagaRan;
    ForwardStep(world, log, steps, argument);
    var call := Call(steps[0].callee, argument);
    var count := RetryShape(world, log, call, steps[0].attempts);
    var (now, outcome) := Retry(world, log, call, steps[0].attempts);
    TagIsKnown(world, now);
    if outcome.tag == OK && |steps| > 1 {
      var (end, completed) := Forward(world, now, steps[1..], argument);
      var more := ForwardShape(world, now, steps[1..], argument);
      counts := [count] + more;
      SagaCons(world, log, steps, argument, count, more, end, completed);
    } else {
      counts := [count];
      SagaRanOnce(world, log, steps, argument, count, now,
                  if outcome.tag == OK then 1 else 0);
    }
  }

  /** The compensations of some steps, in step order. */
  function Declared(steps: seq<Step>, argument: int): seq<Call> {
    if steps == [] then []
    else
      (match steps[0].compensation
       case None => []
       case Some(f) => [Call(f, argument)])
      + Declared(steps[1..], argument)
  }

  function Reversed<T>(s: seq<T>): (r: seq<T>)
    ensures |r| == |s| && forall i :: 0 <= i < |r| ==> r[i] == s[|s| - 1 - i]
  {
    if s == [] then [] else Reversed(s[1..]) + [s[0]]
  }

  lemma {:induction false} DeclaredAppend(steps: seq<Step>, last: Step, argument: int)
    ensures Declared(steps + [last], argument)
            == Declared(steps, argument)
               + match last.compensation
                 case None => []
                 case Some(f) => [Call(f, argument)]
    decreases |steps|
  {
    var all := steps + [last];
    if steps == [] {
      assert all == [last] && all[1..] == [];
    } else {
      DeclaredAppend(steps[1..], last, argument);
      assert all[1..] == steps[1..] + [last];
    }
  }

  lemma ReversedAppend<T>(s: seq<T>, more: seq<T>)
    requires |more| <= 1
    ensures Reversed(s + more) == more + Reversed(s)
  {
    var r := more + Reversed(s);
    forall i | 0 <= i < |r| ensures Reversed(s + more)[i] == r[i] {
    }
  }

  /** Compensations run in strict reverse: each completed step that has one, exactly once. */
  lemma {:induction false} CompensationOrder(steps: seq<Step>, completed: nat, argument: int)
    requires completed <= |steps|
    ensures CompensationCalls(steps, completed, argument)
            == Reversed(Declared(steps[..completed], argument))
    decreases completed
  {
    if completed > 0 {
      hide Reversed, Declared, CompensationCalls;
      CompensationsStep(steps, completed, argument);
      CompensationOrder(steps, completed - 1, argument);
      var earlier, last := steps[..completed - 1], steps[completed - 1];
      assert steps[..completed] == earlier + [last];
      DeclaredAppend(earlier, last, argument);
      ReversedAppend(Declared(earlier, argument),
                     match last.compensation
                     case None => []
                     case Some(f) => [Call(f, argument)]);
    }
  }

  /** What each of a list of calls returns. */
  function Outcomes(world: World, log: seq<Call>, calls: seq<Call>): seq<Outcome> {
    seq(|calls|, k requires 0 <= k < |calls| => world(log + calls[..k + 1]))
  }

  /** The payloads of the failed outcomes, in their order. */
  function Errors(outcomes: seq<Outcome>): seq<Payload> {
    if outcomes == [] then []
    else (if outcomes[0].tag == ERR then [outcomes[0].payload] else []) + Errors(outcomes[1..])
  }

  lemma OutcomesCons(world: World, log: seq<Call>, calls: seq<Call>)
    requires calls != []
    ensures Outcomes(world, log, calls)
            == [world(log + [calls[0]])] + Outcomes(world, log + [calls[0]], calls[1..])
  {
    forall k | 0 <= k < |calls|
      ensures Outcomes(world, log, calls)[k]
              == ([world(log + [calls[0]])] + Outcomes(world, log + [calls[0]], calls[1..]))[k]
    {
      if k == 0 {
        assert calls[..1] == [calls[0]];
      } else {
        assert log + calls[..k + 1] == log + [calls[0]] + calls[1..][..k];
      }
    }
  }

  /** The recorded errors are those of exactly the failing calls, in their order. */
  lemma {:induction false} FailuresAreErrors(world: World, log: seq<Call>, calls: seq<Call>)
    ensures Failures(world, log, calls) == Errors(Outcomes(world, log, calls))
    decreases |calls|
  {
    if calls != [] {
      hide Outcomes;
      FailuresAreErrors(world, log + [calls[0]], calls[1..]);
      OutcomesCons(world, log, calls);
      assert ([world(log + [calls[0]])] + Outcomes(world, log + [calls[0]], calls[1..]))[1..]
             == Outcomes(world, log + [calls[0]], calls[1..]);
    }
  }

  /**
    A failing saga: the retried forward steps, then the compensations, then exactly their errors;
    it is a plain step failure iff no compensation failed. It holds the last forward error once.
   */
  lemma SagaFails(world: World, log: seq<Call>, steps: seq<Step>, argument: int)
    requires steps != []
    ensures var (forward, completed) := Forward(world, log, steps, argument);
            var (end, r) := Saga(world, log, steps, argument);
            (r.Succeeded? <==> completed == |steps|)
            && completed <= |steps|
            && (completed < |steps| ==>
                  var calls := CompensationCalls(steps, completed, argument);
                  var errors := Failures(world, forward, calls);
                  world(forward).tag == ERR && end == forward + calls
                  && (r.StepFailed? <==> errors == [])
                  && (r.StepFailed? ==> r.error == world(forward).payload)
                  && (r.CompensationFailed? ==>
                        r.original == world(forward).payload && r.count == |errors|
                        && r.count <= |r.errors| == Capacity(steps)
                        && r.errors[..r.count] == errors
                        && forall i :: r.count <= i < |r.errors| ==> r.errors[i] == ZERO))
  {
    hide Forward, CompensationCalls, Failures, Capacity;
    ForwardBounds(world, log, steps, argument);
    ErrorsFit(world, log, steps, argument);
  }
}
