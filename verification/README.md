# Foundation compiler: verified model

Foundation is a language whose compiler lowers programs to an intermediate form (FIR),
specialises generics, emits C, and generates application hosts from services and routes. This
project models the parts of `compiler/src` where an error would be hard to see in review, and
proves what they promise. `dafny verify dfyconfig.toml` checks everything.

Generated text is not modelled as text: an emitted line is an instruction with a meaning, run by
an interpreter or by a method that performs it. Heap blocks and runtime references are abstract
tokens, so ownership claims are equations between multisets of tokens.

| module | models |
|---|---|
| `Divergence` | the analysis that marks functions `_Noreturn`, and a semantics of the C emitted for FIR |
| `Ownership` | drop and move code for every type |
| `TaskFrame` | the resumable task frame: flags, polls, selects, matches, result, drop |
| `Monomorphizer` | memoised instantiation of functions, structs and enums with placeholders |
| `Workflow` | retries, pipelines and sagas |
| `StateMachine` | transition functions and the state diagram |
| `InlineTypes`, `FunctionTypes` | emission order of C definitions, type keys |
| `ServicePlan`, `HostConstruction` | dependency injection: worklist, ordering, generated construction code |
| `Routes`, `ValidationPattern` | route paths, ambiguity, OpenAPI paths, validation patterns |
| `Utf8`, `Lexer`, `StringLiterals` | UTF-8, tokens, printing strings and lexing them back |
| `FirTypes`, `Decimals`, `Wrappers` | shared types and numbers |

What other code guarantees appears as a precondition: acyclic inline containment, transition
payloads of the declared type, read-mode workflow parameters, void successes of non-final saga steps
and compensations, one-to-one names. Where the front end tracks which locals may hold a value,
`TaskFrame.Check` stands for it.

Properties that turned out not to hold everywhere are stated with the exact condition or a concrete
input: a break in a select operation, or in a loop condition beside a select, misleads the
divergence analysis; `own` of a kind the drop code does not list (tasks, channels, senders,
receivers, closures) leaks; a singleton service called `Routes` takes the name of the route table,
and a service called `Host0` that of an import; control bytes other than tab, LF and CR do not
survive printing and lexing; a trailing slash or an empty constraint gives two routes one OpenAPI
path.

## Model

| member | source | states |
|---|---|---|
| `Divergence.MarkDivergingFunctions` | compiler/src/codegen.cpp:1724-1748 | The do-while terminates in the final marks: old marks stay and no further pass marks anything. They are sound (no run of the emitted code, at any depth of calls, hands control back from a marked function) if and only if no marked function returns with calls nested at most as deep as there are functions, and always when no break is caught, by a loop head or a select operation, in a function that gets marked. |
| `Divergence.SoundIff` | compiler/src/codegen.cpp:1724-1748 | Soundness for every depth of calls is decided at the depth of the number of functions, for every program and all marks. |
| `Divergence.FinalMarksAreSound` | compiler/src/codegen.cpp:1724-1748 | From marks that support each other, so from none, every pass keeps that, and what the loop ends with is sound; the only condition is that no break is caught in a function that some pass marks. |
| `Divergence.MarkingStaysSound` | compiler/src/codegen.cpp:1729-1745 | Marking one function under the guard of the loop (no returning path, body flow diverges) keeps every mark justified whatever is marked later, recursion through the new mark included, if no break is caught in its body. |
| `Divergence.ExpressionOutcomes` | compiler/src/codegen.cpp:1451-1598 | When no marked callee returns, the code of an expression judged diverging yields no value, ends in a jump only where one may, and leaves the function only if a return inside it counts. |
| `Divergence.StatementOutcomes` | compiler/src/codegen.cpp:1600-1712 | The code of a statement goes on only if its flow is `Continues`, leaves the function only through a return that `hasReturningPath` counts, and control never falls off code behind which the emitter stopped. |
| `Divergence.SelectOutcomes` | compiler/src/codegen.cpp:1671-1697 | The same for a select, whose operations stand in a switch that catches their breaks. |
| `Divergence.BlockOutcomes` | compiler/src/codegen.cpp:1714-1722 | The same for blocks: the first statement that does not continue decides, and what follows it never runs. |
| `Divergence.LoopOutcomes` | compiler/src/codegen.cpp:1704-1711 | A loop completes only if its head can yield; a break or continue of the body never escapes it. |
| `Divergence.StatementAgrees` | compiler/src/codegen.cpp:3740-4085 | Where the emitter reports that control leaves and stops, no run goes on behind the statement; where it reports none, no run falls off its end. |
| `Divergence.LoopEndsAsARound` | compiler/src/codegen.cpp:4064-4085 | For every number of rounds, a loop can end exactly as one of its rounds can, each round taking its own decisions: one round gives the meaning of the loop. |
| `Divergence.FlowAloneIsNotEnough` | compiler/src/codegen.cpp:1729-1742 | A concrete program whose body flow is `Diverges` and which returns: the returning-path test is needed. |
| `Divergence.SelectBreakIsUnsound` | compiler/src/codegen.cpp:3714-3733 | A break in a select operation leaves the emitted switch only: a concrete task that the front end accepts is marked and returns. |
| `Divergence.JumpInLoopConditionIsUnsound` | compiler/src/codegen.cpp:4064-4072 | A break in the condition of an inner loop leaves that loop only: a concrete accepted task with a select beside the break is marked and returns. |
| `Divergence.JumpInLoopConditionMayBeSound` | compiler/src/codegen.cpp:3897-3900 | Without that select the emitter stops behind the inner loop as well, the return is never emitted, and the same mark is sound: that a break is caught is not the exact condition, `SoundIff` is. |
| `Divergence.MarksAreNotMonotone` | compiler/src/codegen.cpp:1655-1668 | A concrete program in which one more sound mark makes another function unmarkable, so the marks reached depend on the order of functions. |
| `Ownership.DropConserves` | compiler/src/codegen.cpp:1808-1869 | For every layered program, type and well-typed value, a drop releases every owned token once except the leaked ones, and leaves a well-typed place that owns nothing. |
| `Ownership.DropReleasesExactly` | compiler/src/codegen.cpp:1808-1869 | If every owning pointer written anywhere has a target kind the drop code handles, a drop releases exactly the tokens owned. |
| `Ownership.OwnDropIsExactIff` | compiler/src/codegen.cpp:1816-1826 | Dropping an owning pointer is exact if and only if its target kind is one of those handled, needs no drop, or its content owns nothing. |
| `Ownership.OnlyTheBlockIsReleased` | compiler/src/codegen.cpp:1816-1826 | Dropping an owning pointer to a task, channel, sender, receiver or closure releases its block and nothing of what it holds, for every content. |
| `Ownership.OwnOfSenderLeaks` | compiler/src/codegen.cpp:1816-1826 | `own Sender<M>` releases its block and loses the sender. |
| `Ownership.SecondDropReleasesNothing` | compiler/src/codegen.cpp:1808-1869 | A second drop of the same place releases nothing. |
| `Ownership.MoveTransfers` | compiler/src/codegen.cpp:1871-1905 | A move yields the original value and leaves a well-typed source without tokens. |
| `Ownership.MoveThenDrop` | compiler/src/codegen.cpp:1871-1905 | After a move, dropping the source is a no-op and dropping the result accounts for everything once. |
| `Ownership.NoDropNoTokens` | compiler/src/codegen.cpp:1750-1780 | A value of a type that requires no drop owns no token. |
| `Ownership.CopyNeverDrops` | compiler/src/codegen.cpp:559-589 | A copy parameter type never requires a drop. |
| `Ownership.DropAllConserves` | compiler/src/codegen.cpp:4717-4787 | Elements, fields and captures, dropped last to first, account for every token they own and end up empty. |
| `TaskFrame.TaskConserves` | compiler/src/codegen.cpp:5191-5357 | For every body the front end admits, every sequence of polls, answers and decisions and every stopping point, each acquired token is in the frame under a set flag, released or handed over, and dropping the frame releases exactly what is left. |
| `TaskFrame.ExecuteRuns` | compiler/src/codegen.cpp:3301-3737 | Every statement (wait, send, receive, select, match, loops and jumps included, breaks in select operations left to the switch) keeps the balance of tokens and the one-directional flag invariant, and holds no more slots than its static flow says. |
| `TaskFrame.SelectRuns` | compiler/src/codegen.cpp:3583-3737 | A select with its stored sends, its poll and the arm it runs keeps the balance of tokens, whatever the poll answers and however the arm ends. |
| `TaskFrame.SendsAreDisposedOf` | compiler/src/codegen.cpp:3583-3601 | The clean-up of a select hands over the tokens of the selected send value and releases those of each unselected one, once each and nothing else. |
| `TaskFrame.SendStoragesCleared` | compiler/src/codegen.cpp:3583-3601 | Afterwards the storages of all sends are empty and no other slot has changed. |
| `TaskFrame.MatchRuns` | compiler/src/codegen.cpp:3058-3240 | A match keeps the balance of tokens whatever arm runs, also when it moved the payload or leaves by a jump. |
| `TaskFrame.ScrutineeIsDropped` | compiler/src/codegen.cpp:3186-3240 | After a completed arm, a return or a jump out of an arm, the flag of the stored scrutinee is down, so that nothing of it is left in the frame. |
| `TaskFrame.UnpolledTaskConserves` | compiler/src/codegen.cpp:5306-5315 | Dropping a task that was never polled releases exactly its arguments. |
| `TaskFrame.MoveResultThenDrop` | compiler/src/codegen.cpp:5288-5357 | Moving the result out hands its tokens over once; dropping the frame afterwards releases all the others. |
| `TaskFrame.OneOwner` | compiler/src/codegen.cpp:4121-4137 | A token acquired once that lies in a slot lies in no other slot, argument or result, under a set flag, and was not released. |
| `TaskFrame.FrameObject.DropLocal` | compiler/src/codegen.cpp:4127-4137 | Releases the content of an active slot, clears the flag, and leaves every other part of the frame alone. |
| `TaskFrame.FrameObject.MoveResult` | compiler/src/codegen.cpp:5288-5304 | Returns the active result and leaves an inactive, empty one. |
| `TaskFrame.FrameObject.DropFrame` | compiler/src/codegen.cpp:5306-5357 | Releases, in this order, the arguments from last to first, the active locals from last to first and the active result, and leaves the dropped slots inactive. |
| `TaskFrame.FrameDropsTokens` | compiler/src/codegen.cpp:5306-5357 | These releases, one by one, add up to exactly what the flags guard. |
| `Monomorphizer.Instantiator.InstantiateStruct` | compiler/src/codegen.cpp:1041-1070 | Reserves the placeholder, instantiates fields and drop function with it in place, and fills it: the state is valid again, no older slot changed, and the type maps to the reserved id. |
| `Monomorphizer.Instantiator.InstantiateEnum` | compiler/src/codegen.cpp:1072-1096 | The same for an enum and its payloads, which may mention the enum again. |
| `Monomorphizer.PayloadKeptIff` | compiler/src/codegen.cpp:1083-1090 | In an instance of an enum a variant has a payload if and only if its source has one that is not `void` in a builtin enum; name and number of variants stay. |
| `Monomorphizer.Instantiator.InstantiateFunction` | compiler/src/codegen.cpp:1187-1431 | The instance of a key exists afterwards, at the memoised id; every slot but the open ones holds the rewriting of its source under its key, with the types of its locals and expressions, recursive calls included. It succeeds whenever a closed set of keys within the limit holds the key and the depth suffices for what is missing of it. |
| `Monomorphizer.Instantiator.RewriteExpression` | compiler/src/codegen.cpp:1249-1306 | The rewritten body targets, at every call, closure and function value, the instance of the substituted arguments. |
| `Monomorphizer.Instantiator.Run` | compiler/src/codegen.cpp:595-604 | A run that finishes leaves no placeholder, has instances of the entry point and all exported functions, and is closed: whatever an instance asks for is there. With enough depth it does finish whenever any closed set of keys within the instantiation limit holds these, and then instantiates nothing outside it: the least closed set. |
| `Monomorphizer.EnoughDepth` | compiler/src/codegen.cpp:956-1096 | For every closed set of keys there is a depth from which on every run succeeds. |
| `Monomorphizer.CompleteIsClosed` | compiler/src/codegen.cpp:595-604 | Whatever a finished instantiation contains resolves, is declared and has its own parts in it. |
| `Monomorphizer.EverySlotIsSpecialized` | compiler/src/codegen.cpp:956-1096 | In a finished instantiation every slot is filled and mentions neither type parameters nor type arguments. |
| `Monomorphizer.ShapePreserved` | compiler/src/codegen.cpp:956-1096 | An instantiated type looks like its source type to every depth, recursive types included; a missing payload looks like `void`. |
| `Monomorphizer.CallPreserved` | compiler/src/codegen.cpp:1187-1431 | Calling the instance of (f, arguments) gives, for every fuel and every arguments, the encoding of what source f gives under those type arguments, and is stuck or unfinished exactly when it is. |
| `Monomorphizer.EvaluationPreserved` | compiler/src/codegen.cpp:1249-1306 | Every rewritten expression evaluates exactly as its source under the type environment. |
| `ServicePlan.BuildPlans` | compiler/src/application.cpp:5349-5446 | The worklist terminates with plans for exactly the acceptable services reachable from the roots, is silent if and only if every reachable service is clean, and then leaves no provider unplanned. |
| `ServicePlan.PlanService` | compiler/src/application.cpp:5356-5445 | One service is planned with its only constructor, or the first called New; it raises no diagnostic exactly when it is clean. |
| `ServicePlan.PlanParameter` | compiler/src/application.cpp:5405-5443 | A parameter resolves to its provider exactly when it is no input, has no empty selector and one candidate; diagnostics are raised exactly for the unclean ones. |
| `ServicePlan.Orderer.OrderServices` | compiler/src/application.cpp:5547-5605 | The order lists every plan once. A cycle is reported if and only if the dependencies have one, each report is a closed walk through an edge that breaks the order, and without one every provider stands before its dependents. |
| `ServicePlan.Orderer.Visit` | compiler/src/application.cpp:5551-5593 | Visiting keeps the stack a dependency path of the active services, finishes the service, and leaves every edge of a finished service backwards in the order or reported. |
| `ServicePlan.Orderer.ReportCycle` | compiler/src/application.cpp:5572-5587 | The first report for an edge appends the stack from its target on, closed by the target; for an edge reported before, the reports stay as they are. |
| `ServicePlan.Orderer.SortedProviders` | compiler/src/application.cpp:5560-5570 | The planned providers, strictly by name, each once. |
| `ServicePlan.OrderedIsAcyclic` | compiler/src/application.cpp:5571-5605 | An order with every provider first rules out every dependency cycle. |
| `HostConstruction.BuildApplication` | compiler/src/application.cpp:3633-3654 | All binders of the builder are distinct and bound before use, each singleton is constructed once into its field, and every input and transient instance is used once. The services constructed are, in order, those the plans give, and exactly those built for some singleton. With routes, the route table keeps its name to itself if and only if no singleton asks for the field name `foundationRoutes`. No import alias is hidden if and only if no service built at start asks for one and, with three imports or more, at most one construction asks for `foundationHost`. |
| `HostConstruction.StartWantsAliasIff` | compiler/src/application.cpp:2549-2553 | The condition under which the builder hides an import, over the plans alone: a service that is built at start asks for an alias, or with three imports or more two of the constructions at start ask for `foundationHost`. |
| `HostConstruction.ConstructedAtStart` | compiler/src/application.cpp:2643-2682 | For every ready host without scoped services at start, what the plans say application start constructs is exactly what some singleton reaches. |
| `HostConstruction.ConstructionsAre` | compiler/src/application.cpp:2643-2682 | Constructing a service constructs exactly itself and the transient services it needs through transient ones only. |
| `HostConstruction.HostServiceClashes` | compiler/src/application.cpp:2549-2553 | In every ready host in which a service called `Host0` is built at start, and with at least one import, the builder hides an import. |
| `HostConstruction.RoutesServiceClashes` | compiler/src/application.cpp:3634-3636 | Every ready host with a singleton called `Routes` has a singleton that asks for exactly the name of the route table. |
| `HostConstruction.NewScope` | compiler/src/application.cpp:4127-4140 | Each scoped service is constructed once, after what it needs, and otherwise exactly the transient parts of scoped services; no binder is called `self`, and aliases are hidden under the same condition over the plans. |
| `HostConstruction.ActivateAction` | compiler/src/application.cpp:4177-4218 | The action takes a scope if and only if a scoped service is reachable through transient ones; it constructs exactly its service and the transient parts of it if that is transient and nothing otherwise, binds nothing that is taken, and its target is the constructed instance or the stored field. |
| `HostConstruction.ConstructionContext.EmitConstruction` | compiler/src/application.cpp:2643-2682 | Emits the construction with everything transient it needs, in the order of the dependencies: every argument denotes an input or an instance of its provider that exists by then, new names are fresh, and the balance of bindings and uses is kept. |
| `HostConstruction.ConstructionContext.UniqueIdentifier` | compiler/src/application.cpp:2631-2638 | Returns the base name or the base name with the first free number from 2 on, and reserves it. |
| `HostConstruction.AssignFields` | compiler/src/application.cpp:2555-2582 | Fields of one lifetime get distinct names; a name without a final digit is taken exactly when some service asks for it. |
| `HostConstruction.ScopeOracle.RequiresScope` | compiler/src/application.cpp:2215-2237 | The memoised search, which writes false before it recurses, answers exactly whether a scoped service is reachable through transient ones. |
| `HostConstruction.BuildCollector.BuildServices` | compiler/src/application.cpp:2177-2192 | Collects exactly the services that constructing some singleton constructs. |
| `HostConstruction.LifetimesPass` | compiler/src/application.cpp:2274-2324 | The lifetime diagnostics stay silent if and only if no scoped service is built at start and only transient services are transferred. |
| `HostConstruction.UsedExactlyOnce` | compiler/src/application.cpp:2643-2682 | In a balanced body every input and every transient instance is used exactly once, and nothing else is counted. |
| `Workflow.Machine.CallWithRetries` | compiler/src/codegen.cpp:5741-5760 | The retry loop equals the reference retry, releases every discarded failed attempt once, and holds only the last outcome. |
| `Workflow.RetryShape` | compiler/src/codegen.cpp:5741-5760 | A call is made at least once and at most max(attempts, 1) times; all tries but the last fail, and the last fails only when the attempts are used up. |
| `Workflow.Machine.RunPipeline` | compiler/src/codegen.cpp:5778-5830 | The pipeline makes the calls and returns the outcome of the Result bind of its retried steps, and every token not returned was released once, on every path. |
| `Workflow.PipelineShape` | compiler/src/codegen.cpp:5778-5830 | A pipeline runs a prefix of its steps, each with what the step before it returned; steps after the first exhausted failure never run. |
| `Workflow.Machine.RunSaga` | compiler/src/codegen.cpp:5894-5930 | For every world, step count and retry limits the saga makes exactly the calls of the reference and holds every token not released, the original error once. |
| `Workflow.Machine.FailSaga` | compiler/src/codegen.cpp:5832-5892 | Compensations are called for the completed steps, their errors recorded within the array, and the failure is plain if and only if none was recorded. |
| `Workflow.SagaFails` | compiler/src/codegen.cpp:5832-5892 | The log of a failed saga is the forward calls and then the compensations; the recorded errors are those of the failed compensations, the rest of the array is zero, and the original error is the last forward error. |
| `Workflow.ForwardShape` | compiler/src/codegen.cpp:5903-5914 | All forward calls get the input, all but the last succeed, and the last fails only when its attempts are used up. |
| `Workflow.CompensationOrder` | compiler/src/codegen.cpp:5849-5855 | The compensations run in strict reverse of the completed steps, once each. |
| `Workflow.FailuresAreErrors` | compiler/src/codegen.cpp:5854-5865 | The recorded errors are the payloads of exactly the failing compensations, in call order. |
| `Workflow.ErrorsFit` | compiler/src/codegen.cpp:5843-5865 | The number of recorded errors never exceeds the declared array size, the number of steps with a compensation. |
| `StateMachine.Machine.Fire` | compiler/src/codegen.cpp:5592-5676 | The event fails and leaves the state alone, or moves to the destination with its payload; owned arguments are released or stored once, the old state is released only on success, and no token is lost or duplicated. |
| `StateMachine.Machine.DropArguments` | compiler/src/codegen.cpp:5640-5663 | Drops each owned argument but the stored one exactly once and leaves borrowed ones untouched. |
| `StateMachine.Transitions` | compiler/src/fsm.cpp:99-124 | Computes exactly the edges of the machine: one per transition function and source variant in range. |
| `StateMachine.StepFollowsEdge` | compiler/src/fsm.cpp:99-124 | A fired event leaves the state as it is, or follows an edge of the diagram named after it. |
| `StateMachine.EdgeIsTaken` | compiler/src/fsm.cpp:99-124 | Every edge of the diagram belongs to a transition function that takes it from each state of its source. |
| `StateMachine.RunFollowsDiagram` | compiler/src/fsm.cpp:99-124 | Every run of events is a walk in the diagram that may wait at any state. |
| `InlineTypes.EmitOrder` | compiler/src/codegen.cpp:6031-6091 | Every definition is emitted at most once, after everything it contains inline; all are emitted if and only if containment has no cycle, and otherwise the emitter aborts. |
| `InlineTypes.CountAll` | compiler/src/codegen.cpp:6038-6067 | The counts and lists hold every inline containment of every struct, enum and array with its multiplicity. |
| `InlineTypes.Release` | compiler/src/codegen.cpp:6083-6087 | Decrementing along the repeated edges of one node never underflows and queues exactly the nodes left with nothing pending. |
| `InlineTypes.StuckMeansCycle` | compiler/src/codegen.cpp:6089-6091 | If every node of a nonempty set contains a node of the set, containment has a cycle. |
| `InlineTypes.DefinedBeforeUse` | compiler/src/codegen.cpp:6038-6088 | Each field, payload or element type with a definition is defined before its container. |
| `InlineTypes.NodeIsOneDefinition` | compiler/src/codegen.cpp:4879-4893 | Every node is the node of some type, and of another exactly if both name the same struct, enum or array. |
| `FunctionTypes.KeyDecodes` | compiler/src/codegen.cpp:546-557 | Where a type key ends and of which type it is can be read off any text that starts with it, for all type trees. |
| `FunctionTypes.TypeKeyInjective` | compiler/src/codegen.cpp:546-557 | Two types have the same key if and only if they are the same type. |
| `FunctionTypes.CollectFunctionType` | compiler/src/codegen.cpp:4257-4264 | Adds exactly the function types written inside a type to the table, each once under its own key. |
| `FunctionTypes.CollectFunctionTypes` | compiler/src/codegen.cpp:4317-4340 | Collected over all types of a program, the table holds exactly the function types written in any of them. |
| `FunctionTypes.Orderer.Visit` | compiler/src/codegen.cpp:4281-4310 | Lists a type behind everything it is written with; the abort for a recursive function type is never reached. |
| `FunctionTypes.Orderer.Order` | compiler/src/codegen.cpp:4266-4315 | Every collected function type is listed once, nested ones first. |
| `FunctionTypes.DeeplyNestedFirst` | compiler/src/codegen.cpp:4288-4307 | Function types nested at any depth stand before the type they are nested in. |
| `Utf8.IsValidUtf8` | compiler/src/lexer.cpp:23-73 | Accepts a byte string if and only if it is the concatenation of encodings of Unicode scalar values (section 4 of RFC 3629). |
| `Utf8.Utf8Step` | compiler/src/lexer.cpp:25-71 | A string is UTF-8 exactly when the tests of one round pass and the rest is UTF-8. |
| `Utf8.EncodingIsUnique` | compiler/src/lexer.cpp:23-73 | No byte string is the encoding of two different lists of scalar values. |
| `Lexer.Scanner.Scan` | compiler/src/lexer.cpp:260-269 | On every input the scanner terminates with exactly the tokens and diagnostics of `Lex`. |
| `Lexer.Scanner.Next` | compiler/src/lexer.cpp:338-474 | Skips ignored text, reports each byte that starts nothing, and returns the token behind it. |
| `Lexer.Scanner.Advance` | compiler/src/lexer.cpp:278-287 | Line and column stay those computed from the newlines before the offset. |
| `Lexer.Scanner.SkipBlockComment` | compiler/src/lexer.cpp:308-333 | Nested block comments end where their openings and closings first cancel out; an open one is reported. |
| `Lexer.Scanner.Number` | compiler/src/lexer.cpp:581-611 | Takes digits, a fraction only with a digit behind the point, an exponent only with a digit behind it. |
| `Lexer.Scanner.StringToken` | compiler/src/lexer.cpp:613-675 | The value, end and diagnostics of a string literal are those of its body read byte by byte. |
| `Lexer.LexTiles` | compiler/src/lexer.cpp:260-474 | Tokens and gaps tile every source: each token stands at its span with the line and column of its offset, and each gap consists of white space, nested comments and single rejected bytes. |
| `Lexer.TilesIncrease` | compiler/src/lexer.cpp:260-474 | Token spans are nonempty, increasing and disjoint, and only the last token is the end of the file. |
| `Lexer.SafetyProofIsAbove` | compiler/src/lexer.cpp:343-346 | A token is marked as proved safe only if a safety comment stands on the line right above it, in its own gap. |
| `StringLiterals.PrintedLexesBack` | compiler/src/application.cpp:1067-1087 | Lexing a printed string yields exactly one string token with its value and no diagnostic, if and only if the value is UTF-8 whose only bytes below 0x20 are tab, LF and CR. |
| `StringLiterals.EmitString` | compiler/src/application.cpp:1067-1087 | The loop prints exactly the quoted and escaped value. |
| `StringLiterals.VerticalTabIsRefused` | compiler/src/application.cpp:1078-1079 | A printed vertical tab is refused by the lexer. |
| `ValidationPattern.IsValidPattern` | compiler/src/application.cpp:761-826 | Accepts exactly the strings of at most 1024 bytes in the grammar: optional anchors, then atoms (literal, escape, non-empty class) with at most one quantifier each. |
| `ValidationPattern.IsEscapedByte` | compiler/src/application.cpp:752-759 | A byte is escaped exactly when an odd number of backslashes stands before it. |
| `ValidationPattern.PatternIsInner` | compiler/src/application.cpp:765-773 | A pattern of the grammar has one reading, the one whose anchors the recogniser strips. |
| `ValidationPattern.BodyStep` | compiler/src/application.cpp:774-824 | A body starts with exactly one piece and is a body behind it. |
| `ValidationPattern.NegatedNothingIsRefused` | compiler/src/application.cpp:788-808 | `[^]` is no pattern. |
| `Routes.CheckRoutes` | compiler/src/application.cpp:5071-5099 | The route checks pass if and only if every route has a method and a valid path, no two are ambiguous and no key repeats. |
| `Routes.AreAmbiguous` | compiler/src/application.cpp:410-438 | Two paths are ambiguous if and only if their labels part at two different parameters. |
| `Routes.ClearIffTrie` | compiler/src/application.cpp:410-438 | Routes are pairwise unambiguous if and only if they can be inserted into an empty trie with at most one parameter edge per node. |
| `Routes.ClearInAnyOrder` | compiler/src/application.cpp:5080-5091 | Unambiguous routes go into the trie in any order. |
| `Routes.AcceptedFormTrie` | compiler/src/application.cpp:5071-5099 | The routes a passing check accepts go into the trie, whatever the order. |
| `Routes.ValidateRoutePath` | compiler/src/application.cpp:302-358 | Accepts exactly the absolute paths whose parts are plain or one well-formed parameter, a catch-all only last, no name twice. |
| `Routes.AreValidConstraints` | compiler/src/application.cpp:274-300 | Accepts exactly nothing, a pattern of the grammar in `regex(...)`, or a list of known constraints. |
| `Routes.WebRouteSegments` | compiler/src/application.cpp:377-390 | The parts between slashes, without an empty last one. |
| `Routes.DocumentPathsDiffer` | compiler/src/application.cpp:4820-4826 | The document paths of two unambiguous valid routes are equal as soon as they agree up to the names in braces (section 4.7.8 of OpenAPI 3.0.3). |
| `Routes.NormalizedOpenAPIPath` | compiler/src/application.cpp:4738-4757 | The loop writes the segments of the route, each in its document form, between slashes. |
| `Routes.NormalizedIff` | compiler/src/application.cpp:4738-4757 | Two accepted routes have the same document path if and only if their segments are spelled alike but for a colon without a constraint, or they are `/` and `//`. |
| `Routes.NormalizedIffLabels` | compiler/src/application.cpp:4738-4757 | Unambiguous valid paths have the same document path if and only if they have the same labels, but for `/` and `//`. |
| `Routes.LabelsIffSpellings` | compiler/src/application.cpp:400-408 | Valid paths have the same labels if and only if their segments are the same but for a colon without a constraint. |
| `Routes.SegmentsIffSlash` | compiler/src/application.cpp:377-390 | Valid paths have the same segments if and only if they are equal up to one slash at the end. |
| `Routes.NormalizedIsInjective` | compiler/src/application.cpp:4738-4757 | Accepted routes without trailing slashes and empty constraints have the same document path if and only if they are the same path. |
| `Routes.TrailingSlashCollides` | compiler/src/application.cpp:4738-4757 | The routes `/a/` and `/a` are accepted together and share a document path. |
| `Routes.EmptyConstraintCollides` | compiler/src/application.cpp:400-408 | So are and do `/{n:}` and `/{n}`. |

## Left out

- Divergence.FinalMarksAreSound: that no break is caught suffices for soundness and is not necessary, as `Divergence.JumpInLoopConditionMayBeSound` shows; the exact condition is the one of `Divergence.SoundIff`.
- Divergence.MarkDivergingFunctions: no claim that the marks are the least or largest possible, because they depend on the order of functions.
- Divergence.StatementAgrees: the emitter stops behind a match when all its arms leave or when its type is never (codegen.cpp:3072-3079); only the first is modelled, because expressions carry no types here, and the front end gives that type to matches no arm of which completes.
- Divergence.ExpressionOutcomes: values are abstracted to open decisions, so a branch whose condition is constant may still go both ways, and a run that never ends has no outcome.
- Ownership.DropConserves: user-written drop functions are assumed to release nothing themselves, and vtables of contract objects are the concrete type stored with the object.
- TaskFrame.TaskConserves: blocking and callback calls, and suspensions nested inside larger expressions, are not modelled, because the runtime behind them is not part of this model.
- TaskFrame.MatchRuns: the static check rejects a body in which control falls off emitted code holding more than the loop began with.
- TaskFrame.ExecuteRuns: a panic leaves tokens in temporaries of the poll function unaccounted for, as the emitted code does.
- Monomorphizer.CallPreserved: the expression language keeps the kinds that instantiation treats specially (calls, closures, function values, struct and enum construction, matches, type-dependent operations) with arithmetic and branching; the arms of a match are expressions over the fields of the value; contracts, default-method specialisation and the unwrapping of read parameters are not modelled.
- Monomorphizer.Instantiator.InstantiateFunction: memo keys are pairs of declaration and arguments instead of their texts; the depth of recursion stands for the C++ stack; the types of all expressions are instantiated ahead of the body instead of each before its expression, which changes the ids only.
- Monomorphizer.Instantiator.Run: success is stated for runs with enough depth for a given closed set of keys; with less depth nothing is claimed. The package-interface and source-package variants of the run are not modelled.
- ServicePlan.BuildPlans: what a parameter's type is implemented by (`providerCandidates`) and what a constructor returns are inputs, and diagnostics are an unbounded sequence, because the real list is capped.
- ServicePlan.Orderer.OrderServices: names are compared by their rank; the text of a cycle report is its list of services.
- HostConstruction.BuildApplication: parameter markers, type names and error types are not modelled, and of the imports only their aliases and number; `error` inside the early return of a fallible constructor is not counted as a binder.
- HostConstruction.ActivateAction: parameter names of the action function are given, and only compared with generated ones; that aliases are free is stated for parameters not named like one.
- Workflow.Machine.RunPipeline: the wait between attempts is left out, and a call sees the data of its argument only.
- StateMachine.Machine.Fire: values of union members that are no longer active are forgotten.
- StateMachine.Transitions: choosing the machine by name and printing the diagram as Mermaid or Graphviz are left out.
- InlineTypes.EmitOrder: array types are looked up as types instead of by key, which the injectivity of keys allows.
- FunctionTypes.Orderer.Order: takes the collected types as a list without repetitions; sorting them by key, which fixes the order between unrelated types, is left out.
- Lexer.LexTiles: source identifiers in spans are left out, and a byte is a character with a code below 256.
- Lexer.SafetyProofIsAbove: the converse (which of several comments counts) is stated by `Lex` only.
- Routes.CheckRoutes: diagnostics about functions, middleware and bindings of a route are left out.
- Contract adapters and vtables, web handler activation, serializers, guards and OpenAPI fields are left out: plumbing with easy members only.
- The parser, most of the semantic analysis, the formatter, the import rewriter, diagnostics output, drivers and the C runtime are left out.
