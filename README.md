# xiron-statemachine: the finite-state-machine engine in Dafny

This project models the engine of the Java library `xiron-statemachine` in
both of its generations, and proves properties of the model. It covers:

- the definition graph (`StateMachineDefinitionImpl`): states, events, a single start state, final
  states and one edge per (state, event);
- the execution strategy (`ReentrantStrategy.processEvent`), which runs a transition in three phases:
  exit, which may cancel; transition; then the state change and enter, which may redirect to a
  further event;
- the state holder (`StateMachineImpl`) and the per-transition records (`TransitionInfo`,
  `TransitionEvent`);
- the older generation's queueing machine (`ReentrantStateMachine`);
- the dispatch table of its two annotation processors (`TransitionDictionary` and the phase methods
  of `AnnotatedControllerProcessor`).

The newer generation lives in package `shisha.statemachine`; the older one in
`net.xiron.pattern.statemachine`.

Files:

- `wrappers.dfy`: `Option`, `Result` and `Outcome`, plus a few sequence and string facts. Java
  exceptions become `Fail(error)` / `Failure(error)`, and Java `null` becomes `None` where the code
  checks for it.
- `shisha_definition.dfy`, `shisha_transition_info.dfy`, `shisha_engine.dfy`: the newer generation.
  Controllers are function values that return their verdict together with the updated transition
  context.
- `net_definition.dfy`, `net_transition_event.dfy`, `net_engine.dfy`: the older generation, whose
  strategy is handed one `TransitionController` per call.
- `net_dispatch.dfy`, `net_annotations_processor.dfy`, `net_annotated_processor.dfy`: the first-match
  dispatch table and the two processors built on it.
- `net_reentrant_machine.dfy`: the queue-draining machine.
- `shisha_scenarios.dfy`: concrete machines of the newer generation, built with the states, events
  and edges of the repository's tests. Where a row cites a test, the postcondition is what that test
  expects; `UndefinedTransitionScenario` instead follows the strategy's code.
- `net_scenarios.dfy`: concrete machines of the older generation, whose postconditions follow the
  code. Only `RedirectScenario` reproduces a test; the others show what the code does where it
  departs from its tests or where no test exists (see "Left out" and "Findings").

Each generation's `processEvent` is specified by a function, `Process`, and the imperative strategy is
proved against it:

- Its result records the outcome, the new current state, the reentrancy flag, the controller calls
  made and the events whose transitions completed.
- Redirects are followed through recursion on a `fuel` bound.
- The queueing machine's loop is proved against `Drain` in the same way.

## Model

| member | source | states |
|---|---|---|
| ShishaDefinition.State.SetTransitionController | src/main/java/shisha/statemachine/StateMachineDefinitionImpl.java:450-453 | only the first target registered for an event is kept; other edges and the controllers are untouched |
| ShishaDefinition.StateMachineDefinitionImpl.constructor | src/main/java/shisha/statemachine/StateMachineDefinitionImpl.java:55-58 | a new definition has no states, no events and no start state |
| ShishaDefinition.StateMachineDefinitionImpl.IsStartState | src/main/java/shisha/statemachine/StateMachineDefinitionImpl.java:68-76 | false for an undefined state; in a valid definition, true exactly for the start state |
| ShishaDefinition.StateMachineDefinitionImpl.IsFinalState | src/main/java/shisha/statemachine/StateMachineDefinitionImpl.java:78-85 | false for an undefined state; a final state is never the start state |
| ShishaDefinition.StateMachineDefinitionImpl.DefineEvent | src/main/java/shisha/statemachine/StateMachineDefinitionImpl.java:87-95 | null gives IllegalArgument; an existing event gives EventAlreadyExists with the set unchanged; a fresh event becomes `isEvent` |
| ShishaDefinition.StateMachineDefinitionImpl.GetEvents | src/main/java/shisha/statemachine/StateMachineDefinitionImpl.java:97-99 | every event used by an edge is among the declared events |
| ShishaDefinition.StateMachineDefinitionImpl.DefineState | src/main/java/shisha/statemachine/StateMachineDefinitionImpl.java:105-127 | null, a second start state, start+final and redefinition are each refused with their own error before anything changes; otherwise the state is added and may become the start state |
| ShishaDefinition.StateMachineDefinitionImpl.GetStartState | src/main/java/shisha/statemachine/StateMachineDefinitionImpl.java:129-131 | the start state, once defined, is a declared, non-final start state |
| ShishaDefinition.StateMachineDefinitionImpl.GetFinalStates | src/main/java/shisha/statemachine/StateMachineDefinitionImpl.java:133-141 | the loop lists exactly the final states, each once |
| ShishaDefinition.StateMachineDefinitionImpl.DefineTransition | src/main/java/shisha/statemachine/StateMachineDefinitionImpl.java:182-191 | an undeclared source or target gives StateNotDefined; an undeclared event gives EventNotDefined; a final source only admits a self-loop (Constraint); success iff none of these; the first edge for (source, event) wins |
| ShishaDefinition.StateMachineDefinitionImpl.DefineExitState | src/main/java/shisha/statemachine/StateMachineDefinitionImpl.java:212-215 | binds the exit controller of a declared state, else StateNotDefined with nothing changed |
| ShishaDefinition.StateMachineDefinitionImpl.DefineEnterState | src/main/java/shisha/statemachine/StateMachineDefinitionImpl.java:236-239 | binds the enter controller of a declared state, else StateNotDefined with nothing changed |
| ShishaDefinition.StateMachineDefinitionImpl.GetTransitionController | src/main/java/shisha/statemachine/StateMachineDefinitionImpl.java:241-249 | fails exactly for an undeclared state; a controller is found only on an existing edge |
| ShishaDefinition.StateMachineDefinitionImpl.GetEnterStateController | src/main/java/shisha/statemachine/StateMachineDefinitionImpl.java:251-258 | fails with StateNotDefined exactly for an undeclared state |
| ShishaDefinition.StateMachineDefinitionImpl.GetExitStateController | src/main/java/shisha/statemachine/StateMachineDefinitionImpl.java:260-267 | fails with StateNotDefined exactly for an undeclared state |
| ShishaDefinition.StateMachineDefinitionImpl.GetTargetState | src/main/java/shisha/statemachine/StateMachineDefinitionImpl.java:276-287 | an unknown or null source gives StateNotDefined; a missing edge gives TransitionNotDefined; success only through an existing edge |
| ShishaDefinition.StateMachineDefinitionImpl.GetStates | src/main/java/shisha/statemachine/StateMachineDefinitionImpl.java:289-294 | the loop lists exactly the declared states, each once |
| ShishaDefinition.StateMachineDefinitionImpl.GetApplicableEvents | src/main/java/shisha/statemachine/StateMachineDefinitionImpl.java:296-306 | exactly the events with an edge out of the source, each once; empty for an undefined source |
| ShishaDefinition.TargetStateIsDeclared | src/main/java/shisha/statemachine/StateMachineDefinitionImpl.java:182-191 | in a valid definition every edge uses a declared event and leads to a declared state; from a final state, only back to itself |
| ShishaTransitionInfo.TransitionInfo.constructor | src/main/java/shisha/statemachine/TransitionInfo.java:35-41 | the getters return the constructor's source, target, event and payload; the context starts empty |
| ShishaTransitionInfo.TransitionInfo.Put | src/main/java/shisha/statemachine/TransitionInfo.java:51-53 | a put into the one context map is seen by every later read |
| ShishaTransitionInfo.RenderInjective | src/main/java/shisha/statemachine/TransitionInfo.java:55-57 | `toString` renders "[S + E -> T]"; when source and event contain no blank, equal renderings mean equal transitions, and conversely |
| ShishaEngine.Transit | src/main/java/shisha/statemachine/strategy/ReentrantStrategy.java:82-104 | a failing target lookup refuses the transition with that error; a move goes to the looked-up target; a cancellation is a single exit call |
| ShishaEngine.Process | src/main/java/shisha/statemachine/strategy/ReentrantStrategy.java:61-120 | an undeclared event fails first with everything unchanged; a reentrant call fails when not allowed; the flag is false on every exit past the event check; the state changes only when an event fired |
| ShishaEngine.StateMachineImpl.constructor | src/main/java/shisha/statemachine/StateMachineImpl.java:36-41 | the current state starts as the definition's start state; definition and strategy are kept |
| ShishaEngine.StateMachineImpl.ProcessEvent | src/main/java/shisha/statemachine/StateMachineImpl.java:50-55 | the effect is exactly the strategy's `Process` on this machine |
| ShishaEngine.StateMachineImpl.SetCurrentState | src/main/java/shisha/statemachine/StateMachineImpl.java:69-72 | `getCurrentState` returns the value last set |
| ShishaEngine.ReentrantStrategy.constructor | src/main/java/shisha/statemachine/strategy/ReentrantStrategy.java:53-55 | by default reentrant calls are not allowed and the flag is clear |
| ShishaEngine.ReentrantStrategy.WithReentrancy | src/main/java/shisha/statemachine/strategy/ReentrantStrategy.java:57-59 | records whether reentrant calls are allowed |
| ShishaEngine.ReentrantStrategy.ProcessEvent | src/main/java/shisha/statemachine/strategy/ReentrantStrategy.java:61-120 | the imperative strategy, redirect recursion included, yields `Process`'s outcome, state, flag and controller calls |
| ShishaEngine.ReentrantStrategy.RunPhases | src/main/java/shisha/statemachine/strategy/ReentrantStrategy.java:82-104 | the phases on one `TransitionInfo` yield `Transit`'s step and set the state only on a move |
| ShishaEngine.TransitCallsAreRegistered | src/main/java/shisha/statemachine/strategy/ReentrantStrategy.java:86-104 | each controller call of one transition is made by the controller registered for that phase and edge |
| ShishaEngine.ProcessFollowsEdges | src/main/java/shisha/statemachine/strategy/ReentrantStrategy.java:82-113 | the final state is where the fired events lead along declared edges, redirects included |
| ShishaEngine.WalkStaysDeclared | src/main/java/shisha/statemachine/StateMachineDefinitionImpl.java:182-191 | in a valid definition, a non-empty walk along edges that ends at all ends in a declared state |
| ShishaEngine.ProcessStaysDeclared | src/main/java/shisha/statemachine/strategy/ReentrantStrategy.java:82-113 | whatever the controllers do, a machine over a valid definition stays in declared states |
| ShishaEngine.FinalStateIsAbsorbing | src/main/java/shisha/statemachine/StateMachineDefinitionImpl.java:188-189 | once in a final state, no event or redirect moves the machine elsewhere |
| ShishaEngine.CallsAreRegistered | src/main/java/shisha/statemachine/strategy/ReentrantStrategy.java:86-113 | across redirects, only registered controllers of declared edges are invoked |
| ShishaEngine.ReentrancyOnlyAtEntry | src/main/java/shisha/statemachine/strategy/ReentrantStrategy.java:74-113 | the call fails as reentrant iff the event is declared, reentrancy is not allowed and the flag was set on entry; redirects are never refused |
| ShishaEngine.ExitControllerCancels | src/main/java/shisha/statemachine/strategy/ReentrantStrategy.java:90-95 | an exit controller answering false: normal return, state kept, only the exit call made, flag cleared |
| ShishaEngine.ContextIsShared | src/main/java/shisha/statemachine/strategy/ReentrantStrategy.java:82-104 | transition sees what exit put in the context, and enter sees what transition put, on one record |
| ShishaEngine.LookupFailureRefuses | src/main/java/shisha/statemachine/strategy/ReentrantStrategy.java:82-88 | a failed lookup is the call's error, the state is unchanged and no controller runs |
| ShishaEngine.TransitionCompletes | src/main/java/shisha/statemachine/strategy/ReentrantStrategy.java:86-104 | when the exit controller (if any) lets the transition go on and the enter controller (if any) returns no redirect on the record it is handed (the context after exit and transition), the call ends normally in the target with exactly this event fired |
| ShishaEngine.RedirectContinuesFromTarget | src/main/java/shisha/statemachine/strategy/ReentrantStrategy.java:106-113 | when the enter controller returns a redirect on the record it is handed, it is processed as a fresh event from the target with the flag cleared; the call ends as that one ends |
| ShishaEngine.TransitIsBlock | src/main/java/shisha/statemachine/strategy/ReentrantStrategy.java:82-104 | the calls of one transition are exit, transition and enter in that order, each at most once, the first on an empty context and each later one on the context the previous controller left |
| ShishaEngine.TransitRunsRegistered | src/main/java/shisha/statemachine/strategy/ReentrantStrategy.java:82-104 | every call of one transition is handed that transition; when it is not cancelled, each of exit, transition and enter is called iff its controller is registered for the edge |
| ShishaEngine.PhasesInOrder | src/main/java/shisha/statemachine/strategy/ReentrantStrategy.java:82-113 | across redirects, the controller calls are whole transitions one after another, each in exit, transition, enter order, a redirect's calls after the enter call that asked for it |
| ShishaScenarios.FinalStatesScenario | src/test/java/shisha/pattern/statemachine/StateMachineDefinitionTest.java:134-139 | on the test's definition (five events, A start, B, C final, edges A-AB->B, B-BC->C, B-BB->B, B-BA->A), `getFinalStates` is exactly [STATE_C] |
| ShishaScenarios.StatesScenario | src/test/java/shisha/pattern/statemachine/StateMachineDefinitionTest.java:112-127 | on the test's definition, `getStates` has three entries, exactly STATE_A, STATE_B and STATE_C |
| ShishaScenarios.ApplicableEventsScenario | src/test/java/shisha/pattern/statemachine/StateMachineDefinitionTest.java:105-110 | on the test's definition, AB leads from A to B and the applicable events of A are exactly [EVENT_AB] |
| ShishaScenarios.DefinitionErrorsScenario | src/test/java/shisha/pattern/statemachine/StateMachineDefinitionTest.java:80-171 | start+final and a second start give Constraint; a state or event twice gives AlreadyExists; a null event or state gives IllegalArgument |
| ShishaScenarios.TransitionErrorsScenario | src/test/java/shisha/pattern/statemachine/StateMachineDefinitionTest.java:85-192 | an edge out of the final state C to B gives Constraint; arguments passed as (source, target, event) give StateNotDefined; `getTargetState(null, …)` gives StateNotDefined |
| ShishaScenarios.UndefinedTransitionScenario | src/main/java/shisha/statemachine/strategy/ReentrantStrategy.java:82-83 | after AB moves A to B, a second AB has no edge and fails with TransitionNotDefined, leaving the machine in B |
| ShishaScenarios.LegalRuns | src/test/java/shisha/pattern/statemachine/annotated/LegalStateMachineTest.java:67-74 | on the legal-machine definition, AB from A ends normally in B, and BC from B ends normally in D through COND's redirect to CD |
| ShishaScenarios.RedirectScenario | src/test/java/shisha/pattern/statemachine/annotated/LegalStateMachineTest.java:67-74 | AB then BC; entering COND redirects to CD, so the machine ends in STATE_D |
| ShishaScenarios.TransitionContextScenario | src/test/java/shisha/pattern/statemachine/TransitionInfoTest.java:48-73 | with context-writing exit and transition controllers, AB completes normally in B, and the third call, the enter controller's, sees both HELLO and GOODBYE in its context |
| NetDefinition.State.DefineTransition | src/main/java/net/xiron/pattern/statemachine/StateMachineDefinitionImpl.java:253-257 | only the first target registered for an event is kept |
| NetDefinition.StateMachineDefinitionImpl.constructor | src/main/java/net/xiron/pattern/statemachine/StateMachineDefinitionImpl.java:44-47 | a new definition is empty |
| NetDefinition.StateMachineDefinitionImpl.DefineEvent | src/main/java/net/xiron/pattern/statemachine/StateMachineDefinitionImpl.java:60-68 | fails exactly for null (IllegalArgument); otherwise idempotent set insertion |
| NetDefinition.StateMachineDefinitionImpl.GetEvents | src/main/java/net/xiron/pattern/statemachine/StateMachineDefinitionImpl.java:71-77 | the copy lists exactly the declared events, each once |
| NetDefinition.StateMachineDefinitionImpl.DefineState | src/main/java/net/xiron/pattern/statemachine/StateMachineDefinitionImpl.java:85-109 | null gives IllegalArgument; a second start or start+final gives DefinitionError, with nothing changed; an existing state keeps its record, yet `isStart` still makes it the start state |
| NetDefinition.StateMachineDefinitionImpl.GetStartState | src/main/java/net/xiron/pattern/statemachine/StateMachineDefinitionImpl.java:112-114 | the start state, once defined, is declared |
| NetDefinition.StateMachineDefinitionImpl.DefineTransition | src/main/java/net/xiron/pattern/statemachine/StateMachineDefinitionImpl.java:117-138 | fails iff source, target or event is undeclared, always as StateNotDefined; no final-state check; the first edge for (source, event) wins |
| NetDefinition.StateMachineDefinitionImpl.GetTargetState | src/main/java/net/xiron/pattern/statemachine/StateMachineDefinitionImpl.java:148-161 | an unknown or null source gives StateNotDefined, a missing edge TransitionNotDefined; success only through an edge |
| NetDefinition.StateMachineDefinitionImpl.GetStates | src/main/java/net/xiron/pattern/statemachine/StateMachineDefinitionImpl.java:164-169 | the copy lists exactly the declared states, each once |
| NetDefinition.StateMachineDefinitionImpl.GetEventsOfAsWritten | src/main/java/net/xiron/pattern/statemachine/StateMachineDefinitionImpl.java:171-182 | fails with UnsupportedOperation iff the state is declared and has an edge; otherwise the empty list |
| NetDefinition.StateMachineDefinitionImpl.GetEventsOf | src/main/java/net/xiron/pattern/statemachine/StateMachineDefinitionImpl.java:171-182 | as intended: exactly the events with an edge out of the source, each once; empty for an undefined source |
| NetTransitionEvent.TransitionEvent.constructor | src/main/java/net/xiron/pattern/statemachine/TransitionEvent.java:28-34 | the getters return the constructor's source, event, target and payload; the context starts empty |
| NetTransitionEvent.TransitionEvent.Put | src/main/java/net/xiron/pattern/statemachine/TransitionEvent.java:52-54 | a put into the one context map is seen by every later read |
| NetTransitionEvent.DescribeInjective | src/main/java/net/xiron/pattern/statemachine/TransitionEvent.java:56-60 | `toString` renders "source: S - event: E - target: T"; when source and event contain no blank, equal renderings mean equal triples, and conversely |
| NetEngine.Transit | src/main/java/net/xiron/pattern/statemachine/strategy/ReentrantStrategy.java:80-100 | the transition is refused exactly when the target lookup fails, with that lookup's error; a move goes to the looked-up target |
| NetEngine.Process | src/main/java/net/xiron/pattern/statemachine/strategy/ReentrantStrategy.java:60-107 | an undeclared event fails first with nothing changed; a reentrant call fails when not allowed; the flag is false on every exit past the event check; the state changes only when an event fired |
| NetEngine.StateMachineImpl.constructor | src/main/java/net/xiron/pattern/statemachine/StateMachineImpl.java:35-40 | the current state starts as the definition's start state |
| NetEngine.StateMachineImpl.ProcessEvent | src/main/java/net/xiron/pattern/statemachine/StateMachineImpl.java:49-56 | the effect is exactly the strategy's `Process` with the given controller |
| NetEngine.StateMachineImpl.SetCurrentState | src/main/java/net/xiron/pattern/statemachine/StateMachineImpl.java:73-77 | `getCurrentState` returns the value last set |
| NetEngine.ReentrantStrategy.constructor | src/main/java/net/xiron/pattern/statemachine/strategy/ReentrantStrategy.java:51-53 | by default reentrant calls are not allowed |
| NetEngine.ReentrantStrategy.WithReentrancy | src/main/java/net/xiron/pattern/statemachine/strategy/ReentrantStrategy.java:55-57 | records whether reentrant calls are allowed |
| NetEngine.ReentrantStrategy.ProcessEvent | src/main/java/net/xiron/pattern/statemachine/strategy/ReentrantStrategy.java:60-107 | the imperative strategy, redirects included, yields `Process`'s outcome, state, flag and phase calls |
| NetEngine.ReentrantStrategy.RunPhases | src/main/java/net/xiron/pattern/statemachine/strategy/ReentrantStrategy.java:80-100 | the three phases on one record yield `Transit`'s step and its calls; the state becomes the target only on a move |
| NetEngine.ProcessFollowsEdges | src/main/java/net/xiron/pattern/statemachine/strategy/ReentrantStrategy.java:80-96 | the final state is where the fired events lead along declared edges |
| NetEngine.WalkStaysDeclared | src/main/java/net/xiron/pattern/statemachine/StateMachineDefinitionImpl.java:117-138 | in a valid definition, a non-empty walk along edges that ends at all ends in a declared state |
| NetEngine.ProcessStaysDeclared | src/main/java/net/xiron/pattern/statemachine/strategy/ReentrantStrategy.java:80-96 | a machine over a valid definition never leaves the declared states |
| NetEngine.PhasesInOrder | src/main/java/net/xiron/pattern/statemachine/strategy/ReentrantStrategy.java:84-96 | every transition is exit alone, or exit, transition and enter on the same record; a redirect starts only after enter |
| NetEngine.ReentrancyOnlyAtEntry | src/main/java/net/xiron/pattern/statemachine/strategy/ReentrantStrategy.java:72-96 | the call fails as reentrant iff the event is declared, reentrancy is off and the flag was set on entry |
| NetEngine.ExitPhaseCancels | src/main/java/net/xiron/pattern/statemachine/strategy/ReentrantStrategy.java:84-100 | an exit phase answering false: normal return, state kept, only the exit call, flag cleared |
| NetEngine.TransitionCompletes | src/main/java/net/xiron/pattern/statemachine/strategy/ReentrantStrategy.java:84-96 | no cancel and no redirect: normal return in the target, exactly this event fired |
| NetEngine.RedirectContinuesFromTarget | src/main/java/net/xiron/pattern/statemachine/strategy/ReentrantStrategy.java:88-96 | a redirect is processed, with the same controller, as a fresh event from the target; the call ends as that one ends |
| NetEngine.LookupFailureRefuses | src/main/java/net/xiron/pattern/statemachine/strategy/ReentrantStrategy.java:80-81 | a failed lookup is the call's error, with the state unchanged and no phase run |
| NetDispatch.FirstMatch | src/main/java/net/xiron/pattern/statemachine/annotations/AnnotatedControllerProcessor.java:282-296 | the answer is a matching entry with no match before it, or none when nothing matches |
| NetDispatch.LookupAfterAdd | src/main/java/net/xiron/pattern/statemachine/annotations/AnnotatedControllerProcessor.java:278-280 | appending an entry never changes an existing answer; the new entry is found only by queries that found nothing |
| NetDispatch.ExitVerdict | src/main/java/net/xiron/pattern/statemachine/annotations/AnnotatedControllerProcessor.java:233-245 | true when no exit entry matches, else the first matching method's answer |
| NetDispatch.EnterVerdict | src/main/java/net/xiron/pattern/statemachine/annotations/AnnotatedControllerProcessor.java:260-273 | no redirect when no enter entry matches, else the first matching method's answer |
| NetDispatch.NullEndpointsTakeDefaults | src/main/java/net/xiron/pattern/statemachine/annotated/AnnotatedControllerProcessor.java:238-256 | a record with a null source or target matches nothing, so every phase takes its default |
| NetDispatch.TransitionDictionary.constructor | src/main/java/net/xiron/pattern/statemachine/annotations/AnnotatedControllerProcessor.java:276 | the dictionary starts empty |
| NetDispatch.TransitionDictionary.AddTransition | src/main/java/net/xiron/pattern/statemachine/annotations/AnnotatedControllerProcessor.java:278-280 | appends one entry at the end (the annotated package's copy is the same) |
| NetDispatch.TransitionDictionary.FindBy | src/main/java/net/xiron/pattern/statemachine/annotations/AnnotatedControllerProcessor.java:282-296 | the scan with `break` returns the first entry matching target, source, event and phase, or none (the annotated package's copy is the same) |
| NetAnnotationsProcessor.AnnotatedControllerProcessor.constructor | src/main/java/net/xiron/pattern/statemachine/annotations/AnnotatedControllerProcessor.java:66-74 | keeps the dictionary and machine it is given |
| NetAnnotationsProcessor.AnnotatedControllerProcessor.ExitStatePhase | src/main/java/net/xiron/pattern/statemachine/annotations/AnnotatedControllerProcessor.java:233-245 | the answer is `ExitVerdict`: true without a matching exit entry |
| NetAnnotationsProcessor.AnnotatedControllerProcessor.TransitionPhase | src/main/java/net/xiron/pattern/statemachine/annotations/AnnotatedControllerProcessor.java:248-257 | the entry run is the first matching transition entry, or none |
| NetAnnotationsProcessor.AnnotatedControllerProcessor.EnterStatePhase | src/main/java/net/xiron/pattern/statemachine/annotations/AnnotatedControllerProcessor.java:260-273 | the answer is `EnterVerdict`: no redirect without a matching enter entry |
| NetAnnotationsProcessor.AnnotatedControllerProcessor.ProcessEvent | src/main/java/net/xiron/pattern/statemachine/annotations/AnnotatedControllerProcessor.java:226-230 | the machine processes the event with this processor as controller |
| NetAnnotationsProcessor.UnannotatedTransitionCompletes | src/main/java/net/xiron/pattern/statemachine/annotations/AnnotatedControllerProcessor.java:233-273 | with no exit or enter entry for a transition, the processor lets it complete in the target |
| NetAnnotatedProcessor.AnnotatedControllerProcessor.constructor | src/main/java/net/xiron/pattern/statemachine/annotated/AnnotatedControllerProcessor.java:57-67 | keeps the dictionary and machine it is given |
| NetAnnotatedProcessor.AnnotatedControllerProcessor.PhaseExitState | src/main/java/net/xiron/pattern/statemachine/annotated/AnnotatedControllerProcessor.java:188-201 | the answer is `ExitVerdict` on the record's (possibly null) source and target |
| NetAnnotatedProcessor.AnnotatedControllerProcessor.PhaseTransition | src/main/java/net/xiron/pattern/statemachine/annotated/AnnotatedControllerProcessor.java:203-213 | the entry run is the first matching transition entry, or none |
| NetAnnotatedProcessor.AnnotatedControllerProcessor.PhaseEnterState | src/main/java/net/xiron/pattern/statemachine/annotated/AnnotatedControllerProcessor.java:215-229 | the answer is `EnterVerdict`: null without a matching enter entry |
| NetAnnotatedProcessor.AnnotatedControllerProcessor.ProcessEvent | src/main/java/net/xiron/pattern/statemachine/annotated/AnnotatedControllerProcessor.java:182-186 | only forwards to the machine, with the dictionary's phases as controller |
| NetReentrantMachine.Drain | src/main/java/net/xiron/pattern/statemachine/ReentrantStateMachine.java:84-98 | processed then remaining is the queue; a normal end leaves nothing queued; a non-empty queue processes at least its head |
| NetReentrantMachine.DrainAppend | src/main/java/net/xiron/pattern/statemachine/ReentrantStateMachine.java:86-89 | FIFO: an event queued behind others that succeed runs after them, from the state they left |
| NetReentrantMachine.DrainEmptiesQueue | src/main/java/net/xiron/pattern/statemachine/ReentrantStateMachine.java:86-89 | a drain that ends normally processed every queued event, in queue order |
| NetReentrantMachine.DrainStopsAtFailure | src/main/java/net/xiron/pattern/statemachine/ReentrantStateMachine.java:86-98 | a failed drain stops at its first failure: all submissions before the last one taken ran normally, and the error, state and flag reported are those of the last one |
| NetReentrantMachine.FailingSubmission | src/main/java/net/xiron/pattern/statemachine/ReentrantStateMachine.java:86-98 | the submissions a failed drain took split into a prefix whose drain ends normally and one last submission whose processing, from where that prefix left the machine, gives the drain's error, state and flag |
| NetReentrantMachine.ReentrantStateMachine.constructor | src/main/java/net/xiron/pattern/statemachine/ReentrantStateMachine.java:41-44 | idle, with an empty queue |
| NetReentrantMachine.ReentrantStateMachine.AllowsReentrantTransitions | src/main/java/net/xiron/pattern/statemachine/ReentrantStateMachine.java:46-48 | always true |
| NetReentrantMachine.ReentrantStateMachine.ProcessEvent | src/main/java/net/xiron/pattern/statemachine/ReentrantStateMachine.java:68-102 | an undeclared event fails with the queue, the state, the strategy's flag and its call log unchanged; when busy, the event is appended and the call returns with state, strategy flag and call log unchanged; when idle, the result is `Drain` of the queue plus the event; the flag ends as it started |
| NetReentrantMachine.ReentrantStateMachine.DrainQueue | src/main/java/net/xiron/pattern/statemachine/ReentrantStateMachine.java:84-98 | the do-while loop yields `Drain`'s outcome, remaining queue, state and strategy flag |
| NetReentrantMachine.ReentrantStateMachine.ProcessHead | src/main/java/net/xiron/pattern/statemachine/ReentrantStateMachine.java:87-88 | removes the head and processes its event and payload through the proxied machine |
| NetScenarios.AbsorbedDefinitionsScenario | src/main/java/net/xiron/pattern/statemachine/StateMachineDefinitionImpl.java:85-109 | an event defined twice passes; a state defined final and then as start passes, and is a final start state |
| NetScenarios.TransitionQuirksScenario | src/main/java/net/xiron/pattern/statemachine/StateMachineDefinitionImpl.java:117-138 | an undeclared event is reported as StateNotDefined; a second target for A -AB-> passes but A -AB-> still leads to B |
| NetScenarios.EventsOfScenario | src/main/java/net/xiron/pattern/statemachine/StateMachineDefinitionImpl.java:171-182 | for A with edge A -AA-> A the written code fails with UnsupportedOperation; the intended query gives [EVENT_AA] |
| NetScenarios.RedirectScenario | src/test/java/net/xiron/pattern/statemachine/annotated/RedirectOnEnterTransitionTest.java:29-34 | AA from A redirects on enter to AB, and the machine ends in STATE_B |
| NetScenarios.QueueRefusalScenario | src/main/java/net/xiron/pattern/statemachine/ReentrantStateMachine.java:71-72 | an undeclared event is refused with EventNotDefined and nothing is queued |
| NetScenarios.QueueDrainScenario | src/main/java/net/xiron/pattern/statemachine/ReentrantStateMachine.java:74-98 | an idle machine drains an accepted event at once: normal end, in B, with an empty queue |

## Left out

- Locking. The `ReentrantLock` of both strategies and the `synchronized` block of
  `ReentrantStateMachine` are omitted, and the model is single-threaded.
- Nested calls. Controllers are function values and cannot call back into the machine. A nested call
  made from inside a phase is modelled as a call made while the flag is set.
  - The strategies' `processEvent` covers such a call through its `inTransition` argument.
  - `ReentrantStateMachine.ProcessEvent` covers it through its own `inTransition` field.
- Enqueue strategy. The `ReentrantEnqueueStrategy` classes run a worker thread over a blocking queue;
  they are not part of this model.
- Reflection. Annotation scanning, the `check*Annotation`/`processAnnotatedController` methods, the
  Method-based `define*` overloads and the `TransitionDefinition.execute*` wrappers are not modelled.
  - A processor is built from an already filled dictionary and machine.
  - An annotated method is a `Handler` of function values that sees only the payload.
  - A null `Boolean` from a failed reflective exit call is not modelled.
- XML `toString` dumps of the definitions, and all logging, are not modelled.
- ShishaEngine.Process, NetEngine.Process, ShishaEngine.ReentrantStrategy.ProcessEvent, NetEngine.ReentrantStrategy.ProcessEvent: a
  redirect chain is followed for at most `fuel` redirects. Running out ends the call with
  `RedirectLimitReached`, with the state already changed, where the Java code would recurse until
  the stack overflows.
- Java `null` is modelled only where the code checks for it (`defineEvent`, `defineState`, a null
  current state, null record endpoints). Elsewhere names are plain strings.
- The one-argument `defineState(state)` is `DefineState(state, false, false)`, which is what it
  forwards to.
- The private `State` objects are values in a map; they are never shared outside the definition.
- The older generation's `TransitionInfo`, `EventInfo` and `StateMachineController` are not part of
  this model. `TransitionView` (what a phase is handed) and `PhaseEnterResult` stand in for them.
  The older strategy does not model the context map of that record; `TransitionEvent` does.
- Calls that do not match the classes they call:
  - `annotations/AnnotatedControllerProcessor.processEvent` calls a four-argument
    `processEvent(event, object, this, null)`, which `StateMachineImpl` of that package does not have.
  - `ReentrantStateMachine` and `annotated/AnnotatedControllerProcessor` use a no-argument
    `StateMachineImpl` with a stored controller.

  All three are modelled as calls to `StateMachineImpl.processEvent(event, object, controller)` with the processor
  (or a given controller) as the controller.
- NetReentrantMachine.ReentrantStateMachine.ProcessEvent: the contract states outcome, state, flag and
  queue, but not the trace of phase calls made during the drain.
- The older definition test (src/test/java/net/xiron/pattern/statemachine/StateMachineDefinitionTest.java)
  asserts exceptions and counts that the older definition does not produce: a transition out of the
  final state, a state or an event defined twice, and `getEvents(STATE_A).size() == 1`. The model
  follows the code, so those expectations are not reproduced; `NetScenarios.AbsorbedDefinitionsScenario`,
  `NetScenarios.TransitionQuirksScenario` and `NetScenarios.EventsOfScenario` state what the code
  does instead.
- Scenario builders state only the facts their scenarios use. Builders are helpers, not operations
  of the library.

## Findings

| source | as written | input that shows it | evidently intended | confidence | as-written member | corrected member |
|---|---|---|---|---|---|---|
| src/main/java/net/xiron/pattern/statemachine/StateMachineDefinitionImpl.java:171-182 | `getEvents(source)` starts from the immutable `Collections.emptyList()` and adds to it in the loop, so any declared state with an edge throws `UnsupportedOperationException` | state A with the edge A -AA-> A, then `getEvents("STATE_A")` (NetScenarios.EventsOfScenario) | the list of events with an edge out of the source | not executed | NetDefinition.StateMachineDefinitionImpl.GetEventsOfAsWritten | NetDefinition.StateMachineDefinitionImpl.GetEventsOf |
