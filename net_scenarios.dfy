/**
 * Concrete machines of the older generation, each stated as a method whose
 * contract is what its outcome must be.
 */
module NetScenarios {
  import opened Wrappers
  import opened Payloads
  import opened NetTransitionEvent
  import opened NetDefinition
  import opened NetEngine
  import opened NetDispatch
  import opened NetReentrantMachine
  import NetAnnotationsProcessor

  /**
   * Repeated definitions are absorbed, and a state declared final can still
   * become the start state afterwards.
   */
  method AbsorbedDefinitionsScenario() returns (eventTwice: Outcome<Error>, finalThenStart: Outcome<Error>,
                                                startFinal: bool)
    ensures eventTwice == Pass && finalThenStart == Pass && startFinal
  {
    var def := new StateMachineDefinitionImpl();
    var _ := def.DefineEvent(Some("EVENT_AB"));
    eventTwice := def.DefineEvent(Some("EVENT_AB"));
    var _ := def.DefineState(Some("STATE_S"), false, true);
    finalThenStart := def.DefineState(Some("STATE_S"), true, false);
    startFinal := def.GetStartState() == Some("STATE_S") && def.states["STATE_S"].isFinal;
  }

  /**
   * On the redirect test's definition: an undeclared event in a transition is
   * reported as an undeclared state, and a second target for A -AB-> is
   * accepted but ignored.
   */
  method TransitionQuirksScenario() returns (undeclaredEvent: Outcome<Error>, secondTarget: Outcome<Error>,
                                             target: Result<string, Error>)
    ensures undeclaredEvent == Fail(StateNotDefined)
    ensures secondTarget == Pass && target == Success("STATE_B")
  {
    var def := BuildRedirectDefinition();
    undeclaredEvent := def.DefineTransition("STATE_A", "STATE_B", "EVENT_XY");
    secondTarget := def.DefineTransition("STATE_A", "STATE_A", "EVENT_AB");
    target := def.GetTargetState(Some("STATE_A"), "EVENT_AB");
  }

  /**
   * A state with one edge, A -AA-> A: the loop as written fails on its first
   * `add`, while the intended query lists the one event.
   */
  method EventsOfScenario() returns (asWritten: Result<seq<string>, Error>, intended: seq<string>)
    ensures asWritten == Failure(UnsupportedOperation)
    ensures intended == ["EVENT_AA"]
  {
    var def := new StateMachineDefinitionImpl();
    var _ := def.DefineState(Some("STATE_A"), true, false);
    var _ := def.DefineEvent(Some("EVENT_AA"));
    var _ := def.DefineTransition("STATE_A", "STATE_A", "EVENT_AA");
    asWritten := def.GetEventsOfAsWritten("STATE_A");
    intended := def.GetEventsOf("STATE_A");
    OnlyMember(intended, "EVENT_AA");
  }

  /** The redirect test's states A (start) and B and its events AA and AB, on an empty definition. */
  method DefineRedirectNames(def: StateMachineDefinitionImpl)
    requires def.Valid() && def.startState == None && def.states == map[] && def.events == {}
    modifies def
    ensures def.Valid() && def.startState == Some("STATE_A")
    ensures def.states == map["STATE_A" := State("STATE_A", false, map[]), "STATE_B" := State("STATE_B", false, map[])]
    ensures def.events == {"EVENT_AA", "EVENT_AB"}
  {
    var _ := def.DefineState(Some("STATE_A"), true, false);
    var _ := def.DefineState(Some("STATE_B"), false, false);
    var _ := def.DefineEvent(Some("EVENT_AA"));
    var _ := def.DefineEvent(Some("EVENT_AB"));
  }

  /** The redirect test's definition: states A (start) and B, events AA and AB, edges A -AA-> A and A -AB-> B. */
  method BuildRedirectDefinition() returns (def: StateMachineDefinitionImpl)
    ensures fresh(def) && def.Valid()
    ensures def.GetStartState() == Some("STATE_A")
    ensures def.events == {"EVENT_AA", "EVENT_AB"}
    ensures def.states.Keys == {"STATE_A", "STATE_B"}
    ensures def.GetTargetState(Some("STATE_A"), "EVENT_AA") == Success("STATE_A")
    ensures def.GetTargetState(Some("STATE_A"), "EVENT_AB") == Success("STATE_B")
  {
    def := new StateMachineDefinitionImpl();
    DefineRedirectNames(def);
    var _ := def.DefineTransition("STATE_A", "STATE_A", "EVENT_AA");
    var _ := def.DefineTransition("STATE_A", "STATE_B", "EVENT_AB");
  }

  /** The redirect test's enter method on A -AA-> A: asks for EVENT_AB. */
  const RedirectToAB := Handler((p: Payload) => true, (p: Payload) => Some(PhaseEnterResult("EVENT_AB", Null)))

  /** The redirect test's transition method on A -AB-> B: does nothing. */
  const Noop := Handler((p: Payload) => true, (p: Payload) => None)

  /** The redirect test's annotated methods, in declaration order. */
  method BuildRedirectDictionary() returns (dictionary: TransitionDictionary)
    ensures fresh(dictionary)
    ensures dictionary.entries == [
              TransitionDefinition(Transition("STATE_A", "STATE_A", "EVENT_AA", PhaseEnter), RedirectToAB),
              TransitionDefinition(Transition("STATE_A", "STATE_B", "EVENT_AB", PhaseTransition), Noop)]
  {
    dictionary := new TransitionDictionary();
    dictionary.AddTransition(Transition("STATE_A", "STATE_A", "EVENT_AA", PhaseEnter), RedirectToAB);
    dictionary.AddTransition(Transition("STATE_A", "STATE_B", "EVENT_AB", PhaseTransition), Noop);
  }

  /**
   * Processing AA in A runs the self-loop, whose enter method redirects to AB,
   * so the machine ends in B.
   */
  method RedirectScenario() returns (outcome: Outcome<Error>, finalState: Option<string>)
    ensures outcome == Pass && finalState == Some("STATE_B")
  {
    var def := BuildRedirectDefinition();
    var dictionary := BuildRedirectDictionary();
    var entries := dictionary.entries;
    var controller := DictionaryController(entries);
    var view := TransitionView("STATE_A", "EVENT_AA", "STATE_A", Null);
    assert Matches(entries[0], Some("STATE_A"), Some("STATE_A"), "EVENT_AA", PhaseEnter);
    assert controller.enterStatePhase(view) == Some(PhaseEnterResult("EVENT_AB", Null));
    RedirectContinuesFromTarget(def, false, "STATE_A", false, "EVENT_AA", Null, controller, 1, "STATE_A",
                                PhaseEnterResult("EVENT_AB", Null));
    NetAnnotationsProcessor.UnannotatedTransitionCompletes(entries, def, false, "STATE_A", false, "EVENT_AB", Null, 0,
                                                           "STATE_B");
    var strategy := new ReentrantStrategy();
    var machine := new StateMachineImpl(def, strategy);
    var processor := new NetAnnotationsProcessor.AnnotatedControllerProcessor(dictionary, machine);
    outcome := processor.ProcessEvent("EVENT_AA", Null, 1);
    finalState := machine.GetCurrentState();
  }

  /** A controller that lets every transition go on and never redirects. */
  const PlainController := TransitionController((v: TransitionView) => true, (v: TransitionView) => None)

  /** The queueing machine over the redirect test's definition, reentrancy allowed, idle in A. */
  method BuildQueueMachine() returns (machine: ReentrantStateMachine)
    ensures fresh(machine) && fresh(machine.proxiedStateMachine) && fresh(machine.proxiedStateMachine.strategy)
    ensures machine.proxiedStateMachine.definition.Valid()
    ensures machine.proxiedStateMachine.definition.events == {"EVENT_AA", "EVENT_AB"}
    ensures machine.proxiedStateMachine.definition.GetTargetState(Some("STATE_A"), "EVENT_AB") == Success("STATE_B")
    ensures machine.proxiedStateMachine.currentState == Some("STATE_A")
    ensures machine.proxiedStateMachine.strategy.allowsReentrantTransitions
    ensures !machine.proxiedStateMachine.strategy.inTransition
    ensures machine.controller == PlainController
    ensures !machine.inTransition && machine.transitionQueue == []
  {
    var def := BuildRedirectDefinition();
    var strategy := new ReentrantStrategy.WithReentrancy(true);
    var proxied := new StateMachineImpl(def, strategy);
    machine := new ReentrantStateMachine(proxied, PlainController);
  }

  /** The queueing machine refuses an undeclared event without queueing it. */
  method QueueRefusalScenario() returns (refused: Outcome<Error>, left: seq<Submission>)
    ensures refused == Fail(EventNotDefined) && left == []
  {
    var machine := BuildQueueMachine();
    refused := machine.ProcessEvent("EVENT_XY", Null, 0);
    left := Pending(machine.transitionQueue);
  }

  /** The queueing machine, idle, drains an accepted event at once. */
  method QueueDrainScenario() returns (accepted: Outcome<Error>, finalState: Option<string>, left: seq<Submission>)
    ensures accepted == Pass && finalState == Some("STATE_B") && left == []
  {
    var machine := BuildQueueMachine();
    var def := machine.proxiedStateMachine.definition;
    TransitionCompletes(def, true, "STATE_A", false, "EVENT_AB", Null, PlainController, 0, "STATE_B");
    DrainStep(def, true, Some("STATE_A"), false, PlainController, [Submission("EVENT_AB", Null)], 0);
    accepted := machine.ProcessEvent("EVENT_AB", Null, 0);
    finalState := machine.GetCurrentState();
    left := Pending(machine.transitionQueue);
  }
}
