/**
 * `AnnotatedControllerProcessor` of package
 * `net.xiron.pattern.statemachine.annotated`: the earlier processor, whose
 * phases are handed `TransitionEvent` records (source and target may be
 * null) and answer with a `PhaseEnterResult`. It dispatches through the same
 * dictionary, with the same defaults.
 */
module NetAnnotatedProcessor {
  import opened Wrappers
  import opened Payloads
  import opened NetTransitionEvent
  import opened NetDefinition
  import opened NetEngine
  import opened NetDispatch

  class AnnotatedControllerProcessor {
    const transitionDictionary: TransitionDictionary
    const stateMachine: StateMachineImpl

    /** The dictionary and machine the reflective scan of the controller would have built. */
    constructor (transitionDictionary: TransitionDictionary, stateMachine: StateMachineImpl)
      ensures this.transitionDictionary == transitionDictionary && this.stateMachine == stateMachine
    {
      this.transitionDictionary := transitionDictionary;
      this.stateMachine := stateMachine;
    }

    function GetStateMachine(): StateMachineImpl { stateMachine }

    /** `phaseExitState`: the first exit entry for the record decides; without one the transition goes on. */
    method PhaseExitState(event: TransitionEvent) returns (r: bool)
      ensures r == ExitVerdict(transitionDictionary.entries, event.GetSource(), event.GetTarget(), event.GetEvent(),
                               event.GetObject())
    {
      var def := transitionDictionary.FindBy(event.GetSource(), event.GetTarget(), event.GetEvent(), PhaseExit);
      r := true;
      if def.Some? {
        r := def.value.handler.onExit(event.GetObject());
      }
    }

    /** `phaseTransition`: invokes the first transition entry for the record, if any; the answer says which ran. */
    method PhaseTransition(event: TransitionEvent) returns (invoked: Option<TransitionDefinition>)
      ensures invoked == Lookup(transitionDictionary.entries, event.GetSource(), event.GetTarget(), event.GetEvent(),
                                NetDispatch.PhaseTransition)
    {
      invoked := transitionDictionary.FindBy(event.GetSource(), event.GetTarget(), event.GetEvent(),
                                             NetDispatch.PhaseTransition);
    }

    /** `phaseEnterState`: the first enter entry for the record decides; without one there is no redirect. */
    method PhaseEnterState(event: TransitionEvent) returns (r: Option<PhaseEnterResult>)
      ensures r == EnterVerdict(transitionDictionary.entries, event.GetSource(), event.GetTarget(), event.GetEvent(),
                                event.GetObject())
    {
      var def := transitionDictionary.FindBy(event.GetSource(), event.GetTarget(), event.GetEvent(), PhaseEnter);
      r := None;
      if def.Some? {
        r := def.value.handler.onEnter(event.GetObject());
      }
    }

    /** `processEvent(event, object)`: forwards to the machine, which calls back into this processor's phases. */
    method ProcessEvent(event: string, obj: Payload, fuel: nat) returns (r: Outcome<Error>)
      modifies stateMachine, stateMachine.strategy
      ensures var run := old(Process(stateMachine.definition, stateMachine.strategy.allowsReentrantTransitions,
                                     stateMachine.currentState, stateMachine.strategy.inTransition, event, obj,
                                     DictionaryController(transitionDictionary.entries), fuel));
              r == run.outcome && stateMachine.currentState == run.current
              && stateMachine.strategy.inTransition == run.inTransition
              && stateMachine.strategy.calls == old(stateMachine.strategy.calls) + run.calls
    {
      r := stateMachine.ProcessEvent(event, obj, DictionaryController(transitionDictionary.entries), fuel);
    }
  }
}
