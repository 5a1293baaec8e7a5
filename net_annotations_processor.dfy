/**
 * `AnnotatedControllerProcessor` of package
 * `net.xiron.pattern.statemachine.annotations`: a `TransitionController` whose
 * three phases look up the annotated method declared for the transition and
 * fall back to a default (go on, do nothing, no redirect) when there is none.
 */
module NetAnnotationsProcessor {
  import opened Wrappers
  import opened Payloads
  import opened NetTransitionEvent
  import opened NetDefinition
  import opened NetEngine
  import opened NetDispatch

  class AnnotatedControllerProcessor {
    const transitionDictionary: TransitionDictionary
    const stateMachine: StateMachineImpl

    /** The dictionary and machine the reflective scan of the controller would have built. */
    constructor (transitionDictionary: TransitionDictionary, stateMachine: StateMachineImpl)
      ensures this.transitionDictionary == transitionDictionary && this.stateMachine == stateMachine
    {
      this.transitionDictionary := transitionDictionary;
      this.stateMachine := stateMachine;
    }

    function GetStateMachine(): StateMachineImpl { stateMachine }

    /** `exitStatePhase`: the first exit entry for the transition decides; without one the transition goes on. */
    method ExitStatePhase(event: TransitionView) returns (r: bool)
      ensures r == ExitVerdict(transitionDictionary.entries, Some(event.source), Some(event.target), event.event, event.obj)
    {
      var def := transitionDictionary.FindBy(Some(event.source), Some(event.target), event.event, PhaseExit);
      r := true;
      if def.Some? {
        r := def.value.handler.onExit(event.obj);
      }
    }

    /**
     * `transitionPhase`: invokes the first transition entry for the
     * transition, if there is one; the answer says which entry ran.
     */
    method TransitionPhase(event: TransitionView) returns (invoked: Option<TransitionDefinition>)
      ensures invoked == Lookup(transitionDictionary.entries, Some(event.source), Some(event.target), event.event,
                                PhaseTransition)
    {
      invoked := transitionDictionary.FindBy(Some(event.source), Some(event.target), event.event, PhaseTransition);
    }

    /** `enterStatePhase`: the first enter entry for the transition decides; without one there is no redirect. */
    method EnterStatePhase(event: TransitionView) returns (r: Option<PhaseEnterResult>)
      ensures r == EnterVerdict(transitionDictionary.entries, Some(event.source), Some(event.target), event.event,
                                event.obj)
    {
      var def := transitionDictionary.FindBy(Some(event.source), Some(event.target), event.event, PhaseEnter);
      r := None;
      if def.Some? {
        r := def.value.handler.onEnter(event.obj);
      }
    }

    /** This processor seen as the controller the strategy calls. */
    function Controller(): TransitionController
      reads transitionDictionary
    {
      DictionaryController(transitionDictionary.entries)
    }

    /** `processEvent(event, object)`: the machine processes the event with this processor as its controller. */
    method ProcessEvent(event: string, obj: Payload, fuel: nat) returns (r: Outcome<Error>)
      modifies stateMachine, stateMachine.strategy
      ensures var run := old(Process(stateMachine.definition, stateMachine.strategy.allowsReentrantTransitions,
                                     stateMachine.currentState, stateMachine.strategy.inTransition, event, obj,
                                     Controller(), fuel));
              r == run.outcome && stateMachine.currentState == run.current
              && stateMachine.strategy.inTransition == run.inTransition
              && stateMachine.strategy.calls == old(stateMachine.strategy.calls) + run.calls
    {
      r := stateMachine.ProcessEvent(event, obj, Controller(), fuel);
    }
  }

  /**
   * With this processor as controller, a transition nobody annotated runs to
   * completion: the exit phase lets it go on and the enter phase asks for no
   * redirect, so the machine ends in the target.
   */
  lemma UnannotatedTransitionCompletes(entries: seq<TransitionDefinition>, def: StateMachineDefinitionImpl,
                                       allows: bool, source: string, inTransition: bool, event: string, obj: Payload,
                                       fuel: nat, target: string)
    requires event in def.events && (allows || !inTransition)
    requires def.GetTargetState(Some(source), event) == Success(target)
    requires forall j :: 0 <= j < |entries| ==> entries[j].transition != Transition(source, target, event, PhaseExit)
    requires forall j :: 0 <= j < |entries| ==> entries[j].transition != Transition(source, target, event, PhaseEnter)
    ensures var run := Process(def, allows, Some(source), inTransition, event, obj, DictionaryController(entries), fuel);
            run.outcome == Pass && run.current == Some(target) && run.fired == [event]
  {
    assert forall j :: 0 <= j < |entries| ==> !Matches(entries[j], Some(source), Some(target), event, PhaseExit);
    assert forall j :: 0 <= j < |entries| ==> !Matches(entries[j], Some(source), Some(target), event, PhaseEnter);
    TransitionCompletes(def, allows, source, inTransition, event, obj, DictionaryController(entries), fuel, target);
  }
}
