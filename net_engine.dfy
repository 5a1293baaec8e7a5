/**
 * The execution engine of the older generation: `StateMachineImpl`, which
 * holds the current state, and `ReentrantStrategy`, which runs a transition
 * through the three phases of one `TransitionController` handed to every
 * `processEvent` call.
 */
module NetEngine {
  import opened Wrappers
  import opened Payloads
  import opened NetTransitionEvent
  import opened NetDefinition

  /**
   * `TransitionController`: what its exit phase answers (go on or cancel) and
   * what its enter phase answers (Java `null` is `None`). Its transition phase
   * returns nothing; the model records only that it was called.
   */
  datatype TransitionController = TransitionController(
    exitStatePhase: TransitionView -> bool,
    enterStatePhase: TransitionView -> Option<PhaseEnterResult>)

  datatype Phase = ExitPhase | TransitionPhase | EnterPhase

  /** One call of a controller phase, with the transition it was handed. */
  datatype PhaseCall = PhaseCall(phase: Phase, view: TransitionView)

  /**
   * One transition, once the event and the reentrancy guard have let it
   * through: refused by the target lookup, cancelled by the exit phase, or
   * moved to `target`, possibly with a redirect.
   */
  datatype Step =
    | Refused(error: Error)
    | Cancelled(calls: seq<PhaseCall>)
    | Moved(target: string, calls: seq<PhaseCall>, redirect: Option<PhaseEnterResult>)

  /**
   * The phases of one transition from `current` on `event`: look up the
   * target, then ask the exit phase, and if it agrees run the transition and
   * enter phases, all on the same transition record.
   */
  function Transit(def: StateMachineDefinitionImpl, current: Option<string>, event: string, obj: Payload,
                   controller: TransitionController): (step: Step)
    reads def
    ensures def.GetTargetState(current, event).Failure? <==> step.Refused?
    ensures step.Refused? ==> step.error == def.GetTargetState(current, event).error
    ensures step.Moved? ==> def.GetTargetState(current, event) == Success(step.target)
  {
    match def.GetTargetState(current, event)
    case Failure(e) => Refused(e)
    case Success(target) =>
      var view := TransitionView(current.value, event, target, obj);
      if !controller.exitStatePhase(view) then Cancelled([PhaseCall(ExitPhase, view)])
      else Moved(target, [PhaseCall(ExitPhase, view), PhaseCall(TransitionPhase, view), PhaseCall(EnterPhase, view)],
                 controller.enterStatePhase(view))
  }

  /**
   * The effect of one `processEvent` call: how it ended (`Pass` for a normal
   * return, including a cancellation), the current state and reentrancy flag
   * afterwards, the controller phases invoked and the events whose transitions
   * changed the state, in order.
   */
  datatype Run = Run(outcome: Outcome<Error>, current: Option<string>, inTransition: bool,
                     calls: seq<PhaseCall>, fired: seq<string>)

  /**
   * What `processEvent(statemachine, event, object, controller)` does to a
   * machine in state `current` whose strategy's flag is `inTransition`. A
   * redirect is processed as a new event, with the same controller, after the
   * state changed; `fuel` bounds how many redirects are followed.
   */
  function Process(def: StateMachineDefinitionImpl, allows: bool, current: Option<string>, inTransition: bool,
                   event: string, obj: Payload, controller: TransitionController, fuel: nat): (run: Run)
    reads def
    decreases fuel
    ensures run.inTransition == (inTransition && event !in def.events)
    ensures event !in def.events ==> run == Run(Fail(EventNotDefined), current, inTransition, [], [])
    ensures event in def.events && !allows && inTransition ==>
              run == Run(Fail(ReentrantTransitionNotAllowed), current, false, [], [])
    ensures run.fired == [] ==> run.current == current
    ensures run.fired != [] ==> run.fired[0] == event && def.GetTargetState(current, event).Success? && run.current.Some?
  {
    if event !in def.events then Run(Fail(EventNotDefined), current, inTransition, [], [])
    else if !allows && inTransition then Run(Fail(ReentrantTransitionNotAllowed), current, false, [], [])
    else match Transit(def, current, event, obj, controller)
      case Refused(e) => Run(Fail(e), current, false, [], [])
      case Cancelled(calls) => Run(Pass, current, false, calls, [])
      case Moved(target, calls, redirect) =>
        if redirect.None? then
          Run(Pass, Some(target), false, calls, [event])
        else if fuel == 0 then
          Run(Fail(RedirectLimitReached), Some(target), false, calls, [event])
        else
          var next := Process(def, allows, Some(target), false, redirect.value.event, redirect.value.obj,
                              controller, fuel - 1);
          Run(next.outcome, next.current, false, calls + next.calls, [event] + next.fired)
  }

  class StateMachineImpl {
    const definition: StateMachineDefinitionImpl
    const strategy: ReentrantStrategy
    var currentState: Option<string>

    /** A new machine starts in the definition's start state (none if it has not been defined). */
    constructor (definition: StateMachineDefinitionImpl, strategy: ReentrantStrategy)
      ensures this.definition == definition && this.strategy == strategy
      ensures currentState == definition.GetStartState()
    {
      this.definition := definition;
      this.strategy := strategy;
      this.currentState := definition.GetStartState();
    }

    /** `processEvent(event, object, controller)` hands everything to the strategy. */
    method ProcessEvent(event: string, obj: Payload, controller: TransitionController, fuel: nat)
      returns (r: Outcome<Error>)
      modifies this, strategy
      ensures var run := old(Process(definition, strategy.allowsReentrantTransitions, currentState,
                                     strategy.inTransition, event, obj, controller, fuel));
              r == run.outcome && currentState == run.current && strategy.inTransition == run.inTransition
              && strategy.calls == old(strategy.calls) + run.calls
    {
      r := strategy.ProcessEvent(this, event, obj, controller, fuel);
    }

    function GetDefinition(): StateMachineDefinitionImpl { definition }

    function GetStrategy(): ReentrantStrategy { strategy }

    function GetCurrentState(): Option<string>
      reads this
    {
      currentState
    }

    method SetCurrentState(state: Option<string>)
      modifies this
      ensures currentState == state
    {
      currentState := state;
    }
  }

  class ReentrantStrategy {
    const allowsReentrantTransitions: bool
    /** Set while a transition runs (only when reentrancy is refused); cleared whenever the `try` block is left. */
    var inTransition: bool
    /** Every controller phase invoked through this strategy, oldest first. */
    ghost var calls: seq<PhaseCall>

    /** The public constructor refuses reentrant transitions. */
    constructor ()
      ensures !allowsReentrantTransitions && !inTransition && calls == []
    {
      allowsReentrantTransitions := false;
      inTransition := false;
      calls := [];
    }

    /** The protected constructor chooses. */
    constructor WithReentrancy(allowsReentrant: bool)
      ensures allowsReentrantTransitions == allowsReentrant && !inTransition && calls == []
    {
      allowsReentrantTransitions := allowsReentrant;
      inTransition := false;
      calls := [];
    }

    /**
     * `processEvent(statemachine, event, object, controller)`: an undeclared
     * event is refused before the `try` block; inside it, a nested call is
     * refused when reentrancy is not allowed, the transition runs, and a
     * redirect is processed with the same controller after the flag is
     * cleared. The `finally` clears the flag.
     */
    method ProcessEvent(machine: StateMachineImpl, event: string, obj: Payload, controller: TransitionController,
                        fuel: nat) returns (r: Outcome<Error>)
      modifies this, machine
      decreases fuel
      ensures var run := old(Process(machine.definition, allowsReentrantTransitions, machine.currentState,
                                     inTransition, event, obj, controller, fuel));
              r == run.outcome && machine.currentState == run.current && inTransition == run.inTransition
              && calls == old(calls) + run.calls
    {
      ghost var run := Process(machine.definition, allowsReentrantTransitions, machine.currentState,
                               inTransition, event, obj, controller, fuel);
      ghost var expected := Transit(machine.definition, machine.currentState, event, obj, controller);
      if !machine.GetDefinition().IsEvent(event) {
        return Fail(EventNotDefined);
      }
      if !allowsReentrantTransitions {
        if inTransition {
          inTransition := false;
          return Fail(ReentrantTransitionNotAllowed);
        }
        inTransition := true;
      }
      var step := RunPhases(machine, event, obj, controller);
      assert step == expected;
      inTransition := false;
      if step.Refused? {
        return Fail(step.error);
      }
      if step.Cancelled? || step.redirect.None? {
        return Pass;
      }
      if fuel == 0 {
        return Fail(RedirectLimitReached);
      }
      ghost var next := Process(machine.definition, allowsReentrantTransitions, Some(step.target), false,
                                step.redirect.value.event, step.redirect.value.obj, controller, fuel - 1);
      assert run == Run(next.outcome, next.current, false, step.calls + next.calls, [event] + next.fired);
      ghost var callsBefore := calls;
      r := ProcessEvent(machine, step.redirect.value.event, step.redirect.value.obj, controller, fuel - 1);
      inTransition := false;
      assert calls == callsBefore + next.calls;
      AppendAssociative(old(calls), step.calls, next.calls);
    }

    /**
     * The `try` block between the guard and the redirect: the target lookup,
     * the transition record, and the phases; the machine's state is set to
     * the target between the transition and enter phases.
     */
    method RunPhases(machine: StateMachineImpl, event: string, obj: Payload, controller: TransitionController)
      returns (step: Step)
      modifies this, machine
      ensures step == old(Transit(machine.definition, machine.currentState, event, obj, controller))
      ensures calls == old(calls) + (if step.Refused? then [] else step.calls)
      ensures machine.currentState == if step.Moved? then Some(step.target) else old(machine.currentState)
      ensures inTransition == old(inTransition)
    {
      var source := machine.GetCurrentState();
      var targetResult := machine.GetDefinition().GetTargetState(source, event);
      if targetResult.Failure? {
        return Refused(targetResult.error);
      }
      var target := targetResult.value;
      var view := TransitionView(source.value, event, target, obj);
      calls := calls + [PhaseCall(ExitPhase, view)];
      if !controller.exitStatePhase(view) {
        return Cancelled([PhaseCall(ExitPhase, view)]);
      }
      calls := calls + [PhaseCall(TransitionPhase, view)];
      machine.SetCurrentState(Some(target));
      calls := calls + [PhaseCall(EnterPhase, view)];
      var result := controller.enterStatePhase(view);
      step := Moved(target, [PhaseCall(ExitPhase, view), PhaseCall(TransitionPhase, view), PhaseCall(EnterPhase, view)],
                    result);
    }
  }

  /** The state reached by firing `events` one after another from `current`; `None` once one has no edge. */
  function Walk(def: StateMachineDefinitionImpl, current: Option<string>, events: seq<string>): (s: Option<string>)
    reads def
    ensures events == [] ==> s == current
    decreases |events|
  {
    if events == [] then current
    else match def.GetTargetState(current, events[0])
      case Failure(_) => None
      case Success(target) => Walk(def, Some(target), events[1..])
  }

  /** The machine only moves along declared edges: the final state is where the fired events lead. */
  lemma {:induction false} ProcessFollowsEdges(def: StateMachineDefinitionImpl, allows: bool, current: Option<string>,
                                               inTransition: bool, event: string, obj: Payload,
                                               controller: TransitionController, fuel: nat)
    ensures var run := Process(def, allows, current, inTransition, event, obj, controller, fuel);
            Walk(def, current, run.fired) == run.current
    decreases fuel
  {
    if event in def.events && (allows || !inTransition) && fuel > 0 {
      var step := Transit(def, current, event, obj, controller);
      if step.Moved? && step.redirect.Some? {
        ProcessFollowsEdges(def, allows, Some(step.target), false, step.redirect.value.event, step.redirect.value.obj,
                            controller, fuel - 1);
        var run := Process(def, allows, current, inTransition, event, obj, controller, fuel);
        assert run.fired[1..] == Process(def, allows, Some(step.target), false, step.redirect.value.event,
                                         step.redirect.value.obj, controller, fuel - 1).fired;
      }
    }
  }

  /** In a valid definition, a walk that fires at least one event ends in a declared state, if it ends at all. */
  lemma {:induction false} WalkStaysDeclared(def: StateMachineDefinitionImpl, current: Option<string>, events: seq<string>)
    requires def.Valid()
    requires events != [] && Walk(def, current, events).Some?
    ensures Walk(def, current, events).value in def.states
    decreases |events|
  {
    var target := def.GetTargetState(current, events[0]).value;
    if events[1..] != [] {
      WalkStaysDeclared(def, Some(target), events[1..]);
    }
  }

  /** Whatever the controller does, a machine over a valid definition never leaves the declared states. */
  lemma ProcessStaysDeclared(def: StateMachineDefinitionImpl, allows: bool, current: Option<string>,
                             inTransition: bool, event: string, obj: Payload, controller: TransitionController, fuel: nat)
    requires def.Valid()
    requires current.Some? ==> current.value in def.states
    ensures var run := Process(def, allows, current, inTransition, event, obj, controller, fuel);
            run.current.Some? ==> run.current.value in def.states
  {
    var run := Process(def, allows, current, inTransition, event, obj, controller, fuel);
    ProcessFollowsEdges(def, allows, current, inTransition, event, obj, controller, fuel);
    if run.fired != [] {
      WalkStaysDeclared(def, current, run.fired);
    }
  }

  /**
   * A log of phase calls made of whole transitions: each is an exit phase
   * followed by the transition and enter phases on the same record, except
   * that the last one may stop after its exit phase.
   */
  ghost predicate Grouped(calls: seq<PhaseCall>)
    decreases |calls|
  {
    || calls == []
    || calls == [PhaseCall(ExitPhase, calls[0].view)]
    || (|calls| >= 3 && calls[..3] == [PhaseCall(ExitPhase, calls[0].view), PhaseCall(TransitionPhase, calls[0].view),
                                       PhaseCall(EnterPhase, calls[0].view)]
        && Grouped(calls[3..]))
  }

  /**
   * Every transition either stops after the exit phase or runs all three
   * phases in order, each handed the same transition record, and a redirect
   * only starts once the enter phase has returned.
   */
  lemma {:induction false} PhasesInOrder(def: StateMachineDefinitionImpl, allows: bool, current: Option<string>,
                                         inTransition: bool, event: string, obj: Payload,
                                         controller: TransitionController, fuel: nat)
    ensures Grouped(Process(def, allows, current, inTransition, event, obj, controller, fuel).calls)
    decreases fuel
  {
    var run := Process(def, allows, current, inTransition, event, obj, controller, fuel);
    if event in def.events && (allows || !inTransition) {
      var step := Transit(def, current, event, obj, controller);
      if step.Moved? {
        var next := if step.redirect.Some? && fuel > 0 then
                      Process(def, allows, Some(step.target), false, step.redirect.value.event,
                              step.redirect.value.obj, controller, fuel - 1).calls
                    else [];
        if step.redirect.Some? && fuel > 0 {
          PhasesInOrder(def, allows, Some(step.target), false, step.redirect.value.event, step.redirect.value.obj,
                        controller, fuel - 1);
        }
        assert run.calls == step.calls + next;
        assert run.calls[..3] == step.calls && run.calls[3..] == next;
      }
    }
  }

  /**
   * The reentrancy guard only trips on the call that found the flag set: a
   * redirect clears the flag first, so it is never refused as reentrant.
   */
  lemma {:induction false} ReentrancyOnlyAtEntry(def: StateMachineDefinitionImpl, allows: bool, current: Option<string>,
                                                 inTransition: bool, event: string, obj: Payload,
                                                 controller: TransitionController, fuel: nat)
    ensures var run := Process(def, allows, current, inTransition, event, obj, controller, fuel);
            run.outcome == Fail(ReentrantTransitionNotAllowed) <==> (event in def.events && !allows && inTransition)
    decreases fuel
  {
    if event in def.events && (allows || !inTransition) && fuel > 0 {
      var step := Transit(def, current, event, obj, controller);
      if step.Moved? && step.redirect.Some? {
        ReentrancyOnlyAtEntry(def, allows, Some(step.target), false, step.redirect.value.event, step.redirect.value.obj,
                              controller, fuel - 1);
      }
    }
  }

  /**
   * An exit phase that answers `false` cancels the transition: the state is
   * kept, no other phase runs, and the call returns normally.
   */
  lemma ExitPhaseCancels(def: StateMachineDefinitionImpl, allows: bool, source: string, inTransition: bool,
                         event: string, obj: Payload, controller: TransitionController, fuel: nat, target: string)
    requires event in def.events && (allows || !inTransition)
    requires def.GetTargetState(Some(source), event) == Success(target)
    requires !controller.exitStatePhase(TransitionView(source, event, target, obj))
    ensures Process(def, allows, Some(source), inTransition, event, obj, controller, fuel)
            == Run(Pass, Some(source), false, [PhaseCall(ExitPhase, TransitionView(source, event, target, obj))], [])
  {
  }

  /**
   * When the exit phase lets the transition go on and the enter phase asks
   * for nothing, the call returns normally with the machine in the target.
   */
  lemma TransitionCompletes(def: StateMachineDefinitionImpl, allows: bool, source: string, inTransition: bool,
                            event: string, obj: Payload, controller: TransitionController, fuel: nat, target: string)
    requires event in def.events && (allows || !inTransition)
    requires def.GetTargetState(Some(source), event) == Success(target)
    requires controller.exitStatePhase(TransitionView(source, event, target, obj))
    requires controller.enterStatePhase(TransitionView(source, event, target, obj)).None?
    ensures var run := Process(def, allows, Some(source), inTransition, event, obj, controller, fuel);
            run.outcome == Pass && run.current == Some(target) && !run.inTransition && run.fired == [event]
  {
  }

  /**
   * A redirect asked for by the enter phase is processed, with the same
   * controller, as a fresh event from the target: the call ends as that
   * nested call ends.
   */
  lemma RedirectContinuesFromTarget(def: StateMachineDefinitionImpl, allows: bool, source: string, inTransition: bool,
                                    event: string, obj: Payload, controller: TransitionController, fuel: nat,
                                    target: string, redirect: PhaseEnterResult)
    requires event in def.events && (allows || !inTransition) && fuel > 0
    requires def.GetTargetState(Some(source), event) == Success(target)
    requires controller.exitStatePhase(TransitionView(source, event, target, obj))
    requires controller.enterStatePhase(TransitionView(source, event, target, obj)) == Some(redirect)
    ensures var run := Process(def, allows, Some(source), inTransition, event, obj, controller, fuel);
            var next := Process(def, allows, Some(target), false, redirect.event, redirect.obj, controller, fuel - 1);
            run.outcome == next.outcome && run.current == next.current && !run.inTransition
            && run.fired == [event] + next.fired
  {
  }

  /**
   * A failed lookup (unknown or null current state, or no edge) is reported as
   * the call's error and leaves the machine where it was, with no phase run.
   */
  lemma LookupFailureRefuses(def: StateMachineDefinitionImpl, allows: bool, current: Option<string>,
                             inTransition: bool, event: string, obj: Payload, controller: TransitionController, fuel: nat)
    requires event in def.events && (allows || !inTransition)
    requires def.GetTargetState(current, event).Failure?
    ensures Process(def, allows, current, inTransition, event, obj, controller, fuel)
            == Run(Fail(def.GetTargetState(current, event).error), current, false, [], [])
  {
  }
}
