/**
 * The execution side of the newer engine: `StateMachineImpl` (the current
 * state, delegating every event to its strategy) and `strategy.ReentrantStrategy`
 * (the three phases of one transition, the reentrancy guard and redirects
 * requested by enter controllers). The two classes refer to each other, so they
 * share this module.
 *
 * `Process` is the specification of one `processEvent` call, redirects
 * included; `ReentrantStrategy.ProcessEvent` is proved to follow it, and the
 * lemmas below state what `Process` guarantees.
 */
module ShishaEngine {
  import opened Wrappers
  import opened Payloads
  import opened ShishaTransitionInfo
  import opened ShishaDefinition

  /** The three controller phases of a transition, in the order they run. */
  datatype Phase = ExitPhase | TransitionPhase | EnterPhase

  /** One controller invocation: which phase, and the `TransitionInfo` it was handed. */
  datatype PhaseCall = PhaseCall(phase: Phase, view: PhaseView)

  /**
   * A controller call as the model records it is legitimate when it is for a
   * declared edge and made by the controller registered for that phase; an exit
   * controller always gets an empty context, since each transition starts from
   * a fresh `TransitionInfo`.
   */
  ghost predicate RegisteredCall(def: StateMachineDefinitionImpl, c: PhaseCall)
    reads def
  {
    && def.GetTargetState(Some(c.view.source), c.view.event) == Success(c.view.target)
    && match c.phase
       case ExitPhase => def.states[c.view.source].exitStateController.Some? && c.view.context == map[]
       case TransitionPhase => def.states[c.view.source].transitions[c.view.event].controller.Some?
       case EnterPhase => c.view.target in def.states && def.states[c.view.target].enterStateController.Some?
  }

  /**
   * One transition, once the event and the reentrancy guard have let it through:
   * it is refused by a failing lookup, cancelled by the exit controller, or it
   * moves the machine to `target`, possibly asking for a redirect.
   */
  datatype Step =
    | Refused(error: Error)
    | Cancelled(calls: seq<PhaseCall>)
    | Moved(target: string, calls: seq<PhaseCall>, redirect: Option<EventInfo>)

  /**
   * The phases of one transition from `current` on `event`: look up the target
   * and the three controllers, then run exit, transition and enter on one
   * shared context.
   */
  function Transit(def: StateMachineDefinitionImpl, current: Option<string>, event: string, obj: Payload): (step: Step)
    reads def
    ensures def.GetTargetState(current, event).Failure? ==>
              step == Refused(def.GetTargetState(current, event).error)
    ensures !step.Refused? ==> def.GetTargetState(current, event).Success?
    ensures step.Moved? ==> def.GetTargetState(current, event) == Success(step.target)
    ensures step.Cancelled? ==> |step.calls| == 1 && step.calls[0].phase == ExitPhase
  {
    match def.GetTargetState(current, event)
    case Failure(e) => Refused(e)
    case Success(target) =>
      match def.GetEnterStateController(target)
      case Failure(e) => Refused(e)
      case Success(enter) =>
        var source := current.value;
        var exit := def.GetExitStateController(source).value;
        var transition := def.GetTransitionController(source, event).value;
        var view0 := PhaseView(source, event, target, obj, map[]);
        if exit.Some? && !exit.value(view0).proceed then
          Cancelled([PhaseCall(ExitPhase, view0)])
        else
          var exitCalls := if exit.Some? then [PhaseCall(ExitPhase, view0)] else [];
          var view1 := AfterExit(view0, exit);
          var transitionCalls := if transition.Some? then [PhaseCall(TransitionPhase, view1)] else [];
          var view2 := AfterTransition(view1, transition);
          var enterCalls := if enter.Some? then [PhaseCall(EnterPhase, view2)] else [];
          var redirect := if enter.Some? then enter.value(view2).redirect else None;
          Moved(target, exitCalls + transitionCalls + enterCalls, redirect)
  }

  /** The `TransitionInfo` once the exit controller, if there is one, has written to its context. */
  function AfterExit(view: PhaseView, exit: Option<ExitStateController>): PhaseView
  {
    if exit.Some? then view.(context := exit.value(view).context) else view
  }

  /** The `TransitionInfo` once the transition controller, if there is one, has written to its context. */
  function AfterTransition(view: PhaseView, transition: Option<TransitionController>): PhaseView
  {
    if transition.Some? then view.(context := transition.value(view)) else view
  }

  /**
   * The `TransitionInfo` the enter controller of `source -event-> target` is
   * handed: a fresh context, written by the exit and then the transition
   * controller.
   */
  function EnterView(source: string, event: string, target: string, obj: Payload,
                     exit: Option<ExitStateController>, transition: Option<TransitionController>): PhaseView
  {
    AfterTransition(AfterExit(PhaseView(source, event, target, obj, map[]), exit), transition)
  }

  /** The order in which the phases of one transition run. */
  function Rank(phase: Phase): nat
  {
    match phase
    case ExitPhase => 0
    case TransitionPhase => 1
    case EnterPhase => 2
  }

  /** The context a recorded controller call leaves behind, by the controller registered for it. */
  ghost function Leaves(def: StateMachineDefinitionImpl, c: PhaseCall): Context
    reads def
  {
    var v := c.view;
    match c.phase
    case ExitPhase =>
      if v.source in def.states && def.states[v.source].exitStateController.Some?
      then def.states[v.source].exitStateController.value(v).context else v.context
    case TransitionPhase =>
      if v.source in def.states && v.event in def.states[v.source].transitions
         && def.states[v.source].transitions[v.event].controller.Some?
      then def.states[v.source].transitions[v.event].controller.value(v) else v.context
    case EnterPhase =>
      if v.target in def.states && def.states[v.target].enterStateController.Some?
      then def.states[v.target].enterStateController.value(v).context else v.context
  }

  /**
   * The controller calls of one transition: phases in strictly increasing
   * order (so each at most once), all handed the same transition, the first
   * on an empty context and each later one on the context the previous call
   * left.
   */
  ghost predicate Block(def: StateMachineDefinitionImpl, calls: seq<PhaseCall>)
    reads def
  {
    && (forall i, j :: 0 <= i < j < |calls| ==> Rank(calls[i].phase) < Rank(calls[j].phase))
    && (forall i :: 0 <= i < |calls| ==> calls[i].view.(context := map[]) == calls[0].view.(context := map[]))
    && (|calls| > 0 ==> calls[0].view.context == map[])
    && (forall i :: 0 < i < |calls| ==> calls[i].view.context == Leaves(def, calls[i - 1]))
  }

  /**
   * One transition that is not refused runs its controllers as one block:
   * exit, transition and enter in that order, each at most once, on one
   * threaded context that starts empty.
   */
  lemma TransitIsBlock(def: StateMachineDefinitionImpl, current: Option<string>, event: string, obj: Payload)
    requires !Transit(def, current, event, obj).Refused?
    ensures Block(def, Transit(def, current, event, obj).calls)
  {
    var step := Transit(def, current, event, obj);
    var source, target := current.value, def.GetTargetState(current, event).value;
    var exit := def.states[source].exitStateController;
    var transition := def.states[source].transitions[event].controller;
    var view0 := PhaseView(source, event, target, obj, map[]);
    var view1 := AfterExit(view0, exit);
    if step.Moved? {
      assert exit.Some? ==> Leaves(def, PhaseCall(ExitPhase, view0)) == view1.context;
      assert transition.Some? ==>
        Leaves(def, PhaseCall(TransitionPhase, view1)) == AfterTransition(view1, transition).context;
      BlockOfPhases(def, view0, exit, transition, def.states[target].enterStateController);
    }
  }

  /** The calls exit, transition, enter on a threaded context form one block. */
  lemma BlockOfPhases(def: StateMachineDefinitionImpl, view0: PhaseView, exit: Option<ExitStateController>,
                      transition: Option<TransitionController>, enter: Option<EnterStateController>)
    requires view0.context == map[]
    requires exit.Some? ==> Leaves(def, PhaseCall(ExitPhase, view0)) == AfterExit(view0, exit).context
    requires transition.Some? ==>
               Leaves(def, PhaseCall(TransitionPhase, AfterExit(view0, exit)))
               == AfterTransition(AfterExit(view0, exit), transition).context
    ensures var view1 := AfterExit(view0, exit);
            var view2 := AfterTransition(view1, transition);
            Block(def, (if exit.Some? then [PhaseCall(ExitPhase, view0)] else [])
                       + (if transition.Some? then [PhaseCall(TransitionPhase, view1)] else [])
                       + (if enter.Some? then [PhaseCall(EnterPhase, view2)] else []))
  {
    var view1 := AfterExit(view0, exit);
    var view2 := AfterTransition(view1, transition);
    var exitCalls := if exit.Some? then [PhaseCall(ExitPhase, view0)] else [];
    var transitionCalls := if transition.Some? then [PhaseCall(TransitionPhase, view1)] else [];
    var enterCalls := if enter.Some? then [PhaseCall(EnterPhase, view2)] else [];
    assert Block(def, exitCalls);
    if transition.Some? {
      BlockSnoc(def, exitCalls, PhaseCall(TransitionPhase, view1));
    } else {
      assert exitCalls + transitionCalls == exitCalls;
    }
    if enter.Some? {
      BlockSnoc(def, exitCalls + transitionCalls, PhaseCall(EnterPhase, view2));
    } else {
      assert exitCalls + transitionCalls + enterCalls == exitCalls + transitionCalls;
    }
  }

  /** A call that follows the last call of a block, on the context that call left, extends the block. */
  lemma BlockSnoc(def: StateMachineDefinitionImpl, block: seq<PhaseCall>, c: PhaseCall)
    requires Block(def, block)
    requires block == [] ==> c.view.context == map[]
    requires block != [] ==>
               && Rank(block[|block| - 1].phase) < Rank(c.phase)
               && c.view.(context := map[]) == block[0].view.(context := map[])
               && c.view.context == Leaves(def, block[|block| - 1])
    ensures Block(def, block + [c])
  {
    var calls := block + [c];
    assert forall i :: 0 <= i < |block| ==> calls[i] == block[i];
    assert calls[|block|] == c;
  }

  /**
   * The calls of one transition are all handed that transition; when it is
   * not cancelled, every controller registered for the edge runs, and no
   * other (exactly once each, by `TransitIsBlock`).
   */
  lemma TransitRunsRegistered(def: StateMachineDefinitionImpl, current: Option<string>, event: string, obj: Payload)
    requires !Transit(def, current, event, obj).Refused?
    ensures var step := Transit(def, current, event, obj);
            forall i :: 0 <= i < |step.calls| ==>
              step.calls[i].view.(context := map[])
              == PhaseView(current.value, event, def.GetTargetState(current, event).value, obj, map[])
    ensures var step := Transit(def, current, event, obj);
            var source, target := current.value, def.GetTargetState(current, event).value;
            step.Moved? ==>
              && (def.states[source].exitStateController.Some? <==>
                    exists i :: 0 <= i < |step.calls| && step.calls[i].phase == ExitPhase)
              && (def.states[source].transitions[event].controller.Some? <==>
                    exists i :: 0 <= i < |step.calls| && step.calls[i].phase == TransitionPhase)
              && (def.states[target].enterStateController.Some? <==>
                    exists i :: 0 <= i < |step.calls| && step.calls[i].phase == EnterPhase)
  {
    var step := Transit(def, current, event, obj);
    var source, target := current.value, def.GetTargetState(current, event).value;
    var exit := def.states[source].exitStateController;
    var transition := def.states[source].transitions[event].controller;
    var enter := def.states[target].enterStateController;
    var view0 := PhaseView(source, event, target, obj, map[]);
    var view1 := AfterExit(view0, exit);
    var view2 := AfterTransition(view1, transition);
    if step.Moved? {
      var exitCalls := if exit.Some? then [PhaseCall(ExitPhase, view0)] else [];
      var transitionCalls := if transition.Some? then [PhaseCall(TransitionPhase, view1)] else [];
      var enterCalls := if enter.Some? then [PhaseCall(EnterPhase, view2)] else [];
      assert step.calls == exitCalls + transitionCalls + enterCalls;
      assert exit.Some? ==> step.calls[0] == PhaseCall(ExitPhase, view0);
      assert transition.Some? ==> step.calls[|exitCalls|] == PhaseCall(TransitionPhase, view1);
      assert enter.Some? ==> step.calls[|exitCalls| + |transitionCalls|] == PhaseCall(EnterPhase, view2);
    }
  }

  /**
   * A log of controller calls made of whole transitions, one block after
   * another (a transition without any controller leaves no block).
   */
  ghost predicate Grouped(def: StateMachineDefinitionImpl, calls: seq<PhaseCall>)
    reads def
    decreases |calls|
  {
    || calls == []
    || exists k :: 0 < k <= |calls| && Block(def, calls[..k]) && Grouped(def, calls[k..])
  }

  /** Each controller call of one transition is made by the controller registered for its phase and edge. */
  lemma TransitCallsAreRegistered(def: StateMachineDefinitionImpl, current: Option<string>, event: string, obj: Payload)
    ensures var step := Transit(def, current, event, obj);
            !step.Refused? ==> forall c :: c in step.calls ==> RegisteredCall(def, c)
  {
  }

  /**
   * The effect of one `processEvent` call: how it ended (`Pass` for a normal
   * return, including a cancellation by the exit controller), the current
   * state and the reentrancy flag afterwards, the controllers invoked, and the
   * events whose transitions completed (the state changed), in order.
   */
  datatype Run = Run(outcome: Outcome<Error>, current: Option<string>, inTransition: bool,
                     calls: seq<PhaseCall>, fired: seq<string>)

  /**
   * What `processEvent(event, obj)` does to a machine in state `current` whose
   * strategy's flag is `inTransition`. A redirect returned by the enter
   * controller is processed as a fresh event after the state changed; `fuel`
   * bounds how many redirects are followed.
   */
  function Process(def: StateMachineDefinitionImpl, allows: bool, current: Option<string>, inTransition: bool,
                   event: string, obj: Payload, fuel: nat): (run: Run)
    reads def
    decreases fuel
    ensures run.inTransition == (inTransition && event !in def.events)
    ensures event !in def.events ==> run == Run(Fail(EventNotDefined), current, inTransition, [], [])
    ensures event in def.events && !allows && inTransition ==>
              run == Run(Fail(ReentrantTransitionNotAllowed), current, false, [], [])
    ensures run.fired == [] ==> run.current == current
    ensures run.fired != [] ==> run.fired[0] == event && def.GetTargetState(current, event).Success? && run.current.Some?
  {
    if event !in def.events then Run(Fail(EventNotDefined), current, inTransition, [], [])
    else if !allows && inTransition then Run(Fail(ReentrantTransitionNotAllowed), current, false, [], [])
    else match Transit(def, current, event, obj)
      case Refused(e) => Run(Fail(e), current, false, [], [])
      case Cancelled(calls) => Run(Pass, current, false, calls, [])
      case Moved(target, calls, redirect) =>
        if redirect.None? then
          Run(Pass, Some(target), false, calls, [event])
        else if fuel == 0 then
          Run(Fail(RedirectLimitReached), Some(target), false, calls, [event])
        else
          var next := Process(def, allows, Some(target), false, redirect.value.event, redirect.value.obj, fuel - 1);
          Run(next.outcome, next.current, false, calls + next.calls, [event] + next.fired)
  }

  class StateMachineImpl {
    const definition: StateMachineDefinitionImpl
    const strategy: ReentrantStrategy
    var currentState: Option<string>

    /** A new machine starts in the definition's start state (none if it has not been defined). */
    constructor (definition: StateMachineDefinitionImpl, strategy: ReentrantStrategy)
      ensures this.definition == definition && this.strategy == strategy
      ensures currentState == definition.GetStartState()
    {
      this.definition := definition;
      this.strategy := strategy;
      this.currentState := definition.GetStartState();
    }

    /** `processEvent` hands the event to the strategy, which moves this machine. */
    method ProcessEvent(event: string, obj: Payload, fuel: nat) returns (r: Outcome<Error>)
      modifies this, strategy
      ensures var run := old(Process(definition, strategy.allowsReentrantTransitions, currentState,
                                     strategy.inTransition, event, obj, fuel));
              r == run.outcome && currentState == run.current && strategy.inTransition == run.inTransition
              && strategy.calls == old(strategy.calls) + run.calls
    {
      r := strategy.ProcessEvent(this, event, obj, fuel);
    }

    function GetDefinition(): StateMachineDefinitionImpl { definition }

    function GetStrategy(): ReentrantStrategy { strategy }

    function GetCurrentState(): Option<string>
      reads this
    {
      currentState
    }

    method SetCurrentState(state: Option<string>)
      modifies this
      ensures currentState == state
    {
      currentState := state;
    }
  }

  class ReentrantStrategy {
    const allowsReentrantTransitions: bool
    /** Set while a transition runs (only when reentrancy is refused); cleared whenever `processEvent` returns. */
    var inTransition: bool
    /** Every controller invocation made through this strategy, oldest first. */
    ghost var calls: seq<PhaseCall>

    /** The public constructor refuses reentrant transitions. */
    constructor ()
      ensures !allowsReentrantTransitions && !inTransition && calls == []
    {
      allowsReentrantTransitions := false;
      inTransition := false;
      calls := [];
    }

    constructor WithReentrancy(allowsReentrant: bool)
      ensures allowsReentrantTransitions == allowsReentrant && !inTransition && calls == []
    {
      allowsReentrantTransitions := allowsReentrant;
      inTransition := false;
      calls := [];
    }

    /**
     * `processEvent(statemachine, event, object)`: an undeclared event is refused
     * before anything else; a nested call while a transition runs is refused when
     * reentrancy is not allowed; otherwise one transition runs, and a redirect is
     * processed as a new event with the flag cleared. The flag is cleared however
     * the call ends.
     */
    method ProcessEvent(machine: StateMachineImpl, event: string, obj: Payload, fuel: nat) returns (r: Outcome<Error>)
      modifies this, machine
      decreases fuel
      ensures var run := old(Process(machine.definition, allowsReentrantTransitions, machine.currentState,
                                     inTransition, event, obj, fuel));
              r == run.outcome && machine.currentState == run.current && inTransition == run.inTransition
              && calls == old(calls) + run.calls
    {
      ghost var run := Process(machine.definition, allowsReentrantTransitions, machine.currentState,
                               inTransition, event, obj, fuel);
      ghost var current := machine.currentState;
      ghost var expected := Transit(machine.definition, current, event, obj);
      if !machine.GetDefinition().IsEvent(event) {
        return Fail(EventNotDefined);
      }
      if !allowsReentrantTransitions {
        if inTransition {
          inTransition := false;
          return Fail(ReentrantTransitionNotAllowed);
        }
        inTransition := true;
      }
      var step := RunPhases(machine, event, obj);
      assert step == expected;
      inTransition := false;
      if step.Refused? {
        return Fail(step.error);
      }
      if step.Cancelled? || step.redirect.None? {
        return Pass;
      }
      if fuel == 0 {
        return Fail(RedirectLimitReached);
      }
      ghost var next := Process(machine.definition, allowsReentrantTransitions, Some(step.target), false,
                                step.redirect.value.event, step.redirect.value.obj, fuel - 1);
      assert run == Run(next.outcome, next.current, false, step.calls + next.calls, [event] + next.fired);
      ghost var callsBefore := calls;
      r := ProcessEvent(machine, step.redirect.value.event, step.redirect.value.obj, fuel - 1);
      inTransition := false;
      assert calls == callsBefore + next.calls;
      AppendAssociative(old(calls), step.calls, next.calls);
    }

    /**
     * The body of the `try` block between the guard and the redirect: the
     * lookups, a fresh `TransitionInfo`, and the three phases; the machine's
     * state is set to the target after the transition phase.
     */
    method RunPhases(machine: StateMachineImpl, event: string, obj: Payload) returns (step: Step)
      modifies this, machine
      ensures step == old(Transit(machine.definition, machine.currentState, event, obj))
      ensures calls == old(calls) + (if step.Refused? then [] else step.calls)
      ensures machine.currentState == if step.Moved? then Some(step.target) else old(machine.currentState)
      ensures inTransition == old(inTransition)
    {
      var definition := machine.GetDefinition();
      var source := machine.GetCurrentState();
      var targetResult := definition.GetTargetState(source, event);
      if targetResult.Failure? {
        return Refused(targetResult.error);
      }
      var target := targetResult.value;
      var info := new TransitionInfo(source.value, event, target, obj);
      var exitController := definition.GetExitStateController(source.value).value;
      var enterResult := definition.GetEnterStateController(target);
      if enterResult.Failure? {
        return Refused(enterResult.error);
      }
      var enterController := enterResult.value;
      var transitionController := definition.GetTransitionController(source.value, event).value;
      var stepCalls: seq<PhaseCall> := [];

      if exitController.Some? {
        var view := info.View();
        stepCalls := stepCalls + [PhaseCall(ExitPhase, view)];
        var verdict := exitController.value(view);
        info.transitionContext := verdict.context;
        if !verdict.proceed {
          calls := calls + stepCalls;
          return Cancelled(stepCalls);
        }
      }
      if transitionController.Some? {
        var view := info.View();
        stepCalls := stepCalls + [PhaseCall(TransitionPhase, view)];
        info.transitionContext := transitionController.value(view);
      }
      machine.SetCurrentState(Some(target));
      var redirect: Option<EventInfo> := None;
      if enterController.Some? {
        var view := info.View();
        stepCalls := stepCalls + [PhaseCall(EnterPhase, view)];
        var verdict := enterController.value(view);
        info.transitionContext := verdict.context;
        redirect := verdict.redirect;
      }
      calls := calls + stepCalls;
      step := Moved(target, stepCalls, redirect);
    }
  }

  /** The state reached by firing `events` one after another from `current`; `None` once one has no edge. */
  function Walk(def: StateMachineDefinitionImpl, current: Option<string>, events: seq<string>): (s: Option<string>)
    reads def
    ensures events == [] ==> s == current
    decreases |events|
  {
    if events == [] then current
    else match def.GetTargetState(current, events[0])
      case Failure(_) => None
      case Success(target) => Walk(def, Some(target), events[1..])
  }

  /** The machine only moves along declared edges: the final state is where the fired events lead. */
  lemma {:induction false} ProcessFollowsEdges(def: StateMachineDefinitionImpl, allows: bool, current: Option<string>,
                                               inTransition: bool, event: string, obj: Payload, fuel: nat)
    ensures var run := Process(def, allows, current, inTransition, event, obj, fuel);
            Walk(def, current, run.fired) == run.current
    decreases fuel
  {
    if event in def.events && (allows || !inTransition) && fuel > 0 {
      var step := Transit(def, current, event, obj);
      if step.Moved? && step.redirect.Some? {
        ProcessFollowsEdges(def, allows, Some(step.target), false, step.redirect.value.event, step.redirect.value.obj, fuel - 1);
        var run := Process(def, allows, current, inTransition, event, obj, fuel);
        assert run.fired[1..] == Process(def, allows, Some(step.target), false, step.redirect.value.event, step.redirect.value.obj, fuel - 1).fired;
      }
    }
  }

  /** In a valid definition, a walk that fires at least one event ends in a declared state, if it ends at all. */
  lemma {:induction false} WalkStaysDeclared(def: StateMachineDefinitionImpl, current: Option<string>, events: seq<string>)
    requires def.Valid()
    requires events != [] && Walk(def, current, events).Some?
    ensures Walk(def, current, events).value in def.states
    decreases |events|
  {
    var target := def.GetTargetState(current, events[0]).value;
    if events[1..] != [] {
      WalkStaysDeclared(def, Some(target), events[1..]);
    }
  }

  /** Whatever the controllers do, a machine over a valid definition never leaves the declared states. */
  lemma ProcessStaysDeclared(def: StateMachineDefinitionImpl, allows: bool, current: Option<string>,
                             inTransition: bool, event: string, obj: Payload, fuel: nat)
    requires def.Valid()
    requires current.Some? ==> current.value in def.states
    ensures var run := Process(def, allows, current, inTransition, event, obj, fuel);
            run.current.Some? ==> run.current.value in def.states
  {
    var run := Process(def, allows, current, inTransition, event, obj, fuel);
    ProcessFollowsEdges(def, allows, current, inTransition, event, obj, fuel);
    if run.fired != [] {
      WalkStaysDeclared(def, current, run.fired);
    }
  }

  /** A final state is absorbing: once the machine is in one, no event or redirect takes it elsewhere. */
  lemma {:induction false} FinalStateIsAbsorbing(def: StateMachineDefinitionImpl, allows: bool, current: Option<string>,
                                                 inTransition: bool, event: string, obj: Payload, fuel: nat)
    requires def.Valid()
    requires current.Some? && def.IsFinalState(current.value)
    ensures Process(def, allows, current, inTransition, event, obj, fuel).current == current
    decreases fuel
  {
    if event in def.events && (allows || !inTransition) && fuel > 0 {
      var step := Transit(def, current, event, obj);
      if step.Moved? && step.redirect.Some? {
        FinalStateIsAbsorbing(def, allows, Some(step.target), false, step.redirect.value.event, step.redirect.value.obj, fuel - 1);
      }
    }
  }

  /** Controllers are only ever invoked for declared transitions, and only those registered for the phase. */
  lemma {:induction false} CallsAreRegistered(def: StateMachineDefinitionImpl, allows: bool, current: Option<string>,
                                              inTransition: bool, event: string, obj: Payload, fuel: nat)
    ensures var run := Process(def, allows, current, inTransition, event, obj, fuel);
            forall c :: c in run.calls ==> RegisteredCall(def, c)
    decreases fuel
  {
    var run := Process(def, allows, current, inTransition, event, obj, fuel);
    if event !in def.events || (!allows && inTransition) {
      assert run.calls == [];
    } else {
      var step := Transit(def, current, event, obj);
      TransitCallsAreRegistered(def, current, event, obj);
      if step.Refused? {
        assert run.calls == [];
      } else if step.Cancelled? || step.redirect.None? || fuel == 0 {
        assert run.calls == step.calls;
      } else {
        var next := Process(def, allows, Some(step.target), false, step.redirect.value.event, step.redirect.value.obj, fuel - 1);
        CallsAreRegistered(def, allows, Some(step.target), false, step.redirect.value.event, step.redirect.value.obj, fuel - 1);
        assert run.calls == step.calls + next.calls;
      }
    }
  }

  /**
   * The controller calls of a `processEvent` call, redirects included, are
   * whole transitions one after another: within each, exit, transition and
   * enter in that order on one threaded context, and a redirect's calls only
   * after the enter controller that asked for it.
   */
  lemma {:induction false} PhasesInOrder(def: StateMachineDefinitionImpl, allows: bool, current: Option<string>,
                                         inTransition: bool, event: string, obj: Payload, fuel: nat)
    ensures Grouped(def, Process(def, allows, current, inTransition, event, obj, fuel).calls)
    decreases fuel
  {
    var step := Transit(def, current, event, obj);
    var next := ProcessCallsSplit(def, allows, current, inTransition, event, obj, fuel);
    if next.Some? {
      TransitIsBlock(def, current, event, obj);
      if step.Moved? && step.redirect.Some? && fuel > 0 {
        PhasesInOrder(def, allows, Some(step.target), false, step.redirect.value.event, step.redirect.value.obj,
                      fuel - 1);
      }
      GroupedPrepend(def, step.calls, next.value);
    }
  }

  /**
   * The calls of a `processEvent` call: none when it is refused, otherwise
   * the calls of its own transition followed by those of the redirect, if
   * one is processed.
   */
  lemma ProcessCallsSplit(def: StateMachineDefinitionImpl, allows: bool, current: Option<string>,
                          inTransition: bool, event: string, obj: Payload, fuel: nat)
    returns (next: Option<seq<PhaseCall>>)
    ensures var run := Process(def, allows, current, inTransition, event, obj, fuel);
            var step := Transit(def, current, event, obj);
            && (next.None? ==> run.calls == [])
            && (next.Some? ==> !step.Refused? && run.calls == step.calls + next.value)
            && (next.Some? && step.Moved? && step.redirect.Some? && fuel > 0 ==>
                  next.value == Process(def, allows, Some(step.target), false, step.redirect.value.event,
                                        step.redirect.value.obj, fuel - 1).calls)
            && (next.Some? && !(step.Moved? && step.redirect.Some? && fuel > 0) ==> next.value == [])
  {
    var step := Transit(def, current, event, obj);
    if event !in def.events || (!allows && inTransition) || step.Refused? {
      next := None;
    } else if step.Moved? && step.redirect.Some? && fuel > 0 {
      next := Some(Process(def, allows, Some(step.target), false, step.redirect.value.event,
                           step.redirect.value.obj, fuel - 1).calls);
    } else {
      next := Some([]);
      assert step.calls + [] == step.calls;
    }
  }

  /** A block of calls followed by a grouped log is a grouped log. */
  lemma GroupedPrepend(def: StateMachineDefinitionImpl, block: seq<PhaseCall>, rest: seq<PhaseCall>)
    requires Block(def, block) && Grouped(def, rest)
    ensures Grouped(def, block + rest)
  {
    if block != [] {
      var calls := block + rest;
      assert calls[..|block|] == block && calls[|block|..] == rest;
      assert Block(def, calls[..|block|]) && Grouped(def, calls[|block|..]);
    } else {
      assert block + rest == rest;
    }
  }

  /**
   * The reentrancy guard only trips on the call that found the flag set: a
   * redirect clears the flag first, so it is never refused as reentrant.
   */
  lemma {:induction false} ReentrancyOnlyAtEntry(def: StateMachineDefinitionImpl, allows: bool, current: Option<string>,
                                                 inTransition: bool, event: string, obj: Payload, fuel: nat)
    ensures var run := Process(def, allows, current, inTransition, event, obj, fuel);
            run.outcome == Fail(ReentrantTransitionNotAllowed) <==> (event in def.events && !allows && inTransition)
    decreases fuel
  {
    if event in def.events && (allows || !inTransition) && fuel > 0 {
      var step := Transit(def, current, event, obj);
      if step.Moved? && step.redirect.Some? {
        ReentrancyOnlyAtEntry(def, allows, Some(step.target), false, step.redirect.value.event, step.redirect.value.obj, fuel - 1);
      }
    }
  }

  /**
   * An exit controller that answers `false` cancels the transition: the state
   * is kept, nothing else runs, and the call still returns normally.
   */
  lemma ExitControllerCancels(def: StateMachineDefinitionImpl, allows: bool, source: string, inTransition: bool,
                              event: string, obj: Payload, fuel: nat, exit: ExitStateController)
    requires event in def.events && (allows || !inTransition)
    requires def.GetTargetState(Some(source), event).Success?
    requires def.GetEnterStateController(def.GetTargetState(Some(source), event).value).Success?
    requires def.GetExitStateController(source) == Success(Some(exit))
    requires !exit(PhaseView(source, event, def.GetTargetState(Some(source), event).value, obj, map[])).proceed
    ensures var run := Process(def, allows, Some(source), inTransition, event, obj, fuel);
            run.outcome == Pass && run.current == Some(source) && !run.inTransition && |run.calls| == 1
            && run.calls[0].phase == ExitPhase && run.fired == []
  {
  }

  /**
   * The phases share one context: the transition controller sees what the exit
   * controller left in it, and the enter controller sees what the transition
   * controller left.
   */
  lemma ContextIsShared(def: StateMachineDefinitionImpl, allows: bool, source: string, inTransition: bool,
                        event: string, obj: Payload, fuel: nat,
                        exit: ExitStateController, transition: TransitionController, enter: EnterStateController)
    requires event in def.events && (allows || !inTransition)
    requires def.GetTargetState(Some(source), event).Success?
    requires def.GetExitStateController(source) == Success(Some(exit))
    requires def.GetTransitionController(source, event) == Success(Some(transition))
    requires def.GetEnterStateController(def.GetTargetState(Some(source), event).value) == Success(Some(enter))
    requires exit(PhaseView(source, event, def.GetTargetState(Some(source), event).value, obj, map[])).proceed
    ensures var run := Process(def, allows, Some(source), inTransition, event, obj, fuel);
            var view0 := PhaseView(source, event, def.GetTargetState(Some(source), event).value, obj, map[]);
            var view1 := view0.(context := exit(view0).context);
            |run.calls| >= 3
            && run.calls[0] == PhaseCall(ExitPhase, view0)
            && run.calls[1] == PhaseCall(TransitionPhase, view1)
            && run.calls[2] == PhaseCall(EnterPhase, view0.(context := transition(view1)))
  {
  }

  /**
   * A failed lookup (no state, no edge, or an undeclared target) is reported
   * as the call's error and leaves the machine where it was, with no
   * controller invoked.
   */
  lemma LookupFailureRefuses(def: StateMachineDefinitionImpl, allows: bool, current: Option<string>,
                             inTransition: bool, event: string, obj: Payload, fuel: nat)
    requires event in def.events && (allows || !inTransition)
    requires def.GetTargetState(current, event).Failure?
    ensures Process(def, allows, current, inTransition, event, obj, fuel)
            == Run(Fail(def.GetTargetState(current, event).error), current, false, [], [])
  {
  }

  /**
   * When the exit controller (if any) lets the transition go on and the enter
   * controller (if any) does not redirect on the view it is handed, the call returns normally with the
   * machine in the target state and exactly this event fired.
   */
  lemma TransitionCompletes(def: StateMachineDefinitionImpl, allows: bool, source: string, inTransition: bool,
                            event: string, obj: Payload, fuel: nat, target: string,
                            exit: Option<ExitStateController>, transition: Option<TransitionController>,
                            enter: Option<EnterStateController>)
    requires event in def.events && (allows || !inTransition)
    requires def.GetTargetState(Some(source), event) == Success(target)
    requires def.GetExitStateController(source) == Success(exit)
    requires def.GetTransitionController(source, event) == Success(transition)
    requires def.GetEnterStateController(target) == Success(enter)
    requires exit.Some? ==> exit.value(PhaseView(source, event, target, obj, map[])).proceed
    requires enter.Some? ==> enter.value(EnterView(source, event, target, obj, exit, transition)).redirect.None?
    ensures var run := Process(def, allows, Some(source), inTransition, event, obj, fuel);
            run.outcome == Pass && run.current == Some(target) && !run.inTransition && run.fired == [event]
  {
  }

  /**
   * A redirect returned by the enter controller, on the view it is handed, is processed as a fresh event
   * from the target state: the call ends as that nested call ends, and the
   * events fired are this one followed by the nested call's.
   */
  lemma RedirectContinuesFromTarget(def: StateMachineDefinitionImpl, allows: bool, source: string, inTransition: bool,
                                    event: string, obj: Payload, fuel: nat, target: string,
                                    exit: Option<ExitStateController>, transition: Option<TransitionController>,
                                    enter: EnterStateController, redirect: EventInfo)
    requires event in def.events && (allows || !inTransition) && fuel > 0
    requires def.GetTargetState(Some(source), event) == Success(target)
    requires def.GetExitStateController(source) == Success(exit)
    requires def.GetTransitionController(source, event) == Success(transition)
    requires def.GetEnterStateController(target) == Success(Some(enter))
    requires exit.Some? ==> exit.value(PhaseView(source, event, target, obj, map[])).proceed
    requires enter(EnterView(source, event, target, obj, exit, transition)).redirect == Some(redirect)
    ensures var run := Process(def, allows, Some(source), inTransition, event, obj, fuel);
            var next := Process(def, allows, Some(target), false, redirect.event, redirect.obj, fuel - 1);
            run.outcome == next.outcome && run.current == next.current && !run.inTransition
            && run.fired == [event] + next.fired
  {
  }
}
