/**
 * The definition graph of the newer engine: `StateMachineDefinitionImpl` of
 * package `shisha.statemachine`, with its private `State` and `TransitionTarget`
 * records. States and events are declared once; transitions and the exit,
 * transition and enter controllers are attached to declared states.
 */
module ShishaDefinition {
  import opened Wrappers
  import opened Payloads
  import opened ShishaTransitionInfo

  /**
   * The exceptions the newer engine throws (package `shisha.statemachine.exceptions`,
   * plus `IllegalArgumentException` for a null name).
   */
  datatype Error =
    | IllegalArgument
    | EventAlreadyExists
    | StateAlreadyExists
    | Constraint
    | StateNotDefined
    | EventNotDefined
    | TransitionNotDefined
    | ReentrantTransitionNotAllowed
      /** Not a Java exception: the redirect chain ran longer than the fuel the model was given. */
    | RedirectLimitReached

  /** What an exit controller answers: go on (`true`) or cancel, and the context it leaves behind. */
  datatype ExitVerdict = ExitVerdict(proceed: bool, context: Context)

  /** What an enter controller answers: an event to redirect to (Java `null` is `None`) and the context. */
  datatype EnterVerdict = EnterVerdict(redirect: Option<EventInfo>, context: Context)

  /** `ExitStateController.execute`; the context it returns is the shared map after its puts. */
  type ExitStateController = PhaseView -> ExitVerdict

  /** `TransitionController.execute`: side effects only, here its puts into the context. */
  type TransitionController = PhaseView -> Context

  /** `EnterStateController.execute`. */
  type EnterStateController = PhaseView -> EnterVerdict

  /** Where an event leads from a state, and the controller bound to that edge (`null` is `None`). */
  datatype TransitionTarget = TransitionTarget(state: string, controller: Option<TransitionController>)

  /** The private `State` record: flags, the state's exit and enter controllers, and its outgoing edges by event. */
  datatype State = State(
    name: string,
    isStart: bool,
    isFinal: bool,
    enterStateController: Option<EnterStateController>,
    exitStateController: Option<ExitStateController>,
    transitions: map<string, TransitionTarget>)
  {
    /** `State.setTransitionController`: only the first target registered for an event is kept. */
    function SetTransitionController(event: string, target: string, controller: Option<TransitionController>): (s: State)
      ensures s.name == name && s.isStart == isStart && s.isFinal == isFinal
      ensures s.enterStateController == enterStateController && s.exitStateController == exitStateController
      ensures s.transitions.Keys == transitions.Keys + {event}
      ensures forall e :: e in transitions ==> s.transitions[e] == transitions[e]
      ensures event !in transitions ==> s.transitions[event] == TransitionTarget(target, controller)
    {
      if event in transitions then this
      else this.(transitions := transitions[event := TransitionTarget(target, controller)])
    }
  }

  /** A freshly defined state: no controllers and no transitions yet. */
  function NewState(name: string, isStart: bool, isFinal: bool): State
  {
    State(name, isStart, isFinal, None, None, map[])
  }

  class StateMachineDefinitionImpl {
    var startState: Option<string>
    var states: map<string, State>
    var events: set<string>

    /**
     * The structural invariants every public operation keeps: each state is
     * filed under its own name, is never both start and final, is the start
     * state exactly when `startState` names it, and its edges use declared
     * events and lead to declared states; a final state only has self-loops.
     */
    ghost predicate Valid()
      reads this
    {
      && (forall s {:trigger states[s]} :: s in states ==> states[s].name == s)
      && (forall s {:trigger states[s]} :: s in states ==> !(states[s].isStart && states[s].isFinal))
      && (forall s {:trigger states[s]} :: s in states ==> (states[s].isStart <==> startState == Some(s)))
      && (startState.Some? ==> startState.value in states)
      && (forall s, e {:trigger states[s].transitions[e]} :: s in states && e in states[s].transitions ==>
            e in events && states[s].transitions[e].state in states)
      && (forall s, e {:trigger states[s].transitions[e]} ::
            s in states && states[s].isFinal && e in states[s].transitions ==> states[s].transitions[e].state == s)
    }

    constructor ()
      ensures Valid()
      ensures startState == None && states == map[] && events == {}
    {
      startState := None;
      states := map[];
      events := {};
    }

    function IsEvent(event: string): bool
      reads this
    {
      event in events
    }

    function IsState(state: string): bool
      reads this
    {
      state in states
    }

    /** `isStartState`: false for an undefined state; for a valid definition, true exactly for the start state. */
    function IsStartState(state: string): (b: bool)
      reads this
      ensures b ==> IsState(state)
      ensures Valid() ==> (b <==> startState == Some(state))
    {
      state in states && states[state].isStart
    }

    /** `isFinalState`: false for an undefined state; a final state is never the start state. */
    function IsFinalState(state: string): (b: bool)
      reads this
      ensures b ==> IsState(state)
      ensures Valid() && b ==> !IsStartState(state)
    {
      state in states && states[state].isFinal
    }

    /** `defineEvent`: a null name is illegal and a second definition is refused. */
    method DefineEvent(event: Option<string>) returns (r: Outcome<Error>)
      requires Valid()
      modifies this
      ensures Valid()
      ensures event.None? ==> r == Fail(IllegalArgument)
      ensures event.Some? && event.value in old(events) ==> r == Fail(EventAlreadyExists)
      ensures event.Some? && event.value !in old(events) ==> r == Pass && IsEvent(event.value)
      ensures events == old(events) + (if event.Some? then {event.value} else {})
      ensures states == old(states) && startState == old(startState)
    {
      if event.None? {
        return Fail(IllegalArgument);
      }
      if event.value in events {
        return Fail(EventAlreadyExists);
      }
      events := events + {event.value};
      r := Pass;
    }

    /** `getEvents`: the declared events; every event an edge uses is among them. */
    function GetEvents(): (r: set<string>)
      reads this
      ensures Valid() ==> forall s, e :: s in states && e in states[s].transitions ==> e in r
    {
      events
    }

    /**
     * `defineState(state, isStart, isFinal)`. The checks come first, in the
     * source's order (null, second start state, start and final, already
     * defined), so a refused call changes nothing.
     */
    method DefineState(state: Option<string>, isStart: bool, isFinal: bool) returns (r: Outcome<Error>)
      requires Valid()
      modifies this
      ensures Valid()
      ensures state.None? ==> r == Fail(IllegalArgument)
      ensures state.Some? && isStart && old(startState).Some? ==> r == Fail(Constraint)
      ensures state.Some? && isStart && isFinal ==> r == Fail(Constraint)
      ensures state.Some? && !(isStart && (old(startState).Some? || isFinal)) && state.value in old(states) ==>
                r == Fail(StateAlreadyExists)
      ensures r.Pass? <==> state.Some? && !(isStart && (old(startState).Some? || isFinal)) && state.value !in old(states)
      ensures r.Fail? ==> states == old(states) && startState == old(startState)
      ensures r.Pass? ==> states == old(states)[state.value := NewState(state.value, isStart, isFinal)]
      ensures r.Pass? ==> startState == if isStart then state else old(startState)
      ensures events == old(events)
    {
      if state.None? {
        return Fail(IllegalArgument);
      }
      var name := state.value;
      if isStart && startState.Some? {
        return Fail(Constraint);
      }
      if isStart && isFinal {
        return Fail(Constraint);
      }
      if name in states {
        return Fail(StateAlreadyExists);
      }
      states := states[name := NewState(name, isStart, isFinal)];
      if isStart {
        startState := state;
      }
      r := Pass;
    }

    /** `getStartState`: null until a start state is defined; then a declared, non-final state. */
    function GetStartState(): (r: Option<string>)
      reads this
      ensures Valid() && r.Some? ==> IsStartState(r.value) && !IsFinalState(r.value)
    {
      startState
    }

    /** `getFinalStates`: the names of the final states, each once, collected by a loop over the states. */
    method GetFinalStates() returns (r: seq<string>)
      requires Valid()
      ensures forall s :: s in r <==> IsFinalState(s)
      ensures NoDuplicates(r)
    {
      r := [];
      var rest := states.Keys;
      while rest != {}
        invariant rest <= states.Keys
        invariant forall s :: s in r <==> s in states && s !in rest && states[s].isFinal
        invariant NoDuplicates(r)
        decreases rest
      {
        var key :| key in rest;
        if states[key].isFinal {
          r := r + [states[key].name];
        }
        rest := rest - {key};
      }
    }

    /**
     * `defineTransition(source, event, target, controller)`: source and target
     * must be declared states, the event a declared event, and a final source
     * only admits a self-loop. Only the first edge for (source, event) is kept.
     */
    method DefineTransition(source: string, event: string, target: string, controller: Option<TransitionController>)
      returns (r: Outcome<Error>)
      requires Valid()
      modifies this
      ensures Valid()
      ensures source !in old(states) || target !in old(states) ==> r == Fail(StateNotDefined)
      ensures source in old(states) && target in old(states) && event !in events ==> r == Fail(EventNotDefined)
      ensures (source in old(states) && target in old(states) && event in events
               && old(states)[source].isFinal && source != target) ==> r == Fail(Constraint)
      ensures r.Pass? <==> source in old(states) && target in old(states) && event in events
                           && (old(states)[source].isFinal ==> source == target)
      ensures r.Fail? ==> states == old(states)
      ensures r.Pass? ==> states == old(states)[source := old(states)[source].SetTransitionController(event, target, controller)]
      ensures r.Pass? && event !in old(states)[source].transitions ==> GetTargetState(Some(source), event) == Success(target)
      ensures r.Pass? && event in old(states)[source].transitions ==>
                GetTargetState(Some(source), event) == Success(old(states)[source].transitions[event].state)
      ensures events == old(events) && startState == old(startState)
    {
      if source !in states || target !in states {
        return Fail(StateNotDefined);
      }
      if event !in events {
        return Fail(EventNotDefined);
      }
      var sourceState := states[source];
      if sourceState.isFinal && source != target {
        return Fail(Constraint);
      }
      states := states[source := sourceState.SetTransitionController(event, target, controller)];
      r := Pass;
    }

    /** `defineExitState`: binds (or replaces) the exit controller of a declared state. */
    method DefineExitState(state: string, controller: Option<ExitStateController>) returns (r: Outcome<Error>)
      requires Valid()
      modifies this
      ensures Valid()
      ensures r == if state in old(states) then Pass else Fail(StateNotDefined)
      ensures r.Fail? ==> states == old(states)
      ensures r.Pass? ==> states == old(states)[state := old(states)[state].(exitStateController := controller)]
      ensures r.Pass? ==> GetExitStateController(state) == Success(controller)
      ensures events == old(events) && startState == old(startState)
    {
      if state !in states {
        return Fail(StateNotDefined);
      }
      states := states[state := states[state].(exitStateController := controller)];
      r := Pass;
    }

    /** `defineEnterState`: binds (or replaces) the enter controller of a declared state. */
    method DefineEnterState(state: string, controller: Option<EnterStateController>) returns (r: Outcome<Error>)
      requires Valid()
      modifies this
      ensures Valid()
      ensures r == if state in old(states) then Pass else Fail(StateNotDefined)
      ensures r.Fail? ==> states == old(states)
      ensures r.Pass? ==> states == old(states)[state := old(states)[state].(enterStateController := controller)]
      ensures r.Pass? ==> GetEnterStateController(state) == Success(controller)
      ensures events == old(events) && startState == old(startState)
    {
      if state !in states {
        return Fail(StateNotDefined);
      }
      states := states[state := states[state].(enterStateController := controller)];
      r := Pass;
    }

    /** `getTransitionController`: the edge's controller, none when the state has no edge for the event. */
    function GetTransitionController(state: string, event: string): (r: Result<Option<TransitionController>, Error>)
      reads this
      ensures r.Failure? <==> state !in states
      ensures r.Failure? ==> r.error == StateNotDefined
      ensures r.Success? && r.value.Some? ==> event in states[state].transitions
    {
      if state !in states then Failure(StateNotDefined)
      else if event in states[state].transitions then Success(states[state].transitions[event].controller)
      else Success(None)
    }

    /** `getEnterStateController`: fails for an undeclared state. */
    function GetEnterStateController(state: string): (r: Result<Option<EnterStateController>, Error>)
      reads this
      ensures r.Failure? <==> state !in states
      ensures r.Failure? ==> r.error == StateNotDefined
    {
      if state !in states then Failure(StateNotDefined) else Success(states[state].enterStateController)
    }

    /** `getExitStateController`: fails for an undeclared state. */
    function GetExitStateController(state: string): (r: Result<Option<ExitStateController>, Error>)
      reads this
      ensures r.Failure? <==> state !in states
      ensures r.Failure? ==> r.error == StateNotDefined
    {
      if state !in states then Failure(StateNotDefined) else Success(states[state].exitStateController)
    }

    /**
     * `getTargetState(source, event)`: the registered target; an unknown (or
     * null) source is `StateNotDefined`, a missing edge `TransitionNotDefined`.
     */
    function GetTargetState(source: Option<string>, event: string): (r: Result<string, Error>)
      reads this
      ensures source.None? || source.value !in states ==> r == Failure(StateNotDefined)
      ensures source.Some? && source.value in states && event !in states[source.value].transitions ==>
                r == Failure(TransitionNotDefined)
      ensures r.Success? ==> source.Some? && source.value in states && event in states[source.value].transitions
    {
      if source.None? || source.value !in states then Failure(StateNotDefined)
      else if event !in states[source.value].transitions then Failure(TransitionNotDefined)
      else Success(states[source.value].transitions[event].state)
    }

    /** `getStates`: every declared state name, each once. */
    method GetStates() returns (r: seq<string>)
      requires Valid()
      ensures forall s :: s in r <==> IsState(s)
      ensures NoDuplicates(r)
    {
      r := [];
      var rest := states.Keys;
      while rest != {}
        invariant rest <= states.Keys
        invariant forall s :: s in r <==> s in states && s !in rest
        invariant NoDuplicates(r)
        decreases rest
      {
        var key :| key in rest;
        r := r + [key];
        rest := rest - {key};
      }
    }

    /**
     * `getApplicableEvents(source)`: exactly the events with an edge out of
     * `source`, each once; empty for an undefined state.
     */
    method GetApplicableEvents(source: string) returns (r: seq<string>)
      requires Valid()
      ensures forall e :: e in r <==> GetTargetState(Some(source), e).Success?
      ensures source !in states ==> r == []
      ensures NoDuplicates(r)
    {
      r := [];
      if source in states {
        var transitions := states[source].transitions;
        var rest := transitions.Keys;
        while rest != {}
          invariant rest <= transitions.Keys
          invariant forall e :: e in r <==> e in transitions && e !in rest
          invariant NoDuplicates(r)
          decreases rest
        {
          var key :| key in rest;
          r := r + [key];
          rest := rest - {key};
        }
      }
    }
  }

  /**
   * In a valid definition every registered target is a declared state reached
   * by a declared event, and a final source leads only to itself.
   */
  lemma TargetStateIsDeclared(def: StateMachineDefinitionImpl, source: string, event: string)
    requires def.Valid() && def.GetTargetState(Some(source), event).Success?
    ensures def.GetTargetState(Some(source), event).value in def.states && event in def.events
    ensures def.IsFinalState(source) ==> def.GetTargetState(Some(source), event).value == source
  {
  }
}
